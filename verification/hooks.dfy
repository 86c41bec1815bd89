/** The hook registry of lib/tengine/mq/suite.rb: named lists of callbacks,
    the callback names each AMQP object offers, the order in which a
    callback runs the hooks, and the exceptions container that decides what
    is raised afterwards. */
module Hooks {
  import opened Basics

  datatype Error = Error(message: string)

  /** What a registered block does when it runs.  The engine's own hooks
      are named by their effect; a user block is known only by whether it
      raises. */
  datatype Hook =
    | LogCallback                           // :everything, logs the callback
    | Reconnect                             // reconnects after the configured delay
    | FailFast                              // raises: the broker is missing
    | FreezeInFlight                        // revoke_retry_timers
    | Recover                               // prefetch, then reinvoke_retry_timers
    | User(id: nat, failure: Option<Error>)

  /** The error a hook raises, if any. */
  function HookFailure(h: Hook): Option<Error> {
    match h
    case FailFast => Some(BrokerMissing)
    case User(_, f) => f
    case _ => None
  }

  const BrokerMissing := Error("It seems the MQ broker is missing (misconfiguration?)")
  const NoBlockGiven := Error("no block given")

  /** The AMQP objects whose callbacks are routed to hooks. */
  datatype Resource = Connection | Channel | Exchange | Queue

  function ResourceName(r: Resource): string {
    match r
    case Connection => "connection"
    case Channel => "channel"
    case Exchange => "exchange"
    case Queue => "queue"
  }

  /** `hooks_basic`, shared by queue and exchange. */
  const BasicCallbacks: seq<string> := ["before_recovery", "after_recovery", "on_connection_interruption"]

  /** The names `hooks_connection` adds to the basic ones. */
  const ConnectionCallbacks: seq<string> := ["on_closed", "on_possible_authentication_failure",
                                             "on_tcp_connection_failure", "on_tcp_connection_loss"]

  /** `hooks_<klass>`: the callback names installed on each object.  Every
      object has the basic three; only the connection has its four, only
      the channel has `on_error`, and there is nothing else. */
  function Callbacks(r: Resource): (mids: seq<string>)
    ensures forall m :: m in BasicCallbacks ==> m in mids
    ensures forall m :: m in ConnectionCallbacks ==> (m in mids <==> r == Connection)
    ensures "on_error" in mids <==> r == Channel
    ensures forall m :: m in mids ==> m in BasicCallbacks || m in ConnectionCallbacks || m == "on_error"
  {
    match r
    case Connection => BasicCallbacks + ConnectionCallbacks
    case Channel => BasicCallbacks + ["on_error"]
    case _ => BasicCallbacks
  }

  /** The hook list that sees every callback. */
  const Everything := "everything"

  /** `:"#{klass}.#{mid}"`. */
  function HookName(klass: string, mid: string): string {
    klass + "." + mid
  }

  /** A per-callback name never collides with the catch-all name, so a
      dispatch never runs the same list twice. */
  lemma HookNameIsNotEverything(klass: string, mid: string)
    ensures HookName(klass, mid) != Everything
  {
    var name := HookName(klass, mid);
    assert name[|klass|] == '.';
    if |name| == |Everything| {
      assert forall i :: 0 <= i < |Everything| ==> Everything[i] != '.';
    }
  }

  /** `@hooks`: a missing name reads as the empty list. */
  type Registry = map<string, seq<Hook>>

  function Lookup(reg: Registry, name: string): seq<Hook> {
    if name in reg then reg[name] else []
  }

  /** `@hooks[name.intern] << block`: the block joins the end of its list
      and no other list changes. */
  function Register(reg: Registry, name: string, h: Hook): (r: Registry)
    ensures Lookup(r, name) == Lookup(reg, name) + [h]
    ensures forall other :: other != name ==> Lookup(r, other) == Lookup(reg, other)
  {
    reg[name := Lookup(reg, name) + [h]]
  }

  /** `install_default_hooks`, run at construction. */
  function DefaultHooks(): (reg: Registry)
    ensures Lookup(reg, Everything) == [LogCallback]
    ensures Lookup(reg, HookName("connection", "on_tcp_connection_loss")) == [Reconnect]
    ensures Lookup(reg, HookName("connection", "on_tcp_connection_failure")) == [FailFast]
    ensures Lookup(reg, HookName("channel", "on_connection_interruption")) == [FreezeInFlight]
    ensures Lookup(reg, HookName("channel", "after_recovery")) == [Recover]
    ensures reg.Keys == {Everything, HookName("connection", "on_tcp_connection_loss"),
                         HookName("connection", "on_tcp_connection_failure"),
                         HookName("channel", "on_connection_interruption"),
                         HookName("channel", "after_recovery")}
  {
    var r0 := Register(map[], Everything, LogCallback);
    var r1 := Register(r0, HookName("connection", "on_tcp_connection_loss"), Reconnect);
    var r2 := Register(r1, HookName("connection", "on_tcp_connection_failure"), FailFast);
    var r3 := Register(r2, HookName("channel", "on_connection_interruption"), FreezeInFlight);
    Register(r3, HookName("channel", "after_recovery"), Recover)
  }

  /** Every default hook other than the catch-all hangs on a callback that
      the corresponding object really offers, so each of them can fire. */
  lemma DefaultHooksAreReachable()
    ensures forall name :: name in DefaultHooks() && name != Everything ==>
              exists r: Resource, m :: m in Callbacks(r) && name == HookName(ResourceName(r), m)
  {
    forall name | name in DefaultHooks() && name != Everything
      ensures exists r: Resource, m :: m in Callbacks(r) && name == HookName(ResourceName(r), m)
    {
      if name == HookName("connection", "on_tcp_connection_loss") {
        assert Callbacks(Connection)[6] == "on_tcp_connection_loss";
        assert name == HookName(ResourceName(Connection), Callbacks(Connection)[6]);
      } else if name == HookName("connection", "on_tcp_connection_failure") {
        assert Callbacks(Connection)[5] == "on_tcp_connection_failure";
        assert name == HookName(ResourceName(Connection), Callbacks(Connection)[5]);
      } else if name == HookName("channel", "on_connection_interruption") {
        assert Callbacks(Channel)[2] == "on_connection_interruption";
        assert name == HookName(ResourceName(Channel), Callbacks(Channel)[2]);
      } else {
        assert name == HookName("channel", "after_recovery");
        assert Callbacks(Channel)[1] == "after_recovery";
        assert name == HookName(ResourceName(Channel), Callbacks(Channel)[1]);
      }
    }
  }

  /** The hooks one callback of `klass.mid` runs, in order (lines 518 and
      526): the catch-all list, newest first, then the callback's own list,
      newest first. */
  function DispatchOrder(reg: Registry, klass: string, mid: string): seq<Hook> {
    Reverse(Lookup(reg, Everything)) + Reverse(Lookup(reg, HookName(klass, mid)))
  }

  /** Position by position: the catch-all hooks first, each list in reverse
      registration order. */
  lemma DispatchOrderPositions(reg: Registry, klass: string, mid: string)
    ensures var all, own := Lookup(reg, Everything), Lookup(reg, HookName(klass, mid));
      var order := DispatchOrder(reg, klass, mid);
      && |order| == |all| + |own|
      && (forall i :: 0 <= i < |all| ==> order[i] == all[|all| - 1 - i])
      && (forall j :: |all| <= j < |order| ==> order[j] == own[|own| - 1 - (j - |all|)])
  {
  }

  /** The hook registered last for a callback is the first of that
      callback's own hooks to run, right after the catch-all ones. */
  lemma NewestHookRunsFirst(reg: Registry, klass: string, mid: string, h: Hook)
    ensures DispatchOrder(Register(reg, HookName(klass, mid), h), klass, mid)
         == Reverse(Lookup(reg, Everything)) + [h] + Reverse(Lookup(reg, HookName(klass, mid)))
  {
    HookNameIsNotEverything(klass, mid);
    var own := Lookup(reg, HookName(klass, mid));
    assert Reverse(own + [h]) == [h] + Reverse(own);
  }

  /** The exceptions collected while running `hs`, in running order: a hook
      that raises does not keep the later ones from running. */
  function Failures(hs: seq<Hook>): (errs: seq<Error>)
    ensures |errs| <= |hs|
    ensures forall i :: 0 <= i < |hs| && HookFailure(hs[i]).Some? ==> HookFailure(hs[i]).value in errs
    ensures forall e :: e in errs ==> exists i :: 0 <= i < |hs| && HookFailure(hs[i]) == Some(e)
  {
    if hs == [] then []
    else
      var init := hs[..|hs| - 1];
      var prev := Failures(init);
      assert forall i :: 0 <= i < |init| ==> init[i] == hs[i];
      prev + match HookFailure(hs[|hs| - 1]) case Some(e) => [e] case None => []
  }

  lemma {:induction false} FailuresAppend(a: seq<Hook>, b: seq<Hook>)
    ensures Failures(a + b) == Failures(a) + Failures(b)
  {
    if b == [] {
      assert a + b == a;
    } else {
      var b' := b[..|b| - 1];
      FailuresAppend(a, b');
      assert (a + b)[..|a + b| - 1] == a + b';
      assert (a + b)[|a + b| - 1] == b[|b| - 1];
    }
  }

  /** Running one more hook of `hs` adds its failure, if any. */
  lemma FailuresStep(hs: seq<Hook>, i: nat)
    requires i < |hs|
    ensures Failures(hs[..i + 1]) == Failures(hs[..i]) + match HookFailure(hs[i]) case Some(e) => [e] case None => []
  {
    assert hs[..i + 1][..i] == hs[..i];
  }

  /** What the exceptions container does at the end of a callback. */
  datatype Raised = Quiet | Reraise(error: Error) | Aggregate(errors: seq<Error>)

  /** The container's `raise` as intended (lines 75-86): nothing when no
      hook failed, the one error itself when exactly one did, and otherwise
      the container itself, which holds all of them in order. */
  function RaiseCollected(errs: seq<Error>): (r: Raised)
    ensures r == Quiet <==> errs == []
    ensures r.Reraise? <==> |errs| == 1
    ensures r.Reraise? ==> r.error == errs[0]
    ensures r.Aggregate? ==> |r.errors| >= 2 && r.errors == errs
  {
    if |errs| == 0 then Quiet
    else if |errs| == 1 then Reraise(errs[0])
    else Aggregate(errs)
  }

  /** What `Kernel#raise` raises when called with no argument while no
      exception is being handled: a RuntimeError "unhandled exception". */
  const UnhandledException := Error("unhandled exception")

  /** The container's `raise` as written (lines 75-86): with two or more
      errors it calls a bare `super`, which is `Kernel#raise` with no
      argument.  Every hook error was rescued (lines 521 and 529), so no
      exception is being handled and a fresh "unhandled exception" is raised
      instead of the container and the errors it holds. */
  function RaiseCollectedAsWritten(errs: seq<Error>): (r: Raised)
    ensures r == Quiet <==> errs == []
    ensures !r.Aggregate?
    ensures |errs| == 1 ==> r == Reraise(errs[0])
    ensures |errs| >= 2 ==> r == Reraise(UnhandledException)
  {
    if |errs| == 0 then Quiet
    else if |errs| == 1 then Reraise(errs[0])
    else Reraise(UnhandledException)
  }

  /** The code as written and the intended container part ways exactly when
      two or more hooks fail. */
  lemma AsWrittenDiffersIffSeveralFail(errs: seq<Error>)
    ensures RaiseCollectedAsWritten(errs) != RaiseCollected(errs) <==> |errs| >= 2
  {
  }

  /** Two hooks failing in one callback: as written, neither of their errors
      is raised, only "unhandled exception"; the intended container raises
      both, in running order. */
  lemma AsWrittenLosesCollectedErrors()
    ensures var errs := Failures([FailFast, User(0, Some(Error("boom")))]);
      && errs == [BrokerMissing, Error("boom")]
      && RaiseCollectedAsWritten(errs) == Reraise(UnhandledException)
      && UnhandledException !in errs
      && RaiseCollected(errs) == Aggregate([BrokerMissing, Error("boom")])
  {
    var hs := [FailFast, User(0, Some(Error("boom")))];
    assert hs[..1] == [FailFast];
    assert [FailFast][..0] == [];
  }

  /** A callback stays quiet exactly when none of the hooks it runs raises. */
  lemma QuietIffNoHookFails(hs: seq<Hook>)
    ensures RaiseCollected(Failures(hs)) == Quiet <==> forall i :: 0 <= i < |hs| ==> HookFailure(hs[i]).None?
  {
    var errs := Failures(hs);
    if errs != [] {
      assert errs[0] in errs;
      var i :| 0 <= i < |hs| && HookFailure(hs[i]) == Some(errs[0]);
    }
    if exists i :: 0 <= i < |hs| && HookFailure(hs[i]).Some? {
      var i :| 0 <= i < |hs| && HookFailure(hs[i]).Some?;
      assert HookFailure(hs[i]).value in errs;
    }
  }
}
