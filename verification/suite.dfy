/** `Tengine::Mq::Suite` (lib/tengine/mq/suite.rb): the object that owns the
    delivery-tracking fields and updates them in place.  Every method is
    proved to move `View()` as the matching function of the Bookkeeping
    module says, and to keep the engine's invariant `Valid()`.

    The broker, the EventMachine reactor and the clock are outside: whether
    a publish raised, which delivery tag an ack carries and what time it is
    arrive as parameters; work the source hands to `EM.next_tick` is queued
    in `reactor` and run by `RunTick`, and `EM.add_timer` callbacks wait in
    `timers` until `FireTimer`. */
module MqSuite {
  import opened Basics
  import Table
  import Reactor
  import opened Delivery
  import opened Hooks
  import opened Bookkeeping

  /** What one turn of the firing loop did with the head of the queue. */
  datatype FireOutcome =
    | Idle          // nothing to send
    | Sent          // published: awaiting an ack, or finished on the next tick
    | Failed        // the publish raised; `publish_failed` handled it
    | TimingBug     // `published` raised "timing bug": no handshake resolved

  /** What the undefined `ack` of line 836 raises. */
  const UndefinedAck := Error("undefined local variable or method `ack'")

  class Suite {
    const config: SenderOptions               // `@config[:sender]`
    const autoReconnectDelay: Option<nat>     // `@config[:connection][:auto_reconnect_delay]`
    var state: HandshakeState
    var tag: nat
    var records: Records
    var nextId: RecordId
    var pending: seq<RecordId>
    var publishing: seq<RecordId>
    var retrying: Retrying
    var firingQueue: seq<RecordId>
    var reactor: seq<Reactor.Tick<Job>>
    var timers: map<TimerId, Timer>
    var nextTimer: TimerId
    var hooks: Registry
    var settingUp: bool                       // `@setting_up[:handshake]`
    var stopRequests: nat
    var completions: seq<BlockId>
    var reconnects: nat

    ghost function View(): Engine
      reads this
    {
      Engine(state, tag, records, nextId, pending, publishing, retrying, firingQueue, reactor,
             timers, nextTimer, hooks, settingUp, stopRequests, completions, reconnects)
    }

    ghost predicate Valid()
      reads this
    {
      Sound(View())
    }

    /** `initialize`: empty collections, disconnected, default hooks installed. */
    constructor (config: SenderOptions, autoReconnectDelay: Option<nat>)
      ensures this.config == config && this.autoReconnectDelay == autoReconnectDelay
      ensures Valid() && View() == Initial()
    {
      this.config := config;
      this.autoReconnectDelay := autoReconnectDelay;
      state := Disconnected;
      tag := 0;
      records := map[];
      nextId := 0;
      pending := [];
      publishing := [];
      retrying := Table.Empty();
      firingQueue := [];
      reactor := [];
      timers := map[];
      nextTimer := 0;
      hooks := DefaultHooks();
      settingUp := false;
      stopRequests := 0;
      completions := [];
      reconnects := 0;
    }

    /** `add_hook`: a block joins the end of its list; no block is an
        ArgumentError and changes nothing. */
    method AddHook(name: string, block: Option<Hook>) returns (err: Option<Error>)
      requires Valid()
      modifies this
      ensures Valid()
      ensures block.None? ==> err == Some(NoBlockGiven) && View() == old(View())
      ensures block.Some? ==> err.None? && View() == old(View()).(hooks := Register(old(hooks), name, block.value))
    {
      if block.None? {
        return Some(NoBlockGiven);
      }
      hooks := Register(hooks, name, block.value);
      err := None;
    }

    /** `fire`: a fresh record with tag 0, retry 0 and the sender options
        merged over the configured ones is queued for firing and becomes
        pending; `kick` says whether the firing loop has to be started. */
    method Fire(sender: SenderId, event: EventId, given: SenderOverrides, block: Option<BlockId>)
      returns (id: RecordId, kick: bool)
      requires Valid()
      modifies this
      ensures id == old(nextId) && id !in old(records)
      ensures View() == old(View()).(
                records := old(records)[id := PendingEvent(0, sender, event, ResolveOptions(config, given), 0, block)],
                nextId := id + 1,
                firingQueue := old(firingQueue) + [id],
                pending := old(pending) + [id])
      ensures Valid()
      ensures kick <==> |firingQueue| <= 1
    {
      id := nextId;
      assert id !in records && id !in pending;
      nextId := nextId + 1;
      records := records[id := PendingEvent(0, sender, event, ResolveOptions(config, given), 0, block)];
      firingQueue := firingQueue + [id];
      pending := pending + [id];
      kick := |firingQueue| <= 1;
    }

    /** `fire_internal` on the head of the firing queue; `publishRaised` is
        whether `@exchange.publish` raised. */
    method FireNext(publishRaised: bool, now: int) returns (outcome: FireOutcome)
      requires Valid()
      modifies this
      ensures Valid()
      ensures old(firingQueue) == [] ==> outcome == Idle && View() == old(View())
      ensures old(firingQueue) != [] && publishRaised ==>
        outcome == Failed
        && View() == AfterPublishFailed(old(View()).(firingQueue := old(firingQueue)[1..]), old(firingQueue)[0], now)
      ensures old(firingQueue) != [] && !publishRaised ==>
        (outcome == TimingBug <==> !HandshakeResolved(old(state)))
        && (outcome == Sent <==> HandshakeResolved(old(state)))
        && View() == AfterSend(old(View()))
    {
      if firingQueue == [] {
        return Idle;
      }
      var id := firingQueue[0];
      firingQueue := firingQueue[1..];
      if publishRaised {
        PublishFailed(id, now);
        outcome := Failed;
      } else {
        var resolved := Published(id);
        outcome := if resolved then Sent else TimingBug;
      }
    }

    /** `publish_failed`. */
    method PublishFailed(id: RecordId, now: int)
      requires Valid() && id in records
      modifies this
      ensures Valid() && View() == AfterPublishFailed(old(View()), id, now)
    {
      var ev := records[id];
      if ShouldRetry(ev) {
        timers := timers[nextTimer := Timer(now + ev.opts.retryInterval, RetryFire(id))];
        retrying := Table.Put(retrying, id, RetryEntry(Some(nextTimer), now));
        nextTimer := nextTimer + 1;
      } else {
        Forget(id);
      }
    }

    /** The record leaves every collection; `stop` unless it keeps the connection. */
    method Forget(id: RecordId)
      requires Valid() && id in records
      modifies this
      ensures Valid() && View() == Resolve(old(View()), id)
    {
      WithoutKeepsDistinct(pending, id);
      retrying := Table.Delete(retrying, id);
      pending := Without(pending, id);
      publishing := Without(publishing, id);
      if !records[id].opts.keepConnection {
        stopRequests := stopRequests + 1;
      }
    }

    /** `published`; `resolved` is false when the source raises "timing bug". */
    method Published(id: RecordId) returns (resolved: bool)
      requires Valid() && id in records
      modifies this
      ensures Valid() && View() == AfterPublished(old(View()), id)
      ensures resolved <==> HandshakeResolved(old(state))
    {
      match state
      case Unsupported =>
        reactor := Reactor.EachNextTick(reactor, [Finish(id)]);
        resolved := true;
      case Established =>
        tag := tag + 1;
        records := records[id := records[id].(tag := tag)];
        publishing := publishing + [id];
        resolved := true;
      case _ =>
        resolved := false;
    }

    /** One reactor tick: the head job runs; `ran` is false when nothing was queued. */
    method RunTick(now: int) returns (ran: bool)
      requires Valid()
      modifies this
      ensures Valid()
      ensures ran <==> old(reactor) != []
      ensures View() == AfterTick(old(View()), now)
    {
      if reactor == [] {
        return false;
      }
      AdvanceKnown(records, reactor);
      var job := Reactor.Next(reactor);
      reactor := Reactor.Advance(reactor);
      RunJob(job, now);
      ran := true;
    }

    method RunJob(job: Job, now: int)
      requires Valid() && job.id in records
      modifies this
      ensures View() == AfterJob(old(View()), job, now) && Valid()
    {
      match job
      case Requeue(id) =>
        Requeue(id);
      case Complete(id) =>
        completions := CallBlock(completions, records[id].block);
      case Finish(id) =>
        completions := CallBlock(completions, records[id].block);
        Forget(id);
      case Replay(id, entry) =>
        Replay(id, entry, now);
    }

    /** An ng record, or a record whose retry timer fired, is sent again. */
    method Requeue(id: RecordId)
      requires Valid() && id in records
      modifies this
      ensures View() == Resend(old(View()), id) && Valid()
    {
      records := records[id := records[id].(retry := records[id].retry + 1)];
      firingQueue := firingQueue + [id];
    }

    /** One entry of `reinvoke_retry_timers`: sent at once when its retry
        interval has passed, otherwise re-armed for the time left. */
    method Replay(id: RecordId, entry: RetryEntry, now: int)
      requires Valid() && id in records
      modifies this
      ensures View() == AfterJob(old(View()), Job.Replay(id, entry), now) && Valid()
    {
      var u := Remaining(entry, records[id].opts.retryInterval, now);
      if u < 0 {
        firingQueue := firingQueue + [id];
      } else {
        timers := timers[nextTimer := Timer(now + u, Refire(id))];
        nextTimer := nextTimer + 1;
      }
    }

    /** The EventMachine timer `h` fires if it is due by `now`. */
    method FireTimer(h: TimerId, now: int) returns (fired: bool)
      requires Valid()
      modifies this
      ensures Valid()
      ensures fired <==> h in old(timers) && old(timers)[h].due <= now
      ensures !fired ==> View() == old(View())
      ensures fired ==> View() == AfterTimer(old(View()), h)
    {
      if h !in timers || timers[h].due > now {
        return false;
      }
      var action := timers[h].action;
      timers := timers - {h};
      match action {
        case RetryFire(id) =>
          records := records[id := records[id].(retry := records[id].retry + 1)];
          firingQueue := firingQueue + [id];
        case Refire(id) =>
          firingQueue := firingQueue + [id];
      }
      fired := true;
    }

    /** `consume_basic_ack`. */
    method ConsumeAck(n: nat, multiple: bool)
      requires Valid()
      modifies this
      ensures View() == AfterAck(old(View()), n, multiple) && Valid()
    {
      AckStaysSound(View(), n, multiple);
      var wasEmpty := publishing == [];
      var p := PlanAck(records, publishing, n, multiple);
      publishing := p.rest;
      reactor := Reactor.EachNextTick(Reactor.EachNextTick(reactor, RequeueJobs(p.ng)), CompleteJobs(p.ok));
      FinaliseAcked(p, wasEmpty);
    }

    /** The end of `consume_basic_ack`: the acknowledged records leave the
        retrying table and the pending records, then the stop decision. */
    method FinaliseAcked(p: AckPlan, wasEmpty: bool)
      requires retrying.Valid()
      modifies this
      ensures var pendingAfter := WithoutAll(old(pending), p.ok);
        View() == old(View()).(retrying := Table.DeleteAll(old(retrying), p.ok), pending := pendingAfter,
                               stopRequests := old(stopRequests) + if AckStops(wasEmpty, p, records, pendingAfter) then 1 else 0)
    {
      retrying, pending := SettleAcked(retrying, pending, p.ok);
      if AckStops(wasEmpty, p, records, pending) {
        stopRequests := stopRequests + 1;
      }
    }

    /** `consume_basic_nack` as written: line 836 reads `ack`, which is not
        defined in this method, so every nack raises before changing anything. */
    method ConsumeNackAsWritten(n: nat, multiple: bool) returns (err: Error)
      requires Valid()
      ensures err == UndefinedAck
    {
      err := UndefinedAck;
    }

    /** `consume_basic_nack` as intended: the nacked records go back to the
        firing queue with one more retry each, on later ticks. */
    method ConsumeNack(n: nat, multiple: bool)
      requires Valid()
      modifies this
      ensures Valid() && View() == AfterNack(old(View()), n, multiple)
    {
      var p := PlanNack(records, publishing, n, multiple);
      PlanAckMembers(records, publishing, n, multiple);
      publishing := p.rest;
      reactor := Reactor.EachNextTick(reactor, RequeueJobs(p.ng));
    }

    /** `revoke_retry_timers`. */
    method RevokeRetryTimers()
      requires Valid()
      modifies this
      ensures View() == AfterRevoke(old(View())) && Valid()
    {
      if state == Disconnected {
        return;
      }
      ghost var r := AfterRevoke(View());
      state := Disconnected;
      timers := CancelRetryTimers(timers, retrying);
      retrying := FreezePublishing(retrying, publishing);
      publishing := [];
      assert View() == r;
    }

    /** `reinvoke_retry_timers`. */
    method ReinvokeRetryTimers()
      requires Valid()
      modifies this
      ensures Valid() && View() == AfterReinvoke(old(View()))
    {
      reactor := Reactor.EachNextTick(reactor, ReplayJobs(retrying));
      retrying := Table.Empty();
    }

    /** `setups_handshake`, given what the broker advertises and whether the
        channel already confirms (a reconnected channel does). */
    method SetupsHandshake(confirmsAdvertised: bool, channelConfirming: bool)
      requires Valid()
      modifies this
      ensures Valid()
      ensures confirmsAdvertised && channelConfirming ==> View() == old(View()).(settingUp := true)
      ensures confirmsAdvertised && !channelConfirming ==>
        View() == old(View()).(settingUp := true, state := Handshaking)
      ensures !confirmsAdvertised ==>
        View() == old(View()).(settingUp := false, state := Unsupported) && HandshakeResolved(state)
    {
      settingUp := true;
      if confirmsAdvertised {
        if !channelConfirming {
          state := Handshaking;
        }
      } else {
        state := Unsupported;
        settingUp := false;
      }
    }

    /** The confirm-select callback installed by `setups_handshake`. */
    method ConfirmSelectOk()
      requires Valid()
      modifies this
      ensures Valid() && View() == AfterConfirmSelect(old(View()))
    {
      if retrying.keys != [] {
        ReinvokeRetryTimers();
      }
      tag := 0;
      state := Established;
      settingUp := false;
    }

    /** One hook, run by `callback_entity`. */
    method RunHook(h: Hook)
      requires Valid()
      modifies this
      ensures Valid() && View() == AfterHook(old(View()), h, autoReconnectDelay)
    {
      match h
      case Reconnect =>
        if autoReconnectDelay.Some? {
          reconnects := reconnects + 1;
        }
      case FreezeInFlight => RevokeRetryTimers();
      case Recover => ReinvokeRetryTimers();
      case _ =>
    }

    /** The callback `callback_entity(klass, mid)` builds, invoked once: all
        hooks run, in dispatch order, whatever they raise; then the
        exceptions container raises what was collected. */
    method Dispatch(klass: Resource, mid: string) returns (raised: Raised)
      requires Valid()
      modifies this
      ensures Valid()
      ensures var order := DispatchOrder(old(hooks), ResourceName(klass), mid);
        && raised == RaiseCollected(Failures(order))
        && View() == AfterHooks(old(View()), order, autoReconnectDelay)
    {
      var order := DispatchOrder(hooks, ResourceName(klass), mid);
      var errs := RunHooks(order);
      raised := RaiseCollected(errs);
    }

    /** The two `reverse_each` loops of the callback: each hook runs in turn,
        and what it raises is rescued and collected. */
    method RunHooks(order: seq<Hook>) returns (errs: seq<Error>)
      requires Valid()
      modifies this
      ensures Valid() && errs == Failures(order)
      ensures View() == AfterHooks(old(View()), order, autoReconnectDelay)
    {
      errs := [];
      ghost var start := View();
      var i := 0;
      while i < |order|
        invariant 0 <= i <= |order|
        invariant Valid() && View() == AfterHooks(start, order[..i], autoReconnectDelay)
        invariant errs == Failures(order[..i])
      {
        AfterHooksStep(start, order, i, autoReconnectDelay);
        FailuresStep(order, i);
        RunHook(order[i]);
        var failure := HookFailure(order[i]);
        if failure.Some? {
          errs := errs + [failure.value];
        }
        i := i + 1;
      }
      assert order[..|order|] == order;
    }

    /** `pending_events`: the events of the pending records the block selects. */
    function PendingEvents(select: PendingEvent -> bool): (r: seq<EventId>)
      reads this
      requires Known(records, pending)
      ensures forall j :: 0 <= j < |pending| && select(records[pending[j]]) ==> records[pending[j]].event in r
      ensures forall e :: e in r ==> exists j :: 0 <= j < |pending| && select(records[pending[j]]) && records[pending[j]].event == e
    {
      EventsWhere(records, pending, select)
    }

    /** `pending_events_for`: the pending events fired by `sender`. */
    function PendingEventsFor(sender: SenderId): (r: seq<EventId>)
      reads this
      requires Known(records, pending)
      ensures forall j :: 0 <= j < |pending| && records[pending[j]].sender == sender ==> records[pending[j]].event in r
      ensures forall e :: e in r ==> exists j :: 0 <= j < |pending| && records[pending[j]].sender == sender && records[pending[j]].event == e
    {
      PendingEvents((ev: PendingEvent) => ev.sender == sender)
    }

    /** The reset at the end of `stop` (`p0`): disconnected, no setup in
        progress, an empty firing queue.  Pending records stay. */
    method Reset()
      requires Valid()
      modifies this
      ensures Valid()
      ensures View() == old(View()).(state := Disconnected, settingUp := false, firingQueue := [])
    {
      state := Disconnected;
      settingUp := false;
      firingQueue := [];
    }
  }

  /** `ok.each {|e| @retrying_events.delete e; @pending_events.delete e }`. */
  method SettleAcked(retrying: Retrying, pending: seq<RecordId>, ok: seq<RecordId>)
    returns (retrying': Retrying, pending': seq<RecordId>)
    requires retrying.Valid()
    ensures retrying' == Table.DeleteAll(retrying, ok)
    ensures pending' == WithoutAll(pending, ok)
  {
    retrying', pending' := retrying, pending;
    var i := 0;
    while i < |ok|
      invariant 0 <= i <= |ok|
      invariant retrying' == Table.DeleteAll(retrying, ok[..i])
      invariant pending' == WithoutAll(pending, ok[..i])
    {
      assert ok[..i + 1][..i] == ok[..i];
      retrying' := Table.Delete(retrying', ok[i]);
      pending' := Without(pending', ok[i]);
      i := i + 1;
    }
    assert ok[..|ok|] == ok;
  }

  /** `@retrying_events.each_value {|(idx, *)| EM.stop_timer idx if idx }`. */
  method CancelRetryTimers(timers: map<TimerId, Timer>, retrying: Retrying) returns (timers': map<TimerId, Timer>)
    requires retrying.Valid()
    ensures timers' == timers - ArmedTimers(retrying, retrying.keys)
  {
    timers' := timers;
    var i := 0;
    while i < |retrying.keys|
      invariant 0 <= i <= |retrying.keys|
      invariant timers' == timers - ArmedTimers(retrying, retrying.keys[..i])
    {
      ArmedTimersStep(retrying, retrying.keys, i);
      var entry := retrying.values[retrying.keys[i]];
      if entry.timer.Some? {
        timers' := timers' - {entry.timer.value};
      }
      i := i + 1;
    }
    assert retrying.keys[..|retrying.keys|] == retrying.keys;
  }

  /** `@publishing_events.each {|e| @retrying_events[e] = [nil, Time.at(0)] }`. */
  method FreezePublishing(retrying: Retrying, publishing: seq<RecordId>) returns (retrying': Retrying)
    requires retrying.Valid()
    ensures retrying' == Table.PutAll(retrying, publishing, Frozen)
  {
    retrying' := retrying;
    var j := 0;
    while j < |publishing|
      invariant 0 <= j <= |publishing|
      invariant retrying' == Table.PutAll(retrying, publishing[..j], Frozen)
    {
      assert publishing[..j + 1][..j] == publishing[..j];
      retrying' := Table.Put(retrying', publishing[j], Frozen);
      j := j + 1;
    }
    assert publishing[..|publishing|] == publishing;
  }
}
