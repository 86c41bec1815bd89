/** The state of one `Tengine::Mq::Suite` as far as delivery tracking goes,
    and what each operation of lib/tengine/mq/suite.rb does to it.  The
    class in suite.dfy updates its fields in place; each of its methods is
    proved to move its `View()` exactly as the function here says, and the
    properties of the engine are proved here, about these functions.

    Records are named by `RecordId`: the Ruby code shares one mutable
    `@@pending_event` Struct between `@pending_events`, `@publishing_events`,
    `@retrying_events`, the firing queue and the closures on the reactor, so
    the record's fields live once, in `records`, and every collection holds
    ids. */
module Bookkeeping {
  import opened Basics
  import Table
  import Reactor
  import opened Delivery
  import opened Hooks

  /** Work waiting on the reactor's next-tick queue. */
  datatype Job =
    | Requeue(id: RecordId)                    // an ng record is sent again (lines 803-810, 846-852)
    | Complete(id: RecordId)                   // an acknowledged record's block is called (lines 811-814)
    | Finish(id: RecordId)                     // a publish without confirmation is taken as done (lines 971-980)
    | Replay(id: RecordId, entry: RetryEntry)  // one retrying entry is re-armed (lines 876-885)

  /** What an EventMachine timer does when it fires. */
  datatype TimerAction =
    | RetryFire(id: RecordId)   // `publish_failed`'s timer: one more retry, back on the firing queue
    | Refire(id: RecordId)      // `reinvoke_retry_timers`' timer: back on the firing queue

  datatype Timer = Timer(due: int, action: TimerAction)

  /** `@retrying_events`: record => `[timer, scheduled_at]`, in insertion order. */
  type Retrying = Table.Table<RecordId, RetryEntry>

  /** A snapshot of the fields the engine updates.  `stopRequests` counts
      the calls to `stop`, `completions` the completion blocks called, in
      order, and `reconnects` the reconnections the default hook asked for. */
  datatype Engine = Engine(
    state: HandshakeState,
    tag: nat,
    records: Records,
    nextId: RecordId,
    pending: seq<RecordId>,
    publishing: seq<RecordId>,
    retrying: Retrying,
    firingQueue: seq<RecordId>,
    reactor: seq<Reactor.Tick<Job>>,
    timers: map<TimerId, Timer>,
    nextTimer: TimerId,
    hooks: Registry,
    settingUp: bool,
    stopRequests: nat,
    completions: seq<BlockId>,
    reconnects: nat)

  /** Every job on the reactor names a record. */
  ghost predicate JobsKnown(recs: Records, q: seq<Reactor.Tick<Job>>) {
    forall i, j :: 0 <= i < |q| && 0 <= j < |q[i].jobs| ==> q[i].jobs[j].id in recs
  }

  /** A job is waiting somewhere on the reactor. */
  ghost predicate Scheduled(q: seq<Reactor.Tick<Job>>, job: Job) {
    exists i :: 0 <= i < |q| && job in q[i].jobs
  }

  /** The engine's invariant: every collection and every queued job or timer
      names an existing record, `@pending_events` holds each record once,
      the retrying table is a well-formed ordered hash, and fresh ids and
      timer handles are above every one in use. */
  ghost predicate Sound(e: Engine) {
    && e.retrying.Valid()
    && Distinct(e.pending)
    && (forall id :: id in e.records ==> id < e.nextId)
    && Known(e.records, e.pending)
    && Known(e.records, e.publishing)
    && Known(e.records, e.firingQueue)
    && Known(e.records, e.retrying.keys)
    && Reactor.WellFormed(e.reactor)
    && JobsKnown(e.records, e.reactor)
    && (forall h :: h in e.timers ==> h < e.nextTimer && e.timers[h].action.id in e.records)
  }

  /** Delivery tags along `@publishing_events` strictly increase and none is
      above the last one handed out. */
  ghost predicate TagsOrdered(e: Engine) {
    && Ascending(e.records, e.publishing)
    && forall x :: x in e.publishing ==> 1 <= TagOf(e.records, x) <= e.tag
  }

  /** The state right after `initialize`. */
  ghost function Initial(): (e: Engine)
    ensures Sound(e) && TagsOrdered(e)
    ensures e.state == Disconnected && e.pending == [] && e.publishing == [] && e.retrying.keys == []
    ensures e.hooks == DefaultHooks()
  {
    Engine(Disconnected, 0, map[], 0, [], [], Table.Empty(), [], [], map[], 0, DefaultHooks(), false, 0, [], 0)
  }

  function RequeueJobs(ids: seq<RecordId>): (js: seq<Job>)
    ensures |js| == |ids| && forall k :: 0 <= k < |ids| ==> js[k] == Requeue(ids[k])
  {
    seq(|ids|, k requires 0 <= k < |ids| => Requeue(ids[k]))
  }

  function CompleteJobs(ids: seq<RecordId>): (js: seq<Job>)
    ensures |js| == |ids| && forall k :: 0 <= k < |ids| ==> js[k] == Complete(ids[k])
  {
    seq(|ids|, k requires 0 <= k < |ids| => Complete(ids[k]))
  }

  /** `@retrying_events.each_pair.to_a`, one replay job per entry, in order. */
  function ReplayJobs(t: Retrying): (js: seq<Job>)
    requires t.Valid()
    ensures |js| == |t.keys|
    ensures forall k :: 0 <= k < |t.keys| ==> js[k] == Replay(t.keys[k], t.values[t.keys[k]])
  {
    seq(|t.keys|, k requires 0 <= k < |t.keys| => Replay(t.keys[k], t.values[t.keys[k]]))
  }

  /** `ev.block.call if ev.block`. */
  function CallBlock(done: seq<BlockId>, block: Option<BlockId>): seq<BlockId> {
    if block.Some? then done + [block.value] else done
  }

  lemma ScheduleKnown(recs: Records, q: seq<Reactor.Tick<Job>>, js: seq<Job>)
    requires Reactor.WellFormed(q) && JobsKnown(recs, q)
    requires forall k :: 0 <= k < |js| ==> js[k].id in recs
    ensures JobsKnown(recs, Reactor.EachNextTick(q, js))
  {
  }

  lemma AdvanceKnown(recs: Records, q: seq<Reactor.Tick<Job>>)
    requires Reactor.WellFormed(q) && q != [] && JobsKnown(recs, q)
    ensures Reactor.Next(q).id in recs
    ensures JobsKnown(recs, Reactor.Advance(q))
  {
    var r := Reactor.Advance(q);
    forall i, j | 0 <= i < |r| && 0 <= j < |r[i].jobs| ensures r[i].jobs[j].id in recs {
      if i < |q| - 1 {
        assert r[i] == q[i + 1];
      } else {
        assert r[i].jobs[j] == q[0].jobs[j + 1];
      }
    }
  }

  /** A re-queued record (an ng record, or a retry timer firing): its retry
      counter goes up by exactly one and it joins the firing queue. */
  ghost function Resend(e: Engine, id: RecordId): (r: Engine)
    requires Sound(e) && id in e.records
    ensures Sound(r) && r.records.Keys == e.records.Keys
  {
    e.(records := e.records[id := e.records[id].(retry := e.records[id].retry + 1)],
       firingQueue := e.firingQueue + [id])
  }

  /** A record that is done with (given up in `publish_failed`, or taken as
      delivered without confirmation in `published`): it leaves every
      collection, and `stop` is called unless it keeps the connection. */
  ghost function Resolve(e: Engine, id: RecordId): (r: Engine)
    requires Sound(e) && id in e.records
    ensures Sound(r)
    ensures id !in r.pending && id !in r.publishing && id !in r.retrying.values
    ensures forall x :: x in r.pending <==> x in e.pending && x != id
    ensures forall x :: x in r.publishing <==> x in e.publishing && x != id
    ensures forall x :: x in r.retrying.values <==> x in e.retrying.values && x != id
    ensures forall x :: x in r.retrying.values ==> r.retrying.values[x] == e.retrying.values[x]
    ensures r.stopRequests == e.stopRequests + (if e.records[id].opts.keepConnection then 0 else 1)
  {
    WithoutKeepsDistinct(e.pending, id);
    e.(retrying := Table.Delete(e.retrying, id),
       pending := Without(e.pending, id),
       publishing := Without(e.publishing, id),
       stopRequests := e.stopRequests + if e.records[id].opts.keepConnection then 0 else 1)
  }

  /** `publish_failed` (lines 947-965). */
  ghost function AfterPublishFailed(e: Engine, id: RecordId, now: int): (r: Engine)
    requires Sound(e) && id in e.records
    ensures Sound(r)
    ensures ShouldRetry(e.records[id]) ==>
      && r.pending == e.pending && r.publishing == e.publishing && r.records == e.records
      && r.timers == e.timers[e.nextTimer := Timer(now + e.records[id].opts.retryInterval, RetryFire(id))]
      && e.nextTimer !in e.timers
      && r.retrying.values == e.retrying.values[id := RetryEntry(Some(e.nextTimer), now)]
    ensures !ShouldRetry(e.records[id]) ==>
      && id !in r.pending && id !in r.publishing && id !in r.retrying.values
      && r.stopRequests == e.stopRequests + (if e.records[id].opts.keepConnection then 0 else 1)
  {
    var ev := e.records[id];
    if ShouldRetry(ev) then
      e.(timers := e.timers[e.nextTimer := Timer(now + ev.opts.retryInterval, RetryFire(id))],
         nextTimer := e.nextTimer + 1,
         retrying := Table.Put(e.retrying, id, RetryEntry(Some(e.nextTimer), now)))
    else
      Resolve(e, id)
  }

  /** `published` (lines 967-990).  Outside a resolved handshake the source
      raises "timing bug" and nothing changes. */
  ghost function AfterPublished(e: Engine, id: RecordId): (r: Engine)
    requires Sound(e) && id in e.records
    ensures Sound(r)
    ensures !HandshakeResolved(e.state) ==> r == e
    ensures e.state == Unsupported ==>
      r.pending == e.pending && r.publishing == e.publishing && r.tag == e.tag
      && r.reactor == e.reactor + [Reactor.Tick([Finish(id)])]
    ensures e.state == Established ==>
      && r.tag == e.tag + 1 && TagOf(r.records, id) == r.tag
      && r.publishing == e.publishing + [id] && r.pending == e.pending
    ensures e.state == Established && TagsOrdered(e) && id !in e.publishing ==> TagsOrdered(r)
  {
    match e.state
    case Unsupported => e.(reactor := Reactor.EachNextTick(e.reactor, [Finish(id)]))
    case Established => StampKeepsTagsOrdered(e, id); Stamp(e, id)
    case _ => e
  }

  /** `@tag += 1; ev.tag = @tag; @publishing_events.push ev`. */
  ghost function Stamp(e: Engine, id: RecordId): Engine
    requires id in e.records
  {
    e.(tag := e.tag + 1,
       records := e.records[id := e.records[id].(tag := e.tag + 1)],
       publishing := e.publishing + [id])
  }

  lemma StampKeepsTagsOrdered(e: Engine, id: RecordId)
    requires Sound(e) && id in e.records
    ensures TagsOrdered(e) && id !in e.publishing ==> TagsOrdered(Stamp(e, id))
  {
    if TagsOrdered(e) && id !in e.publishing {
      var r := Stamp(e, id);
      forall i, j | 0 <= i < j < |r.publishing|
        ensures TagOf(r.records, r.publishing[i]) < TagOf(r.records, r.publishing[j])
      {
        assert r.publishing[i] == e.publishing[i];
        if j < |e.publishing| {
          assert r.publishing[j] == e.publishing[j];
        } else {
          assert e.publishing[i] in e.publishing;
        }
      }
    }
  }

  /** What one job does when its tick comes; `now` is the clock then. */
  ghost function AfterJob(e: Engine, job: Job, now: int): (r: Engine)
    requires Sound(e) && job.id in e.records
    ensures Sound(r) && r.records.Keys == e.records.Keys
    ensures job.Requeue? ==>
      r.records[job.id].retry == e.records[job.id].retry + 1 && r.firingQueue == e.firingQueue + [job.id]
    ensures job.Complete? ==>
      r.pending == e.pending && r.completions == CallBlock(e.completions, e.records[job.id].block)
    ensures job.Finish? ==>
      && (forall x :: x in r.pending <==> x in e.pending && x != job.id)
      && (forall x :: x in r.publishing <==> x in e.publishing && x != job.id)
      && (forall x :: x in r.retrying.values <==> x in e.retrying.values && x != job.id)
      && r.completions == CallBlock(e.completions, e.records[job.id].block)
      && r.stopRequests == e.stopRequests + (if e.records[job.id].opts.keepConnection then 0 else 1)
    ensures job.Replay? && job.entry.scheduledAt + e.records[job.id].opts.retryInterval < now ==>
      r.firingQueue == e.firingQueue + [job.id] && r.timers == e.timers
    ensures job.Replay? && now <= job.entry.scheduledAt + e.records[job.id].opts.retryInterval ==>
      r.firingQueue == e.firingQueue && e.nextTimer !in e.timers
      && r.timers == e.timers[e.nextTimer := Timer(job.entry.scheduledAt + e.records[job.id].opts.retryInterval, Refire(job.id))]
  {
    match job
    case Requeue(id) => Resend(e, id)
    case Complete(id) => e.(completions := CallBlock(e.completions, e.records[id].block))
    case Finish(id) => Resolve(e.(completions := CallBlock(e.completions, e.records[id].block)), id)
    case Replay(id, entry) =>
      var u := Remaining(entry, e.records[id].opts.retryInterval, now);
      if u < 0 then e.(firingQueue := e.firingQueue + [id])
      else e.(timers := e.timers[e.nextTimer := Timer(now + u, Refire(id))], nextTimer := e.nextTimer + 1)
  }

  /** The timer `h` fires: it is gone, and its action runs. */
  ghost function AfterTimer(e: Engine, h: TimerId): (r: Engine)
    requires Sound(e) && h in e.timers
    ensures Sound(r) && h !in r.timers
    ensures r.firingQueue == e.firingQueue + [e.timers[h].action.id]
  {
    var e' := e.(timers := e.timers - {h});
    match e.timers[h].action
    case RetryFire(id) => Resend(e', id)
    case Refire(id) => e'.(firingQueue := e'.firingQueue + [id])
  }

  /** One reactor tick: the job at the head of the queue runs. */
  ghost function AfterTick(e: Engine, now: int): (r: Engine)
    requires Sound(e)
    ensures Sound(r)
  {
    if e.reactor == [] then e
    else
      AdvanceKnown(e.records, e.reactor);
      AfterJob(e.(reactor := Reactor.Advance(e.reactor)), Reactor.Next(e.reactor), now)
  }

  /** `fire_internal` on the head of the firing queue when the publish
      itself goes through. */
  ghost function AfterSend(e: Engine): (r: Engine)
    requires Sound(e)
    ensures Sound(r)
  {
    if e.firingQueue == [] then e
    else AfterPublished(e.(firingQueue := e.firingQueue[1..]), e.firingQueue[0])
  }

  /** A record whose publish fails while below its retry ceiling is sent
      again by its timer, with exactly one more retry, after the retry
      interval; it stays pending meanwhile. */
  lemma FailedPublishIsRetried(e: Engine, id: RecordId, now: int)
    requires Sound(e) && id in e.records && ShouldRetry(e.records[id])
    ensures var m := AfterPublishFailed(e, id, now);
      && e.nextTimer in m.timers
      && m.timers[e.nextTimer].due == now + e.records[id].opts.retryInterval
    ensures var m := AfterPublishFailed(e, id, now);
      var r := AfterTimer(m, e.nextTimer);
      && r.records[id].retry == e.records[id].retry + 1
      && r.firingQueue == e.firingQueue + [id]
      && r.pending == e.pending
  {
  }

  /** `consume_basic_ack` (lines 786-829) for delivery tag `n`. */
  ghost function AfterAck(e: Engine, n: nat, multiple: bool): Engine
    requires Sound(e)
  {
    var p := PlanAck(e.records, e.publishing, n, multiple);
    var pendingAfter := WithoutAll(e.pending, p.ok);
    e.(publishing := p.rest,
       reactor := Reactor.EachNextTick(Reactor.EachNextTick(e.reactor, RequeueJobs(p.ng)), CompleteJobs(p.ok)),
       retrying := Table.DeleteAll(e.retrying, p.ok),
       pending := pendingAfter,
       stopRequests := e.stopRequests + if AckStops(e.publishing == [], p, e.records, pendingAfter) then 1 else 0)
  }

  /** An ack keeps the engine's invariant. */
  lemma AckStaysSound(e: Engine, n: nat, multiple: bool)
    requires Sound(e)
    ensures Sound(AfterAck(e, n, multiple))
  {
    var p, r := PlanAck(e.records, e.publishing, n, multiple), AfterAck(e, n, multiple);
    PlanAckMembers(e.records, e.publishing, n, multiple);
    WithoutAllKeepsDistinct(e.pending, p.ok);
    var q1 := Reactor.EachNextTick(e.reactor, RequeueJobs(p.ng));
    ScheduleKnown(e.records, e.reactor, RequeueJobs(p.ng));
    ScheduleKnown(e.records, q1, CompleteJobs(p.ok));
    assert Known(r.records, r.publishing);
    assert Known(r.records, r.retrying.keys);
  }

  /** An ack finalises exactly the records it acknowledges: they leave
      `@pending_events` and `@retrying_events` at once and their blocks are
      queued; every other record taken off the list is queued to be sent
      again; nothing else leaves `@pending_events`; no record is lost. */
  lemma AckFinalises(e: Engine, n: nat, multiple: bool)
    requires Sound(e)
    ensures var p, r := PlanAck(e.records, e.publishing, n, multiple), AfterAck(e, n, multiple);
      && (forall x :: x in r.pending <==> x in e.pending && x !in p.ok)
      && (forall x :: x in p.ok ==> x !in r.retrying.values && Scheduled(r.reactor, Complete(x)))
      && (forall x :: x in p.ng ==> Scheduled(r.reactor, Requeue(x)))
      && (forall x :: x in e.publishing ==>
            x in r.publishing || Scheduled(r.reactor, Complete(x)) || Scheduled(r.reactor, Requeue(x)))
      && r.records == e.records && r.completions == e.completions
  {
    var p, r := PlanAck(e.records, e.publishing, n, multiple), AfterAck(e, n, multiple);
    AckQueuesJobs(e.reactor, p.ok, p.ng);
    if multiple {
      PartitionIsPermutation(e.records, e.publishing, n, true);
    } else {
      AckSingleKeepsAll(e.records, e.publishing, n);
    }
    forall x | x in e.publishing ensures x in p.rest || x in p.ok || x in p.ng {
      assert x in multiset(e.publishing);
    }
  }

  /** The two chains an ack schedules: a requeue for each ng record, then a
      completion for each acknowledged one. */
  lemma AckQueuesJobs(q: seq<Reactor.Tick<Job>>, ok: seq<RecordId>, ng: seq<RecordId>)
    requires Reactor.WellFormed(q)
    ensures var r := Reactor.EachNextTick(Reactor.EachNextTick(q, RequeueJobs(ng)), CompleteJobs(ok));
      && (forall x :: x in ok ==> Scheduled(r, Complete(x)))
      && (forall x :: x in ng ==> Scheduled(r, Requeue(x)))
  {
    var q1 := Reactor.EachNextTick(q, RequeueJobs(ng));
    var r := Reactor.EachNextTick(q1, CompleteJobs(ok));
    forall x | x in ok ensures Scheduled(r, Complete(x)) {
      var k :| 0 <= k < |ok| && ok[k] == x;
      assert r[|q1|].jobs[k] == Complete(x);
    }
    forall x | x in ng ensures Scheduled(r, Requeue(x)) {
      var k :| 0 <= k < |ng| && ng[k] == x;
      assert r[|q|].jobs[k] == Requeue(x);
    }
  }

  /** An ack keeps the delivery tags of the publishing list ordered. */
  lemma AckKeepsTagsOrdered(e: Engine, n: nat, multiple: bool)
    requires Sound(e) && TagsOrdered(e)
    ensures TagsOrdered(AfterAck(e, n, multiple))
  {
    PlanAckMembers(e.records, e.publishing, n, multiple);
    if multiple {
      AckMultiple(e.records, e.publishing, n);
    } else {
      AckSingle(e.records, e.publishing, n);
    }
  }

  /** `consume_basic_nack` as intended (lines 831-854 with the two defects
      corrected): the selected records go back to the firing queue. */
  ghost function AfterNack(e: Engine, n: nat, multiple: bool): (r: Engine)
    requires Sound(e)
    ensures Sound(r)
  {
    var p := PlanNack(e.records, e.publishing, n, multiple);
    PlanAckMembers(e.records, e.publishing, n, multiple);
    e.(publishing := p.rest, reactor := Reactor.EachNextTick(e.reactor, RequeueJobs(p.ng)))
  }

  /** A nack never finalises: nothing leaves `@pending_events` or the
      retrying table, no block is called, and every record it takes off the
      list is queued to be sent again. */
  lemma NackNeverFinalises(e: Engine, n: nat, multiple: bool)
    requires Sound(e)
    ensures var r := AfterNack(e, n, multiple);
      && r.pending == e.pending && r.retrying == e.retrying
      && r.completions == e.completions && r.stopRequests == e.stopRequests
      && forall x :: x in e.publishing ==> x in r.publishing || Scheduled(r.reactor, Requeue(x))
  {
    var p, r := PlanNack(e.records, e.publishing, n, multiple), AfterNack(e, n, multiple);
    NackLosesNothing(e.records, e.publishing, n, multiple);
    forall x | x in e.publishing ensures x in r.publishing || Scheduled(r.reactor, Requeue(x)) {
      assert x in multiset(e.publishing);
      if x in p.ng {
        var k :| 0 <= k < |p.ng| && p.ng[k] == x;
        assert r.reactor[|e.reactor|].jobs[k] == Requeue(x);
      }
    }
  }

  /** The timer handles held by the entries of `ks`. */
  ghost function ArmedTimers(t: Retrying, ks: seq<RecordId>): (hs: set<TimerId>)
    requires forall k :: k in ks ==> k in t.values
    ensures forall h :: h in hs <==> exists i :: 0 <= i < |ks| && t.values[ks[i]].timer == Some(h)
  {
    if ks == [] then {}
    else
      var init := ks[..|ks| - 1];
      var last := t.values[ks[|ks| - 1]];
      assert forall i :: 0 <= i < |init| ==> init[i] == ks[i];
      ArmedTimers(t, init) + if last.timer.Some? then {last.timer.value} else {}
  }

  /** One more entry's timer. */
  lemma ArmedTimersStep(t: Retrying, ks: seq<RecordId>, i: nat)
    requires forall k :: k in ks ==> k in t.values
    requires i < |ks|
    ensures ArmedTimers(t, ks[..i + 1])
         == ArmedTimers(t, ks[..i]) + if t.values[ks[i]].timer.Some? then {t.values[ks[i]].timer.value} else {}
  {
    assert ks[..i + 1][..i] == ks[..i];
  }

  /** `revoke_retry_timers` as written (lines 858-872): the armed retry
      timers are cancelled and every record still waiting for its ack is
      frozen into the retrying table, but stays on `@publishing_events`. */
  ghost function AfterRevokeAsWritten(e: Engine): (r: Engine)
    requires Sound(e)
    ensures Sound(r) && r.state == Disconnected && r.publishing == e.publishing
    ensures e.state == Disconnected ==> r == e
  {
    if e.state == Disconnected then e
    else
      assert forall x :: x in e.retrying.values ==> x in e.retrying.keys;
      e.(state := Disconnected,
         timers := e.timers - ArmedTimers(e.retrying, e.retrying.keys),
         retrying := Table.PutAll(e.retrying, e.publishing, Frozen))
  }

  /** `revoke_retry_timers` as intended: the records waiting for their ack
      are considered lost, so besides being frozen into the retrying table
      they leave `@publishing_events`, whose delivery tags belonged to the
      channel that is gone. */
  ghost function AfterRevoke(e: Engine): (r: Engine)
    requires Sound(e)
    ensures Sound(r) && r.state == Disconnected
    ensures r.pending == e.pending && r.records == e.records
    ensures e.state == Disconnected ==> r == e
    ensures e.state != Disconnected ==>
      && r.publishing == []
      && (forall x :: x in e.publishing ==> x in r.retrying.values && r.retrying.values[x] == Frozen)
      && (forall x :: x in r.retrying.values && x !in e.publishing ==> x in e.retrying.values && r.retrying.values[x] == e.retrying.values[x])
      && (forall x :: x in e.retrying.values && x !in e.publishing ==> x in r.retrying.values && r.retrying.values[x] == e.retrying.values[x])
      && (forall x :: x in e.retrying.values && e.retrying.values[x].timer.Some? ==> e.retrying.values[x].timer.value !in r.timers)
  {
    if e.state == Disconnected then e
    else
      var r := e.(state := Disconnected,
                  timers := e.timers - ArmedTimers(e.retrying, e.retrying.keys),
                  retrying := Table.PutAll(e.retrying, e.publishing, Frozen),
                  publishing := []);
      assert forall x :: x in e.retrying.values ==> x in e.retrying.keys;
      r
  }

  /** `reinvoke_retry_timers` (lines 874-888): every retrying entry becomes a
      replay job, in table order, and the table is emptied. */
  ghost function AfterReinvoke(e: Engine): (r: Engine)
    requires Sound(e)
    ensures Sound(r) && r.retrying.keys == []
    ensures r.pending == e.pending && r.publishing == e.publishing && r.records == e.records
    ensures forall x :: x in e.retrying.values ==> Scheduled(r.reactor, Replay(x, e.retrying.values[x]))
  {
    var js := ReplayJobs(e.retrying);
    var r := e.(reactor := Reactor.EachNextTick(e.reactor, js), retrying := Table.Empty());
    forall x | x in e.retrying.values ensures Scheduled(r.reactor, Replay(x, e.retrying.values[x])) {
      var k :| 0 <= k < |e.retrying.keys| && e.retrying.keys[k] == x;
      assert r.reactor[|e.reactor|].jobs[k] == Replay(x, e.retrying.values[x]);
    }
    r
  }

  /** An interruption followed by a recovery: every record that was waiting
      for its ack is replayed, as an entry already overdue, so once the
      clock is past its retry interval it is sent again at once; every
      record that was waiting on a retry timer is replayed with its entry. */
  lemma InterruptedRecordsAreReplayed(e: Engine, now: int)
    requires Sound(e) && e.state != Disconnected
    ensures var r := AfterReinvoke(AfterRevoke(e));
      && r.retrying.keys == []
      && (forall x :: x in e.publishing ==> Scheduled(r.reactor, Replay(x, Frozen)))
      && (forall x :: x in e.retrying.values && x !in e.publishing ==>
            Scheduled(r.reactor, Replay(x, e.retrying.values[x])))
    ensures forall x :: x in e.publishing && e.records[x].opts.retryInterval < now ==>
      AfterJob(AfterReinvoke(AfterRevoke(e)), Replay(x, Frozen), now).firingQueue
        == AfterReinvoke(AfterRevoke(e)).firingQueue + [x]
  {
  }

  /** The replays an interruption and recovery schedule run in table order:
      first the entries that were already retrying, in their order, then the
      records frozen by the revoke, in the order they were published. */
  lemma FrozenReplayedInPublishingOrder(e: Engine)
    requires Sound(e) && e.state != Disconnected
    ensures var d := AfterRevoke(e);
      && |e.retrying.keys| <= |d.retrying.keys|
      && (forall i :: 0 <= i < |e.retrying.keys| ==> d.retrying.keys[i] == e.retrying.keys[i])
      && AfterReinvoke(d).reactor == Reactor.EachNextTick(d.reactor, ReplayJobs(d.retrying))
      && (forall i, j :: |e.retrying.keys| <= i < j < |d.retrying.keys| ==>
            Precedes(e.publishing, d.retrying.keys[i], d.retrying.keys[j]))
  {
    Table.PutAllKeepsPrefix(e.retrying, e.publishing, Frozen);
    Table.PutAllKeepsKeys(e.retrying, e.publishing, Frozen);
    Table.PutAllKeyOrder(e.retrying, e.publishing, Frozen);
  }

  /** The confirm-select callback (lines 754-767): replay what is retrying,
      restart delivery tags at zero, and mark the handshake established. */
  ghost function AfterConfirmSelect(e: Engine): (r: Engine)
    requires Sound(e)
    ensures Sound(r) && r.state == Established && HandshakeResolved(r.state)
    ensures r.tag == 0 && r.retrying.keys == [] && !r.settingUp
    ensures r.publishing == e.publishing && r.pending == e.pending
    ensures e.publishing == [] ==> TagsOrdered(r)
    ensures forall x :: x in e.retrying.values ==> Scheduled(r.reactor, Replay(x, e.retrying.values[x]))
  {
    (if e.retrying.keys == [] then e else AfterReinvoke(e)).(tag := 0, state := Established, settingUp := false)
  }

  /** After an interruption and the confirm-select of the new channel, no
      delivery tag of the old channel is left to be matched by an ack of
      the new one, and every record that was waiting for its ack is
      replayed. */
  lemma ReconnectionStartsClean(e: Engine)
    requires Sound(e) && e.state != Disconnected
    ensures var r := AfterConfirmSelect(AfterRevoke(e));
      && r.publishing == [] && TagsOrdered(r)
      && forall x :: x in e.publishing ==> Scheduled(r.reactor, Replay(x, Frozen))
  {
    var d := AfterRevoke(e);
    if e.publishing != [] {
      assert e.publishing[0] in d.retrying.values;
      assert d.retrying.keys != [];
    }
  }

  /** One record published with tag 1 and still waiting for its ack; its
      block is block 7. */
  ghost const OneInFlight: Engine :=
    Engine(Established, 1, map[0 := PendingEvent(1, 0, 0, DefaultSenderOptions, 0, Some(7))], 1,
           [0], [0], Table.Empty(), [], [], map[], 0, map[], false, 0, [], 0)

  /** The recovery that follows an interruption, from the engine `d` the
      revoke left: the new channel's confirm-select replays the retrying
      table, the next tick runs the first replay, and the replayed record is
      published again. */
  ghost function Reconnected(d: Engine, now: int): (r: Engine)
    requires Sound(d)
    ensures Sound(r)
  {
    AfterSend(AfterTick(AfterConfirmSelect(d), now))
  }

  /** With the revoke as written, the recovery brings back the record in
      flight at the interruption, under its new tag 1, while its old entry
      is still on `@publishing_events`: the list holds it twice.  The first
      ack of the new channel with `multiple` then acknowledges both copies,
      so two completion jobs are queued and its block is called twice. */
  lemma RevokeAsWrittenCompletesTwice()
    ensures Sound(OneInFlight)
    ensures var r := Reconnected(AfterRevokeAsWritten(OneInFlight), 2);
      && r == OneInFlight.(publishing := [0, 0]) && !TagsOrdered(r)
      && PlanAck(r.records, r.publishing, 1, true).ok == [0, 0]
      && AfterAck(r, 1, true).reactor == [Reactor.Tick([Complete(0), Complete(0)])]
  {
    OneInFlightSound();
    RecoveryRepublishes(AfterRevokeAsWritten(OneInFlight), [0]);
    var r := OneInFlight.(publishing := [0, 0]);
    assert !Ascending(r.records, r.publishing) by {
      assert TagOf(r.records, r.publishing[0]) == TagOf(r.records, r.publishing[1]);
    }
    AckOfTagOne([0, 0]);
  }

  /** With the corrected revoke the same recovery brings the engine back to
      where it was before the interruption: the record is on the list once,
      with tag 1, and the ack queues one completion. */
  lemma RevokeCompletesOnce()
    ensures Sound(OneInFlight)
    ensures var r := Reconnected(AfterRevoke(OneInFlight), 2);
      && r == OneInFlight && TagsOrdered(r)
      && PlanAck(r.records, r.publishing, 1, true).ok == [0]
      && AfterAck(r, 1, true).reactor == [Reactor.Tick([Complete(0)])]
  {
    OneInFlightSound();
    RecoveryRepublishes(AfterRevoke(OneInFlight), []);
    AckOfTagOne([0]);
  }

  /** An ack of tag 1 with `multiple` acknowledges every copy of record 0
      of `OneInFlight` on the list. */
  lemma AckOfTagOne(s: seq<RecordId>)
    requires s == [0] || s == [0, 0]
    ensures PlanAck(OneInFlight.records, s, 1, true) == AckPlan(s, [], [])
    ensures CompleteJobs(s) == if s == [0] then [Complete(0)] else [Complete(0), Complete(0)]
    ensures RequeueJobs([]) == []
  {
    var recs := OneInFlight.records;
    assert Selected(recs, [0], 1, true) == [0] && Rejected(recs, [0], 1, true) == [];
    assert [0, 0][1..] == [0];
  }

  lemma OneInFlightSound()
    ensures Sound(OneInFlight)
  {
  }

  /** Both revokes disconnect and freeze record 0; they differ only in
      whether it stays on the publishing list. */
  lemma RevokedOne(pub: seq<RecordId>) returns (d: Engine)
    requires Sound(OneInFlight)
    requires pub == [0] || pub == []
    ensures d == OneInFlight.(state := Disconnected, retrying := Table.Table([0], map[0 := Frozen]), publishing := pub)
    ensures pub == [0] ==> d == AfterRevokeAsWritten(OneInFlight)
    ensures pub == [] ==> d == AfterRevoke(OneInFlight)
  {
    d := OneInFlight.(state := Disconnected, retrying := Table.Table([0], map[0 := Frozen]), publishing := pub);
    assert ArmedTimers(Table.Empty(), []) == {};
    assert Table.PutAll(Table.Empty(), [0], Frozen) == Table.Table([0], map[0 := Frozen]);
  }

  /** From either revoke: the confirm-select, the replay tick and the send. */
  lemma RecoveryRepublishes(d: Engine, pub: seq<RecordId>)
    requires Sound(OneInFlight)
    requires (pub == [0] && d == AfterRevokeAsWritten(OneInFlight)) || (pub == [] && d == AfterRevoke(OneInFlight))
    ensures Sound(d) && Reconnected(d, 2) == OneInFlight.(publishing := pub + [0])
  {
    var d' := RevokedOne(pub);
    ConfirmReplaysOne(d, pub);
    var c := AfterConfirmSelect(d);
    ReplayTickOne(c, pub);
    SendOne(AfterTick(c, 2), pub);
  }

  lemma ConfirmReplaysOne(d: Engine, pub: seq<RecordId>)
    requires Sound(d)
    requires d == OneInFlight.(state := Disconnected, retrying := Table.Table([0], map[0 := Frozen]), publishing := pub)
    ensures AfterConfirmSelect(d) == OneInFlight.(tag := 0, publishing := pub, reactor := [Reactor.Tick([Replay(0, Frozen)])])
  {
    assert ReplayJobs(d.retrying) == [Replay(0, Frozen)];
  }

  lemma ReplayTickOne(c: Engine, pub: seq<RecordId>)
    requires Sound(c)
    requires c == OneInFlight.(tag := 0, publishing := pub, reactor := [Reactor.Tick([Replay(0, Frozen)])])
    ensures AfterTick(c, 2) == OneInFlight.(tag := 0, publishing := pub, firingQueue := [0])
  {
    assert Reactor.Next(c.reactor) == Replay(0, Frozen);
    assert Reactor.Advance(c.reactor) == [];
    assert Remaining(Frozen, 1, 2) < 0;
  }

  lemma SendOne(t: Engine, pub: seq<RecordId>)
    requires Sound(t)
    requires t == OneInFlight.(tag := 0, publishing := pub, firingQueue := [0])
    ensures AfterSend(t) == OneInFlight.(publishing := pub + [0])
  {
  }

  /** What one hook does to the engine; `delay` is `auto_reconnect_delay`. */
  ghost function AfterHook(e: Engine, h: Hook, delay: Option<nat>): (r: Engine)
    requires Sound(e)
    ensures Sound(r) && r.hooks == e.hooks
  {
    match h
    case Reconnect => if delay.Some? then e.(reconnects := e.reconnects + 1) else e
    case FreezeInFlight => AfterRevoke(e)
    case Recover => AfterReinvoke(e)
    case _ => e
  }

  /** The hooks `hs` run one after the other. */
  ghost function AfterHooks(e: Engine, hs: seq<Hook>, delay: Option<nat>): (r: Engine)
    requires Sound(e)
    ensures Sound(r) && r.hooks == e.hooks
  {
    if hs == [] then e else AfterHook(AfterHooks(e, hs[..|hs| - 1], delay), hs[|hs| - 1], delay)
  }

  /** Running one more hook of `hs`. */
  lemma AfterHooksStep(e: Engine, hs: seq<Hook>, i: nat, delay: Option<nat>)
    requires Sound(e) && i < |hs|
    ensures AfterHooks(e, hs[..i + 1], delay) == AfterHook(AfterHooks(e, hs[..i], delay), hs[i], delay)
  {
    assert hs[..i + 1][..i] == hs[..i];
  }

  /* Delivery-tag order.  `published` stamps 1, 2, 3, ... and appends, so
     `@publishing_events` stays strictly ascending by tag within one channel.
     Each operation below keeps that order; the only conditions are the
     ones stated: a send of a record that is not already listed, and a
     confirm-select over an empty list. */

  /** A step that leaves the list, the counter and the listed records'
      tags alone keeps the order. */
  lemma SameTagsKeepOrder(e: Engine, r: Engine)
    requires r.publishing == e.publishing && r.tag == e.tag
    requires forall x :: x in e.publishing ==> TagOf(r.records, x) == TagOf(e.records, x)
    requires TagsOrdered(e)
    ensures TagsOrdered(r)
  {
    forall i, j | 0 <= i < j < |r.publishing|
      ensures TagOf(r.records, r.publishing[i]) < TagOf(r.records, r.publishing[j])
    {
      assert r.publishing[i] in e.publishing && r.publishing[j] in e.publishing;
    }
  }

  /** `fire` adds a record that is on no list yet. */
  lemma FireKeepsTagsOrdered(e: Engine, id: RecordId, ev: PendingEvent)
    requires Sound(e) && TagsOrdered(e) && id !in e.records
    ensures TagsOrdered(e.(records := e.records[id := ev], nextId := id + 1,
                           firingQueue := e.firingQueue + [id], pending := e.pending + [id]))
  {
    SameTagsKeepOrder(e, e.(records := e.records[id := ev], nextId := id + 1,
                            firingQueue := e.firingQueue + [id], pending := e.pending + [id]));
  }

  lemma ResendKeepsTagsOrdered(e: Engine, id: RecordId)
    requires Sound(e) && id in e.records && TagsOrdered(e)
    ensures TagsOrdered(Resend(e, id))
  {
    SameTagsKeepOrder(e, Resend(e, id));
  }

  /** A resolved record leaves the list by `reject!`, which keeps the rest in order. */
  lemma ResolveKeepsTagsOrdered(e: Engine, id: RecordId)
    requires Sound(e) && id in e.records && TagsOrdered(e)
    ensures TagsOrdered(Resolve(e, id))
  {
    AscendingWithout(e.records, e.publishing, id);
  }

  lemma PublishFailedKeepsTagsOrdered(e: Engine, id: RecordId, now: int)
    requires Sound(e) && id in e.records && TagsOrdered(e)
    ensures TagsOrdered(AfterPublishFailed(e, id, now))
  {
    if ShouldRetry(e.records[id]) {
      SameTagsKeepOrder(e, AfterPublishFailed(e, id, now));
    } else {
      ResolveKeepsTagsOrdered(e, id);
    }
  }

  /** `published` keeps the order for a record that is not listed already. */
  lemma PublishedKeepsTagsOrdered(e: Engine, id: RecordId)
    requires Sound(e) && id in e.records && TagsOrdered(e) && id !in e.publishing
    ensures TagsOrdered(AfterPublished(e, id))
  {
    if e.state == Unsupported {
      SameTagsKeepOrder(e, AfterPublished(e, id));
    }
  }

  lemma JobKeepsTagsOrdered(e: Engine, job: Job, now: int)
    requires Sound(e) && job.id in e.records && TagsOrdered(e)
    ensures TagsOrdered(AfterJob(e, job, now))
  {
    match job
    case Requeue(id) => ResendKeepsTagsOrdered(e, id);
    case Complete(id) => SameTagsKeepOrder(e, AfterJob(e, job, now));
    case Finish(id) =>
      var c := e.(completions := CallBlock(e.completions, e.records[id].block));
      SameTagsKeepOrder(e, c);
      ResolveKeepsTagsOrdered(c, id);
    case Replay(id, entry) => SameTagsKeepOrder(e, AfterJob(e, job, now));
  }

  lemma TimerKeepsTagsOrdered(e: Engine, h: TimerId)
    requires Sound(e) && h in e.timers && TagsOrdered(e)
    ensures TagsOrdered(AfterTimer(e, h))
  {
    var e' := e.(timers := e.timers - {h});
    SameTagsKeepOrder(e, e');
    match e.timers[h].action
    case RetryFire(id) => ResendKeepsTagsOrdered(e', id);
    case Refire(id) => SameTagsKeepOrder(e', AfterTimer(e, h));
  }

  lemma TickKeepsTagsOrdered(e: Engine, now: int)
    requires Sound(e) && TagsOrdered(e)
    ensures TagsOrdered(AfterTick(e, now))
  {
    if e.reactor != [] {
      AdvanceKnown(e.records, e.reactor);
      var a := e.(reactor := Reactor.Advance(e.reactor));
      SameTagsKeepOrder(e, a);
      JobKeepsTagsOrdered(a, Reactor.Next(e.reactor), now);
    }
  }

  /** Sending the head of the firing queue keeps the order when that record
      is not already on the list. */
  lemma SendKeepsTagsOrdered(e: Engine)
    requires Sound(e) && TagsOrdered(e)
    requires e.firingQueue != [] ==> e.firingQueue[0] !in e.publishing
    ensures TagsOrdered(AfterSend(e))
  {
    if e.firingQueue != [] {
      var e' := e.(firingQueue := e.firingQueue[1..]);
      SameTagsKeepOrder(e, e');
      PublishedKeepsTagsOrdered(e', e.firingQueue[0]);
    }
  }

  /** A nack keeps the suffix it leaves, which is still ordered. */
  lemma NackKeepsTagsOrdered(e: Engine, n: nat, multiple: bool)
    requires Sound(e) && TagsOrdered(e)
    ensures TagsOrdered(AfterNack(e, n, multiple))
  {
    NackLosesNothing(e.records, e.publishing, n, multiple);
    var p := PlanNack(e.records, e.publishing, n, multiple);
    assert forall x :: x in p.rest ==> x in e.publishing;
  }

  lemma RevokeKeepsTagsOrdered(e: Engine)
    requires Sound(e) && TagsOrdered(e)
    ensures TagsOrdered(AfterRevoke(e)) && TagsOrdered(AfterRevokeAsWritten(e))
  {
    SameTagsKeepOrder(e, AfterRevokeAsWritten(e));
  }

  lemma ReinvokeKeepsTagsOrdered(e: Engine)
    requires Sound(e) && TagsOrdered(e)
    ensures TagsOrdered(AfterReinvoke(e))
  {
    SameTagsKeepOrder(e, AfterReinvoke(e));
  }

  lemma HooksKeepTagsOrdered(e: Engine, hs: seq<Hook>, delay: Option<nat>)
    requires Sound(e) && TagsOrdered(e)
    ensures TagsOrdered(AfterHooks(e, hs, delay))
    decreases |hs|
  {
    if hs != [] {
      var m := AfterHooks(e, hs[..|hs| - 1], delay);
      HooksKeepTagsOrdered(e, hs[..|hs| - 1], delay);
      match hs[|hs| - 1]
      case FreezeInFlight => RevokeKeepsTagsOrdered(m);
      case Recover => ReinvokeKeepsTagsOrdered(m);
      case _ => SameTagsKeepOrder(m, AfterHooks(e, hs, delay));
    }
  }

  /* The order is not an invariant of the engine as a whole.  A retry
     entry stays in `@retrying_events` after its timer has fired (lines
     949-955 only push the record back on the firing queue), so a
     reconnection that runs while that record waits to be sent replays it
     a second time. */

  /** Record 0 was just fired on an established channel and waits to be sent. */
  ghost const JustFired: Engine :=
    Engine(Established, 0, map[0 := PendingEvent(0, 0, 0, DefaultSenderOptions, 0, None)], 1,
           [0], [], Table.Empty(), [0], [], map[], 0, map[], false, 0, [], 0)

  /** Record 0 again, after its first publish raised and its retry timer
      fired: it is back on the firing queue, and its retry entry is still
      in the table. */
  ghost const RetriedOnce: Engine :=
    Engine(Established, 0, map[0 := PendingEvent(0, 0, 0, DefaultSenderOptions, 1, None)], 1,
           [0], [], Table.Table([0], map[0 := RetryEntry(Some(0), 0)]), [0], [], map[], 1, map[], false, 0, [], 0)

  /** The first publish of `JustFired` raises at time 0, and the retry timer
      fires: that is `RetriedOnce`. */
  lemma RetryLeavesEntry()
    ensures Sound(JustFired) && Sound(RetriedOnce) && TagsOrdered(RetriedOnce)
    ensures AfterTimer(AfterPublishFailed(JustFired.(firingQueue := []), 0, 0), 0) == RetriedOnce
  {
    var f := JustFired.(firingQueue := [], timers := map[0 := Timer(1, RetryFire(0))], nextTimer := 1,
                        retrying := Table.Table([0], map[0 := RetryEntry(Some(0), 0)]));
    assert Table.Put(Table.Empty(), 0, RetryEntry(Some(0), 0)) == Table.Table([0], map[0 := RetryEntry(Some(0), 0)]);
    assert AfterPublishFailed(JustFired.(firingQueue := []), 0, 0) == f;
    assert f.timers - {0} == map[];
  }

  /** The channel drops and comes back: the revoke cancels nothing, and the
      confirm-select replays the stale entry. */
  lemma StaleEntryReplayed()
    requires Sound(RetriedOnce)
    ensures AfterConfirmSelect(AfterRevoke(RetriedOnce))
         == RetriedOnce.(retrying := Table.Empty(), reactor := [Reactor.Tick([Replay(0, RetryEntry(Some(0), 0))])])
  {
    var d := RetriedOnce.(state := Disconnected);
    assert ArmedTimers(RetriedOnce.retrying, [0]) == {0};
    assert AfterRevoke(RetriedOnce) == d;
    assert ReplayJobs(d.retrying) == [Replay(0, RetryEntry(Some(0), 0))];
  }

  /** The replay is overdue at time 2, so the record joins the firing queue
      where it already is. */
  lemma StaleReplayQueuesAgain(c: Engine)
    requires Sound(c)
    requires c == RetriedOnce.(retrying := Table.Empty(), reactor := [Reactor.Tick([Replay(0, RetryEntry(Some(0), 0))])])
    ensures AfterTick(c, 2) == RetriedOnce.(retrying := Table.Empty(), firingQueue := [0, 0])
  {
    assert Reactor.Next(c.reactor) == Replay(0, RetryEntry(Some(0), 0));
    assert Reactor.Advance(c.reactor) == [];
  }

  /** Both copies are sent; the record is listed twice, under one tag. */
  lemma BothCopiesSent(q: Engine)
    requires Sound(q)
    requires q == RetriedOnce.(retrying := Table.Empty(), firingQueue := [0, 0])
    ensures AfterSend(AfterSend(q)).publishing == [0, 0]
  {
    var rec := RetriedOnce.records[0];
    var s1 := q.(firingQueue := [0], tag := 1, records := map[0 := rec.(tag := 1)], publishing := [0]);
    assert AfterSend(q) == s1;
    assert AfterSend(s1) == s1.(firingQueue := [], tag := 2, records := map[0 := rec.(tag := 2)], publishing := [0, 0]);
  }

  /** From `RetriedOnce`, which is ordered, an interruption, the recovery,
      one tick and two sends leave record 0 on the list twice: the order
      cannot be part of the invariant, and the side condition of
      `SendKeepsTagsOrdered` does not always hold. */
  lemma StaleRetryEntrySendsTwice()
    ensures Sound(RetriedOnce) && TagsOrdered(RetriedOnce)
    ensures var q := AfterTick(AfterConfirmSelect(AfterRevoke(RetriedOnce)), 2);
      && q.firingQueue == [0, 0] && q.firingQueue[0] !in q.publishing
      && AfterSend(q).firingQueue[0] in AfterSend(q).publishing
      && AfterSend(AfterSend(q)).publishing == [0, 0]
      && !TagsOrdered(AfterSend(AfterSend(q)))
  {
    RetryLeavesEntry();
    StaleEntryReplayed();
    var c := AfterConfirmSelect(AfterRevoke(RetriedOnce));
    StaleReplayQueuesAgain(c);
    var q := AfterTick(c, 2);
    BothCopiesSent(q);
    var r := AfterSend(AfterSend(q));
    assert !Ascending(r.records, r.publishing) by {
      assert TagOf(r.records, r.publishing[0]) == TagOf(r.records, r.publishing[1]);
    }
  }
}
