/** The value side of the delivery tracker in lib/tengine/mq/suite.rb: the
    bookkeeping record kept per fired event, the sender options, the
    handshake states, and the decisions the tracker takes on those values
    (which records an ack or nack selects, when an ack stops the engine,
    whether a failed publish is retried).  The Suite class applies them to
    its collections. */
module Delivery {
  import opened Basics
  import HashExt

  type RecordId = nat   // identity of one bookkeeping record
  type TimerId = nat    // an EventMachine timer handle
  type SenderId = nat   // the sender object that fired the event
  type EventId = nat    // the event itself, an opaque payload
  type BlockId = nat    // the completion callback given to fire

  /** The handshake states of `@state` (lib/tengine/mq/suite.rb:740-745). */
  datatype HandshakeState = Disconnected | Handshaking | Established | Unsupported

  /** `ensures_handshake_internal`: publishing may go ahead. */
  predicate HandshakeResolved(s: HandshakeState) {
    s == Established || s == Unsupported
  }

  /** The sender options every record carries (`:keep_connection`,
      `:retry_interval` in whole seconds, `:retry_count`). */
  datatype SenderOptions = SenderOptions(keepConnection: bool, retryInterval: nat, retryCount: int)

  /** The built-in `:sender` configuration. */
  const DefaultSenderOptions := SenderOptions(false, 1, 30)

  /** Options passed to `fire`; `None` is a nil or missing key. */
  datatype SenderOverrides = SenderOverrides(keepConnection: Option<bool>, retryInterval: Option<nat>, retryCount: Option<int>)

  const NoOverrides := SenderOverrides(None, None, None)

  /** `@config[:sender].merge opts.compact`: each given, non-nil option wins. */
  function ResolveOptions(config: SenderOptions, given: SenderOverrides): SenderOptions
  {
    SenderOptions(
      match given.keepConnection case Some(b) => b case None => config.keepConnection,
      match given.retryInterval case Some(s) => s case None => config.retryInterval,
      match given.retryCount case Some(c) => c case None => config.retryCount)
  }

  /** The keys of the `:sender` hash. */
  datatype OptionKey = KeepConnection | RetryInterval | RetryCount

  datatype OptionValue = Flag(flag: bool) | Number(number: int)

  /** Sender options as the Ruby hash they are. */
  function OptionsHash(o: SenderOptions): map<OptionKey, Option<OptionValue>> {
    map[KeepConnection := Some(Flag(o.keepConnection)),
        RetryInterval := Some(Number(o.retryInterval)),
        RetryCount := Some(Number(o.retryCount))]
  }

  /** The options given to `fire` as a hash, a missing key read as nil. */
  function OverridesHash(g: SenderOverrides): map<OptionKey, Option<OptionValue>> {
    map[KeepConnection := (match g.keepConnection case Some(b) => Some(Flag(b)) case None => None),
        RetryInterval := (match g.retryInterval case Some(s) => Some(Number(s)) case None => None),
        RetryCount := (match g.retryCount case Some(c) => Some(Number(c)) case None => None)]
  }

  /** The options a record gets are exactly `@config[:sender].merge
      opts.compact`, taken on the hashes. */
  lemma ResolveIsMergeCompact(config: SenderOptions, given: SenderOverrides)
    ensures OptionsHash(ResolveOptions(config, given))
         == HashExt.MergeCompact(OptionsHash(config), OverridesHash(given))
  {
    var m := HashExt.MergeCompact(OptionsHash(config), OverridesHash(given));
    assert m.Keys == OptionsHash(ResolveOptions(config, given)).Keys;
  }

  /** The per-event record `@@pending_event`: tag, sender, event, opts, retry, block. */
  datatype PendingEvent = PendingEvent(tag: nat, sender: SenderId, event: EventId,
                                       opts: SenderOptions, retry: nat, block: Option<BlockId>)

  type Records = map<RecordId, PendingEvent>

  /** Every id in `ids` names a record. */
  ghost predicate Known(recs: Records, ids: seq<RecordId>) {
    forall x :: x in ids ==> x in recs
  }

  /** The delivery tag a record currently carries. */
  function TagOf(recs: Records, id: RecordId): nat {
    if id in recs then recs[id].tag else 0
  }

  function KeepsConnection(recs: Records, id: RecordId): bool {
    id in recs && recs[id].opts.keepConnection
  }

  /** The partition predicate: `i.tag <= n` when inclusive, `i.tag < n` otherwise. */
  predicate Hits(recs: Records, id: RecordId, n: int, inclusive: bool) {
    if inclusive then TagOf(recs, id) <= n else TagOf(recs, id) < n
  }

  /** First half of `list.partition {|i| Hits(i) }`: the hits, in list order. */
  function Selected(recs: Records, s: seq<RecordId>, n: int, inclusive: bool): (r: seq<RecordId>)
    ensures |r| <= |s|
  {
    if s == [] then []
    else if Hits(recs, s[0], n, inclusive) then [s[0]] + Selected(recs, s[1..], n, inclusive)
    else Selected(recs, s[1..], n, inclusive)
  }

  /** Second half of the partition: the misses, in list order. */
  function Rejected(recs: Records, s: seq<RecordId>, n: int, inclusive: bool): (r: seq<RecordId>)
    ensures |r| <= |s|
  {
    if s == [] then []
    else if Hits(recs, s[0], n, inclusive) then Rejected(recs, s[1..], n, inclusive)
    else [s[0]] + Rejected(recs, s[1..], n, inclusive)
  }

  /** The partition loses and duplicates nothing. */
  lemma {:induction false} PartitionIsPermutation(recs: Records, s: seq<RecordId>, n: int, inclusive: bool)
    ensures multiset(Selected(recs, s, n, inclusive)) + multiset(Rejected(recs, s, n, inclusive)) == multiset(s)
  {
    if s != [] {
      var sel, rej := Selected(recs, s[1..], n, inclusive), Rejected(recs, s[1..], n, inclusive);
      PartitionIsPermutation(recs, s[1..], n, inclusive);
      assert multiset(sel) + multiset(rej) == multiset(s[1..]);
      assert s == [s[0]] + s[1..];
      if Hits(recs, s[0], n, inclusive) {
        assert Selected(recs, s, n, inclusive) == [s[0]] + sel;
        assert Rejected(recs, s, n, inclusive) == rej;
      } else {
        assert Selected(recs, s, n, inclusive) == sel;
        assert Rejected(recs, s, n, inclusive) == [s[0]] + rej;
      }
    }
  }

  /** The hits all hit and the misses all miss. */
  lemma {:induction false} PartitionHits(recs: Records, s: seq<RecordId>, n: int, inclusive: bool)
    ensures forall x :: x in Selected(recs, s, n, inclusive) ==> Hits(recs, x, n, inclusive)
    ensures forall x :: x in Rejected(recs, s, n, inclusive) ==> !Hits(recs, x, n, inclusive)
  {
    if s != [] {
      PartitionHits(recs, s[1..], n, inclusive);
    }
  }

  /** Each record of the list lands in exactly one half, by its tag. */
  lemma PartitionMembership(recs: Records, s: seq<RecordId>, n: int, inclusive: bool)
    ensures forall x :: x in Selected(recs, s, n, inclusive) <==> x in s && Hits(recs, x, n, inclusive)
    ensures forall x :: x in Rejected(recs, s, n, inclusive) <==> x in s && !Hits(recs, x, n, inclusive)
  {
    var sel, rej := Selected(recs, s, n, inclusive), Rejected(recs, s, n, inclusive);
    PartitionIsPermutation(recs, s, n, inclusive);
    PartitionHits(recs, s, n, inclusive);
    forall x ensures x in s <==> x in sel || x in rej {
      assert x in s <==> x in multiset(s);
      assert x in sel <==> x in multiset(sel);
      assert x in rej <==> x in multiset(rej);
    }
  }

  /** `partition` keeps the list's order in its first half, whatever the tags. */
  lemma {:induction false} SelectedKeepsOrder(recs: Records, s: seq<RecordId>, n: int, inclusive: bool)
    ensures forall i, j :: 0 <= i < j < |Selected(recs, s, n, inclusive)| ==>
              Precedes(s, Selected(recs, s, n, inclusive)[i], Selected(recs, s, n, inclusive)[j])
  {
    if s != [] {
      var t := Selected(recs, s[1..], n, inclusive);
      SelectedKeepsOrder(recs, s[1..], n, inclusive);
      PartitionMembership(recs, s[1..], n, inclusive);
      ConsKeepsOrder(s, t, Selected(recs, s, n, inclusive));
    }
  }

  /** ... and in its second half. */
  lemma {:induction false} RejectedKeepsOrder(recs: Records, s: seq<RecordId>, n: int, inclusive: bool)
    ensures forall i, j :: 0 <= i < j < |Rejected(recs, s, n, inclusive)| ==>
              Precedes(s, Rejected(recs, s, n, inclusive)[i], Rejected(recs, s, n, inclusive)[j])
  {
    if s != [] {
      var t := Rejected(recs, s[1..], n, inclusive);
      RejectedKeepsOrder(recs, s[1..], n, inclusive);
      PartitionMembership(recs, s[1..], n, inclusive);
      ConsKeepsOrder(s, t, Rejected(recs, s, n, inclusive));
    }
  }

  /** Tags strictly increase along the list. */
  ghost predicate Ascending(recs: Records, s: seq<RecordId>) {
    forall i, j :: 0 <= i < j < |s| ==> TagOf(recs, s[i]) < TagOf(recs, s[j])
  }

  /** On a list ordered by tag the partition is a split: the hits are a
      prefix, the misses the remaining suffix, both still ordered. */
  lemma PartitionOfAscending(recs: Records, s: seq<RecordId>, n: int, inclusive: bool)
    requires Ascending(recs, s)
    ensures Selected(recs, s, n, inclusive) + Rejected(recs, s, n, inclusive) == s
    ensures Ascending(recs, Selected(recs, s, n, inclusive))
    ensures Ascending(recs, Rejected(recs, s, n, inclusive))
  {
    PartitionSplits(recs, s, n, inclusive);
    var sel := Selected(recs, s, n, inclusive);
    assert sel == s[..|sel|];
    assert Rejected(recs, s, n, inclusive) == s[|sel|..];
    AscendingSlices(recs, s, |sel|);
  }

  lemma AscendingSlices(recs: Records, s: seq<RecordId>, k: nat)
    requires Ascending(recs, s) && k <= |s|
    ensures Ascending(recs, s[..k]) && Ascending(recs, s[k..])
  {
    forall i, j | 0 <= i < j < |s[k..]| ensures TagOf(recs, s[k..][i]) < TagOf(recs, s[k..][j]) {
      assert s[k..][i] == s[k + i] && s[k..][j] == s[k + j];
    }
  }

  /** `reject!` on a tag-ordered list leaves it tag-ordered. */
  lemma AscendingWithout(recs: Records, s: seq<RecordId>, x: RecordId)
    requires Ascending(recs, s)
    ensures Ascending(recs, Without(s, x))
  {
    var r := Without(s, x);
    WithoutKeepsOrder(s, x);
    forall i, j | 0 <= i < j < |r| ensures TagOf(recs, r[i]) < TagOf(recs, r[j]) {
      assert Precedes(s, r[i], r[j]);
      var p, q :| 0 <= p < q < |s| && s[p] == r[i] && s[q] == r[j];
    }
  }

  lemma {:induction false} PartitionSplits(recs: Records, s: seq<RecordId>, n: int, inclusive: bool)
    requires Ascending(recs, s)
    ensures Selected(recs, s, n, inclusive) + Rejected(recs, s, n, inclusive) == s
  {
    if s != [] {
      var t := s[1..];
      AscendingSlices(recs, s, 1);
      PartitionSplits(recs, t, n, inclusive);
      if Hits(recs, s[0], n, inclusive) {
        HitExtendsSplit(recs, s, n, inclusive);
      } else {
        FirstMissEndsSelection(recs, s, n, inclusive);
      }
    }
  }

  lemma HitExtendsSplit(recs: Records, s: seq<RecordId>, n: int, inclusive: bool)
    requires s != [] && Hits(recs, s[0], n, inclusive)
    requires Selected(recs, s[1..], n, inclusive) + Rejected(recs, s[1..], n, inclusive) == s[1..]
    ensures Selected(recs, s, n, inclusive) + Rejected(recs, s, n, inclusive) == s
  {
    assert s == [s[0]] + s[1..];
  }

  /** On an ordered list, once the head misses, every later element misses too. */
  lemma FirstMissEndsSelection(recs: Records, s: seq<RecordId>, n: int, inclusive: bool)
    requires Ascending(recs, s) && s != [] && !Hits(recs, s[0], n, inclusive)
    ensures Selected(recs, s, n, inclusive) == [] && Rejected(recs, s, n, inclusive) == s
  {
    forall i | 0 <= i < |s| ensures !Hits(recs, s[i], n, inclusive) {
      if i > 0 {
        assert TagOf(recs, s[0]) < TagOf(recs, s[i]);
      }
    }
    NothingSelected(recs, s, n, inclusive);
  }

  lemma {:induction false} NothingSelected(recs: Records, s: seq<RecordId>, n: int, inclusive: bool)
    requires forall i :: 0 <= i < |s| ==> !Hits(recs, s[i], n, inclusive)
    ensures Selected(recs, s, n, inclusive) == []
    ensures Rejected(recs, s, n, inclusive) == s
  {
    if s != [] {
      NothingSelected(recs, s[1..], n, inclusive);
    }
  }

  /** The first miss is the first element of the list that misses. */
  lemma {:induction false} FirstRejected(recs: Records, s: seq<RecordId>, n: int, inclusive: bool)
    requires Rejected(recs, s, n, inclusive) != []
    ensures exists i :: 0 <= i < |s| && s[i] == Rejected(recs, s, n, inclusive)[0]
                        && forall j :: 0 <= j < i ==> Hits(recs, s[j], n, inclusive)
  {
    if Hits(recs, s[0], n, inclusive) {
      var t := s[1..];
      FirstRejected(recs, t, n, inclusive);
      var i :| 0 <= i < |t| && t[i] == Rejected(recs, t, n, inclusive)[0]
               && forall j :: 0 <= j < i ==> Hits(recs, t[j], n, inclusive);
      assert s[i + 1] == Rejected(recs, s, n, inclusive)[0];
      forall j | 0 <= j < i + 1 ensures Hits(recs, s[j], n, inclusive) {
        if j > 0 { assert s[j] == t[j - 1]; }
      }
    } else {
      assert s[0] == Rejected(recs, s, n, inclusive)[0];
    }
  }

  /** What `consume_basic_ack` does with the publishing list: the records it
      acknowledges (ok), the records it treats as lost (ng) and what stays. */
  datatype AckPlan = AckPlan(ok: seq<RecordId>, ng: seq<RecordId>, rest: seq<RecordId>)

  function PlanAck(recs: Records, s: seq<RecordId>, n: int, multiple: bool): (p: AckPlan)
  {
    if multiple then
      AckPlan(Selected(recs, s, n, true), [], Rejected(recs, s, n, true))
    else
      var ng := Selected(recs, s, n, false);
      var left := Rejected(recs, s, n, false);
      if left == [] then AckPlan([], ng, []) else AckPlan([left[0]], ng, left[1..])
  }

  /** An ack with `multiple` set acknowledges exactly the listed records
      tagged at most n and keeps exactly those tagged above n; nothing is
      lost; both halves keep the list's order; on a tag-ordered list the
      acknowledged records are its prefix. */
  lemma AckMultiple(recs: Records, s: seq<RecordId>, n: int)
    ensures var p := PlanAck(recs, s, n, true);
      && p.ng == []
      && (forall x :: x in p.ok <==> x in s && TagOf(recs, x) <= n)
      && (forall x :: x in p.rest <==> x in s && TagOf(recs, x) > n)
      && multiset(p.ok) + multiset(p.rest) == multiset(s)
      && (forall i, j :: 0 <= i < j < |p.ok| ==> Precedes(s, p.ok[i], p.ok[j]))
      && (forall i, j :: 0 <= i < j < |p.rest| ==> Precedes(s, p.rest[i], p.rest[j]))
      && (Ascending(recs, s) ==> p.ok + p.rest == s && Ascending(recs, p.rest))
  {
    PartitionIsPermutation(recs, s, n, true);
    PartitionMembership(recs, s, n, true);
    SelectedKeepsOrder(recs, s, n, true);
    RejectedKeepsOrder(recs, s, n, true);
    if Ascending(recs, s) {
      PartitionOfAscending(recs, s, n, true);
    }
  }

  /** An ack without `multiple`: every listed record tagged below n is lost
      (ng); the first record of the list not tagged below n is acknowledged,
      whatever its tag, and there is none only when every tag is below n;
      no record disappears; ng, and ok followed by rest, keep the list's
      order; on a tag-ordered list ng, ok and rest are consecutive slices of
      it. */
  lemma AckSingle(recs: Records, s: seq<RecordId>, n: int)
    ensures var p := PlanAck(recs, s, n, false);
      && (forall x :: x in p.ng <==> x in s && TagOf(recs, x) < n)
      && |p.ok| <= 1
      && (p.ok == [] <==> forall i :: 0 <= i < |s| ==> TagOf(recs, s[i]) < n)
      && (p.ok != [] ==> exists i :: 0 <= i < |s| && s[i] == p.ok[0] && n <= TagOf(recs, s[i])
                                    && forall j :: 0 <= j < i ==> TagOf(recs, s[j]) < n)
      && multiset(p.ng) + multiset(p.ok) + multiset(p.rest) == multiset(s)
      && (forall i, j :: 0 <= i < j < |p.ng| ==> Precedes(s, p.ng[i], p.ng[j]))
      && (forall i, j :: 0 <= i < j < |p.ok + p.rest| ==> Precedes(s, (p.ok + p.rest)[i], (p.ok + p.rest)[j]))
      && (Ascending(recs, s) ==> p.ng + p.ok + p.rest == s && Ascending(recs, p.rest))
  {
    PartitionMembership(recs, s, n, false);
    AckSingleChoice(recs, s, n);
    AckSingleKeepsAll(recs, s, n);
    AckSingleKeepsOrder(recs, s, n);
    if Ascending(recs, s) {
      AckSingleOrdered(recs, s, n);
    }
  }

  lemma AckSingleChoice(recs: Records, s: seq<RecordId>, n: int)
    ensures var p := PlanAck(recs, s, n, false);
      && (p.ok == [] <==> forall i :: 0 <= i < |s| ==> TagOf(recs, s[i]) < n)
      && (p.ok != [] ==> exists i :: 0 <= i < |s| && s[i] == p.ok[0] && n <= TagOf(recs, s[i])
                                    && forall j :: 0 <= j < i ==> TagOf(recs, s[j]) < n)
  {
    var left := Rejected(recs, s, n, false);
    PartitionMembership(recs, s, n, false);
    if left != [] {
      FirstRejected(recs, s, n, false);
      assert !Hits(recs, left[0], n, false);
    } else {
      assert forall i :: 0 <= i < |s| ==> s[i] in s;
    }
  }

  lemma AckSingleKeepsAll(recs: Records, s: seq<RecordId>, n: int)
    ensures var p := PlanAck(recs, s, n, false);
      multiset(p.ng) + multiset(p.ok) + multiset(p.rest) == multiset(s)
  {
    var p := PlanAck(recs, s, n, false);
    var left := Rejected(recs, s, n, false);
    PartitionIsPermutation(recs, s, n, false);
    if left != [] {
      assert left == p.ok + p.rest;
    }
  }

  lemma AckSingleKeepsOrder(recs: Records, s: seq<RecordId>, n: int)
    ensures var p := PlanAck(recs, s, n, false);
      && (forall i, j :: 0 <= i < j < |p.ng| ==> Precedes(s, p.ng[i], p.ng[j]))
      && (forall i, j :: 0 <= i < j < |p.ok + p.rest| ==> Precedes(s, (p.ok + p.rest)[i], (p.ok + p.rest)[j]))
  {
    var p := PlanAck(recs, s, n, false);
    SelectedKeepsOrder(recs, s, n, false);
    RejectedKeepsOrder(recs, s, n, false);
    var left := Rejected(recs, s, n, false);
    if left != [] {
      assert p.ok + p.rest == left;
    }
  }

  lemma AckSingleOrdered(recs: Records, s: seq<RecordId>, n: int)
    requires Ascending(recs, s)
    ensures var p := PlanAck(recs, s, n, false);
      p.ng + p.ok + p.rest == s && Ascending(recs, p.rest)
  {
    var p := PlanAck(recs, s, n, false);
    var left := Rejected(recs, s, n, false);
    PartitionOfAscending(recs, s, n, false);
    if left != [] {
      assert p.ng + p.ok + p.rest == p.ng + left;
    }
  }

  /** Whatever an ack hands back, acknowledged, lost or kept, came from the list. */
  lemma PlanAckMembers(recs: Records, s: seq<RecordId>, n: int, multiple: bool)
    ensures var p := PlanAck(recs, s, n, multiple);
      forall x :: x in p.ok || x in p.ng || x in p.rest ==> x in s
  {
    var p := PlanAck(recs, s, n, multiple);
    if multiple {
      AckMultiple(recs, s, n);
    } else {
      AckSingle(recs, s, n);
    }
    assert multiset(p.ng) + multiset(p.ok) + multiset(p.rest) == multiset(s);
    forall x | x in p.ok || x in p.ng || x in p.rest ensures x in s {
      assert x in multiset(p.ok) || x in multiset(p.ng) || x in multiset(p.rest);
      assert x in multiset(s);
    }
  }

  /** `ok.inject(f) {|r, e| r | e.opts[:keep_connection] }` with f false. */
  function AnyKeepsConnection(recs: Records, ids: seq<RecordId>): (r: bool)
    ensures r <==> exists i :: 0 <= i < |ids| && KeepsConnection(recs, ids[i])
  {
    if ids == [] then false
    else KeepsConnection(recs, ids[0]) || AnyKeepsConnection(recs, ids[1..])
  }

  /** The stop decision at the end of `consume_basic_ack`, given whether the
      publishing list was empty before the ack, the plan, and the pending
      records left after the acknowledged ones are removed: stop only when
      the list was not empty, nothing was lost, no acknowledged record asks
      to keep the connection and nothing is pending any more. */
  function AckStops(wasEmpty: bool, p: AckPlan, recs: Records, pendingAfter: seq<RecordId>): (stop: bool)
    ensures stop <==> && !wasEmpty
                      && p.ng == []
                      && (forall i :: 0 <= i < |p.ok| ==> !KeepsConnection(recs, p.ok[i]))
                      && pendingAfter == []
  {
    var f := wasEmpty || p.ng != [];
    var f' := if p.ok != [] then f || AnyKeepsConnection(recs, p.ok) else f;
    !f' && pendingAfter == []
  }

  /** What `consume_basic_nack` re-queues (ng) and keeps (rest). */
  datatype NackPlan = NackPlan(ng: seq<RecordId>, rest: seq<RecordId>)

  /** Lines 837-845 as written (with `nack.multiple` for the undefined
      `ack.multiple` of line 836): in the single case the shifted record
      REPLACES ng, so the records tagged below n leave the list unrequeued. */
  function PlanNackAsWritten(recs: Records, s: seq<RecordId>, n: int, multiple: bool): (p: NackPlan)
  {
    if multiple then
      NackPlan(Selected(recs, s, n, true), Rejected(recs, s, n, true))
    else
      var ng := Selected(recs, s, n, false);
      var left := Rejected(recs, s, n, false);
      if left == [] then NackPlan(ng, []) else NackPlan([left[0]], left[1..])
  }

  /** A single nack of tag 2 over records tagged 1 and 2: as written the
      record tagged 1 is neither re-queued nor kept. */
  lemma NackAsWrittenDropsRecords()
    ensures var recs: Records := map[0 := PendingEvent(1, 0, 0, DefaultSenderOptions, 0, None),
                                     1 := PendingEvent(2, 0, 0, DefaultSenderOptions, 0, None)];
            var p := PlanNackAsWritten(recs, [0, 1], 2, false);
            0 !in p.ng && 0 !in p.rest
  {
    var recs: Records := map[0 := PendingEvent(1, 0, 0, DefaultSenderOptions, 0, None),
                             1 := PendingEvent(2, 0, 0, DefaultSenderOptions, 0, None)];
    assert Selected(recs, [1], 2, false) == [];
    assert Rejected(recs, [1], 2, false) == [1];
    assert Rejected(recs, [0, 1], 2, false) == [1];
  }

  /** The nack as intended: the same selection as the ack, all of it re-queued. */
  function PlanNack(recs: Records, s: seq<RecordId>, n: int, multiple: bool): (p: NackPlan)
  {
    var a := PlanAck(recs, s, n, multiple);
    NackPlan(a.ng + a.ok, a.rest)
  }

  /** A nack re-queues or keeps every record it was given, and on a
      tag-ordered list re-queues a prefix and keeps the ordered suffix. */
  lemma NackLosesNothing(recs: Records, s: seq<RecordId>, n: int, multiple: bool)
    ensures var p := PlanNack(recs, s, n, multiple);
      && multiset(p.ng) + multiset(p.rest) == multiset(s)
      && (Ascending(recs, s) ==> p.ng + p.rest == s && Ascending(recs, p.rest))
  {
    if multiple {
      AckMultiple(recs, s, n);
      assert PlanAck(recs, s, n, true).ng + PlanAck(recs, s, n, true).ok == PlanAck(recs, s, n, true).ok;
    } else {
      AckSingle(recs, s, n);
    }
  }

  /** The retry ceiling of `publish_failed`: another attempt is scheduled
      while the record's retry counter is below its `:retry_count`. */
  predicate ShouldRetry(ev: PendingEvent) {
    ev.retry < ev.opts.retryCount
  }

  /** Publish attempts a record makes when every attempt fails, starting
      with its retry counter at `retry` (each timer bumps it by one). */
  function AttemptsWhenFailing(ev: PendingEvent): (k: nat)
    decreases ev.opts.retryCount - ev.retry
  {
    if ShouldRetry(ev) then 1 + AttemptsWhenFailing(ev.(retry := ev.retry + 1)) else 1
  }

  /** A permanently failing record is attempted `retry_count - retry + 1`
      times; a fresh record `retry_count + 1` times (once if it is negative). */
  lemma {:induction false} RetryCeiling(ev: PendingEvent)
    ensures AttemptsWhenFailing(ev) == (if ev.retry < ev.opts.retryCount then ev.opts.retryCount - ev.retry else 0) + 1
    decreases ev.opts.retryCount - ev.retry
  {
    if ShouldRetry(ev) {
      RetryCeiling(ev.(retry := ev.retry + 1));
    }
  }

  /** A `@retrying_events` value: `[timer, scheduled_at]`. */
  datatype RetryEntry = RetryEntry(timer: Option<TimerId>, scheduledAt: int)

  /** `[nil, Time.at(0)]`: what a frozen in-flight record is given. */
  const Frozen := RetryEntry(None, 0)

  /** `(k + interval) - now` in `reinvoke_retry_timers`: the time left before
      the retry was due; negative means overdue. */
  function Remaining(e: RetryEntry, interval: nat, now: int): int
  {
    e.scheduledAt + interval - now
  }

  /** `pending_events {|i| select(i) }`: the events of the pending records
      the block selects, in pending order. */
  function EventsWhere(recs: Records, ids: seq<RecordId>, select: PendingEvent -> bool): (r: seq<EventId>)
    requires Known(recs, ids)
    ensures |r| <= |ids|
    ensures forall j :: 0 <= j < |ids| && select(recs[ids[j]]) ==> recs[ids[j]].event in r
    ensures forall e :: e in r ==> exists j :: 0 <= j < |ids| && select(recs[ids[j]]) && recs[ids[j]].event == e
  {
    if ids == [] then []
    else
      var tail := EventsWhere(recs, ids[1..], select);
      assert forall e :: e in tail ==> exists j :: 0 <= j < |ids| && select(recs[ids[j]]) && recs[ids[j]].event == e by {
        forall e | e in tail ensures exists j :: 0 <= j < |ids| && select(recs[ids[j]]) && recs[ids[j]].event == e {
          var j :| 0 <= j < |ids[1..]| && select(recs[ids[1..][j]]) && recs[ids[1..][j]].event == e;
          assert ids[1..][j] == ids[j + 1];
        }
      }
      (if select(recs[ids[0]]) then [recs[ids[0]].event] else []) + tail
  }
}
