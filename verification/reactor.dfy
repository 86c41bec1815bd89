/** The EventMachine reactor's next-tick queue, as the engine uses it.

    `Enumerable#each_next_tick` (lib/tengine/mq/suite.rb:12-23) folds the
    collection from the back into a chain of lambdas and calls the first: one
    `EM.next_tick` is scheduled for the first element, and when it runs it
    yields that element and only then schedules the next one.  So the elements
    run one per tick, in their original order, each behind whatever was
    already queued.  A chain that is still going is a `Tick` holding the jobs
    not yet run; a plain `EM.next_tick` is a chain of one. */
module Reactor {

  datatype Tick<J> = Tick(jobs: seq<J>)

  /** Every queued chain still has a job to run. */
  ghost predicate WellFormed<J>(q: seq<Tick<J>>) {
    forall i :: 0 <= i < |q| ==> q[i].jobs != []
  }

  /** The chain that `xs.each_next_tick` schedules: nothing for an empty `xs`. */
  function Chain<J>(xs: seq<J>): (q: seq<Tick<J>>)
    ensures WellFormed(q)
    ensures |q| == if xs == [] then 0 else 1
  {
    if xs == [] then [] else [Tick(xs)]
  }

  /** `xs.each_next_tick { ... }` on a reactor whose queue is `q`. */
  function EachNextTick<J>(q: seq<Tick<J>>, xs: seq<J>): (r: seq<Tick<J>>)
    requires WellFormed(q)
    ensures WellFormed(r)
  {
    q + Chain(xs)
  }

  /** The job the next tick runs. */
  function Next<J>(q: seq<Tick<J>>): J
    requires WellFormed(q) && q != []
  {
    q[0].jobs[0]
  }

  /** The queue after the next tick: the rest of the head chain goes to the back. */
  function Advance<J>(q: seq<Tick<J>>): (r: seq<Tick<J>>)
    requires WellFormed(q) && q != []
    ensures WellFormed(r)
  {
    q[1..] + Chain(q[0].jobs[1..])
  }

  /** The jobs the next `k` ticks run, in order (fewer if the queue drains). */
  function Trace<J>(q: seq<Tick<J>>, k: nat): (t: seq<J>)
    requires WellFormed(q)
    decreases k
  {
    if k == 0 || q == [] then [] else [Next(q)] + Trace(Advance(q), k - 1)
  }

  /** Alternation of two chains scheduled back to back. */
  function Interleave<J>(a: seq<J>, b: seq<J>): (r: seq<J>)
    decreases |a| + |b|
  {
    if a == [] then b else [a[0]] + Interleave(b, a[1..])
  }

  /** The alternation runs every job of both chains exactly once. */
  lemma {:induction false} InterleaveLength<J>(a: seq<J>, b: seq<J>)
    ensures |Interleave(a, b)| == |a| + |b|
    ensures multiset(Interleave(a, b)) == multiset(a) + multiset(b)
    decreases |a| + |b|
  {
    if a != [] {
      InterleaveLength(b, a[1..]);
      assert a == [a[0]] + a[1..];
    }
  }

  /** A chain alone on the reactor runs its elements one per tick, in their
      original order, and leaves the queue empty. */
  lemma {:induction false} EachNextTickRunsInOrder<J>(xs: seq<J>)
    ensures Trace(Chain(xs), |xs|) == xs
    ensures Trace(Chain(xs), |xs| + 1) == xs
  {
    if xs != [] {
      var q := Chain(xs);
      assert Next(q) == xs[0];
      assert Advance(q) == Chain(xs[1..]);
      EachNextTickRunsInOrder(xs[1..]);
    }
  }

  /** Two chains scheduled one after the other (as `consume_basic_ack` does
      with its ng and ok lists) alternate tick by tick: a[0], b[0], a[1], ...
      and, once one is exhausted, the rest of the other in order. */
  lemma {:induction false} TwoChainsInterleave<J>(a: seq<J>, b: seq<J>)
    ensures Trace(Chain(a) + Chain(b), |a| + |b|) == Interleave(a, b)
    decreases |a| + |b|
  {
    var q := Chain(a) + Chain(b);
    if a == [] {
      assert q == Chain(b);
      EachNextTickRunsInOrder(b);
    } else {
      assert Next(q) == a[0];
      assert Advance(q) == Chain(b) + Chain(a[1..]);
      TwoChainsInterleave(b, a[1..]);
    }
  }
}
