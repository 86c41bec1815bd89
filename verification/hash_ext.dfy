/** The engine's extension of Hash: `compact` returns a copy without the
    entries whose value is nil (lib/tengine/mq/suite.rb:37-48).  A value that
    may be nil is an `Option`. */
module HashExt {
  import opened Basics

  /** `h.compact`: the same hash, minus the nil-valued entries; `h` is left
      as it is (a Dafny map is a value). */
  function Compact<K(!new), V>(h: map<K, Option<V>>): (r: map<K, Option<V>>)
    ensures forall k :: k in r <==> k in h && h[k].Some?
    ensures forall k :: k in r ==> r[k] == h[k]
  {
    map k | k in h && h[k].Some? :: h[k]
  }

  /** `defaults.merge given.compact`: a key given as nil never overrides a default. */
  function MergeCompact<K(!new), V>(defaults: map<K, Option<V>>, given: map<K, Option<V>>): (r: map<K, Option<V>>)
    ensures r.Keys == defaults.Keys + Compact(given).Keys
    ensures forall k :: k in defaults ==>
              r[k] == if k in given && given[k].Some? then given[k] else defaults[k]
    ensures forall k :: k in given && given[k].Some? ==> r[k] == given[k]
  {
    defaults + Compact(given)
  }

  /** `compact!` (`reject! {|k, v| v.nil? }`) on the copy that `compact`
      takes: the keys are visited one at a time and each nil-valued entry is
      dropped; what is left is `Compact(h)`, so the non-destructive and the
      destructive forms agree. */
  method CompactInPlace<K(!new), V>(h: map<K, Option<V>>) returns (c: map<K, Option<V>>)
    ensures c == Compact(h)
  {
    c := h;
    var todo := h.Keys;
    while todo != {}
      invariant todo <= h.Keys
      invariant forall k :: k in c <==> k in h && (k in todo || h[k].Some?)
      invariant forall k :: k in c ==> c[k] == h[k]
      decreases todo
    {
      var k :| k in todo;
      if c[k].None? {
        c := c - {k};
      }
      todo := todo - {k};
    }
  }
}
