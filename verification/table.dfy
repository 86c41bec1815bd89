/** A Ruby Hash as the engine uses it: a finite map that also remembers the
    order in which its keys were first inserted.  Assigning to a present key
    keeps its position; `each_pair` visits keys in insertion order. */
module Table {
  import opened Basics

  datatype Table<K(!new), V> = Table(keys: seq<K>, values: map<K, V>)
  {
    ghost predicate Valid() {
      Distinct(keys) && forall k :: k in values <==> k in keys
    }
  }

  function Empty<K(!new), V>(): (t: Table<K, V>)
    ensures t.Valid() && t.values == map[]
  {
    Table([], map[])
  }

  /** `h[k] = v`. */
  function Put<K(==,!new), V>(t: Table<K, V>, k: K, v: V): (r: Table<K, V>)
    requires t.Valid()
    ensures r.Valid() && r.values == t.values[k := v]
    ensures r.keys == if k in t.values then t.keys else t.keys + [k]
  {
    if k in t.values then Table(t.keys, t.values[k := v])
    else Table(t.keys + [k], t.values[k := v])
  }

  /** `h.delete k`: the other keys keep their order. */
  function Delete<K(==,!new), V>(t: Table<K, V>, k: K): (r: Table<K, V>)
    requires t.Valid()
    ensures r.Valid() && r.values == t.values - {k}
    ensures r.keys == Without(t.keys, k)
    ensures forall i, j :: 0 <= i < j < |r.keys| ==> Precedes(t.keys, r.keys[i], r.keys[j])
  {
    WithoutKeepsDistinct(t.keys, k);
    WithoutKeepsOrder(t.keys, k);
    Table(Without(t.keys, k), t.values - {k})
  }

  /** `xs.each {|x| h[x] = v }`, stated from the last key backwards so that a
      loop over `xs` extends it one key at a time. */
  function PutAll<K(==,!new), V>(t: Table<K, V>, xs: seq<K>, v: V): (r: Table<K, V>)
    requires t.Valid()
    ensures r.Valid()
    ensures forall k :: k in r.values <==> k in t.values || k in xs
    ensures forall k :: k in r.values ==> r.values[k] == if k in xs then v else t.values[k]
  {
    if xs == [] then t else Put(PutAll(t, xs[..|xs| - 1], v), xs[|xs| - 1], v)
  }

  /** `xs.each {|x| h[x] = v }` keeps the old keys in front, in their order. */
  lemma {:induction false} PutAllKeepsPrefix<K(!new), V>(t: Table<K, V>, xs: seq<K>, v: V)
    requires t.Valid()
    ensures |t.keys| <= |PutAll(t, xs, v).keys|
    ensures forall i :: 0 <= i < |t.keys| ==> PutAll(t, xs, v).keys[i] == t.keys[i]
  {
    if xs != [] {
      var p := PutAll(t, xs[..|xs| - 1], v);
      PutAllKeepsPrefix(t, xs[..|xs| - 1], v);
      assert PutAll(t, xs, v).keys == if xs[|xs| - 1] in p.values then p.keys else p.keys + [xs[|xs| - 1]];
    }
  }

  /** Every key after the old ones is a key of `xs` that was not there before. */
  lemma PutAllKeepsKeys<K(!new), V>(t: Table<K, V>, xs: seq<K>, v: V)
    requires t.Valid()
    ensures forall i :: |t.keys| <= i < |PutAll(t, xs, v).keys| ==>
              PutAll(t, xs, v).keys[i] in xs && PutAll(t, xs, v).keys[i] !in t.values
  {
    PutAllKeepsPrefix(t, xs, v);
  }

  /** The keys `xs.each {|x| h[x] = v }` adds come in the order in which `xs` names them. */
  lemma {:induction false} PutAllKeyOrder<K(!new), V>(t: Table<K, V>, xs: seq<K>, v: V)
    requires t.Valid()
    ensures forall i, j :: |t.keys| <= i < j < |PutAll(t, xs, v).keys| ==>
              Precedes(xs, PutAll(t, xs, v).keys[i], PutAll(t, xs, v).keys[j])
  {
    if xs != [] {
      var init, last := xs[..|xs| - 1], xs[|xs| - 1];
      var p, r := PutAll(t, init, v), PutAll(t, xs, v);
      PutAllKeyOrder(t, init, v);
      PutAllKeepsKeys(t, init, v);
      PutAllKeepsPrefix(t, init, v);
      assert r == Put(p, last, v);
      forall i, j | |t.keys| <= i < j < |r.keys| ensures Precedes(xs, r.keys[i], r.keys[j]) {
        assert r.keys[i] == p.keys[i] && p.keys[i] in init;
        if j == |p.keys| {
          var q :| 0 <= q < |init| && init[q] == r.keys[i];
          assert xs[q] == r.keys[i] && xs[|xs| - 1] == r.keys[j];
        } else {
          assert r.keys[j] == p.keys[j];
          assert Precedes(init, p.keys[i], p.keys[j]);
          PrecedesInPrefix(xs, |xs| - 1, r.keys[i], r.keys[j]);
        }
      }
    }
  }

  /** `xs.each {|x| h.delete x }`: the surviving keys keep their order. */
  function DeleteAll<K(==,!new), V>(t: Table<K, V>, xs: seq<K>): (r: Table<K, V>)
    requires t.Valid()
    ensures r.Valid()
    ensures forall k :: k in r.values <==> k in t.values && k !in xs
    ensures r.keys == WithoutAll(t.keys, xs)
    ensures forall i, j :: 0 <= i < j < |r.keys| ==> Precedes(t.keys, r.keys[i], r.keys[j])
  {
    WithoutAllKeepsOrder(t.keys, xs);
    if xs == [] then t else Delete(DeleteAll(t, xs[..|xs| - 1]), xs[|xs| - 1])
  }
}
