/** Small value-level helpers shared by the model: an optional value and the
    sequence operations the engine performs on Ruby arrays (`reject!`,
    `reverse_each`). */
module Basics {

  datatype Option<+T> = None | Some(value: T)

  /** No element occurs twice (the keys of a Ruby Hash, in insertion order). */
  ghost predicate Distinct<T>(s: seq<T>) {
    forall i, j :: 0 <= i < j < |s| ==> s[i] != s[j]
  }

  /** `a.reject! {|i| i == x }`: every occurrence of `x` removed, order kept. */
  function Without<T(==)>(s: seq<T>, x: T): (r: seq<T>)
    ensures forall i :: 0 <= i < |r| ==> r[i] in s && r[i] != x
    ensures forall i :: 0 <= i < |s| && s[i] != x ==> s[i] in r
    ensures |r| <= |s|
    ensures x !in s ==> r == s
  {
    if s == [] then []
    else if s[0] == x then Without(s[1..], x)
    else [s[0]] + Without(s[1..], x)
  }

  /** Removing every element of `xs` in turn, as `xs.each {|e| a.delete e }` does. */
  function WithoutAll<T(==)>(s: seq<T>, xs: seq<T>): (r: seq<T>)
    ensures forall i :: 0 <= i < |r| ==> r[i] in s && r[i] !in xs
    ensures forall i :: 0 <= i < |s| && s[i] !in xs ==> s[i] in r
  {
    if xs == [] then s else Without(WithoutAll(s, xs[..|xs| - 1]), xs[|xs| - 1])
  }

  lemma {:induction false} WithoutKeepsDistinct<T>(s: seq<T>, x: T)
    requires Distinct(s)
    ensures Distinct(Without(s, x))
  {
    if s != [] {
      WithoutKeepsDistinct(s[1..], x);
      if s[0] != x {
        assert s[0] !in s[1..];
        assert s[0] !in Without(s[1..], x);
      }
    }
  }

  lemma {:induction false} WithoutAllKeepsDistinct<T>(s: seq<T>, xs: seq<T>)
    requires Distinct(s)
    ensures Distinct(WithoutAll(s, xs))
  {
    if xs != [] {
      WithoutAllKeepsDistinct(s, xs[..|xs| - 1]);
      WithoutKeepsDistinct(WithoutAll(s, xs[..|xs| - 1]), xs[|xs| - 1]);
    }
  }

  /** `a` occurs somewhere before `b` in `s`. */
  ghost predicate Precedes<T>(s: seq<T>, a: T, b: T) {
    exists p, q :: 0 <= p < q < |s| && s[p] == a && s[q] == b
  }

  lemma PrecedesInTail<T>(s: seq<T>, a: T, b: T)
    requires s != [] && Precedes(s[1..], a, b)
    ensures Precedes(s, a, b)
  {
    var p, q :| 0 <= p < q < |s[1..]| && s[1..][p] == a && s[1..][q] == b;
    assert s[p + 1] == a && s[q + 1] == b;
  }

  lemma PrecedesInPrefix<T>(s: seq<T>, k: nat, a: T, b: T)
    requires k <= |s| && Precedes(s[..k], a, b)
    ensures Precedes(s, a, b)
  {
    var p, q :| 0 <= p < q < |s[..k]| && s[..k][p] == a && s[..k][q] == b;
    assert s[p] == a && s[q] == b;
  }

  /** A subsequence of the tail, with or without the head in front, keeps
      its order in the whole sequence. */
  lemma ConsKeepsOrder<T>(s: seq<T>, t: seq<T>, r: seq<T>)
    requires s != [] && (r == t || r == [s[0]] + t)
    requires forall x :: x in t ==> x in s[1..]
    requires forall i, j :: 0 <= i < j < |t| ==> Precedes(s[1..], t[i], t[j])
    ensures forall i, j :: 0 <= i < j < |r| ==> Precedes(s, r[i], r[j])
  {
    forall i, j | 0 <= i < j < |r| ensures Precedes(s, r[i], r[j]) {
      if r == t {
        assert Precedes(s[1..], t[i], t[j]);
        PrecedesInTail(s, r[i], r[j]);
      } else if i == 0 {
        assert r[j] == t[j - 1] && t[j - 1] in s[1..];
        var q :| 0 <= q < |s[1..]| && s[1..][q] == r[j];
        assert s[0] == r[0] && s[q + 1] == r[j];
      } else {
        assert r[i] == t[i - 1] && r[j] == t[j - 1];
        assert Precedes(s[1..], t[i - 1], t[j - 1]);
        PrecedesInTail(s, r[i], r[j]);
      }
    }
  }

  /** `reject!` keeps the survivors in their order: any two of them appear
      in the same order in the original array. */
  lemma {:induction false} WithoutKeepsOrder<T>(s: seq<T>, x: T)
    ensures forall i, j :: 0 <= i < j < |Without(s, x)| ==> Precedes(s, Without(s, x)[i], Without(s, x)[j])
  {
    if s != [] {
      var r, t := Without(s, x), Without(s[1..], x);
      WithoutKeepsOrder(s[1..], x);
      forall i, j | 0 <= i < j < |r| ensures Precedes(s, r[i], r[j]) {
        if s[0] == x {
          assert Precedes(s[1..], t[i], t[j]);
          PrecedesInTail(s, r[i], r[j]);
        } else if i == 0 {
          assert r[j] == t[j - 1] && t[j - 1] in s[1..];
          var q :| 0 <= q < |s[1..]| && s[1..][q] == r[j];
          assert s[0] == r[0] && s[q + 1] == r[j];
        } else {
          assert r[i] == t[i - 1] && r[j] == t[j - 1];
          assert Precedes(s[1..], t[i - 1], t[j - 1]);
          PrecedesInTail(s, r[i], r[j]);
        }
      }
    }
  }

  /** Deleting several elements in turn keeps the survivors in their order. */
  lemma {:induction false} WithoutAllKeepsOrder<T>(s: seq<T>, xs: seq<T>)
    ensures forall i, j :: 0 <= i < j < |WithoutAll(s, xs)| ==> Precedes(s, WithoutAll(s, xs)[i], WithoutAll(s, xs)[j])
  {
    if xs != [] {
      var m := WithoutAll(s, xs[..|xs| - 1]);
      var r := Without(m, xs[|xs| - 1]);
      WithoutAllKeepsOrder(s, xs[..|xs| - 1]);
      WithoutKeepsOrder(m, xs[|xs| - 1]);
      forall i, j | 0 <= i < j < |r| ensures Precedes(s, r[i], r[j]) {
        var p, q :| 0 <= p < q < |m| && m[p] == r[i] && m[q] == r[j];
        assert Precedes(s, m[p], m[q]);
      }
    }
  }

  /** The order in which `reverse_each` visits a sequence. */
  function Reverse<T>(s: seq<T>): (r: seq<T>)
    ensures |r| == |s|
    ensures forall i :: 0 <= i < |s| ==> r[i] == s[|s| - 1 - i]
  {
    if s == [] then [] else Reverse(s[1..]) + [s[0]]
  }
}
