/** The two LINQ operators the move queries are built from, as functions on sequences. */
module Sequences {

  /** `Where`: the elements of `s` that satisfy `f`, in their original order. */
  function Filter<T>(f: T -> bool, s: seq<T>): (r: seq<T>)
    ensures |r| <= |s|
    ensures forall k :: 0 <= k < |r| ==> f(r[k]) && r[k] in s
    ensures forall i :: 0 <= i < |s| && f(s[i]) ==> s[i] in r
  {
    if s == [] then []
    else if f(s[0]) then [s[0]] + Filter(f, s[1..])
    else Filter(f, s[1..])
  }

  /** `SelectMany`: the concatenation of `f(x)` over the elements `x` of `s`, in order. */
  function FlatMap<T, U>(f: T -> seq<U>, s: seq<T>): (r: seq<U>)
    ensures forall k :: 0 <= k < |r| ==> exists i :: 0 <= i < |s| && r[k] in f(s[i])
    ensures forall i, j :: 0 <= i < |s| && 0 <= j < |f(s[i])| ==> f(s[i])[j] in r
  {
    if s == [] then []
    else f(s[0]) + FlatMap(f, s[1..])
  }

  lemma FlatMapHas<T, U>(f: T -> seq<U>, s: seq<T>, x: T, y: U)
    requires x in s && y in f(x)
    ensures y in FlatMap(f, s)
  {
  }

  lemma FilterHas<T>(f: T -> bool, s: seq<T>, x: T)
    requires x in s && f(x)
    ensures x in Filter(f, s)
  {
  }

  /** `Where` keeps the order of its input: filtering distributes over concatenation. */
  lemma {:induction false} FilterConcat<T>(f: T -> bool, a: seq<T>, b: seq<T>)
    ensures Filter(f, a + b) == Filter(f, a) + Filter(f, b)
    decreases |a|
  {
    if a == [] {
      assert a + b == b;
    } else {
      assert (a + b)[1..] == a[1..] + b;
      FilterConcat(f, a[1..], b);
    }
  }

  /** `SelectMany` keeps the order of its input: it distributes over concatenation. */
  lemma {:induction false} FlatMapConcat<T, U>(f: T -> seq<U>, a: seq<T>, b: seq<T>)
    ensures FlatMap(f, a + b) == FlatMap(f, a) + FlatMap(f, b)
    decreases |a|
  {
    if a == [] {
      assert a + b == b;
    } else {
      calc {
        FlatMap(f, a + b);
        f((a + b)[0]) + FlatMap(f, (a + b)[1..]);
        { assert (a + b)[0] == a[0]; assert (a + b)[1..] == a[1..] + b; }
        f(a[0]) + FlatMap(f, a[1..] + b);
        { FlatMapConcat(f, a[1..], b); }
        f(a[0]) + (FlatMap(f, a[1..]) + FlatMap(f, b));
        (f(a[0]) + FlatMap(f, a[1..])) + FlatMap(f, b);
      }
    }
  }
}
