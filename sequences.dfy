/** Generic sequence helpers: the "append inside a loop" accumulation that every rule performs. */
module Sequences {

  /**
   * Concatenation of `f(y)` over the elements `y` of `s`, in order. Defined on the last
   * element, so that a loop that appends `f(s[i])` at step `i` keeps `FlatMap(f, s[..i])`.
   */
  function FlatMap<T, U>(f: T -> seq<U>, s: seq<T>): seq<U>
    decreases |s|
  {
    if |s| == 0 then [] else FlatMap(f, s[..|s| - 1]) + f(s[|s| - 1])
  }

  /** One loop step: appending `f(y)` extends the accumulated sequence by one element of `s`. */
  lemma FlatMapSnoc<T, U>(f: T -> seq<U>, s: seq<T>, y: T)
    ensures FlatMap(f, s + [y]) == FlatMap(f, s) + f(y)
  {
    assert (s + [y])[..|s|] == s;
  }

  /** The loop form of `FlatMapSnoc`: one more element of `s` processed. */
  lemma FlatMapStep<T, U>(f: T -> seq<U>, s: seq<T>, i: int)
    requires 0 <= i < |s|
    ensures FlatMap(f, s[..i + 1]) == FlatMap(f, s[..i]) + f(s[i])
  {
    assert s[..i + 1][..i] == s[..i];
  }

  /** An element of the result comes from `f` applied to some element of the input, and vice versa. */
  lemma {:induction false} FlatMapMember<T, U>(f: T -> seq<U>, s: seq<T>, x: U)
    ensures x in FlatMap(f, s) <==> exists y :: y in s && x in f(y)
  {
    if |s| > 0 {
      var init, last := s[..|s| - 1], s[|s| - 1];
      FlatMapMember(f, init, x);
      assert s == init + [last];
      assert forall y :: y in s <==> y in init || y == last;
    }
  }

  /** The length of the result is the sum of the lengths of the pieces; with pieces of length one it is |s|. */
  lemma {:induction false} FlatMapSingletons<T, U>(f: T -> seq<U>, s: seq<T>)
    requires forall y :: y in s ==> |f(y)| == 1
    ensures |FlatMap(f, s)| == |s|
  {
    if |s| > 0 {
      FlatMapSingletons(f, s[..|s| - 1]);
    }
  }

  /** `a` is obtained from `b` by deleting elements (order is kept). */
  predicate IsSubsequence<T(==)>(a: seq<T>, b: seq<T>)
    decreases |b|
  {
    if |a| == 0 then true
    else if |b| == 0 then false
    else if a[|a| - 1] == b[|b| - 1] then IsSubsequence(a[..|a| - 1], b[..|b| - 1])
    else IsSubsequence(a, b[..|b| - 1])
  }

  /** Appending to the longer sequence keeps a subsequence a subsequence. */
  lemma {:induction false} SubsequenceOfLonger<T>(a: seq<T>, b: seq<T>, y: T)
    requires IsSubsequence(a, b)
    ensures IsSubsequence(a, b + [y])
    decreases |b|, 1
  {
    var b' := b + [y];
    assert b'[..|b'| - 1] == b;
    if |a| > 0 && a[|a| - 1] == y {
      SubsequenceDropLast(a, b);
    }
  }

  /** Dropping the last element of a subsequence leaves a subsequence. */
  lemma {:induction false} SubsequenceDropLast<T>(a: seq<T>, b: seq<T>)
    requires |a| > 0 && IsSubsequence(a, b)
    ensures IsSubsequence(a[..|a| - 1], b)
    decreases |b|, 0
  {
    var init := a[..|a| - 1];
    if |b| > 0 {
      var bInit, bLast := b[..|b| - 1], b[|b| - 1];
      if a[|a| - 1] != bLast {
        SubsequenceDropLast(a, bInit);
      }
      SubsequenceOfLonger(init, bInit, bLast);
      assert bInit + [bLast] == b;
    }
  }

  /** A `FlatMap` that keeps or drops each element (a filter) yields a subsequence of its input. */
  lemma {:induction false} FilterSubsequence<T>(f: T -> seq<T>, s: seq<T>)
    requires forall y :: y in s ==> f(y) == [] || f(y) == [y]
    ensures IsSubsequence(FlatMap(f, s), s)
  {
    if |s| > 0 {
      var init, last := s[..|s| - 1], s[|s| - 1];
      assert forall y :: y in init ==> y in s;
      FilterSubsequence(f, init);
      var kept := FlatMap(f, init);
      var r := FlatMap(f, s);
      assert r == kept + f(last);
      if f(last) == [] {
        assert r == kept;
        SubsequenceOfLonger(kept, init, last);
        assert init + [last] == s;
        assert IsSubsequence(kept, s);
      } else {
        assert r[..|r| - 1] == kept && r[|r| - 1] == last;
      }
    }
  }
}
