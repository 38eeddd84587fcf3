/** Sizes of finite collections: what a bounded space of keys can hold. */
module Cardinality {

  /** No element occurs twice. */
  predicate Distinct<T(==)>(s: seq<T>) {
    forall i, j :: 0 <= i < j < |s| ==> s[i] != s[j]
  }

  /** A sequence without repetitions has as many elements as its set of elements. */
  lemma {:induction false} DistinctElementsSize<T>(s: seq<T>)
    requires Distinct(s)
    ensures |set x | x in s| == |s|
  {
    if s != [] {
      var tail := s[1..];
      assert Distinct(tail);
      DistinctElementsSize(tail);
      assert (set x | x in s) == {s[0]} + (set x | x in tail);
      assert s[0] !in (set x | x in tail);
    }
  }

  /** A set of integers drawn from `[lo, hi)` has at most `hi - lo` elements. */
  lemma {:induction false} IntervalSubsetSize(s: set<int>, lo: int, hi: int)
    requires lo <= hi
    requires forall x :: x in s ==> lo <= x < hi
    ensures |s| <= hi - lo
    decreases hi - lo
  {
    if lo < hi {
      var smaller := s - {hi - 1};
      IntervalSubsetSize(smaller, lo, hi - 1);
      assert |s| <= |smaller| + 1;
    } else {
      assert s == {};
    }
  }

  /** A sequence of distinct integers drawn from `[lo, hi)` is no longer than `hi - lo`. */
  lemma DistinctInIntervalLength(s: seq<int>, lo: int, hi: int)
    requires lo <= hi
    requires Distinct(s)
    requires forall i :: 0 <= i < |s| ==> lo <= s[i] < hi
    ensures |s| <= hi - lo
  {
    DistinctElementsSize(s);
    IntervalSubsetSize((set x | x in s), lo, hi);
  }
}
