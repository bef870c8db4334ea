/**
 * `Array.prototype.sort` with a comparator. The engines the source targets sort
 * stably, so the model is a stable insertion sort: an element is placed after
 * every element it does not precede.
 */
module Sorting {

  /** The comparator `le` (read `cmp(a, b) <= 0`) orders any two values one way or the other. */
  ghost predicate IsTotal<T(!new)>(le: (T, T) -> bool) {
    forall a, b :: le(a, b) || le(b, a)
  }

  ghost predicate IsTransitive<T(!new)>(le: (T, T) -> bool) {
    forall a, b, c :: le(a, b) && le(b, c) ==> le(a, c)
  }

  /** Each element is ordered before its right-hand neighbour. */
  ghost predicate Sorted<T>(s: seq<T>, le: (T, T) -> bool) {
    forall i :: 0 < i < |s| ==> le(s[i - 1], s[i])
  }

  /** Every element is ordered before every later element. */
  ghost predicate SortedPairwise<T>(s: seq<T>, le: (T, T) -> bool) {
    forall i, j :: 0 <= i < j < |s| ==> le(s[i], s[j])
  }

  /** Places `x` after the last element of `s` that precedes it (after equal elements, so the order is stable). */
  function InsertSorted<T>(s: seq<T>, x: T, le: (T, T) -> bool): (r: seq<T>)
    ensures multiset(r) == multiset(s) + multiset{x}
    ensures |r| == |s| + 1
    ensures r[|r| - 1] == x || (|s| > 0 && r[|r| - 1] == s[|s| - 1])
    decreases |s|
  {
    if |s| == 0 then [x]
    else if le(s[|s| - 1], x) then s + [x]
    else
      var init := s[..|s| - 1];
      assert s == init + [s[|s| - 1]];
      InsertSorted(init, x, le) + [s[|s| - 1]]
  }

  /** `xs.slice().sort(cmp)`: insertion of each element, left to right. */
  function SortBy<T>(s: seq<T>, le: (T, T) -> bool): (r: seq<T>)
    ensures multiset(r) == multiset(s)
    ensures |r| == |s|
    decreases |s|
  {
    if |s| == 0 then []
    else
      var init := s[..|s| - 1];
      assert s == init + [s[|s| - 1]];
      InsertSorted(SortBy(init, le), s[|s| - 1], le)
  }

  lemma {:induction false} InsertSortedKeepsSorted<T(!new)>(s: seq<T>, x: T, le: (T, T) -> bool)
    requires IsTotal(le)
    requires Sorted(s, le)
    ensures Sorted(InsertSorted(s, x, le), le)
    decreases |s|
  {
    if |s| > 0 && !le(s[|s| - 1], x) {
      var init := s[..|s| - 1];
      var last := s[|s| - 1];
      InsertSortedKeepsSorted(init, x, le);
      var r0 := InsertSorted(init, x, le);
      assert le(x, last);
      assert |init| > 0 ==> le(init[|init| - 1], last);
      assert Sorted(r0 + [last], le);
    }
  }

  /** Sorting adds no element. */
  lemma SortByMember<T>(s: seq<T>, le: (T, T) -> bool, x: T)
    requires x in SortBy(s, le)
    ensures x in s
  {
    assert x in multiset(SortBy(s, le));
  }

  lemma {:induction false} SortBySorted<T(!new)>(s: seq<T>, le: (T, T) -> bool)
    requires IsTotal(le)
    ensures Sorted(SortBy(s, le), le)
    decreases |s|
  {
    if |s| > 0 {
      SortBySorted(s[..|s| - 1], le);
      InsertSortedKeepsSorted(SortBy(s[..|s| - 1], le), s[|s| - 1], le);
    }
  }

  /** Neighbour order gives the order of every pair when the comparator is transitive. */
  lemma {:induction false} SortedIsPairwise<T(!new)>(s: seq<T>, le: (T, T) -> bool)
    requires IsTransitive(le)
    requires Sorted(s, le)
    ensures SortedPairwise(s, le)
    decreases |s|
  {
    if |s| > 1 {
      var init := s[..|s| - 1];
      SortedIsPairwise(init, le);
      forall i | 0 <= i < |s| - 1
        ensures le(s[i], s[|s| - 1])
      {
        if i < |s| - 2 {
          assert le(init[i], init[|s| - 2]);
        }
      }
    }
  }
}
