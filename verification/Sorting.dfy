/** Integers in ascending order, and how many of them lie below a bound. */
module Sorting {

  function Insert(sorted: seq<int>, x: int): seq<int> {
    if sorted == [] || x < sorted[0] then [x] + sorted else [sorted[0]] + Insert(sorted[1..], x)
  }

  function Sort(xs: seq<int>): seq<int> {
    if xs == [] then [] else Insert(Sort(xs[1..]), xs[0])
  }

  lemma {:induction false} SortKeepsLength(xs: seq<int>)
    ensures |Sort(xs)| == |xs|
  {
    if xs != [] {
      SortKeepsLength(xs[1..]);
      InsertAddsOne(Sort(xs[1..]), xs[0]);
    }
  }

  lemma {:induction false} InsertAddsOne(sorted: seq<int>, x: int)
    ensures |Insert(sorted, x)| == |sorted| + 1
  {
    if sorted != [] && x >= sorted[0] {
      InsertAddsOne(sorted[1..], x);
    }
  }

  function CountAtMost(xs: seq<int>, x: int): nat {
    if xs == [] then 0 else (if xs[0] <= x then 1 else 0) + CountAtMost(xs[1..], x)
  }

  /** The positions from k on whose elements are at most x. */
  ghost function AtMost(xs: seq<int>, k: nat, x: int): set<int> { set i | k <= i < |xs| && xs[i] <= x }

  lemma {:induction false} CountIsSize(xs: seq<int>, k: nat, x: int)
    requires k <= |xs|
    ensures CountAtMost(xs[k..], x) == |AtMost(xs, k, x)|
    decreases |xs| - k
  {
    if k == |xs| {
      assert AtMost(xs, k, x) == {};
    } else {
      CountIsSize(xs, k + 1, x);
      var rest := AtMost(xs, k + 1, x);
      assert xs[k..][1..] == xs[k + 1..];
      assert AtMost(xs, k, x) == if xs[k] <= x then {k} + rest else rest;
    }
  }

  predicate Ascending(xs: seq<int>) {
    forall i, j :: 0 <= i < j < |xs| ==> xs[i] <= xs[j]
  }

  lemma {:induction false} InsertCounts(sorted: seq<int>, y: int, x: int)
    ensures CountAtMost(Insert(sorted, y), x) == CountAtMost(sorted, x) + if y <= x then 1 else 0
  {
    if sorted != [] && y >= sorted[0] {
      InsertCounts(sorted[1..], y, x);
    }
  }

  lemma {:induction false} SortCounts(xs: seq<int>, x: int)
    ensures CountAtMost(Sort(xs), x) == CountAtMost(xs, x)
  {
    if xs != [] {
      SortCounts(xs[1..], x);
      InsertCounts(Sort(xs[1..]), xs[0], x);
    }
  }

  lemma {:induction false} InsertMembers(sorted: seq<int>, y: int, x: int)
    ensures x in Insert(sorted, y) <==> x == y || x in sorted
  {
    if sorted != [] && y >= sorted[0] {
      InsertMembers(sorted[1..], y, x);
      assert sorted == [sorted[0]] + sorted[1..];
    }
  }

  lemma {:induction false} SortMembers(xs: seq<int>, x: int)
    ensures x in Sort(xs) <==> x in xs
  {
    if xs != [] {
      SortMembers(xs[1..], x);
      InsertMembers(Sort(xs[1..]), xs[0], x);
      assert xs == [xs[0]] + xs[1..];
    }
  }

  lemma {:induction false} InsertAscends(sorted: seq<int>, y: int)
    requires Ascending(sorted)
    ensures Ascending(Insert(sorted, y))
  {
    if sorted != [] && y >= sorted[0] {
      var rest := Insert(sorted[1..], y);
      InsertAscends(sorted[1..], y);
      forall i | 0 <= i < |rest|
        ensures sorted[0] <= rest[i]
      {
        InsertMembers(sorted[1..], y, rest[i]);
      }
    }
  }

  lemma {:induction false} SortAscends(xs: seq<int>)
    ensures Ascending(Sort(xs))
  {
    if xs != [] {
      SortAscends(xs[1..]);
      InsertAscends(Sort(xs[1..]), xs[0]);
    }
  }

  /** In an ascending list, at least i + 1 elements are at most the i-th, and fewer than i + 1 are below it. */
  lemma {:induction false} CountToIndex(sorted: seq<int>, i: nat)
    requires Ascending(sorted) && i < |sorted|
    ensures CountAtMost(sorted, sorted[i]) >= i + 1
    ensures CountAtMost(sorted, sorted[i] - 1) <= i
  {
    if i == 0 {
      NothingBelow(sorted, sorted[0] - 1);
    } else {
      CountToIndex(sorted[1..], i - 1);
    }
  }

  lemma {:induction false} NothingBelow(sorted: seq<int>, x: int)
    requires forall k :: 0 <= k < |sorted| ==> sorted[k] > x
    ensures CountAtMost(sorted, x) == 0
  {
    if sorted != [] {
      NothingBelow(sorted[1..], x);
    }
  }

  predicate StrictlyAscending(xs: seq<int>) {
    forall i, j :: 0 <= i < j < |xs| ==> xs[i] < xs[j]
  }

  lemma {:induction false} SortStrictly(xs: seq<int>)
    requires forall i, j :: 0 <= i < j < |xs| ==> xs[i] != xs[j]
    ensures StrictlyAscending(Sort(xs))
  {
    if xs != [] {
      SortStrictly(xs[1..]);
      SortMembers(xs[1..], xs[0]);
      InsertStrictly(Sort(xs[1..]), xs[0]);
    }
  }

  lemma {:induction false} InsertStrictly(sorted: seq<int>, y: int)
    requires StrictlyAscending(sorted) && y !in sorted
    ensures StrictlyAscending(Insert(sorted, y))
  {
    if sorted != [] && y >= sorted[0] {
      var rest := Insert(sorted[1..], y);
      InsertStrictly(sorted[1..], y);
      forall i | 0 <= i < |rest|
        ensures sorted[0] < rest[i]
      {
        InsertMembers(sorted[1..], y, rest[i]);
      }
    }
  }
}
