/** The two JavaScript collection idioms the pages rely on: `Array.prototype.filter`
    and `[...new Set(xs)]`, which lists each distinct element once, in the order of
    its first insertion. */
module Sequences {

  /** `xs` is obtained from `ys` by deleting elements; the rest keep their order. */
  ghost predicate IsSubsequence<T>(xs: seq<T>, ys: seq<T>)
    decreases |ys|
  {
    || xs == []
    || (&& ys != []
        && ((xs[0] == ys[0] && IsSubsequence(xs[1..], ys[1..])) || IsSubsequence(xs, ys[1..])))
  }

  /** `xs.filter(keep)`: the elements that pass, in their original order. */
  function Filter<T>(xs: seq<T>, keep: T -> bool): seq<T>
  {
    if xs == [] then []
    else if keep(xs[0]) then [xs[0]] + Filter(xs[1..], keep)
    else Filter(xs[1..], keep)
  }

  /** The filtered list keeps exactly the passing elements, each as often as it
      occurs, in their original order. */
  lemma {:induction false} FilterSpec<T>(xs: seq<T>, keep: T -> bool)
    ensures |Filter(xs, keep)| <= |xs|
    ensures IsSubsequence(Filter(xs, keep), xs)
    ensures forall x :: x in Filter(xs, keep) ==> x in xs && keep(x)
    ensures forall x :: x in xs && keep(x) ==> x in Filter(xs, keep)
    ensures forall x :: multiset(Filter(xs, keep))[x] == if keep(x) then multiset(xs)[x] else 0
  {
    if xs != [] {
      FilterSpec(xs[1..], keep);
      assert xs == [xs[0]] + xs[1..];
      if keep(xs[0]) {
        assert ([xs[0]] + Filter(xs[1..], keep))[1..] == Filter(xs[1..], keep);
      }
    }
  }

  /** A filter that every element passes returns its input unchanged. */
  lemma {:induction false} FilterKeepsAll<T>(xs: seq<T>, keep: T -> bool)
    requires forall x :: x in xs ==> keep(x)
    ensures Filter(xs, keep) == xs
  {
    if xs != [] {
      FilterKeepsAll(xs[1..], keep);
    }
  }

  /** Filtering twice with the same test is filtering once. */
  lemma {:induction false} FilterIdempotent<T>(xs: seq<T>, keep: T -> bool)
    ensures Filter(Filter(xs, keep), keep) == Filter(xs, keep)
  {
    FilterSpec(xs, keep);
    FilterKeepsAll(Filter(xs, keep), keep);
  }

  predicate NoDuplicates<T(==)>(xs: seq<T>)
  {
    forall i, j :: 0 <= i < j < |xs| ==> xs[i] != xs[j]
  }

  /** The position of the first occurrence of `x` in `xs`, or `|xs|` when there is none. */
  function FirstIndex<T(==)>(xs: seq<T>, x: T): (k: nat)
    ensures k <= |xs|
    ensures k < |xs| ==> xs[k] == x
    ensures x !in xs[..k]
  {
    if xs == [] then 0
    else if xs[0] == x then 0
    else
      var k' := FirstIndex(xs[1..], x);
      assert xs[..1 + k'] == [xs[0]] + xs[1..][..k'];
      1 + k'
  }

  /** An element that occurs in the prefix `xs[..m]` has the same first index in
      `xs` as in that prefix, and it lies inside the prefix. */
  lemma {:induction false} FirstIndexInPrefix<T>(xs: seq<T>, m: nat, x: T)
    requires m <= |xs| && x in xs[..m]
    ensures FirstIndex(xs, x) == FirstIndex(xs[..m], x) < m
  {
    if xs[0] != x {
      assert xs[..m][1..] == xs[1..][..m - 1];
      FirstIndexInPrefix(xs[1..], m - 1, x);
    }
  }

  /** An element first seen at position `m` has first index `m`. */
  lemma {:induction false} FirstIndexAt<T>(xs: seq<T>, m: nat, x: T)
    requires m < |xs| && xs[m] == x && x !in xs[..m]
    ensures FirstIndex(xs, x) == m
  {
    if m > 0 {
      assert xs[0] in xs[..m];
      assert xs[1..][..m - 1] == xs[1..m];
      FirstIndexAt(xs[1..], m - 1, x);
    }
  }

  /** `[...new Set(xs)]`: each distinct element of `xs` once, in the order of first insertion. */
  function Dedup<T(==)>(xs: seq<T>): seq<T>
  {
    if xs == [] then []
    else
      var d := Dedup(xs[..|xs| - 1]);
      if xs[|xs| - 1] in d then d else d + [xs[|xs| - 1]]
  }

  /** The deduplicated list has no repeats and holds exactly the elements of `xs`. */
  lemma {:induction false} DedupMembers<T>(xs: seq<T>)
    ensures NoDuplicates(Dedup(xs))
    ensures forall x :: x in Dedup(xs) ==> x in xs
    ensures forall x :: x in xs ==> x in Dedup(xs)
  {
    if xs != [] {
      var n := |xs| - 1;
      DedupMembers(xs[..n]);
      assert xs == xs[..n] + [xs[n]];
    }
  }

  /** The deduplicated list is ordered by first occurrence in `xs`. */
  lemma {:induction false} DedupOrder<T>(xs: seq<T>)
    ensures forall i, j :: 0 <= i < j < |Dedup(xs)| ==> FirstIndex(xs, Dedup(xs)[i]) < FirstIndex(xs, Dedup(xs)[j])
  {
    if xs != [] {
      var n := |xs| - 1;
      var d := Dedup(xs[..n]);
      DedupOrder(xs[..n]);
      DedupMembers(xs[..n]);
      forall y | y in d
        ensures FirstIndex(xs, y) == FirstIndex(xs[..n], y) < n
      {
        FirstIndexInPrefix(xs, n, y);
      }
      if xs[n] !in d {
        FirstIndexAt(xs, n, xs[n]);
        var r := d + [xs[n]];
        forall i, j | 0 <= i < j < |r|
          ensures FirstIndex(xs, r[i]) < FirstIndex(xs, r[j])
        {
          assert r[i] == d[i] && r[i] in d;
          if j < |d| {
            assert r[j] == d[j];
          }
        }
      }
    }
  }
}
