/**
 * `list.sort(key=..., reverse=True)` as the cleaner uses it on scan results
 * and quick-clean items: largest key first, and, because Python's sort is
 * stable even when reversed, elements with equal keys keep their order.
 */
module Sorting {
  import opened Base

  /** Ordered by `key`, largest first. */
  ghost predicate SortedDesc<T>(xs: seq<T>, key: T -> nat)
  {
    forall i, j :: 0 <= i < j < |xs| ==> key(xs[i]) >= key(xs[j])
  }

  /** The elements of `xs` whose key is `k`, in their order in `xs`. */
  function WithKey<T>(xs: seq<T>, key: T -> nat, k: nat): seq<T>
  {
    if |xs| == 0 then []
    else if key(xs[0]) == k then [xs[0]] + WithKey(xs[1..], key, k)
    else WithKey(xs[1..], key, k)
  }

  /** `ys` lists every group of equal keys exactly as `xs` does: the reordering is stable. */
  ghost predicate Stable<T>(xs: seq<T>, ys: seq<T>, key: T -> nat)
  {
    forall k :: WithKey(ys, key, k) == WithKey(xs, key, k)
  }

  /** Puts `x` in front of the first element whose key is not larger than its own. */
  function Insert<T>(x: T, s: seq<T>, key: T -> nat): (r: seq<T>)
    ensures multiset(r) == multiset(s) + multiset{x}
    ensures |r| == |s| + 1
  {
    if |s| == 0 then [x]
    else if key(s[0]) > key(x) then
      assert s == [s[0]] + s[1..];
      [s[0]] + Insert(x, s[1..], key)
    else [x] + s
  }

  /** Every key in `xs` is at most `b`. */
  ghost predicate KeysAtMost<T>(xs: seq<T>, key: T -> nat, b: nat)
  {
    forall i :: 0 <= i < |xs| ==> key(xs[i]) <= b
  }

  /** Inserting an element no larger than a common bound keeps the keys within the bound. */
  lemma InsertBound<T>(x: T, s: seq<T>, key: T -> nat, b: nat)
    requires KeysAtMost(s, key, b) && key(x) <= b
    ensures KeysAtMost(Insert(x, s, key), key, b)
  {
    var r := Insert(x, s, key);
    forall i | 0 <= i < |r|
      ensures key(r[i]) <= b
    {
      assert r[i] in multiset(r);
      if r[i] != x {
        assert r[i] in multiset(s);
      }
    }
  }

  /** Inserting into a sorted sequence keeps it sorted. */
  lemma {:induction false} InsertSorted<T>(x: T, s: seq<T>, key: T -> nat)
    requires SortedDesc(s, key)
    ensures SortedDesc(Insert(x, s, key), key)
    decreases |s|
  {
    if |s| > 0 && key(s[0]) > key(x) {
      var t := Insert(x, s[1..], key);
      InsertSorted(x, s[1..], key);
      assert KeysAtMost(s[1..], key, key(s[0]));
      InsertBound(x, s[1..], key, key(s[0]));
      assert Insert(x, s, key) == [s[0]] + t;
    }
  }

  /** The sort: insertion of each element, from the back, into the sorted rest. */
  function SortDesc<T>(xs: seq<T>, key: T -> nat): (r: seq<T>)
    ensures SortedDesc(r, key)
    ensures multiset(r) == multiset(xs)
    ensures |r| == |xs|
  {
    if |xs| == 0 then []
    else
      assert xs == [xs[0]] + xs[1..];
      InsertSorted(xs[0], SortDesc(xs[1..], key), key);
      Insert(xs[0], SortDesc(xs[1..], key), key)
  }

  /** Inserting `x` adds it at the front of its own key group and leaves the other groups alone. */
  lemma {:induction false} InsertGroups<T>(x: T, s: seq<T>, key: T -> nat, k: nat)
    ensures WithKey(Insert(x, s, key), key, k) ==
      if key(x) == k then [x] + WithKey(s, key, k) else WithKey(s, key, k)
    decreases |s|
  {
    if |s| == 0 {
    } else if key(s[0]) > key(x) {
      var t := Insert(x, s[1..], key);
      InsertGroups(x, s[1..], key, k);
      assert ([s[0]] + t)[1..] == t;
    } else {
      assert ([x] + s)[1..] == s;
    }
  }

  /** The sort is stable: every group of equal keys comes out in its original order. */
  lemma {:induction false} SortIsStable<T>(xs: seq<T>, key: T -> nat)
    ensures Stable(xs, SortDesc(xs, key), key)
    decreases |xs|
  {
    if |xs| > 0 {
      SortIsStable(xs[1..], key);
      forall k
        ensures WithKey(SortDesc(xs, key), key, k) == WithKey(xs, key, k)
      {
        InsertGroups(xs[0], SortDesc(xs[1..], key), key, k);
      }
    }
  }

  /** Inserting `x` adds `f(x)` to any sum over the sequence. */
  lemma {:induction false} InsertSum<T>(x: T, s: seq<T>, key: T -> nat, f: T -> nat)
    ensures SumBy(Insert(x, s, key), f) == f(x) + SumBy(s, f)
    decreases |s|
  {
    if |s| > 0 && key(s[0]) > key(x) {
      InsertSum(x, s[1..], key, f);
      assert ([s[0]] + Insert(x, s[1..], key))[1..] == Insert(x, s[1..], key);
    } else if |s| > 0 {
      assert ([x] + s)[1..] == s;
    }
  }

  /** Sorting does not change a sum over the elements. */
  lemma {:induction false} SortKeepsSum<T>(xs: seq<T>, key: T -> nat, f: T -> nat)
    ensures SumBy(SortDesc(xs, key), f) == SumBy(xs, f)
    decreases |xs|
  {
    if |xs| > 0 {
      SortKeepsSum(xs[1..], key, f);
      InsertSum(xs[0], SortDesc(xs[1..], key), key, f);
    }
  }
}
