/** A stable ascending sort by an integer key: the meaning of Python's `list.sort` and of
    SQL's ORDER BY followed by LIMIT. */
module Sorting {

  /** Puts `x` in front of every element whose key is not smaller. */
  function InsertSorted<T>(x: T, xs: seq<T>, key: T -> int): (r: seq<T>)
    ensures |r| == |xs| + 1
  {
    if xs == [] || key(x) <= key(xs[0]) then [x] + xs
    else [xs[0]] + InsertSorted(x, xs[1..], key)
  }

  function Sort<T>(xs: seq<T>, key: T -> int): (r: seq<T>)
    ensures |r| == |xs|
  {
    if xs == [] then [] else InsertSorted(xs[0], Sort(xs[1..], key), key)
  }

  function Take<T>(limit: nat, xs: seq<T>): seq<T> {
    if |xs| <= limit then xs else xs[..limit]
  }

  ghost predicate Sorted<T>(xs: seq<T>, key: T -> int) {
    forall i, j | 0 <= i < j < |xs| :: key(xs[i]) <= key(xs[j])
  }

  /** The elements of `xs` whose key is `k`, in their order. */
  function WithKey<T>(xs: seq<T>, key: T -> int, k: int): seq<T> {
    if xs == [] then []
    else if key(xs[0]) == k then [xs[0]] + WithKey(xs[1..], key, k)
    else WithKey(xs[1..], key, k)
  }

  lemma {:induction false} InsertPermutes<T>(x: T, xs: seq<T>, key: T -> int)
    ensures multiset(InsertSorted(x, xs, key)) == multiset(xs) + multiset{x}
  {
    if xs == [] || key(x) <= key(xs[0]) {
    } else {
      InsertPermutes(x, xs[1..], key);
      assert xs == [xs[0]] + xs[1..];
    }
  }

  /** Prepending keeps the order if no element of the rest is smaller. */
  lemma PrependSorted<T>(x: T, xs: seq<T>, key: T -> int)
    requires Sorted(xs, key) && forall j | 0 <= j < |xs| :: key(x) <= key(xs[j])
    ensures Sorted([x] + xs, key)
  {
  }

  lemma {:induction false} InsertOrders<T>(x: T, xs: seq<T>, key: T -> int, low: int)
    requires Sorted(xs, key) && low <= key(x) && forall j | 0 <= j < |xs| :: low <= key(xs[j])
    ensures var r := InsertSorted(x, xs, key); Sorted(r, key) && forall j | 0 <= j < |r| :: low <= key(r[j])
  {
    if xs == [] || key(x) <= key(xs[0]) {
      PrependSorted(x, xs, key);
    } else {
      InsertOrders(x, xs[1..], key, key(xs[0]));
      PrependSorted(xs[0], InsertSorted(x, xs[1..], key), key);
    }
  }

  lemma InsertFacts<T>(x: T, xs: seq<T>, key: T -> int)
    requires Sorted(xs, key)
    ensures Sorted(InsertSorted(x, xs, key), key)
    ensures multiset(InsertSorted(x, xs, key)) == multiset(xs) + multiset{x}
  {
    InsertPermutes(x, xs, key);
    var low := if xs == [] || key(x) <= key(xs[0]) then key(x) else key(xs[0]);
    InsertOrders(x, xs, key, low);
  }

  /** Sorting permutes its input and orders it. */
  lemma {:induction false} SortFacts<T>(xs: seq<T>, key: T -> int)
    ensures Sorted(Sort(xs, key), key)
    ensures multiset(Sort(xs, key)) == multiset(xs)
  {
    if xs != [] {
      SortFacts(xs[1..], key);
      InsertFacts(xs[0], Sort(xs[1..], key), key);
      assert xs == [xs[0]] + xs[1..];
    }
  }

  lemma {:induction false} InsertStable<T>(x: T, xs: seq<T>, key: T -> int, k: int)
    ensures WithKey(InsertSorted(x, xs, key), key, k) == WithKey([x], key, k) + WithKey(xs, key, k)
  {
    if xs == [] || key(x) <= key(xs[0]) {
      assert ([x] + xs)[1..] == xs;
    } else {
      InsertStable(x, xs[1..], key, k);
      var r := [xs[0]] + InsertSorted(x, xs[1..], key);
      assert r[1..] == InsertSorted(x, xs[1..], key);
    }
  }

  /** Sorting is stable: elements with equal keys keep their order. */
  lemma {:induction false} SortStable<T>(xs: seq<T>, key: T -> int, k: int)
    ensures WithKey(Sort(xs, key), key, k) == WithKey(xs, key, k)
  {
    if xs != [] {
      SortStable(xs[1..], key, k);
      InsertStable(xs[0], Sort(xs[1..], key), key, k);
      assert [xs[0]][1..] == [];
    }
  }

  /** The first `limit` elements after sorting: no element left out is smaller than one kept. */
  lemma TopIsLeast<T>(xs: seq<T>, key: T -> int, limit: nat, i: nat)
    requires i < |xs|
    ensures forall t | t in Take(limit, Sort(xs, key)) :: t in xs
    ensures xs[i] in Take(limit, Sort(xs, key)) ||
            (|xs| > limit && forall t | t in Take(limit, Sort(xs, key)) :: key(t) <= key(xs[i]))
  {
    var sorted := Sort(xs, key);
    var top := Take(limit, sorted);
    SortFacts(xs, key);
    forall t | t in top ensures t in xs {
      assert t in multiset(sorted);
    }
    assert xs[i] in multiset(sorted);
    var j :| 0 <= j < |sorted| && sorted[j] == xs[i];
    if j < |top| {
      assert top[j] == xs[i];
    }
  }

  /** Sorting keeps a list free of duplicates. */
  lemma SortDistinct<T>(xs: seq<T>, key: T -> int)
    requires forall i, j | 0 <= i < j < |xs| :: xs[i] != xs[j]
    ensures forall i, j | 0 <= i < j < |xs| :: Sort(xs, key)[i] != Sort(xs, key)[j]
  {
    SortFacts(xs, key);
    var sorted := Sort(xs, key);
    DistinctMultiplicity(xs);
    forall i, j | 0 <= i < j < |sorted| ensures sorted[i] != sorted[j] {
      TwiceCounted(sorted, i, j);
      assert sorted[i] in multiset(xs);
    }
  }

  lemma TwiceCounted<T>(xs: seq<T>, i: nat, j: nat)
    requires i < j < |xs|
    ensures xs[i] == xs[j] ==> multiset(xs)[xs[i]] >= 2
  {
    assert xs == xs[..j] + [xs[j]] + xs[j + 1..];
    assert xs[i] in multiset(xs[..j]) by { assert xs[..j][i] == xs[i]; }
  }

  lemma {:induction false} DistinctMultiplicity<T>(xs: seq<T>)
    requires forall i, j | 0 <= i < j < |xs| :: xs[i] != xs[j]
    ensures forall x | x in xs :: multiset(xs)[x] == 1
  {
    if xs != [] {
      var rest := xs[1..];
      DistinctMultiplicity(rest);
      assert xs == [xs[0]] + rest;
      assert xs[0] !in rest;
    }
  }

  function Members<T(==)>(xs: seq<T>): set<T> {
    set x | x in xs
  }

  lemma {:induction false} DistinctSize<T>(xs: seq<T>)
    requires forall i, j | 0 <= i < j < |xs| :: xs[i] != xs[j]
    ensures |Members(xs)| == |xs|
  {
    if xs == [] {
      assert Members(xs) == {};
    } else {
      DistinctSize(xs[1..]);
      assert Members(xs) == {xs[0]} + Members(xs[1..]);
    }
  }
}
