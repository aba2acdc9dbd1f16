/**
 * `rows.sort((a, b) => key(b) - key(a))`: JavaScript's sort is stable, so the
 * model is a stable insertion sort on a numeric key, largest first, and
 * `rows.slice(0, n)` for a row limit.
 */
module Sorting {

  predicate SortedDesc<T>(xs: seq<T>, key: T -> int)
  {
    forall i, j :: 0 <= i < j < |xs| ==> key(xs[i]) >= key(xs[j])
  }

  /** Puts `x` after every element whose key is at least its own. */
  function InsertDesc<T>(x: T, ys: seq<T>, key: T -> int): (r: seq<T>)
    requires SortedDesc(ys, key)
    ensures multiset(r) == multiset(ys) + multiset{x}
    ensures SortedDesc(r, key)
  {
    if ys == [] then [x]
    else if key(ys[0]) < key(x) then
      assert ys == [ys[0]] + ys[1..];
      ConsSorted(x, ys, key);
      [x] + ys
    else
      var rest := InsertDesc(x, ys[1..], key);
      assert ys == [ys[0]] + ys[1..];
      forall z | z in rest
        ensures key(ys[0]) >= key(z)
      {
        assert z in multiset(rest);
      }
      ConsSorted(ys[0], rest, key);
      [ys[0]] + rest
  }

  lemma ConsSorted<T>(h: T, rest: seq<T>, key: T -> int)
    requires SortedDesc(rest, key)
    requires forall z :: z in rest ==> key(h) >= key(z)
    ensures SortedDesc([h] + rest, key)
  {
    var r := [h] + rest;
    forall i, j | 0 <= i < j < |r|
      ensures key(r[i]) >= key(r[j])
    {
      if i > 0 {
        assert r[i] == rest[i - 1] && r[j] == rest[j - 1];
      } else {
        assert r[j] == rest[j - 1] && r[j] in rest;
      }
    }
  }

  /** The rows largest key first, rows with equal keys in their input order. */
  function SortDesc<T>(xs: seq<T>, key: T -> int): (ys: seq<T>)
    ensures multiset(ys) == multiset(xs)
    ensures SortedDesc(ys, key)
  {
    if xs == [] then []
    else
      var init := xs[..|xs| - 1];
      assert xs == init + [xs[|xs| - 1]];
      InsertDesc(xs[|xs| - 1], SortDesc(init, key), key)
  }

  /** `xs.slice(0, n)` */
  function Take<T>(xs: seq<T>, n: nat): (ys: seq<T>)
    ensures |ys| == if |xs| <= n then |xs| else n
    ensures ys == xs[..|ys|]
  {
    if |xs| <= n then xs else xs[..n]
  }

  lemma TakeSorted<T>(xs: seq<T>, n: nat, key: T -> int)
    requires SortedDesc(xs, key)
    ensures SortedDesc(Take(xs, n), key)
  {
  }

  /** A sorted list's prefix holds the largest keys: nothing left out beats anything kept. */
  lemma TakeKeepsLargest<T>(xs: seq<T>, n: nat, key: T -> int, i: nat, j: nat)
    requires SortedDesc(xs, key)
    requires i < |Take(xs, n)| && |Take(xs, n)| <= j < |xs|
    ensures key(Take(xs, n)[i]) >= key(xs[j])
  {
  }

  /** A prefix of a sorted list is part of it, and every element it leaves out is no larger than any it keeps. */
  lemma TakeLeavesSmaller<T>(xs: seq<T>, n: nat, key: T -> int)
    requires SortedDesc(xs, key)
    ensures multiset(Take(xs, n)) <= multiset(xs)
    ensures forall x, k :: x in multiset(xs) - multiset(Take(xs, n)) && 0 <= k < |Take(xs, n)| ==>
              key(x) <= key(Take(xs, n)[k])
  {
    var t := Take(xs, n);
    var rest := xs[|t|..];
    assert xs == t + rest;
    assert multiset(xs) == multiset(t) + multiset(rest);
    forall x, k | x in multiset(xs) - multiset(t) && 0 <= k < |t|
      ensures key(x) <= key(t[k])
    {
      assert x in multiset(rest);
      var j :| 0 <= j < |rest| && rest[j] == x;
      assert xs[|t| + j] == x;
    }
  }
}
