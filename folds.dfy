/**
 * The list folds the reports are written with: `rows.filter(p).length`,
 * `rows.filter(p).reduce((sum, r) => sum + f(r), 0)` and
 * `rows.filter(p).reduce((m, r) => Math.max(m, f(r)), 0)`, as recursive functions
 * over sequences, with the algebra the report lemmas need.
 */
module Folds {
  import opened Wrappers

  /** `xs.filter(p)` */
  function Filter<T>(xs: seq<T>, p: T -> bool): (ys: seq<T>)
    ensures |ys| <= |xs|
    ensures forall y :: y in ys ==> y in xs && p(y)
    ensures forall y :: y in xs && p(y) ==> y in ys
  {
    if xs == [] then [] else (if p(xs[0]) then [xs[0]] else []) + Filter(xs[1..], p)
  }

  /** Filtering keeps every selected element as often as it occurs and drops the rest. */
  lemma {:induction false} FilterMultiset<T>(xs: seq<T>, p: T -> bool, x: T)
    ensures multiset(Filter(xs, p))[x] == if p(x) then multiset(xs)[x] else 0
  {
    if xs != [] {
      FilterMultiset(xs[1..], p, x);
      assert xs == [xs[0]] + xs[1..];
    }
  }

  /** `xs.filter(p).length` */
  function CountIf<T>(xs: seq<T>, p: T -> bool): (n: nat)
    ensures n <= |xs|
  {
    if xs == [] then 0 else (if p(xs[0]) then 1 else 0) + CountIf(xs[1..], p)
  }

  /** `xs.filter(p).reduce((sum, x) => sum + f(x), 0)` */
  function SumIf<T>(xs: seq<T>, p: T -> bool, f: T -> int): int
  {
    if xs == [] then 0 else (if p(xs[0]) then f(xs[0]) else 0) + SumIf(xs[1..], p, f)
  }

  /** `xs.reduce((sum, x) => sum + f(x), 0)` */
  function Sum<T>(xs: seq<T>, f: T -> int): int
  {
    if xs == [] then 0 else f(xs[0]) + Sum(xs[1..], f)
  }

  /** `xs.filter(p).reduce((m, x) => Math.max(m, f(x)), init)` */
  function MaxIf<T>(xs: seq<T>, p: T -> bool, f: T -> int, init: int): (m: int)
    ensures m >= init
    ensures forall x :: x in xs && p(x) ==> f(x) <= m
    ensures m == init || exists x :: x in xs && p(x) && f(x) == m
  {
    if xs == [] then init
    else
      var acc := if p(xs[0]) && f(xs[0]) > init then f(xs[0]) else init;
      var m := MaxIf(xs[1..], p, f, acc);
      assert forall x :: x in xs ==> x == xs[0] || x in xs[1..];
      m
  }

  lemma {:induction false} FilterLength<T>(xs: seq<T>, p: T -> bool)
    ensures |Filter(xs, p)| == CountIf(xs, p)
  {
    if xs != [] {
      FilterLength(xs[1..], p);
    }
  }

  lemma {:induction false} FilterAppend<T>(a: seq<T>, b: seq<T>, p: T -> bool)
    ensures Filter(a + b, p) == Filter(a, p) + Filter(b, p)
  {
    if a == [] {
      assert a + b == b;
    } else {
      assert (a + b)[1..] == a[1..] + b;
      FilterAppend(a[1..], b, p);
    }
  }

  lemma {:induction false} CountIfAppend<T>(a: seq<T>, b: seq<T>, p: T -> bool)
    ensures CountIf(a + b, p) == CountIf(a, p) + CountIf(b, p)
  {
    if a == [] {
      assert a + b == b;
    } else {
      assert (a + b)[1..] == a[1..] + b;
      CountIfAppend(a[1..], b, p);
    }
  }

  lemma {:induction false} SumIfAppend<T>(a: seq<T>, b: seq<T>, p: T -> bool, f: T -> int)
    ensures SumIf(a + b, p, f) == SumIf(a, p, f) + SumIf(b, p, f)
  {
    if a == [] {
      assert a + b == b;
    } else {
      assert (a + b)[1..] == a[1..] + b;
      SumIfAppend(a[1..], b, p, f);
    }
  }

  lemma {:induction false} SumAppend<T>(a: seq<T>, b: seq<T>, f: T -> int)
    ensures Sum(a + b, f) == Sum(a, f) + Sum(b, f)
  {
    if a == [] {
      assert a + b == b;
    } else {
      assert (a + b)[1..] == a[1..] + b;
      SumAppend(a[1..], b, f);
    }
  }

  /** Two selections that agree on every row select the same count and sum. */
  lemma {:induction false} SumIfExt<T>(xs: seq<T>, p: T -> bool, q: T -> bool, f: T -> int, g: T -> int)
    requires forall x :: x in xs ==> p(x) == q(x) && (p(x) ==> f(x) == g(x))
    ensures SumIf(xs, p, f) == SumIf(xs, q, g)
  {
    if xs != [] {
      SumIfExt(xs[1..], p, q, f, g);
    }
  }

  lemma {:induction false} CountIfExt<T>(xs: seq<T>, p: T -> bool, q: T -> bool)
    requires forall x :: x in xs ==> p(x) == q(x)
    ensures CountIf(xs, p) == CountIf(xs, q)
  {
    if xs != [] {
      CountIfExt(xs[1..], p, q);
    }
  }

  /** A count is the sum of 1 over the selected rows. */
  lemma {:induction false} CountIsSumOfOnes<T>(xs: seq<T>, p: T -> bool, one: T -> int)
    requires forall x :: x in xs ==> one(x) == 1
    ensures SumIf(xs, p, one) == CountIf(xs, p)
  {
    if xs != [] {
      CountIsSumOfOnes(xs[1..], p, one);
    }
  }

  /** Selecting more rows never lowers a sum of non-negative values. */
  lemma {:induction false} SumIfMonotone<T>(xs: seq<T>, p: T -> bool, q: T -> bool, f: T -> int)
    requires forall x :: x in xs ==> (p(x) ==> q(x)) && f(x) >= 0
    ensures 0 <= SumIf(xs, p, f) <= SumIf(xs, q, f)
  {
    if xs != [] {
      SumIfMonotone(xs[1..], p, q, f);
    }
  }

  lemma {:induction false} CountIfMonotone<T>(xs: seq<T>, p: T -> bool, q: T -> bool)
    requires forall x :: x in xs ==> (p(x) ==> q(x))
    ensures CountIf(xs, p) <= CountIf(xs, q)
  {
    if xs != [] {
      CountIfMonotone(xs[1..], p, q);
    }
  }

  /** A selection split into two disjoint parts sums to the sum of the parts. */
  lemma {:induction false} SumIfSplit<T>(xs: seq<T>, p: T -> bool, q: T -> bool, r: T -> bool, f: T -> int)
    requires forall x :: x in xs ==> (p(x) <==> q(x) || r(x)) && !(q(x) && r(x))
    ensures SumIf(xs, p, f) == SumIf(xs, q, f) + SumIf(xs, r, f)
  {
    if xs != [] {
      SumIfSplit(xs[1..], p, q, r, f);
    }
  }

  lemma {:induction false} CountIfSplit<T>(xs: seq<T>, p: T -> bool, q: T -> bool, r: T -> bool)
    requires forall x :: x in xs ==> (p(x) <==> q(x) || r(x)) && !(q(x) && r(x))
    ensures CountIf(xs, p) == CountIf(xs, q) + CountIf(xs, r)
  {
    if xs != [] {
      CountIfSplit(xs[1..], p, q, r);
    }
  }

  /** Two disjoint selections inside a third count at most as many rows as it. */
  lemma {:induction false} CountIfDisjoint<T>(xs: seq<T>, p: T -> bool, q: T -> bool, r: T -> bool)
    requires forall x :: x in xs ==> (p(x) ==> r(x)) && (q(x) ==> r(x)) && !(p(x) && q(x))
    ensures CountIf(xs, p) + CountIf(xs, q) <= CountIf(xs, r)
  {
    if xs != [] {
      assert forall x :: x in xs[1..] ==> x in xs;
      CountIfDisjoint(xs[1..], p, q, r);
    }
  }

  /** Selecting every row is the plain sum. */
  lemma {:induction false} SumIfAll<T>(xs: seq<T>, p: T -> bool, f: T -> int)
    requires forall x :: x in xs ==> p(x)
    ensures SumIf(xs, p, f) == Sum(xs, f)
  {
    if xs != [] {
      SumIfAll(xs[1..], p, f);
    }
  }

  /** A sum over filtered rows is a sum over the rows under the conjoined selection `pq`. */
  lemma {:induction false} SumIfOfFilter<T>(xs: seq<T>, p: T -> bool, q: T -> bool, pq: T -> bool, f: T -> int)
    requires forall x :: pq(x) == (p(x) && q(x))
    ensures SumIf(Filter(xs, p), q, f) == SumIf(xs, pq, f)
  {
    if xs != [] {
      var head := if p(xs[0]) then [xs[0]] else [];
      SumIfAppend(head, Filter(xs[1..], p), q, f);
      SumIfOfFilter(xs[1..], p, q, pq, f);
    }
  }

  lemma {:induction false} CountIfOfFilter<T>(xs: seq<T>, p: T -> bool, q: T -> bool, pq: T -> bool)
    requires forall x :: pq(x) == (p(x) && q(x))
    ensures CountIf(Filter(xs, p), q) == CountIf(xs, pq)
  {
    if xs != [] {
      var head := if p(xs[0]) then [xs[0]] else [];
      CountIfAppend(head, Filter(xs[1..], p), q);
      CountIfOfFilter(xs[1..], p, q, pq);
    }
  }

  /** `xs.find(p)`: the first row satisfying `p`, when there is one. */
  function Find<T>(xs: seq<T>, p: T -> bool): (r: Option<T>)
    ensures r.None? <==> forall i :: 0 <= i < |xs| ==> !p(xs[i])
    ensures r.Some? ==> r.value in xs && p(r.value)
  {
    if xs == [] then None
    else if p(xs[0]) then Some(xs[0])
    else
      var r := Find(xs[1..], p);
      assert forall i :: 1 <= i < |xs| ==> xs[i] == xs[1..][i - 1];
      r
  }

  /** The distinct values in order of first appearance. */
  function Dedup<T(==)>(xs: seq<T>): (ds: seq<T>)
    ensures forall i :: 0 <= i < |ds| ==> ds[i] in xs
    ensures forall i :: 0 <= i < |xs| ==> xs[i] in ds
    ensures forall i, j :: 0 <= i < j < |ds| ==> ds[i] != ds[j]
  {
    if xs == [] then []
    else
      var init := xs[..|xs| - 1];
      var d := Dedup(init);
      assert xs == init + [xs[|xs| - 1]];
      if xs[|xs| - 1] in d then d else d + [xs[|xs| - 1]]
  }

  /** Taking one row out of a sequence takes its term out of a selected sum. */
  lemma {:induction false} SumIfRemoveAt<T>(b: seq<T>, k: int, p: T -> bool, f: T -> int)
    requires 0 <= k < |b|
    ensures multiset(b[..k] + b[k + 1..]) == multiset(b) - multiset{b[k]}
    ensures SumIf(b, p, f) == (if p(b[k]) then f(b[k]) else 0) + SumIf(b[..k] + b[k + 1..], p, f)
  {
    assert b == b[..k] + [b[k]] + b[k + 1..];
    assert multiset(b) == multiset(b[..k]) + multiset{b[k]} + multiset(b[k + 1..]);
    SumIfAppend(b[..k] + [b[k]], b[k + 1..], p, f);
    SumIfAppend(b[..k], [b[k]], p, f);
    SumIfAppend(b[..k], b[k + 1..], p, f);
  }

  /** Reordering the rows does not change a selected sum. */
  lemma {:induction false} SumIfPermutation<T>(a: seq<T>, b: seq<T>, p: T -> bool, f: T -> int)
    requires multiset(a) == multiset(b)
    ensures SumIf(a, p, f) == SumIf(b, p, f)
  {
    if a != [] {
      assert a[0] in multiset(b);
      var k :| 0 <= k < |b| && b[k] == a[0];
      SumIfRemoveAt(b, k, p, f);
      assert a == [a[0]] + a[1..];
      assert multiset(a[1..]) == multiset(a) - multiset{a[0]};
      SumIfPermutation(a[1..], b[..k] + b[k + 1..], p, f);
    }
  }

  /** Summing the filtered rows is summing the rows the filter keeps. */
  lemma {:induction false} FilterSumIf<T>(xs: seq<T>, p: T -> bool, f: T -> int, all: T -> bool)
    requires forall x :: all(x)
    ensures SumIf(Filter(xs, p), all, f) == SumIf(xs, p, f)
  {
    if xs != [] {
      var head := if p(xs[0]) then [xs[0]] else [];
      SumIfAppend(head, Filter(xs[1..], p), all, f);
      FilterSumIf(xs[1..], p, f, all);
    }
  }

  /** Selecting every row counts them all. */
  lemma {:induction false} CountIfAll<T>(xs: seq<T>, p: T -> bool)
    requires forall x :: x in xs ==> p(x)
    ensures CountIf(xs, p) == |xs|
  {
    if xs != [] {
      CountIfAll(xs[1..], p);
    }
  }

  /** Two selections that agree on every row keep the same rows. */
  lemma {:induction false} FilterExt<T>(xs: seq<T>, p: T -> bool, q: T -> bool)
    requires forall x :: x in xs ==> p(x) == q(x)
    ensures Filter(xs, p) == Filter(xs, q)
  {
    if xs != [] {
      FilterExt(xs[1..], p, q);
    }
  }

  lemma DedupStep<T>(xs: seq<T>, c: T)
    ensures Dedup(xs + [c]) == if c in Dedup(xs) then Dedup(xs) else Dedup(xs) + [c]
  {
    assert (xs + [c])[..|xs|] == xs;
  }

  lemma DedupMember<T>(xs: seq<T>, c: T)
    ensures c in Dedup(xs) <==> c in xs
  {
    if c in xs {
      var i :| 0 <= i < |xs| && xs[i] == c;
    }
    if c in Dedup(xs) {
      var i :| 0 <= i < |Dedup(xs)| && Dedup(xs)[i] == c;
    }
  }

  /** A reordering of a list without repeated elements has none either. */
  lemma DistinctPermutation<T>(a: seq<T>, b: seq<T>)
    requires multiset(a) == multiset(b)
    requires forall i, j :: 0 <= i < j < |b| ==> b[i] != b[j]
    ensures forall i, j :: 0 <= i < j < |a| ==> a[i] != a[j]
  {
    forall i, j | 0 <= i < j < |a|
      ensures a[i] != a[j]
    {
      if a[i] == a[j] {
        TwiceInMultiset(a, i, j);
        DistinctMultiplicity(b, a[i]);
        assert false;
      }
    }
  }

  lemma TwiceInMultiset<T>(a: seq<T>, i: nat, j: nat)
    requires i < j < |a| && a[i] == a[j]
    ensures multiset(a)[a[i]] >= 2
  {
    assert a == a[..j] + [a[j]] + a[j + 1..];
    assert a[..j][i] == a[i];
    assert multiset(a) == multiset(a[..j]) + multiset{a[j]} + multiset(a[j + 1..]);
  }

  lemma {:induction false} DistinctMultiplicity<T>(b: seq<T>, x: T)
    requires forall i, j :: 0 <= i < j < |b| ==> b[i] != b[j]
    ensures multiset(b)[x] <= 1
  {
    if b != [] {
      var t := b[1..];
      assert b == [b[0]] + t;
      assert forall i, j :: 0 <= i < j < |t| ==> t[i] == b[i + 1] && t[j] == b[j + 1];
      DistinctMultiplicity(t, x);
      if b[0] == x {
        forall k | 0 <= k < |t|
          ensures t[k] != x
        {
          assert t[k] == b[k + 1];
        }
        assert x !in t;
      }
    }
  }

  /** Rows whose value is 0 can be left out of a sum: a selection narrowed only by such rows sums the same. */
  lemma {:induction false} SumIfDropZeros<T>(xs: seq<T>, p: T -> bool, q: T -> bool, f: T -> int)
    requires forall x :: x in xs ==> (q(x) ==> p(x)) && (p(x) && !q(x) ==> f(x) == 0)
    ensures SumIf(xs, p, f) == SumIf(xs, q, f)
  {
    if xs != [] {
      SumIfDropZeros(xs[1..], p, q, f);
    }
  }

  /** `xs.map(f)` */
  function MapSeq<T, U>(xs: seq<T>, f: T -> U): (ys: seq<U>)
    ensures |ys| == |xs|
    ensures forall i :: 0 <= i < |xs| ==> ys[i] == f(xs[i])
  {
    seq(|xs|, i requires 0 <= i < |xs| => f(xs[i]))
  }

  lemma MapSeqAppend<T, U>(a: seq<T>, b: seq<T>, f: T -> U)
    ensures MapSeq(a + b, f) == MapSeq(a, f) + MapSeq(b, f)
  {
  }

  /** Mapping two reorderings of the same rows gives two reorderings of the same results. */
  lemma {:induction false} MapPermutation<T, U>(a: seq<T>, b: seq<T>, f: T -> U)
    requires multiset(a) == multiset(b)
    ensures multiset(MapSeq(a, f)) == multiset(MapSeq(b, f))
    decreases |a|
  {
    if a != [] {
      var x := a[0];
      assert x in multiset(b);
      var j :| 0 <= j < |b| && b[j] == x;
      var rest := b[..j] + b[j + 1..];
      assert b == b[..j] + [x] + b[j + 1..];
      assert a == [x] + a[1..];
      assert multiset(b) == multiset(b[..j]) + multiset{x} + multiset(b[j + 1..]);
      assert multiset(a) == multiset{x} + multiset(a[1..]);
      assert multiset(rest) == multiset(b[..j]) + multiset(b[j + 1..]);
      assert multiset(rest) == multiset(b) - multiset{x};
      assert multiset(a[1..]) == multiset(a) - multiset{x};
      MapPermutation(a[1..], rest, f);
      MapSeqAppend([x], a[1..], f);
      MapSeqAppend(b[..j] + [x], b[j + 1..], f);
      MapSeqAppend(b[..j], [x], f);
      MapSeqAppend(b[..j], b[j + 1..], f);
    }
  }

  /** Two lists without repeated elements that hold the same elements are reorderings of each other. */
  lemma SameDistinctMembers<T>(a: seq<T>, b: seq<T>)
    requires forall i, j :: 0 <= i < j < |a| ==> a[i] != a[j]
    requires forall i, j :: 0 <= i < j < |b| ==> b[i] != b[j]
    requires forall x :: x in a <==> x in b
    ensures multiset(a) == multiset(b)
  {
    forall x
      ensures multiset(a)[x] == multiset(b)[x]
    {
      DistinctMultiplicity(a, x);
      DistinctMultiplicity(b, x);
      assert x in a <==> x in multiset(a);
      assert x in b <==> x in multiset(b);
    }
    assert multiset(a) == multiset(b);
  }

  /** A positive count is witnessed by a row. */
  lemma {:induction false} CountIfPositive<T>(xs: seq<T>, p: T -> bool)
    requires CountIf(xs, p) > 0
    ensures exists x :: x in xs && p(x)
  {
    if !p(xs[0]) {
      CountIfPositive(xs[1..], p);
      var x :| x in xs[1..] && p(x);
      assert x in xs;
    }
  }

  /** A row the predicate selects makes the count positive. */
  lemma {:induction false} CountIfWitness<T>(xs: seq<T>, p: T -> bool, x: T)
    requires x in xs && p(x)
    ensures CountIf(xs, p) > 0
  {
    if !p(xs[0]) {
      assert x in xs[1..];
      CountIfWitness(xs[1..], p, x);
    }
  }

  /** A count under a stronger predicate reaches the weaker one's exactly when no row tells the two apart. */
  lemma {:induction false} CountIfEqualIff<T>(xs: seq<T>, p: T -> bool, q: T -> bool)
    requires forall x :: x in xs ==> (p(x) ==> q(x))
    ensures CountIf(xs, p) == CountIf(xs, q) <==> forall x :: x in xs && q(x) ==> p(x)
  {
    if xs != [] {
      assert forall x :: x in xs[1..] ==> x in xs;
      CountIfEqualIff(xs[1..], p, q);
      CountIfMonotone(xs[1..], p, q);
      assert forall x :: x in xs ==> x == xs[0] || x in xs[1..];
    }
  }
}
