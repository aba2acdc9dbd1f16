/**
 * The relation between a database `groupBy` result and the raw rows it groups.
 *
 * A grouped result `g` carries one row per distinct key present in the raw rows
 * `xs`, and an aggregate column of each grouped row (a `_count`, a `_sum`) is the
 * sum of a per-row value over the raw rows with that key. The theorem
 * `GroupedSum` then says that folding the grouped rows selected by a key
 * predicate gives the same number as the direct filter-and-sum over the raw rows:
 * the identity the "grouped" rewrites of the reports rely on.
 */
module Grouping {
  import opened Folds

  /** Sum of `f` over the rows whose key satisfies `p`. */
  function SumKeyIf<T, K>(xs: seq<T>, key: T -> K, p: K -> bool, f: T -> int): int
  {
    if xs == [] then 0 else (if p(key(xs[0])) then f(xs[0]) else 0) + SumKeyIf(xs[1..], key, p, f)
  }

  /** Sum of `f` over the rows whose key is `k`: one aggregate cell of a grouped row. */
  function SumWithKey<T, K(==)>(xs: seq<T>, key: T -> K, f: T -> int, k: K): int
  {
    if xs == [] then 0 else (if key(xs[0]) == k then f(xs[0]) else 0) + SumWithKey(xs[1..], key, f, k)
  }

  /** No two grouped rows share a key. */
  ghost predicate DistinctKeys<G, K>(g: seq<G>, gkey: G -> K)
  {
    forall i, j :: 0 <= i < j < |g| ==> gkey(g[i]) != gkey(g[j])
  }

  /** Every raw row's key has a grouped row. */
  ghost predicate Covers<T, G, K>(xs: seq<T>, key: T -> K, g: seq<G>, gkey: G -> K)
  {
    forall x :: x in xs ==> exists i :: 0 <= i < |g| && gkey(g[i]) == key(x)
  }

  /** The aggregate `gf` of every grouped row is the sum of `f` over the raw rows with its key. */
  ghost predicate AggregatesBy<T, G, K>(xs: seq<T>, key: T -> K, f: T -> int, g: seq<G>, gkey: G -> K, gf: G -> int)
  {
    forall i :: 0 <= i < |g| ==> gf(g[i]) == SumWithKey(xs, key, f, gkey(g[i]))
  }

  /** Sum over the grouped rows selected by `p` of the raw sums for their keys. */
  ghost function GroupTotal<T, G, K>(g: seq<G>, gkey: G -> K, p: K -> bool, xs: seq<T>, key: T -> K, f: T -> int): int
  {
    if g == [] then 0
    else (if p(gkey(g[0])) then SumWithKey(xs, key, f, gkey(g[0])) else 0) + GroupTotal(g[1..], gkey, p, xs, key, f)
  }

  /** Sum of `v` over the grouped rows selected by `p` whose key is `k`. */
  ghost function HitSum<G, K>(g: seq<G>, gkey: G -> K, p: K -> bool, k: K, v: int): int
  {
    if g == [] then 0 else (if p(gkey(g[0])) && gkey(g[0]) == k then v else 0) + HitSum(g[1..], gkey, p, k, v)
  }

  lemma {:induction false} HitSumAbsent<G, K>(g: seq<G>, gkey: G -> K, p: K -> bool, k: K, v: int)
    requires forall i :: 0 <= i < |g| ==> gkey(g[i]) != k
    ensures HitSum(g, gkey, p, k, v) == 0
  {
    if g != [] {
      HitSumAbsent(g[1..], gkey, p, k, v);
    }
  }

  lemma {:induction false} HitSumUnique<G, K>(g: seq<G>, gkey: G -> K, p: K -> bool, k: K, v: int)
    requires DistinctKeys(g, gkey)
    requires exists i :: 0 <= i < |g| && gkey(g[i]) == k
    ensures HitSum(g, gkey, p, k, v) == if p(k) then v else 0
  {
    var i :| 0 <= i < |g| && gkey(g[i]) == k;
    if i == 0 {
      HitSumAbsent(g[1..], gkey, p, k, v);
    } else {
      assert gkey(g[1..][i - 1]) == k;
      HitSumUnique(g[1..], gkey, p, k, v);
    }
  }

  lemma {:induction false} GroupTotalStep<T, G, K>(g: seq<G>, gkey: G -> K, p: K -> bool, xs: seq<T>, key: T -> K, f: T -> int)
    requires xs != []
    ensures GroupTotal(g, gkey, p, xs, key, f)
         == HitSum(g, gkey, p, key(xs[0]), f(xs[0])) + GroupTotal(g, gkey, p, xs[1..], key, f)
  {
    if g != [] {
      GroupTotalStep(g[1..], gkey, p, xs, key, f);
    }
  }

  lemma {:induction false} GroupTotalIsRawSum<T, G, K>(g: seq<G>, gkey: G -> K, p: K -> bool, xs: seq<T>, key: T -> K, f: T -> int)
    requires DistinctKeys(g, gkey) && Covers(xs, key, g, gkey)
    ensures GroupTotal(g, gkey, p, xs, key, f) == SumKeyIf(xs, key, p, f)
  {
    if xs == [] {
      GroupTotalOfNothing(g, gkey, p, xs, key, f);
    } else {
      GroupTotalStep(g, gkey, p, xs, key, f);
      assert xs[0] in xs;
      HitSumUnique(g, gkey, p, key(xs[0]), f(xs[0]));
      assert forall x :: x in xs[1..] ==> x in xs;
      GroupTotalIsRawSum(g, gkey, p, xs[1..], key, f);
    }
  }

  lemma {:induction false} GroupTotalOfNothing<T, G, K>(g: seq<G>, gkey: G -> K, p: K -> bool, xs: seq<T>, key: T -> K, f: T -> int)
    requires xs == []
    ensures GroupTotal(g, gkey, p, xs, key, f) == 0
  {
    if g != [] {
      GroupTotalOfNothing(g[1..], gkey, p, xs, key, f);
    }
  }

  lemma {:induction false} GroupTotalIsGroupedSum<T, G, K>(g: seq<G>, gkey: G -> K, p: K -> bool, xs: seq<T>, key: T -> K, f: T -> int, gf: G -> int)
    requires AggregatesBy(xs, key, f, g, gkey, gf)
    ensures GroupTotal(g, gkey, p, xs, key, f) == SumKeyIf(g, gkey, p, gf)
  {
    if g != [] {
      assert forall i :: 0 <= i < |g[1..]| ==> g[1..][i] == g[i + 1];
      GroupTotalIsGroupedSum(g[1..], gkey, p, xs, key, f, gf);
    }
  }

  /**
   * Folding the grouped rows selected by a key predicate equals the direct
   * filter-and-sum over the raw rows: the grouped rewrite computes what the
   * per-entity queries computed.
   */
  lemma GroupedSum<T, G, K>(xs: seq<T>, key: T -> K, f: T -> int, g: seq<G>, gkey: G -> K, gf: G -> int, p: K -> bool)
    requires DistinctKeys(g, gkey) && Covers(xs, key, g, gkey) && AggregatesBy(xs, key, f, g, gkey, gf)
    ensures SumKeyIf(g, gkey, p, gf) == SumKeyIf(xs, key, p, f)
  {
    GroupTotalIsGroupedSum(g, gkey, p, xs, key, f, gf);
    GroupTotalIsRawSum(g, gkey, p, xs, key, f);
  }

  /** A key predicate that selects one key picks out at most one grouped row. */
  lemma {:induction false} SumKeyIfSingle<G, K>(g: seq<G>, gkey: G -> K, p: K -> bool, gf: G -> int, i: nat)
    requires DistinctKeys(g, gkey)
    requires i < |g| && p(gkey(g[i]))
    requires forall j :: 0 <= j < |g| && p(gkey(g[j])) ==> j == i
    ensures SumKeyIf(g, gkey, p, gf) == gf(g[i])
  {
    if i == 0 {
      SumKeyIfNone(g[1..], gkey, p, gf);
    } else {
      assert forall j :: 0 <= j < |g[1..]| ==> g[1..][j] == g[j + 1];
      SumKeyIfSingle(g[1..], gkey, p, gf, i - 1);
    }
  }

  lemma {:induction false} SumKeyIfNone<G, K>(g: seq<G>, gkey: G -> K, p: K -> bool, gf: G -> int)
    requires forall j :: 0 <= j < |g| ==> !p(gkey(g[j]))
    ensures SumKeyIf(g, gkey, p, gf) == 0
  {
    if g != [] {
      SumKeyIfNone(g[1..], gkey, p, gf);
    }
  }

  lemma {:induction false} SumKeyIfAppend<G, K>(a: seq<G>, b: seq<G>, gkey: G -> K, p: K -> bool, gf: G -> int)
    ensures SumKeyIf(a + b, gkey, p, gf) == SumKeyIf(a, gkey, p, gf) + SumKeyIf(b, gkey, p, gf)
  {
    if a == [] {
      assert a + b == b;
    } else {
      assert (a + b)[1..] == a[1..] + b;
      SumKeyIfAppend(a[1..], b, gkey, p, gf);
    }
  }

  lemma SumKeyIfLast<G, K>(s: seq<G>, g: G, gkey: G -> K, p: K -> bool, gf: G -> int)
    ensures SumKeyIf(s + [g], gkey, p, gf) == SumKeyIf(s, gkey, p, gf) + (if p(gkey(g)) then gf(g) else 0)
  {
    SumKeyIfAppend(s, [g], gkey, p, gf);
  }

  /** A key predicate read as a row predicate: the keyed sum is the plain filtered sum. */
  lemma {:induction false} SumKeyIfAsSumIf<T, K>(xs: seq<T>, key: T -> K, p: K -> bool, q: T -> bool, f: T -> int)
    requires forall x :: x in xs ==> q(x) == p(key(x))
    ensures SumKeyIf(xs, key, p, f) == SumIf(xs, q, f)
  {
    if xs != [] {
      assert forall x :: x in xs[1..] ==> x in xs;
      SumKeyIfAsSumIf(xs[1..], key, p, q, f);
    }
  }

  /**
   * The grouped form of the theorem for row predicates: a filtered sum over
   * the grouped rows equals the filtered sum over the raw rows, when both
   * filters ask the same of the key.
   */
  lemma GroupedFilterSum<T, G, K>(xs: seq<T>, key: T -> K, f: T -> int, q: T -> bool,
                                  g: seq<G>, gkey: G -> K, gf: G -> int, gq: G -> bool, p: K -> bool)
    requires DistinctKeys(g, gkey) && Covers(xs, key, g, gkey) && AggregatesBy(xs, key, f, g, gkey, gf)
    requires forall x :: x in xs ==> q(x) == p(key(x))
    requires forall y :: y in g ==> gq(y) == p(gkey(y))
    ensures SumIf(g, gq, gf) == SumIf(xs, q, f)
  {
    GroupedSum(xs, key, f, g, gkey, gf, p);
    SumKeyIfAsSumIf(xs, key, p, q, f);
    SumKeyIfAsSumIf(g, gkey, p, gq, gf);
  }
  /**
   * Two disjoint key selections that both lie inside a third add up to at
   * most the third's sum, when every aggregate is non-negative.
   */
  lemma {:induction false} SumKeyIfDisjoint<G, K>(g: seq<G>, gkey: G -> K, p: K -> bool, q: K -> bool, r: K -> bool, gf: G -> int)
    requires forall y :: y in g ==> gf(y) >= 0
    requires forall y :: y in g ==> (p(gkey(y)) ==> r(gkey(y))) && (q(gkey(y)) ==> r(gkey(y))) && !(p(gkey(y)) && q(gkey(y)))
    ensures 0 <= SumKeyIf(g, gkey, p, gf) && 0 <= SumKeyIf(g, gkey, q, gf)
    ensures SumKeyIf(g, gkey, p, gf) + SumKeyIf(g, gkey, q, gf) <= SumKeyIf(g, gkey, r, gf)
  {
    if g != [] {
      assert forall y :: y in g[1..] ==> y in g;
      SumKeyIfDisjoint(g[1..], gkey, p, q, r, gf);
    }
  }

  function KeyHolds<T, K>(key: T -> K, p: K -> bool): T -> bool
  {
    (x: T) => p(key(x))
  }

  /** The raw rows grouped: distinct keys, every raw key present, and each aggregate the raw sum for its key. */
  ghost predicate IsGrouping<T, G, K>(xs: seq<T>, key: T -> K, f: T -> int, g: seq<G>, gkey: G -> K, gf: G -> int)
  {
    DistinctKeys(g, gkey) && Covers(xs, key, g, gkey) && AggregatesBy(xs, key, f, g, gkey, gf)
  }

  /**
   * The grouped rows of the rows a query `sel` selects, with a `_count`
   * aggregate: the counts of the groups whose key satisfies `p` add up to
   * the number of rows that `sel` selects and whose key satisfies `p`.
   */
  lemma GroupedCountOfFilter<T, G, K>(xs: seq<T>, sel: T -> bool, key: T -> K, one: T -> int,
                                      g: seq<G>, gkey: G -> K, gf: G -> int, p: K -> bool, q: T -> bool)
    requires forall x :: one(x) == 1
    requires IsGrouping(Filter(xs, sel), key, one, g, gkey, gf)
    requires forall x :: q(x) == (sel(x) && p(key(x)))
    ensures SumKeyIf(g, gkey, p, gf) == CountIf(xs, q)
  {
    GroupedSum(Filter(xs, sel), key, one, g, gkey, gf, p);
    SumKeyIfAsSumIf(Filter(xs, sel), key, p, KeyHolds(key, p), one);
    SumIfOfFilter(xs, sel, KeyHolds(key, p), q, one);
    CountIsSumOfOnes(xs, q, one);
  }

  /** The same for a `_sum` aggregate of `f`. */
  lemma GroupedSumOfFilter<T, G, K>(xs: seq<T>, sel: T -> bool, key: T -> K, f: T -> int,
                                    g: seq<G>, gkey: G -> K, gf: G -> int, p: K -> bool, q: T -> bool)
    requires IsGrouping(Filter(xs, sel), key, f, g, gkey, gf)
    requires forall x :: q(x) == (sel(x) && p(key(x)))
    ensures SumKeyIf(g, gkey, p, gf) == SumIf(xs, q, f)
  {
    GroupedSum(Filter(xs, sel), key, f, g, gkey, gf, p);
    SumKeyIfAsSumIf(Filter(xs, sel), key, p, KeyHolds(key, p), f);
    SumIfOfFilter(xs, sel, KeyHolds(key, p), q, f);
  }

  /** A key selection that keeps every row is the plain sum. */
  lemma {:induction false} SumKeyIfAll<G, K>(g: seq<G>, gkey: G -> K, p: K -> bool, gf: G -> int)
    requires forall y :: y in g ==> p(gkey(y))
    ensures SumKeyIf(g, gkey, p, gf) == Sum(g, gf)
  {
    if g != [] {
      assert forall y :: y in g[1..] ==> y in g;
      SumKeyIfAll(g[1..], gkey, p, gf);
    }
  }

  /** A wider key selection never lowers a sum of non-negative aggregates. */
  lemma {:induction false} SumKeyIfMonotone<G, K>(g: seq<G>, gkey: G -> K, p: K -> bool, r: K -> bool, gf: G -> int)
    requires forall y :: y in g ==> gf(y) >= 0 && (p(gkey(y)) ==> r(gkey(y)))
    ensures 0 <= SumKeyIf(g, gkey, p, gf) <= SumKeyIf(g, gkey, r, gf)
  {
    if g != [] {
      assert forall y :: y in g[1..] ==> y in g;
      SumKeyIfMonotone(g[1..], gkey, p, r, gf);
    }
  }

  /** A grouped row with a non-zero aggregate has raw rows behind it. */
  lemma {:induction false} SumWithKeyNonZero<T, K>(xs: seq<T>, key: T -> K, f: T -> int, k: K)
    requires SumWithKey(xs, key, f, k) != 0
    ensures exists x :: x in xs && key(x) == k
  {
    if key(xs[0]) != k || f(xs[0]) == 0 {
      SumWithKeyNonZero(xs[1..], key, f, k);
      var x :| x in xs[1..] && key(x) == k;
      assert x in xs;
    }
  }
}
