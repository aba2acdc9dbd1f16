/**
 * The map-filling loops that turn `groupBy` results into lookup tables:
 *
 *   rows.forEach(r => map.set(key(r), val(r)))                      (flat)
 *   rows.forEach(r => { if (!map.has(a)) map.set(a, new Map());
 *                       map.get(a)!.set(b, val(r)) })              (nested, key (a, b))
 *
 * `FlatOf` and `NestedOf` are what those loops leave behind. When the grouped
 * rows have distinct keys, a lookup with a `|| 0` default, or a sum over the
 * values of the table, equals the corresponding sum over the grouped rows.
 */
module GroupedMaps {
  import opened Wrappers
  import opened JsMap
  import opened Grouping
  import opened Folds

  function KeyIs<K(==)>(k: K): K -> bool
  {
    x => x == k
  }

  function OuterIs<K1(==), K2>(a: K1): ((K1, K2)) -> bool
  {
    (x: (K1, K2)) => x.0 == a
  }

  function PairIs<K1(==), K2(==)>(a: K1, b: K2): ((K1, K2)) -> bool
  {
    (x: (K1, K2)) => x.0 == a && x.1 == b
  }

  /** The table left by `rows.forEach(r => map.set(gkey(r), val(r)))`. */
  function FlatOf<G, K(==), V>(gs: seq<G>, gkey: G -> K, val: G -> V): seq<Entry<K, V>>
  {
    if gs == [] then []
    else Set(FlatOf(gs[..|gs| - 1], gkey, val), gkey(gs[|gs| - 1]), val(gs[|gs| - 1]))
  }

  /** `map.get(a) || new Map()` */
  function Inner<K1(==), K2, V>(m: seq<Entry<K1, seq<Entry<K2, V>>>>, a: K1): seq<Entry<K2, V>>
  {
    Get(m, a).GetOr([])
  }

  /** One step of the nested loop: create the inner map for `a` if missing, then set `b` in it. */
  function AddNested<K1(==), K2(==), V>(m: seq<Entry<K1, seq<Entry<K2, V>>>>, a: K1, b: K2, v: V): seq<Entry<K1, seq<Entry<K2, V>>>>
  {
    Set(m, a, Set(Inner(m, a), b, v))
  }

  /** The table of tables left by the nested loop over rows keyed by `(a, b)`. */
  function NestedOf<G, K1(==), K2(==), V>(gs: seq<G>, gkey: G -> (K1, K2), val: G -> V): seq<Entry<K1, seq<Entry<K2, V>>>>
  {
    if gs == [] then []
    else
      var g := gs[|gs| - 1];
      AddNested(NestedOf(gs[..|gs| - 1], gkey, val), gkey(g).0, gkey(g).1, val(g))
  }

  lemma DistinctPrefix<G, K>(gs: seq<G>, gkey: G -> K)
    requires gs != [] && DistinctKeys(gs, gkey)
    ensures DistinctKeys(gs[..|gs| - 1], gkey)
    ensures forall i :: 0 <= i < |gs| - 1 ==> gkey(gs[i]) != gkey(gs[|gs| - 1])
  {
    var s := gs[..|gs| - 1];
    assert forall i :: 0 <= i < |s| ==> s[i] == gs[i];
  }

  lemma SplitLast<G>(gs: seq<G>)
    requires gs != []
    ensures gs == gs[..|gs| - 1] + [gs[|gs| - 1]]
  {
  }

  /** Every key in the table comes from a grouped row. */
  lemma {:induction false} FlatKeys<G, K, V>(gs: seq<G>, gkey: G -> K, val: G -> V, k: K)
    requires k in Keys(FlatOf(gs, gkey, val))
    ensures exists i :: 0 <= i < |gs| && gkey(gs[i]) == k
  {
    var n := |gs| - 1;
    var s := gs[..n];
    FlatOfLast(gs, gkey, val);
    SetKeysMember(FlatOf(s, gkey, val), gkey(gs[n]), val(gs[n]), k);
    if k == gkey(gs[n]) {
      assert 0 <= n < |gs|;
    } else {
      FlatKeys(s, gkey, val, k);
      var i :| 0 <= i < |s| && gkey(s[i]) == k;
      assert gs[i] == s[i];
    }
  }

  lemma FlatOfLast<G, K, V>(gs: seq<G>, gkey: G -> K, val: G -> V)
    requires gs != []
    ensures FlatOf(gs, gkey, val) == Set(FlatOf(gs[..|gs| - 1], gkey, val), gkey(gs[|gs| - 1]), val(gs[|gs| - 1]))
  {
  }

  /** `w(map.get(k)) || 0` is the aggregate of the one grouped row with key `k`, 0 without one. */
  lemma {:induction false} FlatLookup<G, K, V>(gs: seq<G>, gkey: G -> K, val: G -> V, w: V -> int, gf: G -> int, k: K)
    requires DistinctKeys(gs, gkey)
    requires forall g :: w(val(g)) == gf(g)
    ensures LookupOr0(FlatOf(gs, gkey, val), k, w) == SumKeyIf(gs, gkey, KeyIs(k), gf)
  {
    if gs != [] {
      var s, g := gs[..|gs| - 1], gs[|gs| - 1];
      SplitLast(gs);
      DistinctPrefix(gs, gkey);
      SumKeyIfAppend(s, [g], gkey, KeyIs(k), gf);
      assert SumKeyIf([g], gkey, KeyIs(k), gf) == if gkey(g) == k then gf(g) else 0;
      if gkey(g) == k {
        SetGet(FlatOf(s, gkey, val), k, val(g));
        SumKeyIfNone(s, gkey, KeyIs(k), gf);
      } else {
        SetGetOther(FlatOf(s, gkey, val), gkey(g), val(g), k);
        FlatLookup(s, gkey, val, w, gf, k);
      }
    }
  }

  /** Summing the values of the table sums the aggregate over every grouped row. */
  lemma {:induction false} FlatTotal<G, K, V>(gs: seq<G>, gkey: G -> K, val: G -> V, w: V -> int, gf: G -> int)
    requires DistinctKeys(gs, gkey)
    requires forall g :: w(val(g)) == gf(g)
    ensures SumValues(FlatOf(gs, gkey, val), w) == Sum(gs, gf)
  {
    if gs != [] {
      var s, g := gs[..|gs| - 1], gs[|gs| - 1];
      SplitLast(gs);
      DistinctPrefix(gs, gkey);
      if gkey(g) in Keys(FlatOf(s, gkey, val)) {
        FlatKeys(s, gkey, val, gkey(g));
        assert false;
      }
      SetNewKey(FlatOf(s, gkey, val), gkey(g), val(g));
      SumValuesAppend(FlatOf(s, gkey, val), Entry(gkey(g), val(g)), w);
      FlatTotal(s, gkey, val, w, gf);
      SumAppend(s, [g], gf);
    }
  }

  lemma InnerStep<K1, K2, V>(m: seq<Entry<K1, seq<Entry<K2, V>>>>, a: K1, b: K2, v: V, a': K1)
    ensures Inner(AddNested(m, a, b, v), a') == if a' == a then Set(Inner(m, a), b, v) else Inner(m, a')
  {
    if a' == a {
      SetGet(m, a, Set(Inner(m, a), b, v));
    } else {
      SetGetOther(m, a, Set(Inner(m, a), b, v), a');
    }
  }

  lemma {:induction false} NestedInnerKeys<G, K1, K2, V>(gs: seq<G>, gkey: G -> (K1, K2), val: G -> V, a: K1, b: K2)
    requires b in Keys(Inner(NestedOf(gs, gkey, val), a))
    ensures exists i :: 0 <= i < |gs| && gkey(gs[i]) == (a, b)
  {
    if gs != [] {
      var n := |gs| - 1;
      var s := gs[..n];
      var m := NestedOf(s, gkey, val);
      NestedOfLast(gs, gkey, val);
      InnerStep(m, gkey(gs[n]).0, gkey(gs[n]).1, val(gs[n]), a);
      if gkey(gs[n]) == (a, b) {
        assert 0 <= n < |gs|;
      } else {
        if gkey(gs[n]).0 == a {
          SetKeysMember(Inner(m, a), gkey(gs[n]).1, val(gs[n]), b);
        }
        NestedInnerKeys(s, gkey, val, a, b);
        var i :| 0 <= i < |s| && gkey(s[i]) == (a, b);
        assert gs[i] == s[i];
      }
    }
  }

  /** Every outer key of the table of tables comes from a grouped row. */
  lemma {:induction false} NestedOuterKeys<G, K1, K2, V>(gs: seq<G>, gkey: G -> (K1, K2), val: G -> V, a: K1)
    requires a in Keys(NestedOf(gs, gkey, val))
    ensures exists i :: 0 <= i < |gs| && gkey(gs[i]).0 == a
  {
    if gs != [] {
      var n := |gs| - 1;
      var s := gs[..n];
      var m := NestedOf(s, gkey, val);
      NestedOfLast(gs, gkey, val);
      SetKeysMember(m, gkey(gs[n]).0, Set(Inner(m, gkey(gs[n]).0), gkey(gs[n]).1, val(gs[n])), a);
      if a == gkey(gs[n]).0 {
        assert 0 <= n < |gs|;
      } else {
        NestedOuterKeys(s, gkey, val, a);
        var i :| 0 <= i < |s| && gkey(s[i]).0 == a;
        assert gs[i] == s[i];
      }
    }
  }

  /** An outer key no grouped row has finds no inner table: `map.get(a) || new Map()` is empty. */
  lemma NestedAbsent<G, K1, K2, V>(gs: seq<G>, gkey: G -> (K1, K2), val: G -> V, a: K1)
    requires forall i :: 0 <= i < |gs| ==> gkey(gs[i]).0 != a
    ensures Inner(NestedOf(gs, gkey, val), a) == []
  {
    if a in Keys(NestedOf(gs, gkey, val)) {
      NestedOuterKeys(gs, gkey, val, a);
    }
  }

  /** A key no grouped row has is looked up as absent. */
  lemma FlatAbsent<G, K, V>(gs: seq<G>, gkey: G -> K, val: G -> V, k: K)
    requires forall i :: 0 <= i < |gs| ==> gkey(gs[i]) != k
    ensures Get(FlatOf(gs, gkey, val), k).None?
  {
    if k in Keys(FlatOf(gs, gkey, val)) {
      FlatKeys(gs, gkey, val, k);
    }
  }

  /** With distinct keys, the table holds, at each row's key, that row's value. */
  lemma {:induction false} FlatGet<G, K, V>(gs: seq<G>, gkey: G -> K, val: G -> V, i: nat)
    requires DistinctKeys(gs, gkey) && i < |gs|
    ensures Get(FlatOf(gs, gkey, val), gkey(gs[i])) == Some(val(gs[i]))
  {
    var n := |gs| - 1;
    if i < n {
      DistinctPrefix(gs, gkey);
      FlatGet(gs[..n], gkey, val, i);
      FlatGetStep(gs, gkey, val, i);
    } else {
      FlatOfLast(gs, gkey, val);
      SetGet(FlatOf(gs[..n], gkey, val), gkey(gs[n]), val(gs[n]));
    }
  }

  lemma FlatGetStep<G, K, V>(gs: seq<G>, gkey: G -> K, val: G -> V, i: nat)
    requires i < |gs| - 1 && gkey(gs[i]) != gkey(gs[|gs| - 1])
    requires Get(FlatOf(gs[..|gs| - 1], gkey, val), gkey(gs[..|gs| - 1][i])) == Some(val(gs[..|gs| - 1][i]))
    ensures Get(FlatOf(gs, gkey, val), gkey(gs[i])) == Some(val(gs[i]))
  {
    var n := |gs| - 1;
    assert gs[..n][i] == gs[i];
    FlatOfLast(gs, gkey, val);
    SetGetOther(FlatOf(gs[..n], gkey, val), gkey(gs[n]), val(gs[n]), gkey(gs[i]));
  }

  /** When grouped rows with equal keys carry equal values, the table holds each row's value at its key. */
  lemma {:induction false} FlatGetConsistent<G, K, V>(gs: seq<G>, gkey: G -> K, val: G -> V, x: G)
    requires x in gs
    requires forall a, b :: a in gs && b in gs && gkey(a) == gkey(b) ==> val(a) == val(b)
    ensures Get(FlatOf(gs, gkey, val), gkey(x)) == Some(val(x))
  {
    var last := gs[|gs| - 1];
    var init := gs[..|gs| - 1];
    SplitLast(gs);
    SetGet(FlatOf(init, gkey, val), gkey(last), val(last));
    if gkey(last) != gkey(x) {
      assert x in init;
      assert forall a :: a in init ==> a in gs;
      FlatGetConsistent(init, gkey, val, x);
      SetGetOther(FlatOf(init, gkey, val), gkey(last), val(last), gkey(x));
    }
  }

  /** With distinct keys, the inner table for `a` holds, at `b`, the value of the row keyed `(a, b)`. */
  lemma {:induction false} NestedGet<G, K1, K2, V>(gs: seq<G>, gkey: G -> (K1, K2), val: G -> V, i: nat)
    requires DistinctKeys(gs, gkey) && i < |gs|
    ensures Get(Inner(NestedOf(gs, gkey, val), gkey(gs[i]).0), gkey(gs[i]).1) == Some(val(gs[i]))
  {
    var n := |gs| - 1;
    NestedOfLast(gs, gkey, val);
    if i == n {
      AddNestedGetSame(NestedOf(gs[..n], gkey, val), gkey(gs[n]).0, gkey(gs[n]).1, val(gs[n]));
    } else {
      var s := gs[..n];
      DistinctPrefix(gs, gkey);
      assert gs[i] == s[i];
      NestedGet(s, gkey, val, i);
      AddNestedGetOther(NestedOf(s, gkey, val), gkey(gs[n]).0, gkey(gs[n]).1, val(gs[n]), gkey(gs[i]).0, gkey(gs[i]).1);
    }
  }

  lemma NestedOfLast<G, K1, K2, V>(gs: seq<G>, gkey: G -> (K1, K2), val: G -> V)
    requires gs != []
    ensures NestedOf(gs, gkey, val)
         == AddNested(NestedOf(gs[..|gs| - 1], gkey, val), gkey(gs[|gs| - 1]).0, gkey(gs[|gs| - 1]).1, val(gs[|gs| - 1]))
  {
  }

  /** A nested step sets its own pair. */
  lemma AddNestedGetSame<K1, K2, V>(m: seq<Entry<K1, seq<Entry<K2, V>>>>, a: K1, b: K2, v: V)
    ensures Get(Inner(AddNested(m, a, b, v), a), b) == Some(v)
  {
    InnerStep(m, a, b, v, a);
    SetGet(Inner(m, a), b, v);
  }

  /** A nested step leaves every other pair as it was. */
  lemma AddNestedGetOther<K1, K2, V>(m: seq<Entry<K1, seq<Entry<K2, V>>>>, a0: K1, b0: K2, v: V, a: K1, b: K2)
    requires (a0, b0) != (a, b)
    ensures Get(Inner(AddNested(m, a0, b0, v), a), b) == Get(Inner(m, a), b)
  {
    InnerStep(m, a0, b0, v, a);
    if a0 == a {
      SetGetOther(Inner(m, a), b0, v, b);
    }
  }

  /** `w(map.get(a).get(b)) || 0` is the aggregate of the grouped row keyed `(a, b)`, 0 without one. */
  lemma {:induction false} NestedLookup<G, K1, K2, V>(gs: seq<G>, gkey: G -> (K1, K2), val: G -> V, w: V -> int, gf: G -> int, a: K1, b: K2)
    requires DistinctKeys(gs, gkey)
    requires forall g :: w(val(g)) == gf(g)
    ensures LookupOr0(Inner(NestedOf(gs, gkey, val), a), b, w) == SumKeyIf(gs, gkey, PairIs(a, b), gf)
  {
    if gs != [] {
      var s, g := gs[..|gs| - 1], gs[|gs| - 1];
      var m := NestedOf(s, gkey, val);
      SplitLast(gs);
      NestedOfLast(gs, gkey, val);
      DistinctPrefix(gs, gkey);
      InnerStep(m, gkey(g).0, gkey(g).1, val(g), a);
      SumKeyIfAppend(s, [g], gkey, PairIs(a, b), gf);
      assert SumKeyIf([g], gkey, PairIs(a, b), gf) == if gkey(g) == (a, b) then gf(g) else 0;
      if gkey(g) == (a, b) {
        AddNestedGetSame(m, a, b, val(g));
        SumKeyIfNone(s, gkey, PairIs(a, b), gf);
      } else {
        AddNestedGetOther(m, gkey(g).0, gkey(g).1, val(g), a, b);
        NestedLookup(s, gkey, val, w, gf, a, b);
      }
    }
  }

  /** The sum of the values of the inner table for `a` is the aggregate over the rows whose outer key is `a`. */
  lemma {:induction false} NestedTotal<G, K1, K2, V>(gs: seq<G>, gkey: G -> (K1, K2), val: G -> V, w: V -> int, gf: G -> int, a: K1)
    requires DistinctKeys(gs, gkey)
    requires forall g :: w(val(g)) == gf(g)
    ensures SumValues(Inner(NestedOf(gs, gkey, val), a), w) == SumKeyIf(gs, gkey, OuterIs(a), gf)
  {
    if gs != [] {
      var s, g := gs[..|gs| - 1], gs[|gs| - 1];
      SplitLast(gs);
      DistinctPrefix(gs, gkey);
      SumKeyIfLast(s, g, gkey, OuterIs(a), gf);
      NestedTotal(s, gkey, val, w, gf, a);
      NestedTotalStep(s, g, gkey, val, w, a);
    }
  }

  lemma NestedTotalStep<G, K1, K2, V>(s: seq<G>, g: G, gkey: G -> (K1, K2), val: G -> V, w: V -> int, a: K1)
    requires forall i :: 0 <= i < |s| ==> gkey(s[i]) != gkey(g)
    ensures SumValues(Inner(NestedOf(s + [g], gkey, val), a), w)
         == SumValues(Inner(NestedOf(s, gkey, val), a), w) + (if gkey(g).0 == a then w(val(g)) else 0)
  {
    var m := NestedOf(s, gkey, val);
    assert (s + [g])[..|s|] == s;
    assert NestedOf(s + [g], gkey, val) == AddNested(m, gkey(g).0, gkey(g).1, val(g));
    InnerStep(m, gkey(g).0, gkey(g).1, val(g), a);
    if gkey(g).0 == a {
      NestedFreshKey(s, g, gkey, val, a);
      SetNewKeySum(Inner(m, a), gkey(g).1, val(g), w);
    }
  }

  lemma NestedFreshKey<G, K1, K2, V>(s: seq<G>, g: G, gkey: G -> (K1, K2), val: G -> V, a: K1)
    requires forall i :: 0 <= i < |s| ==> gkey(s[i]) != gkey(g)
    requires gkey(g).0 == a
    ensures gkey(g).1 !in Keys(Inner(NestedOf(s, gkey, val), a))
  {
    if gkey(g).1 in Keys(Inner(NestedOf(s, gkey, val), a)) {
      NestedInnerKeys(s, gkey, val, a, gkey(g).1);
      assert false;
    }
  }

  /** `rows.forEach(r => map.set(gkey(r), val(r)))` on a fresh `Map`. */
  method FillFlat<G, K(==), V>(gs: seq<G>, gkey: G -> K, val: G -> V) returns (m: seq<Entry<K, V>>)
    ensures m == FlatOf(gs, gkey, val)
  {
    m := [];
    var i := 0;
    while i < |gs|
      invariant 0 <= i <= |gs|
      invariant m == FlatOf(gs[..i], gkey, val)
    {
      assert gs[..i + 1][..i] == gs[..i];
      m := Set(m, gkey(gs[i]), val(gs[i]));
      i := i + 1;
    }
    assert gs[..i] == gs;
  }

  /** Creating a missing inner map, then setting in it, is one `AddNested` step. */
  lemma OpenThenSet<K1, K2, V>(m: seq<Entry<K1, seq<Entry<K2, V>>>>, a: K1, b: K2, v: V)
    ensures var m1 := if a !in Keys(m) then Set(m, a, []) else m;
            a in Keys(m1) && Set(m1, a, Set(Inner(m1, a), b, v)) == AddNested(m, a, b, v)
  {
    if a !in Keys(m) {
      SetKeysMember(m, a, [], a);
      SetGet(m, a, []);
      SetTwice(m, a, [], Set([], b, v));
    }
  }

  lemma NestedOfNext<G, K1, K2, V>(gs: seq<G>, gkey: G -> (K1, K2), val: G -> V, i: nat)
    requires i < |gs|
    ensures NestedOf(gs[..i + 1], gkey, val) == AddNested(NestedOf(gs[..i], gkey, val), gkey(gs[i]).0, gkey(gs[i]).1, val(gs[i]))
  {
    assert gs[..i + 1][..i] == gs[..i];
  }

  /**
   * The nested `forEach`: when the outer key is new it gets an empty inner
   * `Map`, then the value is set in the inner map of its outer key.
   */
  method FillNested<G, K1(==), K2(==), V>(gs: seq<G>, gkey: G -> (K1, K2), val: G -> V) returns (m: seq<Entry<K1, seq<Entry<K2, V>>>>)
    ensures m == NestedOf(gs, gkey, val)
  {
    m := [];
    var i := 0;
    while i < |gs|
      invariant 0 <= i <= |gs|
      invariant m == NestedOf(gs[..i], gkey, val)
    {
      m := OpenAndSet(m, gkey(gs[i]).0, gkey(gs[i]).1, val(gs[i]));
      NestedOfNext(gs, gkey, val, i);
      i := i + 1;
    }
    assert gs[..i] == gs;
  }

  /** The body of the nested `forEach`: `if (!map.has(a)) map.set(a, new Map()); map.get(a)!.set(b, v)`. */
  method OpenAndSet<K1(==), K2(==), V>(m0: seq<Entry<K1, seq<Entry<K2, V>>>>, a: K1, b: K2, v: V) returns (m: seq<Entry<K1, seq<Entry<K2, V>>>>)
    ensures m == AddNested(m0, a, b, v)
  {
    OpenThenSet(m0, a, b, v);
    m := m0;
    if a !in Keys(m) {
      m := Set(m, a, []);
    }
    var inner := Get(m, a).value;
    m := Set(m, a, Set(inner, b, v));
  }
}
