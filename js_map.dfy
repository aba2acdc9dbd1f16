/**
 * JavaScript's `Map` and plain-object accumulators (`acc[key] = value`) as
 * insertion-ordered association lists: `Set` replaces the value of a key that
 * is already present, in place, and otherwise appends a new entry at the end;
 * iteration (`map.values()`, `Array.from(map.entries())`) follows entry order.
 */
module JsMap {
  import opened Wrappers
  import opened Folds

  datatype Entry<K, V> = Entry(key: K, value: V)

  function Keys<K, V>(m: seq<Entry<K, V>>): (ks: seq<K>)
    ensures |ks| == |m|
  {
    if m == [] then [] else [m[0].key] + Keys(m[1..])
  }

  lemma {:induction false} KeysAt<K, V>(m: seq<Entry<K, V>>, i: nat)
    requires i < |m|
    ensures Keys(m)[i] == m[i].key
  {
    if i > 0 {
      KeysAt(m[1..], i - 1);
    }
  }

  ghost predicate UniqueKeys<K, V>(m: seq<Entry<K, V>>)
  {
    forall i, j :: 0 <= i < j < |m| ==> m[i].key != m[j].key
  }

  /** `map.get(k)`: the value of the first entry with key `k`. */
  function Get<K(==), V>(m: seq<Entry<K, V>>, k: K): (r: Option<V>)
    ensures r.None? <==> k !in Keys(m)
  {
    if m == [] then None
    else if m[0].key == k then Some(m[0].value)
    else Get(m[1..], k)
  }

  /** What `get` finds is the value of an entry with that key. */
  lemma {:induction false} GetFound<K, V>(m: seq<Entry<K, V>>, k: K)
    requires Get(m, k).Some?
    ensures exists i :: 0 <= i < |m| && m[i] == Entry(k, Get(m, k).value)
  {
    if m[0].key != k {
      GetFound(m[1..], k);
      var i :| 0 <= i < |m[1..]| && m[1..][i] == Entry(k, Get(m, k).value);
      assert m[i + 1] == m[1..][i];
    }
  }

  /** `map.set(k, v)` */
  function Set<K(==), V>(m: seq<Entry<K, V>>, k: K, v: V): seq<Entry<K, V>>
  {
    if m == [] then [Entry(k, v)]
    else if m[0].key == k then [Entry(k, v)] + m[1..]
    else [m[0]] + Set(m[1..], k, v)
  }

  /** `set` keeps the key order and appends a new key at the end. */
  lemma {:induction false} SetKeys<K, V>(m: seq<Entry<K, V>>, k: K, v: V)
    ensures Keys(Set(m, k, v)) == if k in Keys(m) then Keys(m) else Keys(m) + [k]
  {
    if m != [] {
      KeysTail(m);
      if m[0].key == k {
        KeysTail(Set(m, k, v));
        assert Set(m, k, v)[1..] == m[1..];
      } else {
        var rest := Set(m[1..], k, v);
        SetKeys(m[1..], k, v);
        assert Set(m, k, v) == [m[0]] + rest;
        assert Keys([m[0]] + rest) == [m[0].key] + Keys(rest) by {
          KeysTail([m[0]] + rest);
          assert ([m[0]] + rest)[1..] == rest;
        }
        assert k in Keys(m) <==> k in Keys(m[1..]);
        if k !in Keys(m) {
          assert [m[0].key] + (Keys(m[1..]) + [k]) == ([m[0].key] + Keys(m[1..])) + [k];
        }
      }
    }
  }

  /** After `map.set(k, v)`, `map.get(k)` is `v`. */
  lemma {:induction false} SetGet<K, V>(m: seq<Entry<K, V>>, k: K, v: V)
    ensures Get(Set(m, k, v), k) == Some(v)
  {
    if m != [] && m[0].key != k {
      SetGet(m[1..], k, v);
      SetUnfold(m, k, v);
      assert ([m[0]] + Set(m[1..], k, v))[1..] == Set(m[1..], k, v);
    }
  }

  lemma SetKeysMember<K, V>(m: seq<Entry<K, V>>, k: K, v: V, k': K)
    ensures k' in Keys(Set(m, k, v)) <==> k' in Keys(m) || k' == k
  {
    SetKeys(m, k, v);
  }

  /** `set` leaves every other key's value alone. */
  lemma {:induction false} SetGetOther<K, V>(m: seq<Entry<K, V>>, k: K, v: V, k': K)
    requires k' != k
    ensures Get(Set(m, k, v), k') == Get(m, k')
  {
    if m != [] && m[0].key != k {
      SetGetOther(m[1..], k, v, k');
    }
  }

  lemma SetKeepsDistinct<K, V>(m: seq<Entry<K, V>>, k: K, v: V)
    requires UniqueKeys(m)
    ensures UniqueKeys(Set(m, k, v))
  {
    var r := Set(m, k, v);
    SetKeys(m, k, v);
    forall i, j | 0 <= i < j < |r| ensures r[i].key != r[j].key {
      KeysAt(r, i);
      KeysAt(r, j);
      if k !in Keys(m) && j == |m| {
        KeysAt(m, i);
        assert Keys(r)[i] == Keys(m)[i];
      } else {
        KeysAt(m, i);
        KeysAt(m, j);
        assert Keys(r)[i] == Keys(m)[i] && Keys(r)[j] == Keys(m)[j];
      }
    }
  }

  /** A second `set` of the same key overwrites the first. */
  lemma {:induction false} SetTwice<K, V>(m: seq<Entry<K, V>>, k: K, v: V, w: V)
    ensures Set(Set(m, k, v), k, w) == Set(m, k, w)
  {
    if m != [] && m[0].key != k {
      SetTwice(m[1..], k, v, w);
      SetUnfold(m, k, v);
      SetUnfold(m, k, w);
      assert Set(m, k, v)[1..] == Set(m[1..], k, v);
      SetUnfold(Set(m, k, v), k, w);
    }
  }

  /** In a map with distinct keys, the entry at position `i` is what `get` finds for its key. */
  lemma GetAt<K, V>(m: seq<Entry<K, V>>, i: nat)
    requires UniqueKeys(m) && i < |m|
    ensures Get(m, m[i].key) == Some(m[i].value)
  {
    KeysAt(m, i);
    var r := Get(m, m[i].key);
    GetFound(m, m[i].key);
    var j :| 0 <= j < |m| && m[j] == Entry(m[i].key, r.value);
  }

  /** `set` of a new key appends an entry at the end. */
  lemma {:induction false} SetNewKey<K, V>(m: seq<Entry<K, V>>, k: K, v: V)
    requires k !in Keys(m)
    ensures Set(m, k, v) == m + [Entry(k, v)]
  {
    if m != [] {
      var h, t := m[0], m[1..];
      KeysTail(m);
      assert k !in Keys(t);
      SetNewKey(t, k, v);
      assert Set(t, k, v) == t + [Entry(k, v)];
      SetUnfold(m, k, v);
      assert Set(m, k, v) == [h] + (t + [Entry(k, v)]);
      assert m == [h] + t;
    }
  }

  lemma KeysTail<K, V>(m: seq<Entry<K, V>>)
    requires m != []
    ensures Keys(m) == [m[0].key] + Keys(m[1..])
  {
  }

  lemma SetUnfold<K, V>(m: seq<Entry<K, V>>, k: K, v: V)
    requires m != [] && k != m[0].key
    ensures Set(m, k, v) == [m[0]] + Set(m[1..], k, v)
  {
  }

  /** `Array.from(map.values()).reduce((sum, v) => sum + w(v), 0)` */
  function SumValues<K, V>(m: seq<Entry<K, V>>, w: V -> int): int
  {
    if m == [] then 0 else w(m[0].value) + SumValues(m[1..], w)
  }

  lemma {:induction false} SumValuesAppend<K, V>(m: seq<Entry<K, V>>, e: Entry<K, V>, w: V -> int)
    ensures SumValues(m + [e], w) == SumValues(m, w) + w(e.value)
  {
    if m != [] {
      assert (m + [e])[1..] == m[1..] + [e];
      SumValuesAppend(m[1..], e, w);
    }
  }

  /** The weight of a number-valued table's value: the number itself. */
  function IntValue(n: int): int { n }

  /** `w(map.get(k)) || 0`: the weight of the value at `k`, 0 when the key is absent. */
  function LookupOr0<K(==), V>(m: seq<Entry<K, V>>, k: K, w: V -> int): int
  {
    match Get(m, k)
    case Some(v) => w(v)
    case None => 0
  }

  lemma SetNewKeySum<K, V>(m: seq<Entry<K, V>>, k: K, v: V, w: V -> int)
    requires k !in Keys(m)
    ensures SumValues(Set(m, k, v), w) == SumValues(m, w) + w(v)
  {
    SetNewKey(m, k, v);
    SumValuesAppend(m, Entry(k, v), w);
  }

  /** `set` of a key already present changes the total by the difference of its old and new value. */
  lemma {:induction false} SetExistingSum<K, V>(m: seq<Entry<K, V>>, k: K, v: V, w: V -> int)
    requires UniqueKeys(m) && k in Keys(m)
    ensures SumValues(Set(m, k, v), w) == SumValues(m, w) - w(Get(m, k).value) + w(v)
  {
    KeysTail(m);
    if m[0].key == k {
      assert Set(m, k, v)[1..] == m[1..];
    } else {
      var t := m[1..];
      assert UniqueKeys(t) by {
        forall i, j | 0 <= i < j < |t|
          ensures t[i].key != t[j].key
        {
          assert t[i] == m[i + 1] && t[j] == m[j + 1];
        }
      }
      SetExistingSum(t, k, v, w);
      SetUnfold(m, k, v);
      assert Set(m, k, v)[1..] == Set(t, k, v);
    }
  }

  /** `Array.from(map.values())` */
  function Values<K, V>(m: seq<Entry<K, V>>): (vs: seq<V>)
    ensures |vs| == |m|
    ensures forall i :: 0 <= i < |m| ==> vs[i] == m[i].value
  {
    seq(|m|, i requires 0 <= i < |m| => m[i].value)
  }

  lemma {:induction false} SumOfValues<K, V>(m: seq<Entry<K, V>>, w: V -> int)
    ensures Sum(Values(m), w) == SumValues(m, w)
  {
    if m != [] {
      assert Values(m) == [m[0].value] + Values(m[1..]);
      SumAppend([m[0].value], Values(m[1..]), w);
      SumOfValues(m[1..], w);
    }
  }

  /** Keys listed without repetition are distinct keys. */
  lemma UniqueFromDedup<K, V>(m: seq<Entry<K, V>>, xs: seq<K>)
    requires Keys(m) == Dedup(xs)
    ensures UniqueKeys(m)
  {
    forall i, j | 0 <= i < j < |m|
      ensures m[i].key != m[j].key
    {
      KeysAt(m, i);
      KeysAt(m, j);
    }
  }
}
