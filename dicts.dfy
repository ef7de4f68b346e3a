/**
 * A Python `dict` as the program uses it: its entries in insertion order.
 * Iterating `d.values()` or `d.items()` visits the entries in that order,
 * `d[k] = v` overwrites an existing entry in place or appends a new one.
 */
module Dicts {
  import opened Wrappers

  type Dict<K, V> = seq<(K, V)>

  function Keys<K, V>(d: Dict<K, V>): (ks: seq<K>)
    ensures |ks| == |d|
    ensures forall i :: 0 <= i < |d| ==> ks[i] == d[i].0
  {
    if d == [] then [] else [d[0].0] + Keys(d[1..])
  }

  /** `list(d.values())`. */
  function Values<K, V>(d: Dict<K, V>): (vs: seq<V>)
    ensures |vs| == |d|
    ensures forall i :: 0 <= i < |d| ==> vs[i] == d[i].1
  {
    if d == [] then [] else [d[0].1] + Values(d[1..])
  }

  /** No key occurs twice, which every dict satisfies. */
  ghost predicate DistinctKeys<K, V>(d: Dict<K, V>) {
    forall i, j :: 0 <= i < j < |d| ==> d[i].0 != d[j].0
  }

  /** Every entry is stored under the key its value carries (a client under its CPF, ...). */
  ghost predicate KeyedBy<K, V>(d: Dict<K, V>, key: V -> K) {
    DistinctKeys(d) && forall i :: 0 <= i < |d| ==> d[i].0 == key(d[i].1)
  }

  /** `d.get(k)`. */
  function Get<K(==), V>(d: Dict<K, V>, k: K): (r: Option<V>)
    ensures r.Some? <==> k in Keys(d)
  {
    if d == [] then None
    else if d[0].0 == k then Some(d[0].1)
    else Get(d[1..], k)
  }

  /** What `d.get(k)` finds is an entry of `d` under `k`. */
  lemma {:induction false} GetFound<K, V>(d: Dict<K, V>, k: K)
    requires Get(d, k).Some?
    ensures (k, Get(d, k).value) in d
  {
    if d[0].0 != k {
      GetFound(d[1..], k);
      assert (k, Get(d, k).value) in d[1..];
    }
  }

  /** `d.get(k, default)`. */
  function GetOr<K(==), V>(d: Dict<K, V>, k: K, default: V): V {
    Get(d, k).GetOr(default)
  }

  /** `d[k] = v`. */
  function Put<K(==), V>(d: Dict<K, V>, k: K, v: V): Dict<K, V> {
    if d == [] then [(k, v)]
    else if d[0].0 == k then [(k, v)] + d[1..]
    else [d[0]] + Put(d[1..], k, v)
  }

  /** After `d[k] = v`, `k` maps to `v` and every other key to what it mapped to before. */
  lemma {:induction false} PutGet<K, V>(d: Dict<K, V>, k: K, v: V, j: K)
    ensures Get(Put(d, k, v), j) == if j == k then Some(v) else Get(d, j)
  {
    if d != [] {
      if d[0].0 == k {
        assert ([(k, v)] + d[1..])[1..] == d[1..];
      } else {
        PutGet(d[1..], k, v, j);
        assert ([d[0]] + Put(d[1..], k, v))[1..] == Put(d[1..], k, v);
      }
    }
  }

  /** `d[k] = v` keeps the position of an existing key and appends a new one at the end. */
  lemma {:induction false} PutKeys<K(!new), V>(d: Dict<K, V>, k: K, v: V)
    ensures Keys(Put(d, k, v)) == if k in Keys(d) then Keys(d) else Keys(d) + [k]
  {
    if d != [] && d[0].0 != k {
      PutKeys(d[1..], k, v);
      assert ([d[0]] + Put(d[1..], k, v))[1..] == Put(d[1..], k, v);
      assert Keys(d) == [d[0].0] + Keys(d[1..]);
    }
  }

  /** `d[k] = v` never creates a second entry for a key. */
  lemma PutDistinct<K(!new), V>(d: Dict<K, V>, k: K, v: V)
    requires DistinctKeys(d)
    ensures DistinctKeys(Put(d, k, v))
  {
    var r := Put(d, k, v);
    PutKeys(d, k, v);
    forall i, j | 0 <= i < j < |r| ensures r[i].0 != r[j].0 {
      assert Keys(r)[i] == r[i].0 && Keys(r)[j] == r[j].0;
      if j < |d| {
        assert Keys(d)[i] == d[i].0 && Keys(d)[j] == d[j].0;
      } else {
        assert Keys(d)[i] == d[i].0;
      }
    }
  }

  /** Storing under a key that is not there yet appends the entry at the end. */
  lemma {:induction false} PutAbsent<K(!new), V>(d: Dict<K, V>, k: K, v: V)
    requires k !in Keys(d)
    ensures Put(d, k, v) == d + [(k, v)]
  {
    if d != [] {
      PutAbsent(d[1..], k, v);
      assert [d[0]] + (d[1..] + [(k, v)]) == d + [(k, v)];
    }
  }

  /** In a dict the lookup of an entry's key finds that entry. */
  lemma {:induction false} GetEntry<K, V>(d: Dict<K, V>, i: int)
    requires DistinctKeys(d) && 0 <= i < |d|
    ensures Get(d, d[i].0) == Some(d[i].1)
  {
    if i > 0 {
      assert DistinctKeys(d[1..]) by {
        forall a, b | 0 <= a < b < |d[1..]| ensures d[1..][a].0 != d[1..][b].0 {
          assert d[1..][a] == d[a + 1] && d[1..][b] == d[b + 1];
        }
      }
      GetEntry(d[1..], i - 1);
    }
  }

  /** An entry's value is one of the dict's values. */
  lemma EntryInValues<K, V>(d: Dict<K, V>, k: K, v: V)
    requires (k, v) in d
    ensures v in Values(d)
  {
    var i :| 0 <= i < |d| && d[i] == (k, v);
    assert Values(d)[i] == v;
  }

  /**
   * Storing a value under its own key, when that key is new, keeps the dict
   * keyed by that key and appends the value to `d.values()`.
   */
  lemma PutNew<K(!new), V>(d: Dict<K, V>, key: V -> K, v: V)
    requires KeyedBy(d, key) && key(v) !in Keys(d)
    ensures Put(d, key(v), v) == d + [(key(v), v)]
    ensures KeyedBy(Put(d, key(v), v), key)
    ensures Values(Put(d, key(v), v)) == Values(d) + [v]
  {
    PutAbsent(d, key(v), v);
    var r := d + [(key(v), v)];
    assert DistinctKeys(r) by {
      forall i, j | 0 <= i < j < |r| ensures r[i].0 != r[j].0 {
        if j == |d| {
          assert Keys(d)[i] == d[i].0;
        } else {
          assert r[i] == d[i] && r[j] == d[j];
        }
      }
    }
    assert forall i :: 0 <= i < |r| ==> r[i].0 == key(r[i].1) by {
      forall i | 0 <= i < |r| ensures r[i].0 == key(r[i].1) {
        if i < |d| {
          assert r[i] == d[i];
        }
      }
    }
    ValuesAppend(d, (key(v), v));
  }

  lemma ValuesAppend<K, V>(d: Dict<K, V>, e: (K, V))
    ensures Values(d + [e]) == Values(d) + [e.1]
  {
    var r := d + [e];
    forall i | 0 <= i < |r| ensures Values(r)[i] == (Values(d) + [e.1])[i] {
      if i < |d| {
        assert Values(d)[i] == d[i].1;
      }
    }
  }
}
