/**
 * Python dictionaries, which keep their keys in insertion order: a sequence
 * of (key, value) pairs. Assigning to a key already present keeps its place.
 */
module PyDict {

  import opened Wrappers

  type Dict<K, V> = seq<(K, V)>

  /** The keys, in order. */
  function Keys<K, V>(d: Dict<K, V>): (ks: seq<K>)
    ensures |ks| == |d|
    ensures forall i :: 0 <= i < |d| ==> ks[i] == d[i].0
  {
    seq(|d|, i requires 0 <= i < |d| => d[i].0)
  }

  /** The values, in key order. */
  function Values<K, V>(d: Dict<K, V>): (vs: seq<V>)
    ensures |vs| == |d|
    ensures forall i :: 0 <= i < |d| ==> vs[i] == d[i].1
  {
    seq(|d|, i requires 0 <= i < |d| => d[i].1)
  }

  predicate HasKey<K(==, !new), V>(d: Dict<K, V>, k: K) {
    k in Keys(d)
  }

  /** No key occurs twice: what every Python dict satisfies. */
  predicate UniqueKeys<K(==, !new), V>(d: Dict<K, V>) {
    forall i, j :: 0 <= i < j < |d| ==> d[i].0 != d[j].0
  }

  /** `d.get(k)`. */
  function Get<K(==, !new), V>(d: Dict<K, V>, k: K): (r: Option<V>)
    ensures r.None? <==> !HasKey(d, k)
  {
    if d == [] then None
    else if d[0].0 == k then Some(d[0].1)
    else
      assert Keys(d) == [d[0].0] + Keys(d[1..]);
      Get(d[1..], k)
  }

  lemma GetAt<K(!new), V>(d: Dict<K, V>, i: nat)
    requires UniqueKeys(d) && i < |d|
    ensures Get(d, d[i].0) == Some(d[i].1)
  {
    if i > 0 {
      assert d[0].0 != d[i].0;
      assert d[1..][i - 1] == d[i];
      GetAt(d[1..], i - 1);
    }
  }

  lemma KeysCons<K, V>(x: (K, V), d: Dict<K, V>)
    ensures Keys([x] + d) == [x.0] + Keys(d)
  {
  }

  lemma GetCons<K(!new), V>(x: (K, V), d: Dict<K, V>, k: K)
    ensures Get([x] + d, k) == if x.0 == k then Some(x.1) else Get(d, k)
  {
    assert ([x] + d)[1..] == d;
  }

  /** `d[k] = v`: overwrite in place when `k` is present, append otherwise. */
  function Put<K(==), V>(d: Dict<K, V>, k: K, v: V): Dict<K, V>
  {
    if d == [] then [(k, v)]
    else if d[0].0 == k then [(k, v)] + d[1..]
    else [d[0]] + Put(d[1..], k, v)
  }

  /** After `d[k] = v`, `k` maps to `v`. */
  lemma {:induction false} PutGet<K(!new), V>(d: Dict<K, V>, k: K, v: V)
    ensures Get(Put(d, k, v), k) == Some(v)
  {
    if d != [] {
      if d[0].0 == k {
        GetCons((k, v), d[1..], k);
      } else {
        PutGet(d[1..], k, v);
        GetCons(d[0], Put(d[1..], k, v), k);
      }
    }
  }

  /** `d[k] = v` leaves every other key's value alone. */
  lemma {:induction false} PutOther<K(!new), V>(d: Dict<K, V>, k: K, v: V, k': K)
    requires k' != k
    ensures Get(Put(d, k, v), k') == Get(d, k')
  {
    if d == [] {
    } else {
      assert d == [d[0]] + d[1..];
      GetCons(d[0], d[1..], k');
      if d[0].0 == k {
        GetCons((k, v), d[1..], k');
      } else {
        PutOther(d[1..], k, v, k');
        GetCons(d[0], Put(d[1..], k, v), k');
      }
    }
  }

  /** `d[k] = v` keeps the key order, appending `k` when it is new. */
  lemma {:induction false} PutKeys<K(!new), V>(d: Dict<K, V>, k: K, v: V)
    ensures Keys(Put(d, k, v)) == if HasKey(d, k) then Keys(d) else Keys(d) + [k]
  {
    if d != [] {
      KeysCons(d[0], d[1..]);
      assert d == [d[0]] + d[1..];
      if d[0].0 == k {
        KeysCons((k, v), d[1..]);
      } else {
        PutKeys(d[1..], k, v);
        KeysCons(d[0], Put(d[1..], k, v));
      }
    }
  }

  /** `d[k] = v` keeps the keys of a dict unique. */
  lemma {:induction false} PutUnique<K(!new), V>(d: Dict<K, V>, k: K, v: V)
    requires UniqueKeys(d)
    ensures UniqueKeys(Put(d, k, v))
  {
    PutKeys(d, k, v);
    var r := Put(d, k, v);
    var ks := Keys(r);
    forall i, j | 0 <= i < j < |r| ensures r[i].0 != r[j].0 {
      if HasKey(d, k) {
        assert ks == Keys(d);
        assert ks[i] == d[i].0 && ks[j] == d[j].0;
      } else {
        assert ks == Keys(d) + [k];
        if j < |d| {
          assert ks[i] == d[i].0 && ks[j] == d[j].0;
        } else {
          assert ks[i] == Keys(d)[i];
        }
      }
    }
  }

  /** `del d[k]` when `k` is present; a dict without `k` is left as it is. */
  function Remove<K(==), V>(d: Dict<K, V>, k: K): Dict<K, V>
  {
    if d == [] then []
    else if d[0].0 == k then Remove(d[1..], k)
    else [d[0]] + Remove(d[1..], k)
  }

  /** After `del d[k]` the key is gone and every other key keeps its value. */
  lemma {:induction false} RemoveGet<K(!new), V>(d: Dict<K, V>, k: K, k': K)
    ensures Get(Remove(d, k), k') == if k' == k then None else Get(d, k')
  {
    if d != [] {
      assert d == [d[0]] + d[1..];
      GetCons(d[0], d[1..], k');
      RemoveGet(d[1..], k, k');
      if d[0].0 != k {
        GetCons(d[0], Remove(d[1..], k), k');
      }
    }
  }

  /** Removing a key that is not there changes nothing. */
  lemma {:induction false} RemoveAbsent<K(!new), V>(d: Dict<K, V>, k: K)
    requires !HasKey(d, k)
    ensures Remove(d, k) == d
  {
    if d != [] {
      assert Keys(d)[0] == d[0].0;
      assert !HasKey(d[1..], k) by {
        forall i | 0 <= i < |d[1..]|
          ensures Keys(d[1..])[i] != k
        {
          assert Keys(d[1..])[i] == Keys(d)[i + 1];
        }
      }
      RemoveAbsent(d[1..], k);
      assert d == [d[0]] + d[1..];
    }
  }

  /** The keys left after `del d[k]` are the others, in their order. */
  lemma {:induction false} RemoveKeys<K(!new), V>(d: Dict<K, V>, k: K)
    ensures Keys(Remove(d, k)) == Without(Keys(d), k)
  {
    if d != [] {
      assert Keys(d) == [d[0].0] + Keys(d[1..]);
      RemoveKeys(d[1..], k);
      if d[0].0 != k {
        KeysCons(d[0], Remove(d[1..], k));
      }
    }
  }

  function Without<K(==)>(ks: seq<K>, k: K): seq<K> {
    if ks == [] then [] else (if ks[0] == k then [] else [ks[0]]) + Without(ks[1..], k)
  }

  /** `d[k] = v` when a value is given; nothing otherwise. */
  function PutIf<K(==), V>(d: Dict<K, V>, k: K, o: Option<V>): Dict<K, V> {
    if o.Some? then Put(d, k, o.value) else d
  }

  /** The optional assignments of `es`, one after the other. */
  function PutAll<K(==), V>(d: Dict<K, V>, es: seq<(K, Option<V>)>): Dict<K, V>
    decreases |es|
  {
    if es == [] then d else PutAll(PutIf(d, es[0].0, es[0].1), es[1..])
  }

  predicate DistinctKeys<K(==), V>(es: seq<(K, V)>) {
    forall a, b :: 0 <= a < b < |es| ==> es[a].0 != es[b].0
  }

  /** The pairs of `ks` and `vs`, position by position. */
  function Zip<K, V>(ks: seq<K>, vs: seq<V>): (es: seq<(K, V)>)
    requires |ks| == |vs|
    ensures |es| == |ks|
    ensures forall i :: 0 <= i < |ks| ==> es[i] == (ks[i], vs[i])
  {
    seq(|ks|, i requires 0 <= i < |ks| => (ks[i], vs[i]))
  }

  /** Pairs with distinct names name distinct keys. */
  lemma ZipDistinct<K, V>(ks: seq<K>, vs: seq<V>)
    requires |ks| == |vs|
    requires forall a, b :: 0 <= a < b < |ks| ==> ks[a] != ks[b]
    ensures DistinctKeys(Zip(ks, vs))
  {
  }

  /** Assigning distinct keys to an empty dict finds each key's own value, and nothing under any other key. */
  lemma ZipLookup<K(!new), V>(ks: seq<K>, vs: seq<Option<V>>, k: K)
    requires |ks| == |vs|
    requires forall a, b :: 0 <= a < b < |ks| ==> ks[a] != ks[b]
    ensures UniqueKeys(PutAll([], Zip(ks, vs)))
    ensures forall i :: 0 <= i < |ks| ==> Get(PutAll([], Zip(ks, vs)), ks[i]) == vs[i]
    ensures (forall i :: 0 <= i < |ks| ==> ks[i] != k) ==> Get(PutAll([], Zip(ks, vs)), k) == None
  {
    var es := Zip(ks, vs);
    ZipDistinct(ks, vs);
    PutAllUnique([], es);
    forall i | 0 <= i < |ks|
      ensures Get(PutAll([], es), ks[i]) == vs[i]
    {
      PutAllLookup(es, i);
    }
    if forall i :: 0 <= i < |ks| ==> ks[i] != k {
      PutAllOther([], es, k);
    }
  }

  /** A key no assignment gives a value keeps its old value. */
  lemma {:induction false} PutAllOther<K(!new), V>(d: Dict<K, V>, es: seq<(K, Option<V>)>, k: K)
    requires forall i :: 0 <= i < |es| && es[i].0 == k ==> es[i].1.None?
    ensures Get(PutAll(d, es), k) == Get(d, k)
    decreases |es|
  {
    if es != [] {
      if es[0].1.Some? {
        PutOther(d, es[0].0, es[0].1.value, k);
      }
      var rest := es[1..];
      forall i | 0 <= i < |rest| && rest[i].0 == k
        ensures rest[i].1.None?
      {
        assert rest[i] == es[i + 1];
      }
      PutAllOther(PutIf(d, es[0].0, es[0].1), rest, k);
    }
  }

  /** With distinct keys, each given value is the one found afterwards. */
  lemma {:induction false} PutAllGet<K(!new), V>(d: Dict<K, V>, es: seq<(K, Option<V>)>, i: nat)
    requires DistinctKeys(es) && i < |es| && es[i].1.Some?
    ensures Get(PutAll(d, es), es[i].0) == es[i].1
    decreases |es|
  {
    var d1 := PutIf(d, es[0].0, es[0].1);
    var rest := es[1..];
    if i == 0 {
      PutGet(d, es[0].0, es[0].1.value);
      forall j | 0 <= j < |rest|
        ensures rest[j].0 != es[0].0
      {
        assert rest[j] == es[j + 1];
      }
      PutAllOther(d1, rest, es[0].0);
    } else {
      forall a, b | 0 <= a < b < |rest|
        ensures rest[a].0 != rest[b].0
      {
        assert rest[a] == es[a + 1] && rest[b] == es[b + 1];
      }
      assert rest[i - 1] == es[i];
      PutAllGet(d1, rest, i - 1);
    }
  }

  /** Starting from an empty dict, each key's value is its entry's, absent when the entry has none. */
  lemma PutAllLookup<K(!new), V>(es: seq<(K, Option<V>)>, i: nat)
    requires DistinctKeys(es) && i < |es|
    ensures Get(PutAll([], es), es[i].0) == es[i].1
  {
    if es[i].1.Some? {
      PutAllGet([], es, i);
    } else {
      forall j | 0 <= j < |es| && es[j].0 == es[i].0
        ensures es[j].1.None?
      {
        assert j == i;
      }
      PutAllOther([], es, es[i].0);
    }
  }

  lemma {:induction false} PutAllUnique<K(!new), V>(d: Dict<K, V>, es: seq<(K, Option<V>)>)
    requires UniqueKeys(d)
    ensures UniqueKeys(PutAll(d, es))
    decreases |es|
  {
    if es != [] {
      if es[0].1.Some? {
        PutUnique(d, es[0].0, es[0].1.value);
      }
      PutAllUnique(PutIf(d, es[0].0, es[0].1), es[1..]);
    }
  }
}
