/** A Python `dict` as the core uses it: a sequence of (key, value) entries in insertion order.
    Assigning to a present key replaces its value in place; a new key goes to the end; `del`
    removes the entry and keeps the order of the others. */
module Dict {
  import opened Wrappers
  import Seqs

  type Dict<K, V> = seq<(K, V)>

  /** `d.keys()`, in order. */
  function Keys<K, V>(d: Dict<K, V>): (ks: seq<K>)
    ensures |ks| == |d|
    ensures forall i :: 0 <= i < |d| ==> ks[i] == d[i].0
  {
    if d == [] then [] else [d[0].0] + Keys(d[1..])
  }

  /** `d.values()`, in order. */
  function Values<K, V>(d: Dict<K, V>): (vs: seq<V>)
    ensures |vs| == |d|
    ensures forall i :: 0 <= i < |d| ==> vs[i] == d[i].1
  {
    if d == [] then [] else [d[0].1] + Values(d[1..])
  }

  /** Every key occurs once, as in any Python dict. */
  ghost predicate UniqueKeys<K, V>(d: Dict<K, V>) {
    Seqs.Distinct(Keys(d))
  }

  /** `d.get(k)`: the value of the first entry with key `k`. */
  function Get<K(==), V>(d: Dict<K, V>, k: K): (r: Option<V>)
    ensures r.Some? <==> k in Keys(d)
    ensures r.Some? ==> (k, r.value) in d
  {
    if d == [] then None
    else if d[0].0 == k then Some(d[0].1)
    else Get(d[1..], k)
  }

  /** `d[k] = v`. */
  function Put<K(==), V>(d: Dict<K, V>, k: K, v: V): Dict<K, V> {
    if d == [] then [(k, v)]
    else if d[0].0 == k then [(k, v)] + d[1..]
    else [d[0]] + Put(d[1..], k, v)
  }

  /** `del d[k]` for a present key; an absent key leaves `d` as it is. */
  function Remove<K(==), V>(d: Dict<K, V>, k: K): Dict<K, V> {
    if d == [] then []
    else if d[0].0 == k then d[1..]
    else [d[0]] + Remove(d[1..], k)
  }

  /** After `d[k] = v`, `d[k]` is `v`. */
  lemma {:induction false} PutGet<K, V>(d: Dict<K, V>, k: K, v: V)
    ensures Get(Put(d, k, v), k) == Some(v)
  {
    if d != [] && d[0].0 != k {
      PutGet(d[1..], k, v);
      assert Put(d, k, v)[1..] == Put(d[1..], k, v);
    }
  }

  /** `d[k] = v` changes no other key's value. */
  lemma {:induction false} PutGetOther<K, V>(d: Dict<K, V>, k: K, v: V, k': K)
    requires k' != k
    ensures Get(Put(d, k, v), k') == Get(d, k')
  {
    if d == [] {
    } else if d[0].0 == k {
      assert Put(d, k, v)[1..] == d[1..];
    } else {
      PutGetOther(d[1..], k, v, k');
      assert Put(d, k, v)[1..] == Put(d[1..], k, v);
    }
  }

  /** A present key keeps its position; a new key goes last. */
  lemma {:induction false} PutKeys<K, V>(d: Dict<K, V>, k: K, v: V)
    ensures Keys(Put(d, k, v)) == if k in Keys(d) then Keys(d) else Keys(d) + [k]
  {
    if d == [] {
    } else if d[0].0 == k {
      assert Keys(Put(d, k, v)) == [k] + Keys(d[1..]) == Keys(d);
    } else {
      PutKeys(d[1..], k, v);
      assert Keys(d) == [d[0].0] + Keys(d[1..]);
      assert k in Keys(d) <==> k in Keys(d[1..]);
    }
  }

  /** After `d[k] = v` the keys are the old keys and `k`. */
  lemma PutHasKeys<K, V>(d: Dict<K, V>, k: K, v: V)
    ensures forall k' :: k' in Keys(Put(d, k, v)) <==> k' in Keys(d) || k' == k
  {
    PutKeys(d, k, v);
  }

  /** `d[k] = v` keeps a dict a dict. */
  lemma PutUnique<K, V>(d: Dict<K, V>, k: K, v: V)
    requires UniqueKeys(d)
    ensures UniqueKeys(Put(d, k, v))
  {
    PutKeys(d, k, v);
  }

  /** `del d[k]` changes no other key's value. */
  lemma {:induction false} RemoveGetOther<K, V>(d: Dict<K, V>, k: K, k': K)
    requires k' != k
    ensures Get(Remove(d, k), k') == Get(d, k')
  {
    if d != [] && d[0].0 != k {
      RemoveGetOther(d[1..], k, k');
      assert Remove(d, k)[1..] == Remove(d[1..], k);
    }
  }

  /** `del d[k]` drops exactly the key `k` from the key order. */
  lemma {:induction false} RemoveKeys<K, V>(d: Dict<K, V>, k: K)
    ensures Keys(Remove(d, k)) == Seqs.RemoveFirst(Keys(d), k)
  {
    if d != [] {
      assert Keys(d) == [d[0].0] + Keys(d[1..]);
      if d[0].0 != k {
        RemoveKeys(d[1..], k);
      }
    }
  }

  /** The entries after the first of a dict form a dict without the first key. */
  lemma UniqueTail<K, V>(d: Dict<K, V>)
    requires d != [] && UniqueKeys(d)
    ensures UniqueKeys(d[1..]) && d[0].0 !in Keys(d[1..])
  {
    var ks, ks' := Keys(d), Keys(d[1..]);
    assert forall j :: 0 <= j < |ks'| ==> ks'[j] == ks[j + 1];
  }

  /** In a dict, `del d[k]` leaves no entry for `k`. */
  lemma {:induction false} RemoveGet<K, V>(d: Dict<K, V>, k: K)
    requires UniqueKeys(d)
    ensures Get(Remove(d, k), k) == None
  {
    if d != [] {
      UniqueTail(d);
      if d[0].0 != k {
        RemoveGet(d[1..], k);
        assert Remove(d, k)[1..] == Remove(d[1..], k);
      }
    }
  }

  /** `del d[k]` keeps a dict a dict. */
  lemma {:induction false} RemoveUnique<K, V>(d: Dict<K, V>, k: K)
    requires UniqueKeys(d)
    ensures UniqueKeys(Remove(d, k))
  {
    if d != [] {
      UniqueTail(d);
      if d[0].0 != k {
        RemoveUnique(d[1..], k);
        var rest := Remove(d[1..], k);
        RemoveKeys(d[1..], k);
        Seqs.RemoveFirstMultiset(Keys(d[1..]), k);
        assert multiset(Keys(rest)) <= multiset(Keys(d[1..]));
        assert d[0].0 !in multiset(Keys(d[1..]));
        assert d[0].0 !in Keys(rest) by {
          assert d[0].0 !in multiset(Keys(rest));
        }
        Seqs.DistinctCons(d[0].0, Keys(rest));
        assert Keys(Remove(d, k)) == [d[0].0] + Keys(rest);
      }
    }
  }
}
