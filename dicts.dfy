/**
 * Python's `dict` with string keys, as the core uses it: keys keep the order of their first insertion,
 * and assigning to a present key replaces its value in place.
 */
module Dicts {
  import opened Wrappers

  type Dict<V> = seq<(string, V)>

  function Keys<V>(d: Dict<V>): (ks: seq<string>)
    ensures |ks| == |d|
    ensures forall i :: 0 <= i < |d| ==> ks[i] == d[i].0
  {
    if d == [] then [] else [d[0].0] + Keys(d[1..])
  }

  predicate Distinct(ks: seq<string>) {
    forall i, j :: 0 <= i < j < |ks| ==> ks[i] != ks[j]
  }

  predicate UniqueKeys<V>(d: Dict<V>) {
    Distinct(Keys(d))
  }

  /** The keys of a dict with one more entry in front. */
  lemma KeysCons<V>(e: (string, V), t: Dict<V>)
    ensures Keys([e] + t) == [e.0] + Keys(t)
  {
    assert ([e] + t)[1..] == t;
  }

  /** `d.get(k)`: the value of the (only) entry whose key is `k`. */
  function Get<V>(d: Dict<V>, k: string): (r: Option<V>)
    ensures r.Some? <==> k in Keys(d)
  {
    if d == [] then None
    else
      assert Keys(d) == [d[0].0] + Keys(d[1..]);
      if d[0].0 == k then Some(d[0].1) else Get(d[1..], k)
  }

  /** `d[k] = v`: replaces the value of a present key in place, or appends a new entry. */
  function Put<V>(d: Dict<V>, k: string, v: V): Dict<V> {
    if d == [] then [(k, v)]
    else if d[0].0 == k then [(k, v)] + d[1..]
    else [d[0]] + Put(d[1..], k, v)
  }

  /** Assignment keeps the key order, appending a new key at the end. */
  lemma {:induction false} PutKeys<V>(d: Dict<V>, k: string, v: V)
    ensures Keys(Put(d, k, v)) == if k in Keys(d) then Keys(d) else Keys(d) + [k]
  {
    if d != [] {
      assert d == [d[0]] + d[1..];
      KeysCons(d[0], d[1..]);
      if d[0].0 == k {
        KeysCons((k, v), d[1..]);
      } else {
        PutKeys(d[1..], k, v);
        KeysCons(d[0], Put(d[1..], k, v));
        assert Keys(d) + [k] == [d[0].0] + (Keys(d[1..]) + [k]);
      }
    }
  }

  /** After assignment the key holds the new value. */
  lemma {:induction false} PutGet<V>(d: Dict<V>, k: string, v: V)
    ensures Get(Put(d, k, v), k) == Some(v)
  {
    if d != [] && d[0].0 != k {
      PutGet(d[1..], k, v);
      assert ([d[0]] + Put(d[1..], k, v))[1..] == Put(d[1..], k, v);
    }
  }

  /** Assigning to `k` leaves every other key's value alone. */
  lemma {:induction false} PutOther<V>(d: Dict<V>, k: string, v: V, k': string)
    requires k' != k
    ensures Get(Put(d, k, v), k') == Get(d, k')
  {
    if d == [] {
    } else if d[0].0 == k {
      assert ([(k, v)] + d[1..])[1..] == d[1..];
    } else {
      PutOther(d[1..], k, v, k');
      assert ([d[0]] + Put(d[1..], k, v))[1..] == Put(d[1..], k, v);
    }
  }

  /** Assignment keeps the key order, appending a new key; the key then holds `v` and no other key changes. */
  lemma PutSpec<V>(d: Dict<V>, k: string, v: V)
    ensures Keys(Put(d, k, v)) == if k in Keys(d) then Keys(d) else Keys(d) + [k]
    ensures Get(Put(d, k, v), k) == Some(v)
    ensures forall k' :: k' != k ==> Get(Put(d, k, v), k') == Get(d, k')
  {
    PutKeys(d, k, v);
    PutGet(d, k, v);
    forall k' | k' != k ensures Get(Put(d, k, v), k') == Get(d, k') {
      PutOther(d, k, v, k');
    }
  }

  /** Assignment keeps keys unique. */
  lemma PutUnique<V>(d: Dict<V>, k: string, v: V)
    requires UniqueKeys(d)
    ensures UniqueKeys(Put(d, k, v))
  {
    PutSpec(d, k, v);
  }

  /** Assigning each pair in turn: `for k, v in kvs: d[k] = v`. */
  function PutAll<V>(d: Dict<V>, kvs: seq<(string, V)>): (r: Dict<V>)
  {
    if kvs == [] then d
    else
      var last := kvs[|kvs| - 1];
      Put(PutAll(d, kvs[..|kvs| - 1]), last.0, last.1)
  }

  /** The position of the last pair whose key is `k`. */
  function LastKey<V>(kvs: seq<(string, V)>, k: string): (r: Option<nat>)
    ensures r.Some? ==> r.value < |kvs| && kvs[r.value].0 == k
    ensures r.Some? ==> forall j :: r.value < j < |kvs| ==> kvs[j].0 != k
    ensures r.None? ==> forall j :: 0 <= j < |kvs| ==> kvs[j].0 != k
  {
    if kvs == [] then None
    else if kvs[|kvs| - 1].0 == k then Some(|kvs| - 1)
    else LastKey(kvs[..|kvs| - 1], k)
  }

  /**
   * After a run of assignments a key holds the value of its LAST assignment (a repeated
   * key overwrites), and a key that was not assigned keeps its old value.
   */
  lemma {:induction false} PutAllGet<V>(d: Dict<V>, kvs: seq<(string, V)>, k: string)
    ensures Get(PutAll(d, kvs), k) == match LastKey(kvs, k)
      case None => Get(d, k)
      case Some(i) => Some(kvs[i].1)
  {
    if kvs != [] {
      var last := kvs[|kvs| - 1];
      PutSpec(PutAll(d, kvs[..|kvs| - 1]), last.0, last.1);
      if last.0 != k {
        PutAllGet(d, kvs[..|kvs| - 1], k);
      }
    }
  }

  /** A key is present after a run of assignments exactly when it was present or was assigned. */
  lemma {:induction false} PutAllKeys<V>(d: Dict<V>, kvs: seq<(string, V)>, k: string)
    ensures k in Keys(PutAll(d, kvs)) <==> k in Keys(d) || LastKey(kvs, k).Some?
  {
    if kvs != [] {
      var last := kvs[|kvs| - 1];
      PutSpec(PutAll(d, kvs[..|kvs| - 1]), last.0, last.1);
      if last.0 != k {
        PutAllKeys(d, kvs[..|kvs| - 1], k);
      }
    }
  }
}
