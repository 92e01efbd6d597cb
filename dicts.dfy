/**
 * Python's insertion-ordered `dict`, as the sequence of pairs it iterates
 * over: assigning to a present key replaces its value in place, assigning
 * to a new key appends it.
 */
module Dicts {
  import opened Wrappers

  type Dict<K, V> = seq<(K, V)>

  /** Every key occurs once. */
  predicate DistinctKeys<K(==), V>(d: Dict<K, V>)
  {
    forall i, j :: 0 <= i < j < |d| ==> d[i].0 != d[j].0
  }

  function KeySet<K, V>(d: Dict<K, V>): set<K>
  {
    set i | 0 <= i < |d| :: d[i].0
  }

  /** Position of the first pair with key `k`. */
  function IndexOf<K(==), V>(d: Dict<K, V>, k: K): (r: Option<nat>)
    ensures r.Some? ==> r.value < |d| && d[r.value].0 == k && forall j :: 0 <= j < r.value ==> d[j].0 != k
    ensures r.None? <==> forall j :: 0 <= j < |d| ==> d[j].0 != k
    decreases |d|
  {
    if d == [] then None
    else if d[0].0 == k then Some(0)
    else match IndexOf(d[1..], k)
      case None => None
      case Some(i) => Some(i + 1)
  }

  /** `d[k]`, with None for a missing key. */
  function Get<K(==), V>(d: Dict<K, V>, k: K): Option<V>
  {
    match IndexOf(d, k)
    case None => None
    case Some(i) => Some(d[i].1)
  }

  /** `d[k] = v`. */
  function Put<K(==), V>(d: Dict<K, V>, k: K, v: V): Dict<K, V>
  {
    match IndexOf(d, k)
    case None => d + [(k, v)]
    case Some(i) => d[i := (k, v)]
  }

  lemma GetFound<K, V>(d: Dict<K, V>, i: nat)
    requires DistinctKeys(d) && i < |d|
    ensures Get(d, d[i].0) == Some(d[i].1)
  {
    var r := IndexOf(d, d[i].0);
    assert r.Some?;
  }

  /** A prefix of a dictionary with distinct keys has distinct keys. */
  lemma DistinctKeysPrefix<K, V>(d: Dict<K, V>, k: nat)
    requires DistinctKeys(d) && k <= |d|
    ensures DistinctKeys(d[..k])
  {
  }

  lemma GetMissing<K, V>(d: Dict<K, V>, k: K)
    requires k !in KeySet(d)
    ensures Get(d, k) == None
  {
  }

  /**
   * Assignment keeps the keys distinct, makes `k` map to `v`, leaves every
   * other key's value alone, keeps every pair's position, and adds `k` to the
   * keys.
   */
  lemma PutSpec<K, V>(d: Dict<K, V>, k: K, v: V)
    requires DistinctKeys(d)
    ensures var r := Put(d, k, v);
      DistinctKeys(r) && Get(r, k) == Some(v) &&
      (forall k' | k' != k :: Get(r, k') == Get(d, k')) &&
      KeySet(r) == KeySet(d) + {k} &&
      |r| == |d| + (if k in KeySet(d) then 0 else 1) &&
      (forall j | 0 <= j < |d| :: r[j].0 == d[j].0)
  {
    var r := Put(d, k, v);
    var at: nat;
    match IndexOf(d, k) {
      case None =>
        assert r == d + [(k, v)];
        at := |d|;
        assert r[at].0 in KeySet(r);
      case Some(i) =>
        assert r == d[i := (k, v)];
        at := i;
        assert d[i].0 in KeySet(d);
    }
    assert DistinctKeys(r);
    assert r[at] == (k, v);
    forall x
      ensures x in KeySet(r) <==> x in KeySet(d) + {k}
    {
      if x in KeySet(r) && x != k {
        var j :| 0 <= j < |r| && r[j].0 == x;
        assert d[j].0 == x;
      }
      if x in KeySet(d) {
        var j :| 0 <= j < |d| && d[j].0 == x;
        assert r[j].0 == x;
      }
    }
    GetFound(r, at);
    forall k' | k' != k
      ensures Get(r, k') == Get(d, k')
    {
      if k' in KeySet(d) {
        var j :| 0 <= j < |d| && d[j].0 == k';
        GetFound(d, j);
        GetFound(r, j);
      } else {
        GetMissing(d, k');
        GetMissing(r, k');
      }
    }
  }
}
