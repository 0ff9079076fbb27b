/** A results bundle: a Python `dict` from result keys to payloads, which keeps
    its keys in insertion order. Storing under a present key replaces the value
    where it stands; storing under a new key appends it. */
module Bundles {
  import opened Wrappers
  import opened Seqs

  datatype Item<V> = Item(key: string, value: V)

  type Bundle<V> = seq<Item<V>>

  function Keys<V>(b: Bundle<V>): (ks: seq<string>)
    ensures |ks| == |b| && forall i :: 0 <= i < |b| ==> ks[i] == b[i].key
  {
    seq(|b|, i requires 0 <= i < |b| => b[i].key)
  }

  /** The keys present, as a set. */
  function KeySet<V>(b: Bundle<V>): set<string> {
    set k | k in Keys(b)
  }

  /** Every key occurs at most once. */
  predicate UniqueKeys<V>(b: Bundle<V>) {
    forall i, j :: 0 <= i < j < |b| ==> b[i].key != b[j].key
  }

  /** Where `k` stands in `b`, if it does. */
  function Position<V>(b: Bundle<V>, k: string): Option<nat> {
    FirstIndex(b, (it: Item<V>) => it.key == k)
  }

  /** `b.get(k)` */
  function Get<V>(b: Bundle<V>, k: string): (r: Option<V>)
    ensures r.None? <==> k !in Keys(b)
    ensures r.Some? ==> Item(k, r.value) in b
  {
    match Position(b, k)
    case Some(i) => Some(b[i].value)
    case None => None
  }

  /** `b[k] = v` */
  function Put<V>(b: Bundle<V>, k: string, v: V): (r: Bundle<V>)
    requires UniqueKeys(b)
    ensures UniqueKeys(r)
    ensures k in Keys(b) ==> Keys(r) == Keys(b)
    ensures k !in Keys(b) ==> Keys(r) == Keys(b) + [k]
    ensures Get(r, k) == Some(v)
  {
    match Position(b, k)
    case Some(i) =>
      var r := b[i := Item(k, v)];
      assert Keys(r) == Keys(b);
      r
    case None =>
      var r := b + [Item(k, v)];
      assert Keys(r) == Keys(b) + [k];
      r
  }

  /** Storing under `k` leaves every other key's value alone. */
  lemma GetPutOther<V>(b: Bundle<V>, k: string, v: V, other: string)
    requires UniqueKeys(b) && other != k
    ensures Get(Put(b, k, v), other) == Get(b, other)
  {
    var r := Put(b, k, v);
    match Position(b, other)
    case Some(i) =>
      assert r[i] == b[i];
      assert Position(r, other) == Some(i);
    case None =>
      assert forall j :: 0 <= j < |r| ==> r[j].key != other;
  }

  /** Storing the same value twice under one key is storing it once. */
  lemma PutPutSame<V>(b: Bundle<V>, k: string, v: V)
    requires UniqueKeys(b)
    ensures Put(Put(b, k, v), k, v) == Put(b, k, v)
  {
    var r := Put(b, k, v);
    var i :| 0 <= i < |r| && r[i].key == k;
    assert Position(r, k) == Some(i) by {
      assert forall j :: 0 <= j < |r| && j != i ==> r[j].key != k;
    }
    assert r[i] == Item(k, v) by {
      assert Get(r, k) == Some(v);
    }
    assert r[i := Item(k, v)] == r;
  }

  /** Storing under `k` adds `k` to the keys present, and nothing else. */
  lemma KeySetPut<V>(b: Bundle<V>, k: string, v: V)
    requires UniqueKeys(b)
    ensures KeySet(Put(b, k, v)) == KeySet(b) + {k}
  {
  }
}
