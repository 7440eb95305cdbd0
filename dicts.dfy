/** Python dictionaries as insertion-ordered sequences of (key, value) pairs.
    Assigning an existing key keeps its position; a new key goes to the end. */
module Dicts {
  import opened Wrappers

  type Dict = seq<(string, string)>

  predicate DistinctKeys<V>(d: seq<(string, V)>) {
    forall i, j :: 0 <= i < j < |d| ==> d[i].0 != d[j].0
  }

  /** The position of the first element whose key, under the projection
      `key`, is `k` (SQLAlchemy's `.filter(...).first()` on a key, or a
      dictionary position); `None` when no element has that key. */
  function FirstIndex<T, K(==)>(xs: seq<T>, key: T -> K, k: K): (r: Option<nat>)
    ensures r.Some? ==> r.value < |xs| && key(xs[r.value]) == k
    ensures r.Some? ==> forall j :: 0 <= j < r.value ==> key(xs[j]) != k
    ensures r.None? ==> forall j :: 0 <= j < |xs| ==> key(xs[j]) != k
  {
    if xs == [] then None
    else if key(xs[0]) == k then Some(0)
    else match FirstIndex(xs[1..], key, k)
      case None => None
      case Some(i) => Some(i + 1)
  }

  /** The position of key `k`, if present. */
  function IndexOf<V>(d: seq<(string, V)>, k: string): (r: Option<nat>)
    ensures r.Some? ==> r.value < |d| && d[r.value].0 == k
    ensures r.Some? ==> forall j :: 0 <= j < r.value ==> d[j].0 != k
    ensures r.None? ==> forall j :: 0 <= j < |d| ==> d[j].0 != k
  {
    FirstIndex(d, (p: (string, V)) => p.0, k)
  }

  /** `d.get(k)`. */
  function Lookup<V>(d: seq<(string, V)>, k: string): Option<V> {
    match IndexOf(d, k)
    case Some(i) => Some(d[i].1)
    case None => None
  }

  /** `d[k] = v`. */
  function Put<V>(d: seq<(string, V)>, k: string, v: V): seq<(string, V)> {
    match IndexOf(d, k)
    case Some(i) => d[i := (k, v)]
    case None => d + [(k, v)]
  }

  /** Two dictionaries with the same keys at the same positions find `k` at
      the same position. */
  lemma SameKeysSameIndex<V>(a: seq<(string, V)>, b: seq<(string, V)>, k: string)
    requires |a| == |b|
    requires forall j :: 0 <= j < |a| ==> a[j].0 == b[j].0
    ensures IndexOf(a, k) == IndexOf(b, k)
  {
    var ia, ib := IndexOf(a, k), IndexOf(b, k);
    if ia.Some? { assert b[ia.value].0 == k; }
    if ib.Some? { assert a[ib.value].0 == k; }
  }

  /** Appending a pair under another key does not move `k`. */
  lemma IndexOfSnoc<V>(d: seq<(string, V)>, x: (string, V), k: string)
    requires x.0 != k
    ensures IndexOf(d + [x], k) == IndexOf(d, k)
  {
    var s := d + [x];
    var is', id := IndexOf(s, k), IndexOf(d, k);
    assert forall j :: 0 <= j < |d| ==> s[j] == d[j];
    if is'.Some? { assert is'.value < |d| && d[is'.value].0 == k; }
    if id.Some? { assert s[id.value].0 == k; }
  }

  /** After `d[k] = v`, `k` reads `v` and every other key reads what it read
      before. */
  lemma PutLookup<V>(d: seq<(string, V)>, k: string, v: V, k': string)
    ensures Lookup(Put(d, k, v), k') == if k' == k then Some(v) else Lookup(d, k')
  {
    var r := Put(d, k, v);
    match IndexOf(d, k)
    case Some(i) =>
      SameKeysSameIndex(r, d, k');
    case None =>
      if k' != k {
        IndexOfSnoc(d, (k, v), k');
      } else {
        assert r[|d|].0 == k;
        var ir := IndexOf(r, k);
        assert ir.Some? && ir.value == |d|;
      }
  }

  /** In a dictionary with distinct keys, each pair's key reads its value. */
  lemma LookupAt<V>(d: seq<(string, V)>, i: nat)
    requires DistinctKeys(d) && i < |d|
    ensures Lookup(d, d[i].0) == Some(d[i].1)
  {
    var r := IndexOf(d, d[i].0);
    assert r.Some?;
    assert r.value == i;
  }

  /** `d.update(u)`: the pairs of `u` assigned in order. */
  function Update<V>(d: seq<(string, V)>, u: seq<(string, V)>): seq<(string, V)>
    decreases |u|
  {
    if u == [] then d else Put(Update(d, u[..|u| - 1]), u[|u| - 1].0, u[|u| - 1].1)
  }

  /** After `d.update(u)` with distinct keys in `u`, a key of `u` reads its value
      from `u` and every other key reads what it read in `d`. */
  lemma {:induction false} UpdateLookup<V>(d: seq<(string, V)>, u: seq<(string, V)>, k: string)
    requires DistinctKeys(u)
    ensures Lookup(Update(d, u), k) == if Lookup(u, k).Some? then Lookup(u, k) else Lookup(d, k)
    decreases |u|
  {
    if u != [] {
      var init, last := u[..|u| - 1], u[|u| - 1];
      assert u == init + [last];
      UpdateLookup(d, init, k);
      PutLookup(Update(d, init), last.0, last.1, k);
      LookupSnoc(init, last, k);
    }
  }

  /** Reading `k` from `init + [last]`, where `last`'s key is new. */
  lemma LookupSnoc<V>(init: seq<(string, V)>, last: (string, V), k: string)
    requires DistinctKeys(init + [last])
    ensures Lookup(init + [last], k) == if k == last.0 then Some(last.1) else Lookup(init, k)
  {
    var s := init + [last];
    if k == last.0 {
      var xs := IndexOf(s, k);
      assert s[|init|].0 == k;
      assert xs.Some? && xs.value == |init|;
    } else {
      IndexOfSnoc(init, last, k);
    }
  }
}
