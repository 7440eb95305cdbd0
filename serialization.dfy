/** The canonical serialisation that a content hash is computed over: a JSON
    object whose keys are sorted (`json.dumps(..., sort_keys=True, default=str)`),
    nested dictionaries included. The digest itself is a parameter of the
    reconciler; what is proved here is that the text it digests does not depend
    on the order in which the fields or dictionary entries were inserted. */
module Serialization {
  import opened Wrappers
  import opened Dicts
  import opened Text
  import opened Canonical

  /** The JSON values a canonical record's fields serialise to. */
  datatype Json = JNull | JStr(s: string) | JInt(i: int) | JList(items: seq<string>) | JObject(entries: Dict)

  // ---------------------------------------------------------------------------
  // Key order: Python's string comparison (code point by code point)
  // ---------------------------------------------------------------------------

  predicate Below(a: string, b: string) {
    if a == [] then b != []
    else if b == [] then false
    else a[0] < b[0] || (a[0] == b[0] && Below(a[1..], b[1..]))
  }

  lemma {:induction false} BelowIrreflexive(a: string)
    ensures !Below(a, a)
  {
    if a != [] { BelowIrreflexive(a[1..]); }
  }

  lemma {:induction false} BelowTransitive(a: string, b: string, c: string)
    requires Below(a, b) && Below(b, c)
    ensures Below(a, c)
  {
    if a != [] && b != [] && c != [] && a[0] == b[0] == c[0] {
      BelowTransitive(a[1..], b[1..], c[1..]);
    }
  }

  lemma BelowAsymmetric(a: string, b: string)
    requires Below(a, b)
    ensures !Below(b, a)
  {
    if Below(b, a) {
      BelowTransitive(a, b, a);
      BelowIrreflexive(a);
    }
  }

  lemma {:induction false} BelowTotal(a: string, b: string)
    requires a != b
    ensures Below(a, b) || Below(b, a)
  {
    if a != [] && b != [] && a[0] == b[0] {
      assert a == [a[0]] + a[1..] && b == [b[0]] + b[1..];
      BelowTotal(a[1..], b[1..]);
    }
  }

  // ---------------------------------------------------------------------------
  // Sorting entries by key
  // ---------------------------------------------------------------------------

  predicate SortedByKey(s: Dict) {
    forall i, j :: 0 <= i < j < |s| ==> Below(s[i].0, s[j].0)
  }

  function Insert(p: (string, string), s: Dict): Dict {
    if s == [] then [p]
    else if Below(p.0, s[0].0) then [p] + s
    else [s[0]] + Insert(p, s[1..])
  }

  /** The entries of `s` in ascending key order. */
  function SortByKey(s: Dict): Dict {
    if s == [] then [] else Insert(s[0], SortByKey(s[1..]))
  }

  lemma {:induction false} InsertSorted(p: (string, string), s: Dict)
    requires SortedByKey(s)
    requires forall j :: 0 <= j < |s| ==> s[j].0 != p.0
    ensures SortedByKey(Insert(p, s))
    ensures multiset(Insert(p, s)) == multiset(s) + multiset{p}
  {
    if s == [] {
    } else if Below(p.0, s[0].0) {
      var r := [p] + s;
      forall j | 0 < j < |r| ensures Below(r[0].0, r[j].0) {
        if j > 1 { BelowTransitive(p.0, s[0].0, s[j - 1].0); }
      }
    } else {
      BelowTotal(p.0, s[0].0);
      var tail := Insert(p, s[1..]);
      InsertSorted(p, s[1..]);
      assert s == [s[0]] + s[1..];
      var r := [s[0]] + tail;
      forall j | 0 < j < |r| ensures Below(r[0].0, r[j].0) {
        var x := tail[j - 1];
        assert x in multiset(tail);
        if x != p {
          assert x in multiset(s[1..]);
          var k :| 0 <= k < |s[1..]| && s[1..][k] == x;
          assert s[k + 1] == x;
        }
      }
    }
  }

  lemma {:induction false} SortByKeySorted(s: Dict)
    requires DistinctKeys(s)
    ensures SortedByKey(SortByKey(s))
    ensures multiset(SortByKey(s)) == multiset(s)
  {
    if s != [] {
      assert DistinctKeys(s[1..]);
      SortByKeySorted(s[1..]);
      var t := SortByKey(s[1..]);
      forall j | 0 <= j < |t| ensures t[j].0 != s[0].0 {
        assert t[j] in multiset(s[1..]);
        var k :| 0 <= k < |s[1..]| && s[1..][k] == t[j];
        assert s[k + 1] == t[j];
      }
      InsertSorted(s[0], t);
      assert s == [s[0]] + s[1..];
    }
  }

  /** Two key-sorted sequences holding the same entries are the same sequence. */
  lemma {:induction false} SortedUnique(a: Dict, b: Dict)
    requires SortedByKey(a) && SortedByKey(b)
    requires multiset(a) == multiset(b)
    ensures a == b
    decreases |a|
  {
    if a == [] {
      assert |b| == |multiset(b)| == 0;
    } else {
      SortedHeads(a, b);
      TailsSameEntries(a, b);
      SortedUnique(a[1..], b[1..]);
      assert a == [a[0]] + a[1..] && b == [b[0]] + b[1..];
    }
  }

  /** Two key-sorted sequences holding the same entries start with the same entry. */
  lemma SortedHeads(a: Dict, b: Dict)
    requires SortedByKey(a) && SortedByKey(b)
    requires multiset(a) == multiset(b)
    requires a != []
    ensures b != [] && a[0] == b[0]
  {
    assert a[0] in multiset(b);
    assert b != [] && b[0] in multiset(a);
    var i :| 0 <= i < |a| && a[i] == b[0];
    var j :| 0 <= j < |b| && b[j] == a[0];
    if i != 0 && j != 0 {
      BelowAsymmetric(a[0].0, b[0].0);
    }
  }

  lemma TailsSameEntries<T>(a: seq<T>, b: seq<T>)
    requires a != [] && b != [] && a[0] == b[0]
    requires multiset(a) == multiset(b)
    ensures multiset(a[1..]) == multiset(b[1..])
  {
    TailEntries(a);
    TailEntries(b);
  }

  /** Sorting forgets the insertion order: entries that are a rearrangement of
      each other sort to the same sequence. */
  lemma SortByKeyOrderIndependent(a: Dict, b: Dict)
    requires DistinctKeys(a)
    requires multiset(a) == multiset(b)
    ensures SortByKey(a) == SortByKey(b)
  {
    SortByKeySorted(a);
    DistinctKeysPermutation(a, b);
    SortByKeySorted(b);
    SortedUnique(SortByKey(a), SortByKey(b));
  }

  /** Removing the element at `j` removes one copy of it from the multiset. */
  lemma RemoveAt<T>(b: seq<T>, j: nat)
    requires j < |b|
    ensures multiset(b[..j] + b[j + 1..]) == multiset(b) - multiset{b[j]}
  {
    assert b == b[..j] + [b[j]] + b[j + 1..];
  }

  /** Inserting a pair under a new key keeps keys distinct. */
  lemma DistinctKeysInsert<V>(d: seq<(string, V)>, j: nat, p: (string, V))
    requires j <= |d|
    requires DistinctKeys(d)
    requires forall k :: 0 <= k < |d| ==> d[k].0 != p.0
    ensures DistinctKeys(d[..j] + [p] + d[j..])
  {
    var r := d[..j] + [p] + d[j..];
    forall x, y | 0 <= x < y < |r| ensures r[x].0 != r[y].0 {
      if y < j {
        assert r[x] == d[x] && r[y] == d[y];
      } else if y == j {
        assert r[x] == d[x];
      } else if x < j {
        assert r[x] == d[x] && r[y] == d[y - 1];
      } else if x == j {
        assert r[y] == d[y - 1];
      } else {
        assert r[x] == d[x - 1] && r[y] == d[y - 1];
      }
    }
  }

  lemma {:induction false} DistinctKeysPermutation<V>(a: seq<(string, V)>, b: seq<(string, V)>)
    requires DistinctKeys(a)
    requires multiset(a) == multiset(b)
    ensures DistinctKeys(b)
    decreases |a|
  {
    if a != [] {
      var j := FindIn(b, a[0]);
      var rest := b[..j] + b[j + 1..];
      RemoveMatched(a, b, j);
      DistinctKeysPermutation(a[1..], rest);
      HeadKeyNotInRest(a, rest);
      DistinctKeysInsert(rest, j, a[0]);
      assert b == rest[..j] + [a[0]] + rest[j..];
    } else {
      assert |b| == |multiset(b)| == 0;
    }
  }

  /** Removing the first element of `a` and a matching element of `b` keeps the
      two multisets equal. */
  lemma RemoveMatched<T>(a: seq<T>, b: seq<T>, j: nat)
    requires a != [] && j < |b| && b[j] == a[0]
    requires multiset(a) == multiset(b)
    ensures multiset(a[1..]) == multiset(b[..j] + b[j + 1..])
  {
    RemoveAt(b, j);
    TailEntries(a);
  }

  lemma TailEntries<T>(a: seq<T>)
    requires a != []
    ensures multiset(a[1..]) == multiset(a) - multiset{a[0]}
  {
    assert a == [a[0]] + a[1..];
  }

  /** With distinct keys, the first key does not recur among the other entries,
      in whatever order they are listed. */
  lemma HeadKeyNotInRest<V>(a: seq<(string, V)>, rest: seq<(string, V)>)
    requires a != [] && DistinctKeys(a)
    requires multiset(rest) == multiset(a[1..])
    ensures forall k :: 0 <= k < |rest| ==> rest[k].0 != a[0].0
  {
    forall k | 0 <= k < |rest| ensures rest[k].0 != a[0].0 {
      assert rest[k] in multiset(a[1..]);
      var m :| 0 <= m < |a[1..]| && a[1..][m] == rest[k];
      assert a[m + 1] == rest[k];
    }
  }

  // ---------------------------------------------------------------------------
  // Rendering
  // ---------------------------------------------------------------------------

  function Quote(s: string): string {
    "\"" + s + "\""
  }

  /** Each entry's value rendered by `f`; keys and their order untouched. */
  function MapValues<V>(d: seq<(string, V)>, f: V -> string): (r: Dict)
    ensures |r| == |d|
    ensures forall i :: 0 <= i < |d| ==> r[i] == (d[i].0, f(d[i].1))
  {
    seq(|d|, i requires 0 <= i < |d| => (d[i].0, f(d[i].1)))
  }

  lemma {:induction false} MapValuesPermutation<V>(a: seq<(string, V)>, b: seq<(string, V)>, f: V -> string)
    requires multiset(a) == multiset(b)
    ensures multiset(MapValues(a, f)) == multiset(MapValues(b, f))
    decreases |a|
  {
    if a == [] {
      assert |b| == |multiset(b)| == 0;
    } else {
      var j := FindIn(b, a[0]);
      var rest := b[..j] + b[j + 1..];
      RemoveMatched(a, b, j);
      MapValuesPermutation(a[1..], rest, f);
      MapValuesRemoveAt(b, j, f);
      MapValuesTail(a, f);
      AddBack(multiset(MapValues(a, f)), multiset(MapValues(b, f)), (a[0].0, f(a[0].1)));
    }
  }

  /** A position at which `x` occurs in `b`. */
  lemma FindIn<T>(b: seq<T>, x: T) returns (j: nat)
    requires x in multiset(b)
    ensures j < |b| && b[j] == x
  {
    j :| 0 <= j < |b| && b[j] == x;
  }

  /** Two multisets that both hold `g` and agree once one copy of it is removed are equal. */
  lemma AddBack<T>(x: multiset<T>, y: multiset<T>, g: T)
    requires x[g] > 0 && y[g] > 0
    requires x - multiset{g} == y - multiset{g}
    ensures x == y
  {
    forall e ensures x[e] == y[e] {
      assert (x - multiset{g})[e] == (y - multiset{g})[e];
    }
  }

  lemma MapValuesTail<V>(a: seq<(string, V)>, f: V -> string)
    requires a != []
    ensures multiset(MapValues(a[1..], f)) == multiset(MapValues(a, f)) - multiset{(a[0].0, f(a[0].1))}
    ensures multiset(MapValues(a, f))[(a[0].0, f(a[0].1))] > 0
  {
    var m := MapValues(a, f);
    assert MapValues(a[1..], f) == m[1..];
    TailEntries(m);
  }

  /** Mapping the values after removing the element at `j` removes its image. */
  lemma MapValuesRemoveAt<V>(b: seq<(string, V)>, j: nat, f: V -> string)
    requires j < |b|
    ensures multiset(MapValues(b[..j] + b[j + 1..], f)) == multiset(MapValues(b, f)) - multiset{(b[j].0, f(b[j].1))}
    ensures multiset(MapValues(b, f))[(b[j].0, f(b[j].1))] > 0
  {
    var m := MapValues(b, f);
    assert MapValues(b[..j] + b[j + 1..], f) == m[..j] + m[j + 1..];
    RemoveAt(m, j);
  }

  /** `"k1": v1, "k2": v2, ...` for already-rendered values. */
  function Members(s: Dict): string {
    if s == [] then ""
    else if |s| == 1 then Quote(s[0].0) + ": " + s[0].1
    else Quote(s[0].0) + ": " + s[0].1 + ", " + Members(s[1..])
  }

  function Items(items: seq<string>): string {
    if items == [] then ""
    else if |items| == 1 then Quote(items[0])
    else Quote(items[0]) + ", " + Items(items[1..])
  }

  /** The JSON text of a value; objects list their entries in key order. */
  function Render(v: Json): string {
    match v
    case JNull => "null"
    case JStr(s) => Quote(s)
    case JInt(i) => IntToString(i)
    case JList(items) => "[" + Items(items) + "]"
    case JObject(entries) => "{" + Members(SortByKey(MapValues(entries, Quote))) + "}"
  }

  /** The text a content hash is computed over. */
  function Serialize(fields: seq<(string, Json)>): string {
    "{" + Members(SortByKey(MapValues(fields, Render))) + "}"
  }

  /** Field order does not affect the serialisation. */
  lemma SerializeOrderIndependent(a: seq<(string, Json)>, b: seq<(string, Json)>)
    requires DistinctKeys(a)
    requires multiset(a) == multiset(b)
    ensures Serialize(a) == Serialize(b)
  {
    MapValuesPermutation(a, b, Render);
    assert DistinctKeys(MapValues(a, Render));
    SortByKeyOrderIndependent(MapValues(a, Render), MapValues(b, Render));
  }

  /** Nor does the insertion order of a nested dictionary. */
  lemma RenderObjectOrderIndependent(a: Dict, b: Dict)
    requires DistinctKeys(a)
    requires multiset(a) == multiset(b)
    ensures Render(JObject(a)) == Render(JObject(b))
  {
    MapValuesPermutation(a, b, Quote);
    assert DistinctKeys(MapValues(a, Quote));
    SortByKeyOrderIndependent(MapValues(a, Quote), MapValues(b, Quote));
  }

  // ---------------------------------------------------------------------------
  // The device record as hashed (`device.dict()`)
  // ---------------------------------------------------------------------------

  function OptStr(o: Option<string>): Json {
    match o
    case Some(s) => JStr(s)
    case None => JNull
  }

  /** `default=str` renders a timestamp as text. */
  function Timestamp(t: nat): Json {
    JStr(NatToString(t))
  }

  /** Every field of the device, timestamps included, as `device.dict()` lists them. */
  function DeviceFields(d: CanonicalDevice): seq<(string, Json)> {
    [ ("external_id", JStr(d.externalId)),
      ("source", JStr(d.source)),
      ("name", JStr(d.name)),
      ("device_type", JStr(DeviceTypeValue(d.deviceType))),
      ("manufacturer", OptStr(d.manufacturer)),
      ("model", OptStr(d.model)),
      ("serial_number", OptStr(d.serialNumber)),
      ("owner", OptStr(d.owner)),
      ("compliance_status", match d.complianceStatus case Some(c) => JStr(ComplianceValue(c)) case None => JNull),
      ("operating_system", OptStr(d.operatingSystem)),
      ("os_version", OptStr(d.osVersion)),
      ("av_status", OptStr(d.avStatus)),
      ("last_seen", OptStr(d.lastSeen)),
      ("custom_fields", JObject(d.customFields)),
      ("tags", JList(d.tags)),
      ("created_at", Timestamp(d.createdAt)),
      ("updated_at", Timestamp(d.updatedAt)) ]
  }

  function DeviceText(d: CanonicalDevice): string {
    Serialize(DeviceFields(d))
  }

  /** Two devices that differ only in the insertion order of their custom fields
      serialise identically, and so get the same hash. */
  lemma DeviceTextIgnoresCustomFieldOrder(d: CanonicalDevice, reordered: Dict)
    requires DistinctKeys(d.customFields)
    requires multiset(reordered) == multiset(d.customFields)
    ensures DeviceText(d.(customFields := reordered)) == DeviceText(d)
  {
    RenderObjectOrderIndependent(d.customFields, reordered);
    assert MapValues(DeviceFields(d.(customFields := reordered)), Render) == MapValues(DeviceFields(d), Render);
  }
}
