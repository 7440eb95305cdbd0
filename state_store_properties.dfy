/** Properties of the state store: what an upsert makes visible, the
    one-row-per-key invariant, and stale marking (what it adds, that it only
    adds, and that repeating it adds nothing). */
module StateStoreProperties {
  import opened Wrappers
  import opened Text
  import opened StateStore

  // ---------------------------------------------------------------------------
  // Sync-state upsert
  // ---------------------------------------------------------------------------

  /** After `update_sync_state`, the key reads the new hash and `last_seen`; its
      inventory id is the new one when truthy, else the one it had (or the given
      one, for a new row). Every other key reads what it read before. */
  lemma UpsertStateLookup(states: seq<SyncStateRow>, k: Key, hash: string, netboxId: Option<string>, now: nat, k': Key)
    ensures var after := LookupState(UpsertState(states, k, hash, netboxId, now), k);
      after.Some? && after.value.key == k && after.value.dataHash == hash && after.value.lastSeen == now &&
      after.value.netboxId == (if Truthy(netboxId) || LookupState(states, k).None? then netboxId
                               else LookupState(states, k).value.netboxId)
    ensures k' != k ==> LookupState(UpsertState(states, k, hash, netboxId, now), k') == LookupState(states, k')
  {
    var s := UpsertState(states, k, hash, netboxId, now);
    match StateIndex(states, k)
    case Some(i) =>
      assert forall j :: 0 <= j < |s| ==> s[j].key == states[j].key;
      SameStateKeys(s, states, k);
      SameStateKeys(s, states, k');
    case None =>
      assert s[|states|].key == k;
      var is' := StateIndex(s, k);
      assert is'.Some? && is'.value == |states|;
      if k' != k {
        var a, b := StateIndex(s, k'), StateIndex(states, k');
        if a.Some? { assert a.value < |states|; }
        if b.Some? { assert s[b.value] == states[b.value]; }
      }
  }

  lemma SameStateKeys(a: seq<SyncStateRow>, b: seq<SyncStateRow>, k: Key)
    requires |a| == |b| && forall j :: 0 <= j < |a| ==> a[j].key == b[j].key
    ensures StateIndex(a, k) == StateIndex(b, k)
  {
    var ia, ib := StateIndex(a, k), StateIndex(b, k);
    if ia.Some? { assert b[ia.value].key == k; }
    if ib.Some? { assert a[ib.value].key == k; }
  }

  /** The upsert keeps one row per key, and adds a row only for a new key. */
  lemma UpsertStateUnique(states: seq<SyncStateRow>, k: Key, hash: string, netboxId: Option<string>, now: nat)
    requires UniqueStates(states)
    ensures UniqueStates(UpsertState(states, k, hash, netboxId, now))
    ensures |UpsertState(states, k, hash, netboxId, now)| == |states| + (if LookupState(states, k).None? then 1 else 0)
  {
    var s := UpsertState(states, k, hash, netboxId, now);
    if StateIndex(states, k).Some? {
      assert forall j :: 0 <= j < |s| ==> s[j].key == states[j].key;
    } else {
      assert forall j :: 0 <= j < |states| ==> s[j] == states[j];
    }
  }

  // ---------------------------------------------------------------------------
  // Object mappings
  // ---------------------------------------------------------------------------

  lemma SameMappingKeys(a: seq<MappingRow>, b: seq<MappingRow>, k: Key)
    requires |a| == |b| && forall j :: 0 <= j < |a| ==> a[j].key == b[j].key
    ensures MappingIndex(a, k) == MappingIndex(b, k)
  {
    var ia, ib := MappingIndex(a, k), MappingIndex(b, k);
    if ia.Some? { assert b[ia.value].key == k; }
    if ib.Some? { assert a[ib.value].key == k; }
  }

  /** After `update_object_mapping`, the key maps to the latest id and every
      other key to what it mapped to before. */
  lemma UpsertMappingLookup(mappings: seq<MappingRow>, k: Key, netboxId: string, now: nat, k': Key)
    ensures var after := LookupMapping(UpsertMapping(mappings, k, netboxId, now), k);
      after.Some? && after.value.netboxId == netboxId && after.value.updatedAt == now
    ensures k' != k ==> LookupMapping(UpsertMapping(mappings, k, netboxId, now), k') == LookupMapping(mappings, k')
  {
    var s := UpsertMapping(mappings, k, netboxId, now);
    match MappingIndex(mappings, k)
    case Some(i) =>
      assert forall j :: 0 <= j < |s| ==> s[j].key == mappings[j].key;
      SameMappingKeys(s, mappings, k);
      SameMappingKeys(s, mappings, k');
    case None =>
      assert s[|mappings|].key == k;
      var is' := MappingIndex(s, k);
      assert is'.Some? && is'.value == |mappings|;
      if k' != k {
        var a, b := MappingIndex(s, k'), MappingIndex(mappings, k');
        if a.Some? { assert a.value < |mappings|; }
        if b.Some? { assert s[b.value] == mappings[b.value]; }
      }
  }

  /** Upserting only ever keeps at most one mapping per key. */
  lemma UpsertMappingUnique(mappings: seq<MappingRow>, k: Key, netboxId: string, now: nat)
    requires UniqueMappings(mappings)
    ensures UniqueMappings(UpsertMapping(mappings, k, netboxId, now))
  {
    var s := UpsertMapping(mappings, k, netboxId, now);
    if MappingIndex(mappings, k).Some? {
      assert forall j :: 0 <= j < |s| ==> s[j].key == mappings[j].key;
    } else {
      assert forall j :: 0 <= j < |mappings| ==> s[j] == mappings[j];
    }
  }

  /** `create_object_mapping` on a mapped key produces a second row for it. */
  lemma InsertMappingDuplicates(mappings: seq<MappingRow>, k: Key, netboxId: string, now: nat)
    requires LookupMapping(mappings, k).Some?
    ensures !UniqueMappings(InsertMapping(mappings, k, netboxId, now))
  {
    var i := MappingIndex(mappings, k).value;
    var s := InsertMapping(mappings, k, netboxId, now);
    assert s[i].key == s[|mappings|].key;
  }

  // ---------------------------------------------------------------------------
  // Stale marking
  // ---------------------------------------------------------------------------

  /** Marking only appends: the rows that were there stay, unchanged and in place. */
  lemma {:induction false} MarkAllExtends(stale: seq<StaleRow>, existing: seq<MappingRow>, current: seq<string>, now: nat)
    ensures |MarkAll(stale, existing, current, now)| >= |stale|
    ensures MarkAll(stale, existing, current, now)[..|stale|] == stale
    decreases |existing|
  {
    if existing != [] {
      MarkAllExtends(stale, existing[..|existing| - 1], current, now);
    }
  }

  /** `row` was added for a mapping of `existing` that `current` lacks: it
      carries that mapping's key and inventory id, is stamped `now` and is active. */
  predicate MarkedFor(row: StaleRow, existing: seq<MappingRow>, current: seq<string>, now: nat) {
    row.deletedAt.None? && row.markedStaleAt == now &&
    exists m :: m in existing && m.key == row.key && m.netboxId == row.netboxId && m.key.externalId !in current
  }

  lemma {:induction false} MarkAllNewRows(stale: seq<StaleRow>, existing: seq<MappingRow>, current: seq<string>, now: nat)
    ensures var r := MarkAll(stale, existing, current, now);
      forall j :: |stale| <= j < |r| ==> MarkedFor(r[j], existing, current, now)
    decreases |existing|
  {
    if existing != [] {
      var init, last := existing[..|existing| - 1], existing[|existing| - 1];
      MarkAllNewRows(stale, init, current, now);
      MarkAllExtends(stale, init, current, now);
      var r0 := MarkAll(stale, init, current, now);
      var r := MarkAll(stale, existing, current, now);
      assert r == MarkOne(r0, last, current, now);
      forall j | |stale| <= j < |r| ensures MarkedFor(r[j], existing, current, now) {
        if j < |r0| {
          assert r[j] == r0[j];
          assert MarkedFor(r0[j], init, current, now);
          var m :| m in init && m.key == r0[j].key && m.netboxId == r0[j].netboxId && m.key.externalId !in current;
          assert m in existing;
        } else {
          assert last in existing;
        }
      }
    }
  }

  /** After marking, every mapping of `existing` that `current` lacks has an
      active stale row. */
  lemma {:induction false} MarkAllCovers(stale: seq<StaleRow>, existing: seq<MappingRow>, current: seq<string>, now: nat)
    ensures forall m :: m in existing && m.key.externalId !in current ==>
      ActiveStale(MarkAll(stale, existing, current, now), m.key)
    decreases |existing|
  {
    if existing != [] {
      var init, last := existing[..|existing| - 1], existing[|existing| - 1];
      MarkAllCovers(stale, init, current, now);
      var r0 := MarkAll(stale, init, current, now);
      var r := MarkOne(r0, last, current, now);
      assert existing == init + [last];
      forall m | m in existing && m.key.externalId !in current ensures ActiveStale(r, m.key) {
        if m in init {
          var x :| x in r0 && x.key == m.key && x.deletedAt.None?;
          assert x in r;
        } else if !ActiveStale(r0, last.key) {
          assert r[|r| - 1] in r;
        }
      }
    }
  }

  /** When every lacking mapping already has an active stale row, marking adds nothing. */
  lemma {:induction false} MarkAllNoop(stale: seq<StaleRow>, existing: seq<MappingRow>, current: seq<string>, now: nat)
    requires forall m :: m in existing && m.key.externalId !in current ==> ActiveStale(stale, m.key)
    ensures MarkAll(stale, existing, current, now) == stale
    decreases |existing|
  {
    if existing != [] {
      var init, last := existing[..|existing| - 1], existing[|existing| - 1];
      assert existing == init + [last];
      MarkAllNoop(stale, init, current, now);
    }
  }

  /** Marking is idempotent: a second pass over the same mappings and ids, at
      any later time, adds no row. */
  lemma MarkAllIdempotent(stale: seq<StaleRow>, existing: seq<MappingRow>, current: seq<string>, now: nat, later: nat)
    ensures var once := MarkAll(stale, existing, current, now);
      MarkAll(once, existing, current, later) == once
  {
    MarkAllCovers(stale, existing, current, now);
    MarkAllNoop(MarkAll(stale, existing, current, now), existing, current, later);
  }

  /** At most one active stale row per key. */
  predicate OneActivePerKey(stale: seq<StaleRow>) {
    forall i, j :: 0 <= i < j < |stale| && stale[i].deletedAt.None? && stale[j].deletedAt.None? ==>
      stale[i].key != stale[j].key
  }

  lemma {:induction false} MarkAllOneActive(stale: seq<StaleRow>, existing: seq<MappingRow>, current: seq<string>, now: nat)
    requires OneActivePerKey(stale)
    ensures OneActivePerKey(MarkAll(stale, existing, current, now))
    decreases |existing|
  {
    if existing != [] {
      var init, last := existing[..|existing| - 1], existing[|existing| - 1];
      MarkAllOneActive(stale, init, current, now);
      var r0 := MarkAll(stale, init, current, now);
      if last.key.externalId !in current && !ActiveStale(r0, last.key) {
        var r := MarkOne(r0, last, current, now);
        forall i, j | 0 <= i < j < |r| && r[i].deletedAt.None? && r[j].deletedAt.None?
          ensures r[i].key != r[j].key
        {
          if j == |r0| {
            assert r0[i] in r0;
          }
        }
      }
    }
  }

  /** What `mark_stale_objects(source, object_type, current)` adds to the
      stale table: only rows for mappings of that source and type whose external
      id is not in `current`, each carrying that mapping's inventory id. */
  lemma MarkStaleRows(mappings: seq<MappingRow>, stale: seq<StaleRow>, source: string, objectType: string, current: seq<string>, now: nat)
    ensures var r := MarkAll(stale, MappingsOf(mappings, source, objectType), current, now);
      |r| >= |stale| && r[..|stale|] == stale &&
      forall j :: |stale| <= j < |r| ==>
        r[j].key.source == source && r[j].key.objectType == objectType &&
        r[j].key.externalId !in current && r[j].deletedAt.None? && r[j].markedStaleAt == now &&
        exists m :: m in mappings && m.key == r[j].key && m.netboxId == r[j].netboxId
  {
    var existing := MappingsOf(mappings, source, objectType);
    var r := MarkAll(stale, existing, current, now);
    MarkAllExtends(stale, existing, current, now);
    MarkAllNewRows(stale, existing, current, now);
    forall j | |stale| <= j < |r|
      ensures r[j].key.source == source && r[j].key.objectType == objectType && r[j].key.externalId !in current
      ensures exists m :: m in mappings && m.key == r[j].key && m.netboxId == r[j].netboxId
    {
      assert MarkedFor(r[j], existing, current, now);
      var m :| m in existing && m.key == r[j].key && m.netboxId == r[j].netboxId && m.key.externalId !in current;
      assert m in mappings;
    }
  }

  /** Three mapped devices A, B and C; a pass that saw A and C marks B alone. */
  lemma MarkStaleScenario(now: nat)
    ensures var a, b, c := Key("intune", "device", "A"), Key("intune", "device", "B"), Key("intune", "device", "C");
      var mappings := [MappingRow(a, "1", 0), MappingRow(b, "2", 0), MappingRow(c, "3", 0)];
      MarkAll([], MappingsOf(mappings, "intune", "device"), ["A", "C"], now) == [StaleRow(b, "2", now, None)]
  {
    var a, b, c := Key("intune", "device", "A"), Key("intune", "device", "B"), Key("intune", "device", "C");
    var ma, mb, mc := MappingRow(a, "1", 0), MappingRow(b, "2", 0), MappingRow(c, "3", 0);
    var mappings := [ma, mb, mc];
    assert mappings[..2] == [ma, mb];
    assert [ma, mb][..1] == [ma];
    assert [ma][..0] == [];
    assert MappingsOf([ma], "intune", "device") == [ma];
    assert MappingsOf([ma, mb], "intune", "device") == [ma, mb];
    assert MappingsOf(mappings, "intune", "device") == mappings;
    var current := ["A", "C"];
    assert MarkAll([], [ma], current, now) == [];
    var row := StaleRow(b, "2", now, None);
    assert MarkAll([], [ma, mb], current, now) == [row];
    assert "C" in current;
  }

  // ---------------------------------------------------------------------------
  // Grace-period query
  // ---------------------------------------------------------------------------

  /** With a grace period of zero days, a row marked at the current instant is
      not yet returned: the cut-off is strict. */
  lemma FreshStaleRowNotDue(row: StaleRow, now: nat)
    requires row.markedStaleAt == now && row.deletedAt.None?
    ensures row !in StaleDue([row], Cutoff(0, now))
  {
    StaleDueMembers([row], Cutoff(0, now));
  }

  /** A marking pass followed by the grace-period query, `graceDays` later or
      sooner, returns a freshly marked row exactly when more than `graceDays`
      days have passed. */
  lemma NewStaleRowDueAfterGrace(stale: seq<StaleRow>, existing: seq<MappingRow>, current: seq<string>, now: nat, graceDays: int, later: nat)
    ensures var r := MarkAll(stale, existing, current, now);
      forall j :: |stale| <= j < |r| ==>
        (r[j] in StaleDue(r, Cutoff(graceDays, later)) <==> now < later - graceDays * SecondsPerDay)
  {
    var r := MarkAll(stale, existing, current, now);
    MarkAllNewRows(stale, existing, current, now);
    StaleDueMembers(r, Cutoff(graceDays, later));
    forall j | |stale| <= j < |r|
      ensures r[j] in StaleDue(r, Cutoff(graceDays, later)) <==> now < later - graceDays * SecondsPerDay
    {
      assert MarkedFor(r[j], existing, current, now);
      assert r[j] in r;
    }
  }
}
