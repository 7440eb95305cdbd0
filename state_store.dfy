/** The state store: four tables keyed by (source, object type, external id).
    Sync states remember the last content hash and inventory id of every
    object seen; object mappings translate external ids into inventory ids;
    stale objects record mappings that a pass no longer saw; sync runs are the
    audit log of passes. Tables are sequences in insertion order, and a row
    added is visible to the next query at once. Timestamps are ticks (seconds)
    of the caller's clock. */
module StateStore {
  import opened Wrappers
  import opened Text
  import opened Dicts

  datatype Key = Key(source: string, objectType: string, externalId: string)

  datatype SyncStateRow = SyncStateRow(key: Key, dataHash: string, netboxId: Option<string>, lastSeen: nat)

  datatype MappingRow = MappingRow(key: Key, netboxId: string, updatedAt: nat)

  datatype StaleRow = StaleRow(key: Key, netboxId: string, markedStaleAt: nat, deletedAt: Option<nat>)

  datatype RunStatus = Running | Completed | Failed

  /** One audit-log row. `errors` is the list the `errors` column holds as JSON. */
  datatype SyncRunRow = SyncRunRow(
    source: string,
    syncType: string,
    startedAt: nat,
    completedAt: Option<nat>,
    status: RunStatus,
    createdCount: int,
    updatedCount: int,
    deletedCount: int,
    errorCount: nat,
    errors: Option<seq<string>>,
    duration: Option<int>)

  const SecondsPerDay: nat := 86400

  function StateKey(row: SyncStateRow): Key { row.key }

  function MappingKey(row: MappingRow): Key { row.key }

  // ---------------------------------------------------------------------------
  // Sync states
  // ---------------------------------------------------------------------------

  /** The position of the first state row with key `k` (`.first()`). */
  function StateIndex(states: seq<SyncStateRow>, k: Key): (r: Option<nat>)
    ensures r.Some? ==> r.value < |states| && states[r.value].key == k
    ensures r.Some? ==> forall j :: 0 <= j < r.value ==> states[j].key != k
    ensures r.None? ==> forall j :: 0 <= j < |states| ==> states[j].key != k
  {
    FirstIndex(states, StateKey, k)
  }

  function LookupState(states: seq<SyncStateRow>, k: Key): Option<SyncStateRow> {
    match StateIndex(states, k)
    case Some(i) => Some(states[i])
    case None => None
  }

  /** `update_sync_state`: an existing row gets the new hash and `last_seen`,
      and the new inventory id only when that id is truthy; otherwise a row is
      appended. */
  function UpsertState(states: seq<SyncStateRow>, k: Key, hash: string, netboxId: Option<string>, now: nat): seq<SyncStateRow> {
    match StateIndex(states, k)
    case Some(i) =>
      states[i := states[i].(dataHash := hash, lastSeen := now,
                             netboxId := if Truthy(netboxId) then netboxId else states[i].netboxId)]
    case None => states + [SyncStateRow(k, hash, netboxId, now)]
  }

  predicate UniqueStates(states: seq<SyncStateRow>) {
    forall i, j :: 0 <= i < j < |states| ==> states[i].key != states[j].key
  }

  // ---------------------------------------------------------------------------
  // Object mappings
  // ---------------------------------------------------------------------------

  /** The position of the first mapping with key `k` (`.first()`). */
  function MappingIndex(mappings: seq<MappingRow>, k: Key): (r: Option<nat>)
    ensures r.Some? ==> r.value < |mappings| && mappings[r.value].key == k
    ensures r.Some? ==> forall j :: 0 <= j < r.value ==> mappings[j].key != k
    ensures r.None? ==> forall j :: 0 <= j < |mappings| ==> mappings[j].key != k
  {
    FirstIndex(mappings, MappingKey, k)
  }

  function LookupMapping(mappings: seq<MappingRow>, k: Key): Option<MappingRow> {
    match MappingIndex(mappings, k)
    case Some(i) => Some(mappings[i])
    case None => None
  }

  /** `create_object_mapping`: appends, whether or not the key is mapped. */
  function InsertMapping(mappings: seq<MappingRow>, k: Key, netboxId: string, now: nat): seq<MappingRow> {
    mappings + [MappingRow(k, netboxId, now)]
  }

  /** `update_object_mapping`: overwrites the first row for the key, or inserts. */
  function UpsertMapping(mappings: seq<MappingRow>, k: Key, netboxId: string, now: nat): seq<MappingRow> {
    match MappingIndex(mappings, k)
    case Some(i) => mappings[i := mappings[i].(netboxId := netboxId, updatedAt := now)]
    case None => InsertMapping(mappings, k, netboxId, now)
  }

  predicate UniqueMappings(mappings: seq<MappingRow>) {
    forall i, j :: 0 <= i < j < |mappings| ==> mappings[i].key != mappings[j].key
  }

  // ---------------------------------------------------------------------------
  // Stale objects
  // ---------------------------------------------------------------------------

  /** The mappings of one (source, object type), in table order. */
  function MappingsOf(mappings: seq<MappingRow>, source: string, objectType: string): (r: seq<MappingRow>)
    ensures forall m :: m in r <==> m in mappings && m.key.source == source && m.key.objectType == objectType
    decreases |mappings|
  {
    if mappings == [] then []
    else
      var init, last := mappings[..|mappings| - 1], mappings[|mappings| - 1];
      assert mappings == init + [last];
      MappingsOf(init, source, objectType)
        + (if last.key.source == source && last.key.objectType == objectType then [last] else [])
  }

  /** A not-yet-deleted stale row exists for the key. */
  predicate ActiveStale(stale: seq<StaleRow>, k: Key) {
    exists r :: r in stale && r.key == k && r.deletedAt.None?
  }

  /** One iteration of the marking loop. */
  function MarkOne(stale: seq<StaleRow>, m: MappingRow, current: seq<string>, now: nat): seq<StaleRow> {
    if m.key.externalId !in current && !ActiveStale(stale, m.key) then
      stale + [StaleRow(m.key, m.netboxId, now, None)]
    else stale
  }

  /** `mark_stale_objects` over the mappings `existing`, in order. */
  function MarkAll(stale: seq<StaleRow>, existing: seq<MappingRow>, current: seq<string>, now: nat): seq<StaleRow>
    decreases |existing|
  {
    if existing == [] then stale
    else MarkOne(MarkAll(stale, existing[..|existing| - 1], current, now), existing[|existing| - 1], current, now)
  }

  /** The `grace_days` cut-off; it may lie before the clock's origin. */
  function Cutoff(graceDays: int, now: nat): int {
    now - graceDays * SecondsPerDay
  }

  predicate Due(r: StaleRow, cutoff: int) {
    r.markedStaleAt < cutoff && r.deletedAt.None?
  }

  /** `get_stale_objects`: the rows marked before the cut-off and not deleted,
      in table order. */
  function StaleDue(stale: seq<StaleRow>, cutoff: int): (r: seq<StaleRow>)
    ensures |r| <= |stale|
    decreases |stale|
  {
    if stale == [] then []
    else
      var init, last := stale[..|stale| - 1], stale[|stale| - 1];
      StaleDue(init, cutoff) + (if Due(last, cutoff) then [last] else [])
  }

  // ---------------------------------------------------------------------------
  // Sync runs
  // ---------------------------------------------------------------------------

  function NewRun(source: string, syncType: string, now: nat): SyncRunRow {
    SyncRunRow(source, syncType, now, None, Running, 0, 0, 0, 0, None, None)
  }

  /** `complete_sync_run`. */
  function CompleteRun(run: SyncRunRow, created: int, updated: int, deleted: int, errors: seq<string>, now: nat): (r: SyncRunRow)
    ensures r.status == Completed && r.completedAt == Some(now)
    ensures r.createdCount == created && r.updatedCount == updated && r.deletedCount == deleted
    ensures r.errorCount == |errors|
    ensures r.errors.None? <==> errors == []
    ensures r.errors.Some? ==> r.errors.value == errors
    ensures r.duration == Some(now - run.startedAt)
    ensures r.source == run.source && r.syncType == run.syncType && r.startedAt == run.startedAt
  {
    run.(completedAt := Some(now), status := Completed,
         createdCount := created, updatedCount := updated, deletedCount := deleted,
         errorCount := |errors|, errors := if errors != [] then Some(errors) else None,
         duration := Some(now - run.startedAt))
  }

  /** `fail_sync_run`: the counts, including the error count, are left as they were. */
  function FailRun(run: SyncRunRow, error: string, now: nat): (r: SyncRunRow)
    ensures r.status == Failed && r.completedAt == Some(now) && r.errors == Some([error])
    ensures r.createdCount == run.createdCount && r.updatedCount == run.updatedCount
    ensures r.deletedCount == run.deletedCount && r.errorCount == run.errorCount
    ensures r.duration == Some(now - run.startedAt)
  {
    run.(completedAt := Some(now), status := Failed, errors := Some([error]),
         duration := Some(now - run.startedAt))
  }

  // ---------------------------------------------------------------------------
  // The store
  // ---------------------------------------------------------------------------

  class Store {
    var states: seq<SyncStateRow>
    var mappings: seq<MappingRow>
    var stale: seq<StaleRow>
    var runs: seq<SyncRunRow>

    constructor ()
      ensures states == [] && mappings == [] && stale == [] && runs == []
    {
      states, mappings, stale, runs := [], [], [], [];
    }

    /** `get_sync_state`: the first row for the key. */
    function GetSyncState(k: Key): (r: Option<SyncStateRow>)
      reads this
      ensures r.Some? ==> r.value in states && r.value.key == k
      ensures r.None? <==> forall row :: row in states ==> row.key != k
    {
      LookupState(states, k)
    }

    method UpdateSyncState(k: Key, hash: string, netboxId: Option<string>, now: nat)
      modifies this
      ensures states == UpsertState(old(states), k, hash, netboxId, now)
      ensures mappings == old(mappings) && stale == old(stale) && runs == old(runs)
    {
      var i := StateIndex(states, k);
      if i.Some? {
        var row := states[i.value];
        var id := if Truthy(netboxId) then netboxId else row.netboxId;
        states := states[i.value := row.(dataHash := hash, lastSeen := now, netboxId := id)];
      } else {
        states := states + [SyncStateRow(k, hash, netboxId, now)];
      }
    }

    /** `create_sync_run`: the new run's id is its position in the log. */
    method CreateSyncRun(source: string, syncType: string, now: nat) returns (id: nat)
      modifies this
      ensures id == |old(runs)| && runs == old(runs) + [NewRun(source, syncType, now)]
      ensures states == old(states) && mappings == old(mappings) && stale == old(stale)
    {
      id := |runs|;
      runs := runs + [NewRun(source, syncType, now)];
    }

    method CompleteSyncRun(id: nat, created: int, updated: int, deleted: int, errors: seq<string>, now: nat)
      requires id < |runs|
      modifies this
      ensures runs == old(runs)[id := CompleteRun(old(runs)[id], created, updated, deleted, errors, now)]
      ensures states == old(states) && mappings == old(mappings) && stale == old(stale)
    {
      runs := runs[id := CompleteRun(runs[id], created, updated, deleted, errors, now)];
    }

    method FailSyncRun(id: nat, error: string, now: nat)
      requires id < |runs|
      modifies this
      ensures runs == old(runs)[id := FailRun(old(runs)[id], error, now)]
      ensures states == old(states) && mappings == old(mappings) && stale == old(stale)
    {
      runs := runs[id := FailRun(runs[id], error, now)];
    }

    /** `get_object_mapping`: the first mapping for the key. */
    function GetObjectMapping(k: Key): (r: Option<MappingRow>)
      reads this
      ensures r.Some? ==> r.value in mappings && r.value.key == k
      ensures r.None? <==> forall m :: m in mappings ==> m.key != k
    {
      LookupMapping(mappings, k)
    }

    method CreateObjectMapping(k: Key, netboxId: string, now: nat)
      modifies this
      ensures mappings == InsertMapping(old(mappings), k, netboxId, now)
      ensures states == old(states) && stale == old(stale) && runs == old(runs)
    {
      mappings := mappings + [MappingRow(k, netboxId, now)];
    }

    method UpdateObjectMapping(k: Key, netboxId: string, now: nat)
      modifies this
      ensures mappings == UpsertMapping(old(mappings), k, netboxId, now)
      ensures states == old(states) && stale == old(stale) && runs == old(runs)
    {
      var i := MappingIndex(mappings, k);
      if i.Some? {
        mappings := mappings[i.value := mappings[i.value].(netboxId := netboxId, updatedAt := now)];
      } else {
        CreateObjectMapping(k, netboxId, now);
      }
    }

    /** `mark_stale_objects`: walks the mappings of (source, object type) and adds
        a stale row for each one not seen in `current` that has no active stale
        row yet. Nothing else changes. */
    method MarkStaleObjects(source: string, objectType: string, current: seq<string>, now: nat)
      modifies this
      ensures stale == MarkAll(old(stale), MappingsOf(old(mappings), source, objectType), current, now)
      ensures states == old(states) && mappings == old(mappings) && runs == old(runs)
    {
      var existing := MappingsOf(mappings, source, objectType);
      var i := 0;
      while i < |existing|
        invariant 0 <= i <= |existing|
        invariant stale == MarkAll(old(stale), existing[..i], current, now)
        invariant states == old(states) && mappings == old(mappings) && runs == old(runs)
      {
        var mapping := existing[i];
        if mapping.key.externalId !in current {
          if !ActiveStale(stale, mapping.key) {
            stale := stale + [StaleRow(mapping.key, mapping.netboxId, now, None)];
          }
        }
        assert existing[..i + 1][..i] == existing[..i];
        i := i + 1;
      }
      assert existing[..|existing|] == existing;
    }

    /** `get_stale_objects`. */
    function GetStaleObjects(graceDays: int, now: nat): (r: seq<StaleRow>)
      reads this
      ensures forall row :: row in r <==> row in stale && Due(row, Cutoff(graceDays, now))
    {
      StaleDueMembers(stale, Cutoff(graceDays, now));
      StaleDue(stale, Cutoff(graceDays, now))
    }
  }

  /** A row is returned by `StaleDue` exactly when it is in the table and due. */
  lemma {:induction false} StaleDueMembers(stale: seq<StaleRow>, cutoff: int)
    ensures forall row :: row in StaleDue(stale, cutoff) <==> row in stale && Due(row, cutoff)
    decreases |stale|
  {
    if stale != [] {
      var init, last := stale[..|stale| - 1], stale[|stale| - 1];
      StaleDueMembers(init, cutoff);
      assert stale == init + [last];
    }
  }
}
