/** Properties of the reconciliation passes: the payload's fallbacks, what one
    device iteration does in each of its cases, counter bounds, the ids handed to
    stale marking, that a second pass over unchanged devices writes nothing, and
    the outcome of the other passes. */
module ReconcilerProperties {
  import opened Wrappers
  import opened Text
  import opened Dicts
  import opened Canonical
  import opened Serialization
  import opened StateStore
  import opened StateStoreProperties
  import opened Inventory
  import opened Reconciler

  // ---------------------------------------------------------------------------
  // Hash and payload
  // ---------------------------------------------------------------------------

  /** Reordering a device's custom fields does not change its hash. */
  lemma HashIgnoresCustomFieldOrder(hash: string -> string, d: CanonicalDevice, reordered: Dict)
    requires DistinctKeys(d.customFields)
    requires multiset(reordered) == multiset(d.customFields)
    ensures DeviceHash(hash, d.(customFields := reordered)) == DeviceHash(hash, d)
  {
    DeviceTextIgnoresCustomFieldOrder(d, reordered);
  }

  /** The payload's device type comes from one of the three links of the chain,
      and the last resort 1 is used only when the generic lookup raised. */
  lemma DeviceTypeChain(client: Client, d: CanonicalDevice)
    ensures var id := DeviceTypeId(client, d);
      (ModelTypeId(client, d) == Some(id) && id != 0) ||
      client.getOrCreateDeviceType("Generic", "Unknown") == Ok(id) ||
      (id == 1 && client.getOrCreateDeviceType("Generic", "Unknown").Raised?)
    ensures !Truthy(d.manufacturer) || !Truthy(d.model) ==>
      DeviceTypeId(client, d) == client.getOrCreateDeviceType("Generic", "Unknown").OrElse(1)
  {
  }

  /** The payload's role comes from the mapped role, the "Server" role, or 1. */
  lemma RoleChain(client: Client, t: DeviceType)
    ensures var id := RoleId(client, t);
      client.getOrCreateDeviceRole(RoleFor(t).0, RoleFor(t).1) == Ok(id) ||
      client.getOrCreateDeviceRole("Server", "2196f3") == Ok(id) ||
      (id == 1 && client.getOrCreateDeviceRole("Server", "2196f3").Raised?)
  {
  }

  /** The payload's custom fields: the five overlaid keys read their overlay
      values, every other key reads the device's own custom field. */
  lemma PayloadCustomFields(client: Client, d: CanonicalDevice, k: string)
    requires client.getOrCreateSite.Ok?
    ensures var cf := DevicePayloadFor(client, d).value.customFields;
      Lookup(cf, "external_id") == Some(d.externalId) &&
      Lookup(cf, "source") == Some(d.source) &&
      Lookup(cf, "owner") == Some(d.owner.GetOr("")) &&
      Lookup(cf, "compliance_status") == Some(if d.complianceStatus.Some? then ComplianceValue(d.complianceStatus.value) else "") &&
      Lookup(cf, "av_status") == Some(d.avStatus.GetOr("")) &&
      (k !in ["external_id", "source", "owner", "compliance_status", "av_status"] ==> Lookup(cf, k) == Lookup(d.customFields, k))
  {
    var o := Overlay(d);
    assert DistinctKeys(o);
    var cf := Update(d.customFields, o);
    var i := 0;
    while i < |o|
      invariant 0 <= i <= |o|
      invariant forall j :: 0 <= j < i ==> Lookup(cf, o[j].0) == Some(o[j].1)
    {
      UpdateLookup(d.customFields, o, o[i].0);
      LookupAt(o, i);
      i := i + 1;
    }
    assert Lookup(cf, o[0].0) == Some(o[0].1) && Lookup(cf, o[1].0) == Some(o[1].1) && Lookup(cf, o[2].0) == Some(o[2].1);
    assert Lookup(cf, o[3].0) == Some(o[3].1) && Lookup(cf, o[4].0) == Some(o[4].1);
    UpdateLookup(d.customFields, o, k);
    if k !in ["external_id", "source", "owner", "compliance_status", "av_status"] {
      assert forall j :: 0 <= j < |o| ==> o[j].0 != k;
      assert IndexOf(o, k).None?;
    }
  }

  // ---------------------------------------------------------------------------
  // One device iteration
  // ---------------------------------------------------------------------------

  /** Fast path: the stored hash equals the device's. Only the state row's
      `last_seen` moves; no upstream call, no mapping write, no counter change. */
  lemma DeviceStepFastPath(client: Client, hash: string -> string, source: string, now: nat, t: DeviceTally, d: CanonicalDevice, other: Key)
    requires Unchanged(hash, source, t.states, d)
    ensures var r := DeviceStep(client, hash, source, now, t, d);
      var before, after := LookupState(t.states, DeviceKey(source, d)), LookupState(r.states, DeviceKey(source, d));
      r.mappings == t.mappings && r.created == t.created && r.updated == t.updated &&
      r.errors == t.errors && r.sent == t.sent &&
      after.Some? && after.value == before.value.(lastSeen := now) &&
      (other != DeviceKey(source, d) ==> LookupState(r.states, other) == LookupState(t.states, other))
  {
    UpsertStateLookup(t.states, DeviceKey(source, d), DeviceHash(hash, d), None, now, other);
  }

  /** A new or changed device whose upsert returns: the returned id is recorded
      in the state row and in the mapping, and exactly one of `created` and
      `updated` grows, `updated` exactly when a state row existed. */
  lemma DeviceStepWrite(client: Client, hash: string -> string, source: string, now: nat, t: DeviceTally, d: CanonicalDevice, p: DevicePayload, reply: Reply)
    requires !Unchanged(hash, source, t.states, d)
    requires DevicePayloadFor(client, d) == Ok(p) && client.createOrUpdateDevice(p) == Ok(reply)
    ensures var r := DeviceStep(client, hash, source, now, t, d);
      var k := DeviceKey(source, d);
      var st, m := LookupState(r.states, k), LookupMapping(r.mappings, k);
      st.Some? && st.value.dataHash == DeviceHash(hash, d) && st.value.netboxId == Some(IdText(reply)) && st.value.lastSeen == now &&
      m.Some? && m.value.netboxId == IdText(reply) && ParseInt(m.value.netboxId) == ReplyId(reply) &&
      r.errors == t.errors && r.sent == t.sent + [p] &&
      (LookupState(t.states, k).Some? ==> r.updated == t.updated + 1 && r.created == t.created) &&
      (LookupState(t.states, k).None? ==> r.created == t.created + 1 && r.updated == t.updated)
  {
    var k := DeviceKey(source, d);
    UpsertStateLookup(t.states, k, DeviceHash(hash, d), Some(IdText(reply)), now, k);
    UpsertMappingLookup(t.mappings, k, IdText(reply), now, k);
  }

  /** A device whose payload or upsert raises adds exactly one error and
      changes nothing else the loop keeps. */
  lemma DeviceStepError(client: Client, hash: string -> string, source: string, now: nat, t: DeviceTally, d: CanonicalDevice)
    requires !Unchanged(hash, source, t.states, d)
    requires DevicePayloadFor(client, d).Raised? || client.createOrUpdateDevice(DevicePayloadFor(client, d).value).Raised?
    ensures var r := DeviceStep(client, hash, source, now, t, d);
      |r.errors| == |t.errors| + 1 && r.errors[..|t.errors|] == t.errors &&
      r.states == t.states && r.mappings == t.mappings && r.created == t.created && r.updated == t.updated
  {
    var r := DeviceStep(client, hash, source, now, t, d);
    assert r.errors[..|t.errors|] == t.errors;
  }

  // ---------------------------------------------------------------------------
  // The device pass
  // ---------------------------------------------------------------------------

  /** Each device adds at most one to created + updated + errors. */
  lemma {:induction false} DevicePassCounts(client: Client, hash: string -> string, source: string, now: nat, t: DeviceTally, devices: seq<CanonicalDevice>)
    ensures var r := DevicePass(client, hash, source, now, t, devices);
      r.created + r.updated + |r.errors| <= t.created + t.updated + |t.errors| + |devices| &&
      |r.errors| >= |t.errors| && r.errors[..|t.errors|] == t.errors
    decreases |devices|
  {
    if devices != [] {
      var init := devices[..|devices| - 1];
      DevicePassCounts(client, hash, source, now, t, init);
      var r0 := DevicePass(client, hash, source, now, t, init);
      var r := DeviceStep(client, hash, source, now, r0, devices[|devices| - 1]);
      DeviceStepErrors(client, hash, source, now, r0, devices[|devices| - 1]);
      if r.errors != r0.errors {
        assert r.errors[..|t.errors|] == r0.errors[..|t.errors|];
      }
    }
  }

  /** Over a whole pass: created + updated + len(errors) <= len(devices). */
  lemma DevicePassBound(client: Client, hash: string -> string, source: string, now: nat, states: seq<SyncStateRow>, mappings: seq<MappingRow>, devices: seq<CanonicalDevice>)
    ensures var r := DevicePass(client, hash, source, now, DeviceStart(states, mappings), devices);
      r.created + r.updated + |r.errors| <= |devices|
  {
    DevicePassCounts(client, hash, source, now, DeviceStart(states, mappings), devices);
  }

  /** A device iteration adds at most one error, at the end, and at most one
      to created + updated + errors. */
  lemma DeviceStepErrors(client: Client, hash: string -> string, source: string, now: nat, t: DeviceTally, d: CanonicalDevice)
    ensures var r := DeviceStep(client, hash, source, now, t, d);
      r.errors == t.errors || (|r.errors| == |t.errors| + 1 && r.errors[..|t.errors|] == t.errors)
    ensures var r := DeviceStep(client, hash, source, now, t, d);
      r.created + r.updated + |r.errors| <= t.created + t.updated + |t.errors| + 1
  {
    var r := DeviceStep(client, hash, source, now, t, d);
    if r.errors != t.errors {
      assert r.errors[..|t.errors|] == t.errors;
    }
  }

  /** A device iteration that adds no error writes the device's state row with
      its current hash and leaves every other state row alone. */
  lemma DeviceStepCleanStates(client: Client, hash: string -> string, source: string, now: nat, t: DeviceTally, d: CanonicalDevice)
    returns (id: Option<string>)
    requires DeviceStep(client, hash, source, now, t, d).errors == t.errors
    ensures DeviceStep(client, hash, source, now, t, d).states == UpsertState(t.states, DeviceKey(source, d), DeviceHash(hash, d), id, now)
  {
    id := None;
    if !Unchanged(hash, source, t.states, d) {
      id := Some(IdText(client.createOrUpdateDevice(DevicePayloadFor(client, d).value).value));
    }
  }

  /** A device pass never marks one of its own input devices stale, whether
      or not that device failed; every stale row it adds belongs to this
      source's devices. */
  lemma DevicePassSparesInputs(client: Client, hash: string -> string, source: string, now: nat, states: seq<SyncStateRow>, mappings: seq<MappingRow>, stale: seq<StaleRow>, devices: seq<CanonicalDevice>)
    ensures var t := DevicePass(client, hash, source, now, DeviceStart(states, mappings), devices);
      var r := MarkAll(stale, MappingsOf(t.mappings, source, "device"), ExternalIds(devices), now);
      |r| >= |stale| && r[..|stale|] == stale &&
      forall j :: |stale| <= j < |r| ==>
        r[j].key.source == source && r[j].key.objectType == "device" &&
        forall d :: d in devices ==> r[j].key.externalId != d.externalId
  {
    var t := DevicePass(client, hash, source, now, DeviceStart(states, mappings), devices);
    MarkStaleRows(t.mappings, stale, source, "device", ExternalIds(devices), now);
    var r := MarkAll(stale, MappingsOf(t.mappings, source, "device"), ExternalIds(devices), now);
    forall j, d | |stale| <= j < |r| && d in devices
      ensures r[j].key.externalId != d.externalId
    {
      var i :| 0 <= i < |devices| && devices[i] == d;
      assert ExternalIds(devices)[i] == d.externalId;
    }
  }

  /** The device pass keeps one state row and one mapping per key. */
  lemma {:induction false} DevicePassUnique(client: Client, hash: string -> string, source: string, now: nat, t: DeviceTally, devices: seq<CanonicalDevice>)
    requires UniqueStates(t.states) && UniqueMappings(t.mappings)
    ensures var r := DevicePass(client, hash, source, now, t, devices);
      UniqueStates(r.states) && UniqueMappings(r.mappings)
    decreases |devices|
  {
    if devices != [] {
      var init, d := devices[..|devices| - 1], devices[|devices| - 1];
      DevicePassUnique(client, hash, source, now, t, init);
      var r0 := DevicePass(client, hash, source, now, t, init);
      var k, h := DeviceKey(source, d), DeviceHash(hash, d);
      UpsertStateUnique(r0.states, k, h, None, now);
      if !Unchanged(hash, source, r0.states, d) && DevicePayloadFor(client, d).Ok? {
        var reply := client.createOrUpdateDevice(DevicePayloadFor(client, d).value);
        if reply.Ok? {
          UpsertStateUnique(r0.states, k, h, Some(IdText(reply.value)), now);
          UpsertMappingUnique(r0.mappings, k, IdText(reply.value), now);
        }
      }
    }
  }

  // ---------------------------------------------------------------------------
  // A second pass over the same devices
  // ---------------------------------------------------------------------------

  /** Every device of `all` has a state row holding its current hash. */
  predicate Synced(hash: string -> string, source: string, states: seq<SyncStateRow>, all: seq<CanonicalDevice>) {
    forall d :: d in all ==> Unchanged(hash, source, states, d)
  }

  predicate DistinctIds(devices: seq<CanonicalDevice>) {
    forall i, j :: 0 <= i < j < |devices| ==> devices[i].externalId != devices[j].externalId
  }

  /** A pass over distinct devices that raises no error leaves every one of
      them synced. */
  lemma {:induction false} CleanPassSyncs(client: Client, hash: string -> string, source: string, now: nat, t: DeviceTally, devices: seq<CanonicalDevice>)
    requires DistinctIds(devices)
    requires DevicePass(client, hash, source, now, t, devices).errors == t.errors
    ensures Synced(hash, source, DevicePass(client, hash, source, now, t, devices).states, devices)
    decreases |devices|
  {
    if devices != [] {
      var init, last := devices[..|devices| - 1], devices[|devices| - 1];
      var r0 := DevicePass(client, hash, source, now, t, init);
      var r := DeviceStep(client, hash, source, now, r0, last);
      DevicePassCounts(client, hash, source, now, t, init);
      DeviceStepErrors(client, hash, source, now, r0, last);
      assert r.errors == r0.errors;
      CleanPassSyncs(client, hash, source, now, t, init);
      var k, h := DeviceKey(source, last), DeviceHash(hash, last);
      var id := DeviceStepCleanStates(client, hash, source, now, r0, last);
      assert devices == init + [last];
      SyncedSnoc(hash, source, r0.states, id, now, init, last);
    }
  }

  /** Writing a state row keeps a device's row current: either the row is
      another key's, or it is the device's own and gets the device's hash. */
  lemma UpsertKeepsUnchanged(hash: string -> string, source: string, states: seq<SyncStateRow>, k: Key, h: string, id: Option<string>, now: nat, d: CanonicalDevice)
    requires (DeviceKey(source, d) != k && Unchanged(hash, source, states, d)) || (DeviceKey(source, d) == k && h == DeviceHash(hash, d))
    ensures Unchanged(hash, source, UpsertState(states, k, h, id, now), d)
  {
    UpsertStateLookup(states, k, h, id, now, DeviceKey(source, d));
  }

  /** Writing the last device's row keeps the earlier, distinct devices synced
      and syncs the last one. */
  lemma SyncedSnoc(hash: string -> string, source: string, states: seq<SyncStateRow>, id: Option<string>, now: nat, init: seq<CanonicalDevice>, last: CanonicalDevice)
    requires Synced(hash, source, states, init) && DistinctIds(init + [last])
    ensures Synced(hash, source, UpsertState(states, DeviceKey(source, last), DeviceHash(hash, last), id, now), init + [last])
  {
    var devices := init + [last];
    forall d | d in devices
      ensures Unchanged(hash, source, UpsertState(states, DeviceKey(source, last), DeviceHash(hash, last), id, now), d)
    {
      if d != last {
        var i :| 0 <= i < |devices| && devices[i] == d;
        assert i != |init| && devices[i] == init[i];
      }
      UpsertKeepsUnchanged(hash, source, states, DeviceKey(source, last), DeviceHash(hash, last), id, now, d);
    }
  }

  /** Over devices that are all synced, every iteration takes the fast path:
      nothing is sent, no mapping is written, no counter moves, and the devices
      stay synced. */
  lemma {:induction false} SyncedPassQuiet(client: Client, hash: string -> string, source: string, now: nat, t: DeviceTally, devices: seq<CanonicalDevice>, all: seq<CanonicalDevice>)
    requires Synced(hash, source, t.states, all)
    requires forall d :: d in devices ==> d in all
    ensures var r := DevicePass(client, hash, source, now, t, devices);
      r.mappings == t.mappings && r.created == t.created && r.updated == t.updated &&
      r.errors == t.errors && r.sent == t.sent && Synced(hash, source, r.states, all)
    decreases |devices|
  {
    if devices != [] {
      var init, last := devices[..|devices| - 1], devices[|devices| - 1];
      assert forall d :: d in init ==> d in devices;
      SyncedPassQuiet(client, hash, source, now, t, init, all);
      var r0 := DevicePass(client, hash, source, now, t, init);
      var k, h := DeviceKey(source, last), DeviceHash(hash, last);
      assert last in all;
      var r := DeviceStep(client, hash, source, now, r0, last);
      assert r.states == UpsertState(r0.states, k, h, None, now);
      forall d | d in all ensures Unchanged(hash, source, r.states, d) {
        assert Unchanged(hash, source, r0.states, d);
        UpsertKeepsUnchanged(hash, source, r0.states, k, h, None, now, d);
      }
    }
  }

  /** Running the device pass twice over the same distinct devices, the second
      run creates, updates and sends nothing and writes no mapping, provided the
      first raised no error. */
  lemma SecondPassQuiet(client: Client, hash: string -> string, source: string, now: nat, later: nat, states: seq<SyncStateRow>, mappings: seq<MappingRow>, devices: seq<CanonicalDevice>)
    requires DistinctIds(devices)
    requires DevicePass(client, hash, source, now, DeviceStart(states, mappings), devices).errors == []
    ensures var first := DevicePass(client, hash, source, now, DeviceStart(states, mappings), devices);
      var second := DevicePass(client, hash, source, later, DeviceStart(first.states, first.mappings), devices);
      second.created == 0 && second.updated == 0 && second.errors == [] && second.sent == [] &&
      second.mappings == first.mappings
  {
    var first := DevicePass(client, hash, source, now, DeviceStart(states, mappings), devices);
    CleanPassSyncs(client, hash, source, now, DeviceStart(states, mappings), devices);
    SyncedPassQuiet(client, hash, source, later, DeviceStart(first.states, first.mappings), devices, devices);
  }

  // ---------------------------------------------------------------------------
  // Interfaces
  // ---------------------------------------------------------------------------

  /** An interface whose device has no mapping yields one error and no call. */
  lemma InterfaceWithoutDevice(client: Client, mappings: seq<MappingRow>, source: string, c: Counters<InterfacePayload>, x: CanonicalInterface)
    requires LookupMapping(mappings, Key(source, "device", x.deviceExternalId)).None?
    ensures var r := InterfaceStep(client, mappings, source, c, x);
      r.errors == c.errors + ["Device not found for interface " + x.name + ": " + x.deviceExternalId] &&
      r.sent == c.sent && r.created == c.created && r.updated == c.updated
  {
  }

  /** Each interface either errors or counts at most one created and at most
      one updated: created + errors and updated + errors are bounded by the input. */
  lemma {:induction false} InterfacePassBounds(client: Client, mappings: seq<MappingRow>, source: string, c: Counters<InterfacePayload>, xs: seq<CanonicalInterface>)
    ensures var r := InterfacePass(client, mappings, source, c, xs);
      r.created + |r.errors| <= c.created + |c.errors| + |xs| &&
      r.updated + |r.errors| <= c.updated + |c.errors| + |xs| &&
      |r.sent| <= |c.sent| + |xs|
    decreases |xs|
  {
    if xs != [] {
      InterfacePassBounds(client, mappings, source, c, xs[..|xs| - 1]);
    }
  }

  /** A device upserted in this run is found by its interfaces: the interface
      payload carries the id the device upsert returned. */
  lemma InterfaceFindsUpsertedDevice(client: Client, hash: string -> string, source: string, now: nat, t: DeviceTally, d: CanonicalDevice,
                                     p: DevicePayload, reply: Reply, id: int, c: Counters<InterfacePayload>, x: CanonicalInterface)
    requires !Unchanged(hash, source, t.states, d)
    requires DevicePayloadFor(client, d) == Ok(p) && client.createOrUpdateDevice(p) == Ok(reply) && ReplyId(reply) == Some(id)
    requires x.deviceExternalId == d.externalId
    ensures var mappings := DeviceStep(client, hash, source, now, t, d).mappings;
      InterfaceStep(client, mappings, source, c, x).sent == c.sent + [InterfacePayloadFor(id, x)]
  {
    DeviceStepWrite(client, hash, source, now, t, d, p, reply);
  }

  /** A reply rendered with both a `created` and a `last_updated` key (as every
      serialised inventory record is) counts as created and as updated at once. */
  lemma InterfaceReplyCountsTwice(client: Client, mappings: seq<MappingRow>, source: string, c: Counters<InterfacePayload>, x: CanonicalInterface,
                                  deviceId: int, replyId: Option<int>, a: string, b: string, e: string)
    requires var m := LookupMapping(mappings, Key(source, "device", x.deviceExternalId));
      m.Some? && ParseInt(m.value.netboxId) == Some(deviceId)
    requires client.createOrUpdateInterface(InterfacePayloadFor(deviceId, x)) == Ok(Record(replyId, a + "'created': " + b + "'last_updated': " + e))
    ensures var r := InterfaceStep(client, mappings, source, c, x);
      r.created == c.created + 1 && r.updated == c.updated + 1 && r.errors == c.errors
  {
    var text := a + "'created': " + b + "'last_updated': " + e;
    assert Contains("created", "created");
    assert Contains("updated", "updated");
    ContainsInfix(a + "'", "created", "': " + b + "'last_updated': " + e, "created");
    assert a + "'" + "created" + ("': " + b + "'last_updated': " + e) == text;
    ContainsInfix(a + "'created': " + b + "'last_", "updated", "': " + e, "updated");
    assert a + "'created': " + b + "'last_" + "updated" + ("': " + e) == text;
  }

  // ---------------------------------------------------------------------------
  // VLANs, prefixes and IP addresses
  // ---------------------------------------------------------------------------

  /** Every VLAN is sent once; each one errors or counts at most one created;
      `updated` never moves. */
  lemma {:induction false} VlanPassBounds(client: Client, source: string, c: Counters<VlanPayload>, xs: seq<CanonicalVLAN>)
    ensures var r := VlanPass(client, source, c, xs);
      r.created + |r.errors| <= c.created + |c.errors| + |xs| &&
      r.updated == c.updated && |r.sent| == |c.sent| + |xs|
    decreases |xs|
  {
    if xs != [] {
      VlanPassBounds(client, source, c, xs[..|xs| - 1]);
    }
  }

  /** As written, every prefix fails on the missing client call: one error per
      prefix, in order, nothing sent and nothing counted. */
  lemma {:induction false} PrefixPassAsWrittenFails(c: Counters<PrefixPayload>, xs: seq<CanonicalPrefix>)
    ensures var r := PrefixPassAsWritten(c, xs);
      r.created == c.created && r.updated == c.updated && r.sent == c.sent &&
      |r.errors| == |c.errors| + |xs| && r.errors[..|c.errors|] == c.errors &&
      forall i :: 0 <= i < |xs| ==> r.errors[|c.errors| + i] == PrefixError(xs[i], MissingPrefixCall)
    decreases |xs|
  {
    if xs != [] {
      var init := xs[..|xs| - 1];
      PrefixPassAsWrittenFails(c, init);
      var r0 := PrefixPassAsWritten(c, init);
      var r := PrefixPassAsWritten(c, xs);
      assert r.errors == r0.errors + [PrefixError(xs[|xs| - 1], MissingPrefixCall)];
      assert r.errors[..|c.errors|] == r0.errors[..|c.errors|];
    }
  }

  /** Calling `get_or_create_prefix`, every prefix is sent once; when no call
      raises and every reply is truthy, every prefix counts as created. */
  lemma {:induction false} PrefixPassCreates(client: Client, c: Counters<PrefixPayload>, xs: seq<CanonicalPrefix>)
    ensures var r := PrefixPass(client, c, xs);
      |r.sent| == |c.sent| + |xs| && r.created + |r.errors| <= c.created + |c.errors| + |xs|
    ensures (forall i :: 0 <= i < |xs| ==>
               client.getOrCreatePrefix(PrefixPayloadFor(xs[i])).Ok? &&
               ReplyTruthy(client.getOrCreatePrefix(PrefixPayloadFor(xs[i])).value)) ==>
      PrefixPass(client, c, xs).created == c.created + |xs| && PrefixPass(client, c, xs).errors == c.errors
    decreases |xs|
  {
    if xs != [] {
      PrefixPassCreates(client, c, xs[..|xs| - 1]);
    }
  }

  /** IP replies are matched case-insensitively: any casing of the word counts. */
  lemma IpCountsAnyCase(client: Client, c: Counters<IpPayload>, ip: CanonicalIPAddress, replyId: Option<int>, a: string, w: string, b: string)
    requires Lower(w) == "created"
    requires client.createOrUpdateIpAddress(IpPayloadFor(ip)) == Ok(Record(replyId, a + w + b))
    ensures IpStep(client, c, ip).created == c.created + 1
  {
    LowerAppend(a, w);
    LowerAppend(a + w, b);
    assert Contains("created", "created");
    ContainsInfix(Lower(a), "created", Lower(b), "created");
  }

  /** Every address is sent exactly once, and each one that errors counts
      neither as created nor as updated. */
  lemma {:induction false} IpPassBounds(client: Client, c: Counters<IpPayload>, xs: seq<CanonicalIPAddress>)
    ensures var r := IpPass(client, c, xs);
      r.created + |r.errors| <= c.created + |c.errors| + |xs| &&
      r.updated + |r.errors| <= c.updated + |c.errors| + |xs| &&
      |r.sent| == |c.sent| + |xs| && |r.errors| >= |c.errors| && r.errors[..|c.errors|] == c.errors
    decreases |xs|
  {
    if xs != [] {
      var init := xs[..|xs| - 1];
      IpPassBounds(client, c, init);
      var r0 := IpPass(client, c, init);
      var r := IpStep(client, r0, xs[|xs| - 1]);
      assert r.errors[..|c.errors|] == r0.errors[..|c.errors|];
    }
  }

  /** No canonical address ever yields an assignment target: the record has no
      device name, hostname or DHCP client hostname to look up. */
  lemma NoAssignmentForCanonicalAddresses(ip: CanonicalIPAddress, mappings: seq<MappingRow>, source: string)
    ensures AssignmentPlan(AttributesOf(ip), mappings, source) == None
  {
  }

  /** Given a device name whose mapping holds a non-zero numeric id, the plan
      targets that device and the address's interface (or "lan"/"mgmt"). */
  lemma AssignmentPlanTargetsMappedDevice(a: IpAttributes, mappings: seq<MappingRow>, source: string, reply: Reply, id: int)
    requires Truthy(a.deviceName)
    requires LookupMapping(mappings, Key(source, "device", a.deviceName.value)).Some?
    requires LookupMapping(mappings, Key(source, "device", a.deviceName.value)).value.netboxId == IdText(reply)
    requires ReplyId(reply) == Some(id) && id != 0
    ensures AssignmentPlan(a, mappings, source) == Some((id, AssignmentInterface(a)))
    ensures AssignmentInterface(a) == if Truthy(a.interfaceName) then a.interfaceName.value else if Truthy(a.leaseType) then "lan" else "mgmt"
  {
  }
}
