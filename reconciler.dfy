/** The reconciler: one pass per entity kind, each a loop that pushes canonical
    records to the inventory, counts what happened, isolates per-item failures,
    and records the run in the state store.

    Every pass is specified by a fold over its input (`DevicePass`,
    `InterfacePass`, ...) whose step is the loop body; the `Reconciler` methods
    are proved to compute exactly those folds on the store. */
module Reconciler {
  import opened Wrappers
  import opened Text
  import opened Dicts
  import opened Canonical
  import opened Serialization
  import opened StateStore
  import opened Inventory

  // ---------------------------------------------------------------------------
  // Change detection
  // ---------------------------------------------------------------------------

  /** `_calculate_hash(device)`: a digest, by an arbitrary function standing for
      SHA-256, of the sorted-key serialisation of the whole device. */
  function DeviceHash(hash: string -> string, d: CanonicalDevice): string {
    hash(DeviceText(d))
  }

  function DeviceKey(source: string, d: CanonicalDevice): Key {
    Key(source, "device", d.externalId)
  }

  // ---------------------------------------------------------------------------
  // The device payload
  // ---------------------------------------------------------------------------

  /** The device type looked up by manufacturer and model, when both are set;
      a raised lookup counts as no id. */
  function ModelTypeId(client: Client, d: CanonicalDevice): Option<int> {
    if Truthy(d.manufacturer) && Truthy(d.model) then
      match client.getOrCreateDeviceType(d.manufacturer.value, d.model.value)
      case Ok(id) => Some(id)
      case Raised(_) => None
    else None
  }

  /** The device-type id: the manufacturer/model type when that lookup gives a
      truthy id, else the ("Generic", "Unknown") type, else 1. */
  function DeviceTypeId(client: Client, d: CanonicalDevice): (id: int)
    ensures ModelTypeId(client, d).Some? && ModelTypeId(client, d).value != 0 ==> id == ModelTypeId(client, d).value
    ensures !(ModelTypeId(client, d).Some? && ModelTypeId(client, d).value != 0) ==>
      id == client.getOrCreateDeviceType("Generic", "Unknown").OrElse(1)
  {
    var first := ModelTypeId(client, d);
    if first.Some? && first.value != 0 then first.value
    else
      match client.getOrCreateDeviceType("Generic", "Unknown")
      case Ok(id) => id
      case Raised(_) => 1
  }

  /** The role name and colour for a device type. */
  function RoleFor(t: DeviceType): (role: (string, string))
    ensures role.0 == "Firewall" <==> t == Firewall
    ensures role.0 == "Virtual Machine" <==> t == Virtual
    ensures role.0 == "Server" <==> t == Physical
  {
    match t
    case Firewall => ("Firewall", "f44336")
    case Physical => ("Server", "2196f3")
    case Virtual => ("Virtual Machine", "9c27b0")
  }

  /** The role id: the mapped role, else the "Server" role, else 1. */
  function RoleId(client: Client, t: DeviceType): (id: int)
    ensures client.getOrCreateDeviceRole(RoleFor(t).0, RoleFor(t).1).Ok? ==>
      id == client.getOrCreateDeviceRole(RoleFor(t).0, RoleFor(t).1).value
    ensures client.getOrCreateDeviceRole(RoleFor(t).0, RoleFor(t).1).Raised? ==>
      id == client.getOrCreateDeviceRole("Server", "2196f3").OrElse(1)
  {
    match client.getOrCreateDeviceRole(RoleFor(t).0, RoleFor(t).1)
    case Ok(id) => id
    case Raised(_) =>
      match client.getOrCreateDeviceRole("Server", "2196f3")
      case Ok(id) => id
      case Raised(_) => 1
  }

  /** The fields the payload lays over the device's own custom fields. */
  function Overlay(d: CanonicalDevice): Dict {
    [("external_id", d.externalId),
     ("source", d.source),
     ("owner", d.owner.GetOr("")),
     ("compliance_status", if d.complianceStatus.Some? then ComplianceValue(d.complianceStatus.value) else ""),
     ("av_status", d.avStatus.GetOr(""))]
  }

  /** `_prepare_netbox_device_data`: raises only when the site lookup does. */
  function DevicePayloadFor(client: Client, d: CanonicalDevice): (r: Outcome<DevicePayload>)
    ensures r.Ok? <==> client.getOrCreateSite.Ok?
    ensures r.Raised? ==> r.error == client.getOrCreateSite.error
    ensures r.Ok? ==> r.value.name == d.name && r.value.site == client.getOrCreateSite.value
    ensures r.Ok? ==> r.value.deviceType == DeviceTypeId(client, d) && r.value.role == RoleId(client, d.deviceType)
    ensures r.Ok? ==> (r.value.serial.Some? <==> Truthy(d.serialNumber)) && (r.value.serial.Some? ==> r.value.serial == d.serialNumber)
    ensures r.Ok? ==> r.value.customFields == Update(d.customFields, Overlay(d))
  {
    match client.getOrCreateSite
    case Raised(e) => Raised(e)
    case Ok(site) =>
      Ok(DevicePayload(d.name, site, DeviceTypeId(client, d), RoleId(client, d.deviceType),
                       if Truthy(d.serialNumber) then d.serialNumber else None,
                       Update(d.customFields, Overlay(d))))
  }

  // ---------------------------------------------------------------------------
  // The device pass
  // ---------------------------------------------------------------------------

  /** The loop's state: the two tables it writes, its counters and the
      payloads it has sent upstream (a record of calls made, kept for the
      proofs). */
  datatype DeviceTally = DeviceTally(
    states: seq<SyncStateRow>,
    mappings: seq<MappingRow>,
    created: nat,
    updated: nat,
    errors: seq<string>,
    sent: seq<DevicePayload>)

  function DeviceStart(states: seq<SyncStateRow>, mappings: seq<MappingRow>): DeviceTally {
    DeviceTally(states, mappings, 0, 0, [], [])
  }

  function DeviceError(d: CanonicalDevice, e: string): string {
    "Error processing device " + d.name + ": " + e
  }

  /** The state row for the device exists and holds its current hash. */
  predicate Unchanged(hash: string -> string, source: string, states: seq<SyncStateRow>, d: CanonicalDevice) {
    var existing := LookupState(states, DeviceKey(source, d));
    existing.Some? && existing.value.dataHash == DeviceHash(hash, d)
  }

  /** The external ids of `devices`, in order: what the loop collects for
      stale marking, whether or not a device fails. */
  function ExternalIds(devices: seq<CanonicalDevice>): (ids: seq<string>)
    ensures |ids| == |devices| && forall i :: 0 <= i < |devices| ==> ids[i] == devices[i].externalId
  {
    seq(|devices|, i requires 0 <= i < |devices| => devices[i].externalId)
  }

  lemma ExternalIdsSnoc(devices: seq<CanonicalDevice>, i: nat)
    requires i < |devices|
    ensures ExternalIds(devices[..i + 1]) == ExternalIds(devices[..i]) + [devices[i].externalId]
  {
    assert ExternalIds(devices[..i + 1])[..i] == ExternalIds(devices[..i]);
  }

  /** One iteration of the device loop. */
  function DeviceStep(client: Client, hash: string -> string, source: string, now: nat, t: DeviceTally, d: CanonicalDevice): DeviceTally {
    var k := DeviceKey(source, d);
    var h := DeviceHash(hash, d);
    var existing := LookupState(t.states, k);
    if Unchanged(hash, source, t.states, d) then
      t.(states := UpsertState(t.states, k, h, None, now))
    else
      match DevicePayloadFor(client, d)
      case Raised(e) => t.(errors := t.errors + [DeviceError(d, e)])
      case Ok(p) =>
        var t := t.(sent := t.sent + [p]);
        match client.createOrUpdateDevice(p)
        case Raised(e) => t.(errors := t.errors + [DeviceError(d, e)])
        case Ok(reply) =>
          var id := IdText(reply);
          t.(states := UpsertState(t.states, k, h, Some(id), now),
             mappings := UpsertMapping(t.mappings, k, id, now),
             created := if existing.Some? then t.created else t.created + 1,
             updated := if existing.Some? then t.updated + 1 else t.updated)
  }

  /** The device loop over `devices`, in order. */
  function DevicePass(client: Client, hash: string -> string, source: string, now: nat, t: DeviceTally, devices: seq<CanonicalDevice>): DeviceTally
    decreases |devices|
  {
    if devices == [] then t
    else DeviceStep(client, hash, source, now, DevicePass(client, hash, source, now, t, devices[..|devices| - 1]), devices[|devices| - 1])
  }

  /** The device pass over one more device is one more step. */
  lemma DevicePassSnoc(client: Client, hash: string -> string, source: string, now: nat, t: DeviceTally, devices: seq<CanonicalDevice>, i: nat)
    requires i < |devices|
    ensures DevicePass(client, hash, source, now, t, devices[..i + 1]) ==
      DeviceStep(client, hash, source, now, DevicePass(client, hash, source, now, t, devices[..i]), devices[i])
  {
    assert devices[..i + 1][..i] == devices[..i];
  }

  // ---------------------------------------------------------------------------
  // The passes that only read the store
  // ---------------------------------------------------------------------------

  /** Counters of a pass, and the payloads it sent upstream. */
  datatype Counters<P> = Counters(created: nat, updated: nat, errors: seq<string>, sent: seq<P>)

  function NoCounts<P>(): Counters<P> {
    Counters(0, 0, [], [])
  }

  function Bump(n: nat, b: bool): nat {
    if b then n + 1 else n
  }

  /** Python's message for `int(s)` on a string that is not a number. */
  function IntError(s: string): string {
    "invalid literal for int() with base 10: '" + s + "'"
  }

  function InterfaceError(i: CanonicalInterface, e: string): string {
    "Error processing interface " + i.name + ": " + e
  }

  function InterfacePayloadFor(deviceId: int, i: CanonicalInterface): InterfacePayload {
    InterfacePayload(deviceId, i.name, i.description.GetOr(""), i.macAddress, i.mtu, i.tags)
  }

  /** One iteration of the interface loop. A reply is counted as created and as
      updated by the words occurring anywhere in its text. */
  function InterfaceStep(client: Client, mappings: seq<MappingRow>, source: string, c: Counters<InterfacePayload>, i: CanonicalInterface): Counters<InterfacePayload> {
    match LookupMapping(mappings, Key(source, "device", i.deviceExternalId))
    case None => c.(errors := c.errors + ["Device not found for interface " + i.name + ": " + i.deviceExternalId])
    case Some(m) =>
      match ParseInt(m.netboxId)
      case None => c.(errors := c.errors + [InterfaceError(i, IntError(m.netboxId))])
      case Some(deviceId) =>
        var p := InterfacePayloadFor(deviceId, i);
        var c := c.(sent := c.sent + [p]);
        match client.createOrUpdateInterface(p)
        case Raised(e) => c.(errors := c.errors + [InterfaceError(i, e)])
        case Ok(reply) =>
          if ReplyTruthy(reply) then
            c.(created := Bump(c.created, Contains(ReplyText(reply), "created")),
               updated := Bump(c.updated, Contains(ReplyText(reply), "updated")))
          else c
  }

  function InterfacePass(client: Client, mappings: seq<MappingRow>, source: string, c: Counters<InterfacePayload>, xs: seq<CanonicalInterface>): Counters<InterfacePayload>
    decreases |xs|
  {
    if xs == [] then c
    else InterfaceStep(client, mappings, source, InterfacePass(client, mappings, source, c, xs[..|xs| - 1]), xs[|xs| - 1])
  }

  function VlanPayloadFor(source: string, v: CanonicalVLAN): VlanPayload {
    VlanPayload(v.vlanId, v.name, v.description.GetOr(""), ["source:" + source])
  }

  /** One iteration of the VLAN loop: every truthy reply counts as created. */
  function VlanStep(client: Client, source: string, c: Counters<VlanPayload>, v: CanonicalVLAN): Counters<VlanPayload> {
    var p := VlanPayloadFor(source, v);
    var c := c.(sent := c.sent + [p]);
    match client.getOrCreateVlan(p)
    case Raised(e) => c.(errors := c.errors + ["Error processing VLAN " + v.name + ": " + e])
    case Ok(reply) => c.(created := Bump(c.created, ReplyTruthy(reply)))
  }

  function VlanPass(client: Client, source: string, c: Counters<VlanPayload>, xs: seq<CanonicalVLAN>): Counters<VlanPayload>
    decreases |xs|
  {
    if xs == [] then c
    else VlanStep(client, source, VlanPass(client, source, c, xs[..|xs| - 1]), xs[|xs| - 1])
  }

  function PrefixError(p: CanonicalPrefix, e: string): string {
    "Error processing prefix " + p.prefix + ": " + e
  }

  function PrefixPayloadFor(p: CanonicalPrefix): PrefixPayload {
    PrefixPayload(p.prefix, p.description.GetOr(""))
  }

  /** One iteration of the prefix loop as written: the client call it names does
      not exist, so looking it up raises before anything is sent. */
  function PrefixStepAsWritten(c: Counters<PrefixPayload>, p: CanonicalPrefix): Counters<PrefixPayload> {
    c.(errors := c.errors + [PrefixError(p, MissingPrefixCall)])
  }

  function PrefixPassAsWritten(c: Counters<PrefixPayload>, xs: seq<CanonicalPrefix>): Counters<PrefixPayload>
    decreases |xs|
  {
    if xs == [] then c
    else PrefixStepAsWritten(PrefixPassAsWritten(c, xs[..|xs| - 1]), xs[|xs| - 1])
  }

  /** One iteration of the prefix loop calling the client's `get_or_create_prefix`. */
  function PrefixStep(client: Client, c: Counters<PrefixPayload>, p: CanonicalPrefix): Counters<PrefixPayload> {
    var payload := PrefixPayloadFor(p);
    var c := c.(sent := c.sent + [payload]);
    match client.getOrCreatePrefix(payload)
    case Raised(e) => c.(errors := c.errors + [PrefixError(p, e)])
    case Ok(reply) => c.(created := Bump(c.created, ReplyTruthy(reply)))
  }

  function PrefixPass(client: Client, c: Counters<PrefixPayload>, xs: seq<CanonicalPrefix>): Counters<PrefixPayload>
    decreases |xs|
  {
    if xs == [] then c
    else PrefixStep(client, PrefixPass(client, c, xs[..|xs| - 1]), xs[|xs| - 1])
  }

  function IpPayloadFor(ip: CanonicalIPAddress): IpPayload {
    IpPayload(ip.address, ip.description.GetOr(""), if ip.status != "" then ip.status else "active")
  }

  /** One iteration of the IP loop. Counting looks for the words in the
      lower-cased reply text. Interface assignment is not attempted here:
      `AssignmentPlan` never yields a target for a canonical address
      (`NoAssignmentForCanonicalAddresses`), and its failures are only logged. */
  function IpStep(client: Client, c: Counters<IpPayload>, ip: CanonicalIPAddress): Counters<IpPayload> {
    var p := IpPayloadFor(ip);
    var c := c.(sent := c.sent + [p]);
    match client.createOrUpdateIpAddress(p)
    case Raised(e) => c.(errors := c.errors + ["Error processing IP address " + ip.address + ": " + e])
    case Ok(reply) =>
      var text := Lower(ReplyText(reply));
      c.(created := Bump(c.created, Contains(text, "created")),
         updated := Bump(c.updated, Contains(text, "updated")))
  }

  function IpPass(client: Client, c: Counters<IpPayload>, xs: seq<CanonicalIPAddress>): Counters<IpPayload>
    decreases |xs|
  {
    if xs == [] then c
    else IpStep(client, IpPass(client, c, xs[..|xs| - 1]), xs[|xs| - 1])
  }

  // ---------------------------------------------------------------------------
  // Interface assignment for an IP address
  // ---------------------------------------------------------------------------

  /** The attributes `_assign_ip_to_device_interface` probes for. A canonical
      address declares none of `device_name`, `hostname` and `client_hostname`. */
  datatype IpAttributes = IpAttributes(
    deviceName: Option<string>,
    hostname: Option<string>,
    clientHostname: Option<string>,
    interfaceName: Option<string>,
    leaseType: Option<string>)

  function AttributesOf(ip: CanonicalIPAddress): IpAttributes {
    IpAttributes(None, None, None, ip.interfaceName, ip.leaseType)
  }

  /** The device external id to look up: device name, else hostname, else the
      DHCP client hostname. */
  function AssignmentDevice(a: IpAttributes): (r: Option<string>)
    ensures r.Some? <==> Truthy(a.deviceName) || Truthy(a.hostname) || Truthy(a.clientHostname)
    ensures Truthy(a.deviceName) ==> r == a.deviceName
  {
    if Truthy(a.deviceName) then a.deviceName
    else if Truthy(a.hostname) then a.hostname
    else if Truthy(a.clientHostname) then a.clientHostname
    else None
  }

  /** The interface name to use: the address's own, else "lan" for a lease,
      else "mgmt". */
  function AssignmentInterface(a: IpAttributes): string {
    if Truthy(a.interfaceName) then a.interfaceName.value
    else if Truthy(a.leaseType) then "lan"
    else "mgmt"
  }

  /** The (device id, interface name) an address would be attached to, or
      `None` when the assignment is skipped: no device to look up, no mapping,
      an id that is not a number (the raised error is only logged), or id 0. */
  function AssignmentPlan(a: IpAttributes, mappings: seq<MappingRow>, source: string): (r: Option<(int, string)>)
    ensures r.Some? ==> AssignmentDevice(a).Some? && r.value.0 != 0 && r.value.1 != ""
    ensures r.Some? ==>
      var m := LookupMapping(mappings, Key(source, "device", AssignmentDevice(a).value));
      m.Some? && ParseInt(m.value.netboxId) == Some(r.value.0)
  {
    match AssignmentDevice(a)
    case None => None
    case Some(ext) =>
      match LookupMapping(mappings, Key(source, "device", ext))
      case None => None
      case Some(m) =>
        match ParseInt(m.netboxId)
        case None => None
        case Some(id) => if id == 0 then None else Some((id, AssignmentInterface(a)))
  }

  // ---------------------------------------------------------------------------
  // Pass results and faults
  // ---------------------------------------------------------------------------

  /** Where the store raises while finishing a pass: the sync type of the pass
      and the message. */
  type StoreFault = Option<(string, string)>

  /** The fault, if any, that hits the pass of type `syncType`. */
  function FaultFor(fault: StoreFault, syncType: string): (r: Option<string>)
    ensures r.Some? <==> fault.Some? && fault.value.0 == syncType
    ensures r.Some? ==> r.value == fault.value.1
  {
    if fault.Some? && fault.value.0 == syncType then Some(fault.value.1) else None
  }

  /** The pass's run row once it has finished or failed. */
  function FinishedRun<P>(source: string, syncType: string, c: Counters<P>, fault: Option<string>, now: nat): SyncRunRow {
    var run := NewRun(source, syncType, now);
    if fault.Some? then FailRun(run, fault.value, now) else CompleteRun(run, c.created, c.updated, 0, c.errors, now)
  }

  function PassResult<P>(source: string, syncType: string, c: Counters<P>, now: nat): SyncResult {
    SyncResult(source, syncType, c.created, c.updated, 0, c.errors, 0, now)
  }

  /** What a pass returns: it raises the store's message exactly when the store
      faulted, and otherwise reports its counters with nothing deleted. */
  function PassOutcome<P>(source: string, syncType: string, c: Counters<P>, fault: Option<string>, now: nat): (r: Outcome<SyncResult>)
    ensures r.Raised? <==> fault.Some?
    ensures r.Raised? ==> r.error == fault.value
    ensures r.Ok? ==> (r.value.source == source && r.value.syncType == syncType && r.value.deleted == 0 &&
      r.value.created == c.created && r.value.updated == c.updated && r.value.errors == c.errors)
  {
    if fault.Some? then Raised(fault.value) else Ok(PassResult(source, syncType, c, now))
  }

  function DeviceCounters(t: DeviceTally): Counters<DevicePayload> {
    Counters(t.created, t.updated, t.errors, t.sent)
  }

  /** What one source's data holds; a missing list is empty. */
  datatype SourceData = SourceData(
    devices: seq<CanonicalDevice>,
    interfaces: seq<CanonicalInterface>,
    vlans: seq<CanonicalVLAN>,
    prefixes: seq<CanonicalPrefix>,
    ipAddresses: seq<CanonicalIPAddress>)


  /** The stale table after a device pass with fold `t`: unchanged when the
      store faulted, otherwise every mapping of the source not among the
      input ids is marked. */
  /** The stale table after a device pass: unchanged when the pass raised,
      otherwise every mapping of the pass's source not among the input
      external ids is marked stale. */
  function DeviceStale(stale: seq<StaleRow>, t: DeviceTally, source: string, devices: seq<CanonicalDevice>, fault: Option<string>, now: nat): seq<StaleRow> {
    if fault.Some? then stale else MarkAll(stale, MappingsOf(t.mappings, source, "device"), ExternalIds(devices), now)
  }

  /** The run rows of two passes in order; the second runs only when the
      first did not raise. */
  function TwoRuns(first: SyncRunRow, firstFault: Option<string>, second: SyncRunRow): seq<SyncRunRow> {
    [first] + (if firstFault.Some? then [] else [second])
  }

  /** The run rows the VLAN and prefix passes of a FortiGate reconciliation
      append. */
  function NetworkRuns(client: Client, data: SourceData, now: nat, fault: StoreFault): seq<SyncRunRow> {
    TwoRuns(FinishedRun("fortigate", "vlans", VlanPass(client, "fortigate", NoCounts(), data.vlans), FaultFor(fault, "vlans"), now),
            FaultFor(fault, "vlans"),
            FinishedRun("fortigate", "prefixes", PrefixPass(client, NoCounts(), data.prefixes), FaultFor(fault, "prefixes"), now))
  }

  function NetworkResults(client: Client, data: SourceData, now: nat): (r: seq<SyncResult>)
    ensures |r| == 2 && r[0].syncType == "vlans" && r[1].syncType == "prefixes"
    ensures forall x :: x in r ==> x.source == "fortigate" && x.deleted == 0
  {
    [PassResult("fortigate", "vlans", VlanPass(client, "fortigate", NoCounts(), data.vlans), now),
     PassResult("fortigate", "prefixes", PrefixPass(client, NoCounts(), data.prefixes), now)]
  }

  /** The run rows the interface and IP address passes append, the interface
      pass reading `mappings`. */
  function LinkRuns(client: Client, mappings: seq<MappingRow>, data: SourceData, now: nat, fault: StoreFault): seq<SyncRunRow> {
    TwoRuns(FinishedRun("fortigate", "interfaces", InterfacePass(client, mappings, "fortigate", NoCounts(), data.interfaces), FaultFor(fault, "interfaces"), now),
            FaultFor(fault, "interfaces"),
            FinishedRun("fortigate", "ip_addresses", IpPass(client, NoCounts(), data.ipAddresses), FaultFor(fault, "ip_addresses"), now))
  }

  function LinkResults(client: Client, mappings: seq<MappingRow>, data: SourceData, now: nat): (r: seq<SyncResult>)
    ensures |r| == 2 && r[0].syncType == "interfaces" && r[1].syncType == "ip_addresses"
    ensures forall x :: x in r ==> x.source == "fortigate" && x.deleted == 0
  {
    [PassResult("fortigate", "interfaces", InterfacePass(client, mappings, "fortigate", NoCounts(), data.interfaces), now),
     PassResult("fortigate", "ip_addresses", IpPass(client, NoCounts(), data.ipAddresses), now)]
  }

  /** The store faults that end a FortiGate reconciliation in its VLAN or
      prefix pass. */
  predicate NetworkFault(fault: StoreFault) {
    fault.Some? && fault.value.0 in ["vlans", "prefixes"]
  }

  /** The run rows of the passes after the device pass, in order, up to the
      first that raises. */
  function RestRuns(client: Client, mappings: seq<MappingRow>, data: SourceData, now: nat, fault: StoreFault): seq<SyncRunRow> {
    NetworkRuns(client, data, now, fault) + (if NetworkFault(fault) then [] else LinkRuns(client, mappings, data, now, fault))
  }

  // ---------------------------------------------------------------------------
  // The reconciler
  // ---------------------------------------------------------------------------

  class Reconciler {
    const store: Store
    const client: Client
    const hash: string -> string

    constructor (store: Store, client: Client, hash: string -> string)
      ensures this.store == store && this.client == client && this.hash == hash
    {
      this.store := store;
      this.client := client;
      this.hash := hash;
    }

    /** `_reconcile_devices`. */
    method ReconcileDevices(devices: seq<CanonicalDevice>, source: string, now: nat, fault: Option<string>) returns (r: Outcome<SyncResult>)
      modifies store
      ensures var t := DevicePass(client, hash, source, now, DeviceStart(old(store.states), old(store.mappings)), devices);
        store.states == t.states && store.mappings == t.mappings &&
        store.stale == DeviceStale(old(store.stale), t, source, devices, fault, now) &&
        store.runs == old(store.runs) + [FinishedRun(source, "devices", DeviceCounters(t), fault, now)] &&
        r == PassOutcome(source, "devices", DeviceCounters(t), fault, now)
    {
      var id := store.CreateSyncRun(source, "devices", now);
      ghost var t0 := DeviceStart(store.states, store.mappings);
      ghost var t := t0;
      var created, updated, errors, seen := 0, 0, [], [];
      var i := 0;
      while i < |devices|
        invariant 0 <= i <= |devices|
        invariant t == DevicePass(client, hash, source, now, t0, devices[..i])
        invariant store.states == t.states && store.mappings == t.mappings
        invariant created == t.created && updated == t.updated && errors == t.errors && seen == ExternalIds(devices[..i])
        invariant store.stale == old(store.stale)
        invariant store.runs == old(store.runs) + [NewRun(source, "devices", now)] && id == |old(store.runs)|
      {
        DevicePassSnoc(client, hash, source, now, t0, devices, i);
        created, updated, errors := ProcessDevice(devices[i], source, now, t, created, updated, errors);
        seen := seen + [devices[i].externalId];
        ExternalIdsSnoc(devices, i);
        t := DeviceStep(client, hash, source, now, t, devices[i]);
        i := i + 1;
      }
      assert devices[..|devices|] == devices;
      r := FinishDevicePass(id, source, t, created, updated, errors, seen, now, fault);
    }

    /** The end of the device pass: on a fault the run fails and the pass
        raises; otherwise the mappings not seen are marked stale and the run
        completes. */
    method FinishDevicePass(id: nat, source: string, ghost t: DeviceTally, created: nat, updated: nat, errors: seq<string>, seen: seq<string>, now: nat, fault: Option<string>)
      returns (r: Outcome<SyncResult>)
      requires id < |store.runs| && store.runs[id] == NewRun(source, "devices", now)
      requires created == t.created && updated == t.updated && errors == t.errors && store.mappings == t.mappings
      modifies store
      ensures store.states == old(store.states) && store.mappings == old(store.mappings)
      ensures store.stale == (if fault.Some? then old(store.stale)
                              else MarkAll(old(store.stale), MappingsOf(t.mappings, source, "device"), seen, now))
      ensures store.runs == old(store.runs)[id := FinishedRun(source, "devices", DeviceCounters(t), fault, now)]
      ensures r == PassOutcome(source, "devices", DeviceCounters(t), fault, now)
    {
      if fault.Some? {
        store.FailSyncRun(id, fault.value, now);
        r := Raised(fault.value);
      } else {
        store.MarkStaleObjects(source, "device", seen, now);
        store.CompleteSyncRun(id, created, updated, 0, errors, now);
        r := Ok(SyncResult(source, "devices", created, updated, 0, errors, 0, now));
      }
    }

    /** One iteration of the device loop on the store. */
    method ProcessDevice(d: CanonicalDevice, source: string, now: nat, ghost t: DeviceTally, created: nat, updated: nat, errors: seq<string>)
      returns (created': nat, updated': nat, errors': seq<string>)
      requires store.states == t.states && store.mappings == t.mappings
      requires created == t.created && updated == t.updated && errors == t.errors
      modifies store
      ensures var t' := DeviceStep(client, hash, source, now, t, d);
        store.states == t'.states && store.mappings == t'.mappings &&
        created' == t'.created && updated' == t'.updated && errors' == t'.errors
      ensures store.stale == old(store.stale) && store.runs == old(store.runs)
    {
      created', updated', errors' := created, updated, errors;
      var k := DeviceKey(source, d);
      var h := DeviceHash(hash, d);
      var existing := store.GetSyncState(k);
      if existing.Some? && existing.value.dataHash == h {
        store.UpdateSyncState(k, h, None, now);
      } else {
        var payload := DevicePayloadFor(client, d);
        if payload.Raised? {
          errors' := errors + [DeviceError(d, payload.error)];
        } else {
          var reply := client.createOrUpdateDevice(payload.value);
          if reply.Raised? {
            errors' := errors + [DeviceError(d, reply.error)];
          } else {
            var netboxId := IdText(reply.value);
            store.UpdateSyncState(k, h, Some(netboxId), now);
            store.UpdateObjectMapping(k, netboxId, now);
            if existing.Some? {
              updated' := updated + 1;
            } else {
              created' := created + 1;
            }
          }
        }
      }
    }

    /** `_reconcile_interfaces`: reads the device mappings, writes only the run log. */
    method ReconcileInterfaces(interfaces: seq<CanonicalInterface>, source: string, now: nat, fault: Option<string>) returns (r: Outcome<SyncResult>)
      modifies store
      ensures var c := InterfacePass(client, old(store.mappings), source, NoCounts(), interfaces);
        store.runs == old(store.runs) + [FinishedRun(source, "interfaces", c, fault, now)] &&
        r == PassOutcome(source, "interfaces", c, fault, now)
      ensures store.states == old(store.states) && store.mappings == old(store.mappings) && store.stale == old(store.stale)
    {
      var id := store.CreateSyncRun(source, "interfaces", now);
      ghost var c := NoCounts();
      var created, updated, errors := 0, 0, [];
      var i := 0;
      while i < |interfaces|
        invariant 0 <= i <= |interfaces|
        invariant c == InterfacePass(client, store.mappings, source, NoCounts(), interfaces[..i])
        invariant created == c.created && updated == c.updated && errors == c.errors
        invariant store.states == old(store.states) && store.mappings == old(store.mappings) && store.stale == old(store.stale)
        invariant store.runs == old(store.runs) + [NewRun(source, "interfaces", now)] && id == |old(store.runs)|
      {
        assert interfaces[..i + 1][..i] == interfaces[..i];
        created, updated, errors := ProcessInterface(interfaces[i], source, c, created, updated, errors);
        c := InterfaceStep(client, store.mappings, source, c, interfaces[i]);
        i := i + 1;
      }
      assert interfaces[..|interfaces|] == interfaces;
      r := FinishRun(id, "interfaces", source, c, created, updated, errors, now, fault);
    }

    /** One iteration of the interface loop, reading the device's mapping from
        the store: the counters move as `InterfaceStep` describes. */
    method ProcessInterface(x: CanonicalInterface, source: string, ghost c: Counters<InterfacePayload>, created: nat, updated: nat, errors: seq<string>)
      returns (created': nat, updated': nat, errors': seq<string>)
      requires created == c.created && updated == c.updated && errors == c.errors
      ensures var c' := InterfaceStep(client, store.mappings, source, c, x);
        created' == c'.created && updated' == c'.updated && errors' == c'.errors
    {
      created', updated', errors' := created, updated, errors;
      var mapping := store.GetObjectMapping(Key(source, "device", x.deviceExternalId));
      if mapping.None? {
        errors' := errors + ["Device not found for interface " + x.name + ": " + x.deviceExternalId];
      } else {
        var deviceId := ParseInt(mapping.value.netboxId);
        if deviceId.None? {
          errors' := errors + [InterfaceError(x, IntError(mapping.value.netboxId))];
        } else {
          var reply := client.createOrUpdateInterface(InterfacePayloadFor(deviceId.value, x));
          if reply.Raised? {
            errors' := errors + [InterfaceError(x, reply.error)];
          } else if ReplyTruthy(reply.value) {
            var text := ReplyText(reply.value);
            created' := Bump(created, Contains(text, "created"));
            updated' := Bump(updated, Contains(text, "updated"));
          }
        }
      }
    }

    /** `_reconcile_vlans`. */
    method ReconcileVlans(vlans: seq<CanonicalVLAN>, source: string, now: nat, fault: Option<string>) returns (r: Outcome<SyncResult>)
      modifies store
      ensures var c := VlanPass(client, source, NoCounts(), vlans);
        store.runs == old(store.runs) + [FinishedRun(source, "vlans", c, fault, now)] &&
        r == PassOutcome(source, "vlans", c, fault, now)
      ensures store.states == old(store.states) && store.mappings == old(store.mappings) && store.stale == old(store.stale)
    {
      var id := store.CreateSyncRun(source, "vlans", now);
      var created, errors := 0, [];
      var i := 0;
      while i < |vlans|
        invariant 0 <= i <= |vlans|
        invariant var c := VlanPass(client, source, NoCounts(), vlans[..i]);
          created == c.created && c.updated == 0 && errors == c.errors
        invariant store.states == old(store.states) && store.mappings == old(store.mappings) && store.stale == old(store.stale)
        invariant store.runs == old(store.runs) + [NewRun(source, "vlans", now)] && id == |old(store.runs)|
      {
        var v := vlans[i];
        assert vlans[..i + 1][..i] == vlans[..i];
        var reply := client.getOrCreateVlan(VlanPayloadFor(source, v));
        if reply.Raised? {
          errors := errors + ["Error processing VLAN " + v.name + ": " + reply.error];
        } else {
          created := Bump(created, ReplyTruthy(reply.value));
        }
        i := i + 1;
      }
      assert vlans[..|vlans|] == vlans;
      r := FinishRun(id, "vlans", source, VlanPass(client, source, NoCounts(), vlans), created, 0, errors, now, fault);
    }

    /** `_reconcile_prefixes` as written: every prefix fails on the missing call. */
    method ReconcilePrefixesAsWritten(prefixes: seq<CanonicalPrefix>, source: string, now: nat, fault: Option<string>) returns (r: Outcome<SyncResult>)
      modifies store
      ensures var c := PrefixPassAsWritten(NoCounts(), prefixes);
        store.runs == old(store.runs) + [FinishedRun(source, "prefixes", c, fault, now)] &&
        r == PassOutcome(source, "prefixes", c, fault, now)
      ensures store.states == old(store.states) && store.mappings == old(store.mappings) && store.stale == old(store.stale)
    {
      var id := store.CreateSyncRun(source, "prefixes", now);
      var errors := [];
      var i := 0;
      while i < |prefixes|
        invariant 0 <= i <= |prefixes|
        invariant var c := PrefixPassAsWritten(NoCounts(), prefixes[..i]);
          c.created == 0 && c.updated == 0 && errors == c.errors
        invariant store.states == old(store.states) && store.mappings == old(store.mappings) && store.stale == old(store.stale)
        invariant store.runs == old(store.runs) + [NewRun(source, "prefixes", now)] && id == |old(store.runs)|
      {
        assert prefixes[..i + 1][..i] == prefixes[..i];
        errors := errors + [PrefixError(prefixes[i], MissingPrefixCall)];
        i := i + 1;
      }
      assert prefixes[..|prefixes|] == prefixes;
      r := FinishRun(id, "prefixes", source, PrefixPassAsWritten(NoCounts(), prefixes), 0, 0, errors, now, fault);
    }

    /** The prefix pass calling the client's `get_or_create_prefix`. */
    method ReconcilePrefixes(prefixes: seq<CanonicalPrefix>, source: string, now: nat, fault: Option<string>) returns (r: Outcome<SyncResult>)
      modifies store
      ensures var c := PrefixPass(client, NoCounts(), prefixes);
        store.runs == old(store.runs) + [FinishedRun(source, "prefixes", c, fault, now)] &&
        r == PassOutcome(source, "prefixes", c, fault, now)
      ensures store.states == old(store.states) && store.mappings == old(store.mappings) && store.stale == old(store.stale)
    {
      var id := store.CreateSyncRun(source, "prefixes", now);
      var created, errors := 0, [];
      var i := 0;
      while i < |prefixes|
        invariant 0 <= i <= |prefixes|
        invariant var c := PrefixPass(client, NoCounts(), prefixes[..i]);
          created == c.created && c.updated == 0 && errors == c.errors
        invariant store.states == old(store.states) && store.mappings == old(store.mappings) && store.stale == old(store.stale)
        invariant store.runs == old(store.runs) + [NewRun(source, "prefixes", now)] && id == |old(store.runs)|
      {
        var p := prefixes[i];
        assert prefixes[..i + 1][..i] == prefixes[..i];
        var reply := client.getOrCreatePrefix(PrefixPayloadFor(p));
        if reply.Raised? {
          errors := errors + [PrefixError(p, reply.error)];
        } else {
          created := Bump(created, ReplyTruthy(reply.value));
        }
        i := i + 1;
      }
      assert prefixes[..|prefixes|] == prefixes;
      r := FinishRun(id, "prefixes", source, PrefixPass(client, NoCounts(), prefixes), created, 0, errors, now, fault);
    }

    /** `_reconcile_ip_addresses`. */
    method ReconcileIpAddresses(addresses: seq<CanonicalIPAddress>, source: string, now: nat, fault: Option<string>) returns (r: Outcome<SyncResult>)
      modifies store
      ensures var c := IpPass(client, NoCounts(), addresses);
        store.runs == old(store.runs) + [FinishedRun(source, "ip_addresses", c, fault, now)] &&
        r == PassOutcome(source, "ip_addresses", c, fault, now)
      ensures store.states == old(store.states) && store.mappings == old(store.mappings) && store.stale == old(store.stale)
    {
      var id := store.CreateSyncRun(source, "ip_addresses", now);
      ghost var c := NoCounts();
      var created, updated, errors := 0, 0, [];
      var i := 0;
      while i < |addresses|
        invariant 0 <= i <= |addresses|
        invariant c == IpPass(client, NoCounts(), addresses[..i])
        invariant created == c.created && updated == c.updated && errors == c.errors
        invariant store.states == old(store.states) && store.mappings == old(store.mappings) && store.stale == old(store.stale)
        invariant store.runs == old(store.runs) + [NewRun(source, "ip_addresses", now)] && id == |old(store.runs)|
      {
        assert addresses[..i + 1][..i] == addresses[..i];
        created, updated, errors := ProcessIpAddress(addresses[i], c, created, updated, errors);
        c := IpStep(client, c, addresses[i]);
        i := i + 1;
      }
      assert addresses[..|addresses|] == addresses;
      r := FinishRun(id, "ip_addresses", source, c, created, updated, errors, now, fault);
    }

    /** One iteration of the IP address loop: the counters move as `IpStep`
        describes. */
    method ProcessIpAddress(ip: CanonicalIPAddress, ghost c: Counters<IpPayload>, created: nat, updated: nat, errors: seq<string>)
      returns (created': nat, updated': nat, errors': seq<string>)
      requires created == c.created && updated == c.updated && errors == c.errors
      ensures var c' := IpStep(client, c, ip);
        created' == c'.created && updated' == c'.updated && errors' == c'.errors
    {
      created', updated', errors' := created, updated, errors;
      var reply := client.createOrUpdateIpAddress(IpPayloadFor(ip));
      if reply.Raised? {
        errors' := errors + ["Error processing IP address " + ip.address + ": " + reply.error];
      } else {
        var text := Lower(ReplyText(reply.value));
        created' := Bump(created, Contains(text, "created"));
        updated' := Bump(updated, Contains(text, "updated"));
      }
    }

    /** The end of a pass that does no stale marking: complete the run, or fail
        it when the store raises. */
    method FinishRun<P>(id: nat, syncType: string, source: string, ghost c: Counters<P>, created: nat, updated: nat, errors: seq<string>, now: nat, fault: Option<string>)
      returns (r: Outcome<SyncResult>)
      requires id < |store.runs| && store.runs[id] == NewRun(source, syncType, now)
      requires created == c.created && updated == c.updated && errors == c.errors
      modifies store
      ensures store.runs == old(store.runs)[id := FinishedRun(source, syncType, c, fault, now)]
      ensures r == PassOutcome(source, syncType, c, fault, now)
      ensures store.states == old(store.states) && store.mappings == old(store.mappings) && store.stale == old(store.stale)
    {
      if fault.Some? {
        store.FailSyncRun(id, fault.value, now);
        r := Raised(fault.value);
      } else {
        store.CompleteSyncRun(id, created, updated, 0, errors, now);
        r := Ok(SyncResult(source, syncType, created, updated, 0, errors, 0, now));
      }
    }
    /** `reconcile_fortigate_data`: devices, then VLANs, prefixes, interfaces and
        IP addresses, in that order; a pass that raises ends the reconciliation.
        The interface pass reads the mappings the device pass has just written. */
    method ReconcileFortiGate(data: SourceData, now: nat, fault: StoreFault) returns (r: Outcome<seq<SyncResult>>)
      modifies store
      ensures r.Raised? <==> fault.Some? && fault.value.0 in ["devices", "vlans", "prefixes", "interfaces", "ip_addresses"]
      ensures r.Raised? ==> r.error == fault.value.1
      ensures r.Ok? ==> (|r.value| == 5 &&
        r.value[0].syncType == "devices" && r.value[1].syncType == "vlans" && r.value[2].syncType == "prefixes" &&
        r.value[3].syncType == "interfaces" && r.value[4].syncType == "ip_addresses")
      ensures r.Ok? ==> forall x :: x in r.value ==> x.source == "fortigate" && x.deleted == 0
      ensures var t := DevicePass(client, hash, "fortigate", now, DeviceStart(old(store.states), old(store.mappings)), data.devices);
        var deviceFault := FaultFor(fault, "devices");
        store.states == t.states && store.mappings == t.mappings &&
        store.stale == DeviceStale(old(store.stale), t, "fortigate", data.devices, deviceFault, now) &&
        store.runs == old(store.runs) + [FinishedRun("fortigate", "devices", DeviceCounters(t), deviceFault, now)] +
                      (if deviceFault.Some? then [] else RestRuns(client, t.mappings, data, now, fault)) &&
        (r.Ok? ==> r.value == [PassResult("fortigate", "devices", DeviceCounters(t), now)] +
                              NetworkResults(client, data, now) + LinkResults(client, t.mappings, data, now))
    {
      var devices := ReconcileDevices(data.devices, "fortigate", now, FaultFor(fault, "devices"));
      if devices.Raised? {
        return Raised(devices.error);
      }
      var rest := ReconcileFortiGateRest(data, now, fault);
      if rest.Raised? {
        return Raised(rest.error);
      }
      r := Ok([devices.value] + rest.value);
    }

    /** The passes of `reconcile_fortigate_data` after the device pass; they
        leave the mappings as they are. */
    method ReconcileFortiGateRest(data: SourceData, now: nat, fault: StoreFault) returns (r: Outcome<seq<SyncResult>>)
      modifies store
      ensures store.mappings == old(store.mappings)
      ensures r.Raised? <==> fault.Some? && fault.value.0 in ["vlans", "prefixes", "interfaces", "ip_addresses"]
      ensures r.Raised? ==> r.error == fault.value.1
      ensures r.Ok? ==> (|r.value| == 4 &&
        r.value[0].syncType == "vlans" && r.value[1].syncType == "prefixes" &&
        r.value[2].syncType == "interfaces" && r.value[3].syncType == "ip_addresses")
      ensures r.Ok? ==> forall x :: x in r.value ==> x.source == "fortigate" && x.deleted == 0
      ensures store.states == old(store.states) && store.stale == old(store.stale)
      ensures store.runs == old(store.runs) + RestRuns(client, old(store.mappings), data, now, fault)
      ensures r.Ok? ==> r.value == NetworkResults(client, data, now) + LinkResults(client, old(store.mappings), data, now)
    {
      var networks := ReconcileFortiGateNetworks(data, now, fault);
      if networks.Raised? {
        return Raised(networks.error);
      }
      var links := ReconcileFortiGateLinks(data, now, fault);
      if links.Raised? {
        return Raised(links.error);
      }
      r := Ok(networks.value + links.value);
    }

    /** The VLAN and prefix passes of `reconcile_fortigate_data`. */
    method ReconcileFortiGateNetworks(data: SourceData, now: nat, fault: StoreFault) returns (r: Outcome<seq<SyncResult>>)
      modifies store
      ensures store.mappings == old(store.mappings)
      ensures r.Raised? <==> fault.Some? && fault.value.0 in ["vlans", "prefixes"]
      ensures r.Raised? ==> r.error == fault.value.1
      ensures r.Ok? ==> (|r.value| == 2 && r.value[0].syncType == "vlans" && r.value[1].syncType == "prefixes")
      ensures r.Ok? ==> forall x :: x in r.value ==> x.source == "fortigate" && x.deleted == 0
      ensures store.states == old(store.states) && store.stale == old(store.stale)
      ensures store.runs == old(store.runs) + NetworkRuns(client, data, now, fault)
      ensures r.Ok? ==> r.value == NetworkResults(client, data, now)
    {
      var vlans := ReconcileVlans(data.vlans, "fortigate", now, FaultFor(fault, "vlans"));
      if vlans.Raised? {
        return Raised(vlans.error);
      }
      var prefixes := ReconcilePrefixes(data.prefixes, "fortigate", now, FaultFor(fault, "prefixes"));
      if prefixes.Raised? {
        return Raised(prefixes.error);
      }
      r := Ok([vlans.value, prefixes.value]);
    }

    /** The interface and IP address passes of `reconcile_fortigate_data`. */
    method ReconcileFortiGateLinks(data: SourceData, now: nat, fault: StoreFault) returns (r: Outcome<seq<SyncResult>>)
      modifies store
      ensures store.mappings == old(store.mappings)
      ensures r.Raised? <==> fault.Some? && fault.value.0 in ["interfaces", "ip_addresses"]
      ensures r.Raised? ==> r.error == fault.value.1
      ensures r.Ok? ==> (|r.value| == 2 && r.value[0].syncType == "interfaces" && r.value[1].syncType == "ip_addresses")
      ensures r.Ok? ==> forall x :: x in r.value ==> x.source == "fortigate" && x.deleted == 0
      ensures store.states == old(store.states) && store.stale == old(store.stale)
      ensures store.runs == old(store.runs) + LinkRuns(client, old(store.mappings), data, now, fault)
      ensures r.Ok? ==> r.value == LinkResults(client, old(store.mappings), data, now)
    {
      var interfaces := ReconcileInterfaces(data.interfaces, "fortigate", now, FaultFor(fault, "interfaces"));
      if interfaces.Raised? {
        return Raised(interfaces.error);
      }
      var addresses := ReconcileIpAddresses(data.ipAddresses, "fortigate", now, FaultFor(fault, "ip_addresses"));
      if addresses.Raised? {
        return Raised(addresses.error);
      }
      r := Ok([interfaces.value, addresses.value]);
    }

    /** `reconcile_intune_data`: the device pass alone. */
    method ReconcileIntune(data: SourceData, now: nat, fault: StoreFault) returns (r: Outcome<seq<SyncResult>>)
      modifies store
      ensures r.Raised? <==> fault.Some? && fault.value.0 == "devices"
      ensures r.Raised? ==> r.error == fault.value.1
      ensures var t := DevicePass(client, hash, "intune", now, DeviceStart(old(store.states), old(store.mappings)), data.devices);
        var deviceFault := FaultFor(fault, "devices");
        store.states == t.states && store.mappings == t.mappings &&
        store.stale == DeviceStale(old(store.stale), t, "intune", data.devices, deviceFault, now) &&
        store.runs == old(store.runs) + [FinishedRun("intune", "devices", DeviceCounters(t), deviceFault, now)] &&
        (r.Ok? ==> r.value == [PassResult("intune", "devices", DeviceCounters(t), now)])
    {
      var devices := ReconcileDevices(data.devices, "intune", now, FaultFor(fault, "devices"));
      if devices.Raised? {
        return Raised(devices.error);
      }
      r := Ok([devices.value]);
    }

    /** `reconcile_eset_data`: devices, then interfaces. */
    method ReconcileEset(data: SourceData, now: nat, fault: StoreFault) returns (r: Outcome<seq<SyncResult>>)
      modifies store
      ensures r.Raised? <==> fault.Some? && fault.value.0 in ["devices", "interfaces"]
      ensures r.Raised? ==> r.error == fault.value.1
      ensures var t := DevicePass(client, hash, "eset", now, DeviceStart(old(store.states), old(store.mappings)), data.devices);
        var deviceFault := FaultFor(fault, "devices");
        var interfaces := InterfacePass(client, t.mappings, "eset", NoCounts(), data.interfaces);
        store.states == t.states && store.mappings == t.mappings &&
        store.stale == DeviceStale(old(store.stale), t, "eset", data.devices, deviceFault, now) &&
        store.runs == old(store.runs) + TwoRuns(FinishedRun("eset", "devices", DeviceCounters(t), deviceFault, now), deviceFault,
                                                FinishedRun("eset", "interfaces", interfaces, FaultFor(fault, "interfaces"), now)) &&
        (r.Ok? ==> r.value == [PassResult("eset", "devices", DeviceCounters(t), now), PassResult("eset", "interfaces", interfaces, now)])
    {
      var devices := ReconcileDevices(data.devices, "eset", now, FaultFor(fault, "devices"));
      if devices.Raised? {
        return Raised(devices.error);
      }
      var interfaces := ReconcileInterfaces(data.interfaces, "eset", now, FaultFor(fault, "interfaces"));
      if interfaces.Raised? {
        return Raised(interfaces.error);
      }
      r := Ok([devices.value, interfaces.value]);
    }
  }
}
