/** The canonical data model: source-independent records that every normaliser
    produces and the reconciler consumes. Timestamps are ticks of an abstract
    clock (seconds); the `now` a record is built at is passed in explicitly. */
module Canonical {
  import opened Wrappers
  import opened Dicts

  /** Kind of device. */
  datatype DeviceType = Physical | Virtual | Firewall

  function DeviceTypeValue(t: DeviceType): string {
    match t
    case Physical => "physical"
    case Virtual => "virtual"
    case Firewall => "firewall"
  }

  /** `DeviceType(s)`: the enum member whose value is `s`; the only accepted
      values are "physical", "virtual" and "firewall". */
  function ParseDeviceType(s: string): (r: Option<DeviceType>)
    ensures r.Some? <==> s == "physical" || s == "virtual" || s == "firewall"
    ensures r.Some? ==> DeviceTypeValue(r.value) == s
    ensures forall t :: DeviceTypeValue(t) == s ==> r == Some(t)
  {
    if s == "physical" then Some(Physical)
    else if s == "virtual" then Some(Virtual)
    else if s == "firewall" then Some(Firewall)
    else None
  }

  /** Compliance state reported for a managed device. */
  datatype ComplianceStatus = Compliant | NonCompliant | UnknownCompliance

  function ComplianceValue(c: ComplianceStatus): string {
    match c
    case Compliant => "compliant"
    case NonCompliant => "non_compliant"
    case UnknownCompliance => "unknown"
  }

  /** `ComplianceStatus(s)`: the only accepted values are "compliant",
      "non_compliant" and "unknown". */
  function ParseComplianceStatus(s: string): (r: Option<ComplianceStatus>)
    ensures r.Some? <==> s == "compliant" || s == "non_compliant" || s == "unknown"
    ensures r.Some? ==> ComplianceValue(r.value) == s
    ensures forall c :: ComplianceValue(c) == s ==> r == Some(c)
  {
    if s == "compliant" then Some(Compliant)
    else if s == "non_compliant" then Some(NonCompliant)
    else if s == "unknown" then Some(UnknownCompliance)
    else None
  }

  /** Operational state of an interface. */
  datatype InterfaceStatus = Active | Inactive | UnknownStatus

  function InterfaceStatusValue(s: InterfaceStatus): string {
    match s
    case Active => "active"
    case Inactive => "inactive"
    case UnknownStatus => "unknown"
  }

  datatype CanonicalDevice = CanonicalDevice(
    externalId: string,
    source: string,
    name: string,
    deviceType: DeviceType,
    manufacturer: Option<string>,
    model: Option<string>,
    serialNumber: Option<string>,
    owner: Option<string>,
    complianceStatus: Option<ComplianceStatus>,
    operatingSystem: Option<string>,
    osVersion: Option<string>,
    avStatus: Option<string>,
    lastSeen: Option<string>,
    customFields: Dict,
    tags: seq<string>,
    createdAt: nat,
    updatedAt: nat)

  /** A device built from its four required fields: everything else is absent,
      the dictionaries and tag list are empty, and both timestamps are `now`. */
  function NewDevice(externalId: string, source: string, name: string, deviceType: DeviceType, now: nat): (d: CanonicalDevice)
    ensures d.externalId == externalId && d.source == source && d.name == name && d.deviceType == deviceType
    ensures d.manufacturer == d.model == d.serialNumber == d.owner == None
    ensures d.complianceStatus == None
    ensures d.operatingSystem == d.osVersion == d.avStatus == d.lastSeen == None
    ensures d.customFields == [] && d.tags == []
    ensures d.createdAt == d.updatedAt == now
  {
    CanonicalDevice(externalId, source, name, deviceType, None, None, None, None, None,
                    None, None, None, None, [], [], now, now)
  }

  datatype CanonicalInterface = CanonicalInterface(
    deviceExternalId: string,
    name: string,
    macAddress: Option<string>,
    description: Option<string>,
    status: InterfaceStatus,
    mtu: Option<int>,
    ipAddresses: seq<string>,
    vlanId: Option<int>,
    customFields: Dict,
    tags: seq<string>,
    source: string,
    createdAt: nat,
    updatedAt: nat)

  /** An interface built from its required fields: status UNKNOWN, no addresses,
      empty custom fields and tags. */
  function NewInterface(deviceExternalId: string, name: string, source: string, now: nat): (i: CanonicalInterface)
    ensures i.deviceExternalId == deviceExternalId && i.name == name && i.source == source
    ensures i.status == UnknownStatus
    ensures i.macAddress == i.description == None && i.mtu == i.vlanId == None
    ensures i.ipAddresses == [] && i.customFields == [] && i.tags == []
    ensures i.createdAt == i.updatedAt == now
  {
    CanonicalInterface(deviceExternalId, name, None, None, UnknownStatus, None, [], None, [], [], source, now, now)
  }

  datatype CanonicalIPAddress = CanonicalIPAddress(
    address: string,
    description: Option<string>,
    status: string,
    deviceExternalId: Option<string>,
    interfaceName: Option<string>,
    macAddress: Option<string>,
    leaseType: Option<string>,
    source: string,
    createdAt: nat,
    updatedAt: nat)

  /** An address built from its required fields: status "active", lease type and
      assignment absent. */
  function NewIPAddress(address: string, source: string, now: nat): (a: CanonicalIPAddress)
    ensures a.address == address && a.source == source
    ensures a.status == "active"
    ensures a.description == a.deviceExternalId == a.interfaceName == a.macAddress == a.leaseType == None
    ensures a.createdAt == a.updatedAt == now
  {
    CanonicalIPAddress(address, None, "active", None, None, None, None, source, now, now)
  }

  datatype CanonicalVLAN = CanonicalVLAN(
    vlanId: int,
    name: string,
    description: Option<string>,
    tenant: Option<string>,
    source: string,
    createdAt: nat,
    updatedAt: nat)

  datatype CanonicalPrefix = CanonicalPrefix(
    prefix: string,
    description: Option<string>,
    vlanId: Option<int>,
    source: string,
    createdAt: nat,
    updatedAt: nat)

  /** Summary of one reconciliation pass. `duration` is in clock ticks. */
  datatype SyncResult = SyncResult(
    source: string,
    syncType: string,
    created: nat,
    updated: nat,
    deleted: nat,
    errors: seq<string>,
    duration: int,
    timestamp: nat)

  /** A result with only its required fields set: all counts zero, no errors. */
  function NewSyncResult(source: string, syncType: string, now: nat): (r: SyncResult)
    ensures r.source == source && r.syncType == syncType
    ensures r.created == r.updated == r.deleted == 0 && r.errors == []
    ensures r.duration == 0 && r.timestamp == now
  {
    SyncResult(source, syncType, 0, 0, 0, [], 0, now)
  }
}
