/** The normalisers: one pure function per (source, entity kind) from a raw
    record to a canonical entity. A raw record is a typed record of optional
    fields; `None` stands for a key missing from the source's dictionary. Where
    the source fails (a required field ends up absent, or an undeclared
    attribute is set), the result is `Raised`. */
module Normalizer {
  import opened Wrappers
  import opened Text
  import opened Canonical

  /** A one-element tag list `[prefix + value]` when the value is truthy. */
  function OptTag(prefix: string, o: Option<string>): seq<string> {
    if Truthy(o) then [prefix + o.value] else []
  }

  /** `s.lower().replace(" ", "_")`. */
  function Slug(s: string): string {
    ReplaceChar(Lower(s), ' ', '_')
  }

  // ---------------------------------------------------------------------------
  // Hostname shapes (`re.match` with a trailing `$`)
  // ---------------------------------------------------------------------------

  predicate IsHex(c: char) {
    '0' <= c <= '9' || 'a' <= c <= 'f'
  }

  /** 8-4-4-4-12 lower-case hex digits separated by '-'. */
  predicate UuidShape(s: string) {
    |s| == 36 &&
    forall i :: 0 <= i < 36 ==>
      if i == 8 || i == 13 || i == 18 || i == 23 then s[i] == '-' else IsHex(s[i])
  }

  /** Six pairs of lower-case hex digits separated by ':' or '-' (mixed allowed). */
  predicate MacShape(s: string) {
    |s| == 17 &&
    forall i :: 0 <= i < 17 ==>
      if i % 3 == 2 then s[i] == ':' || s[i] == '-' else IsHex(s[i])
  }

  /** `$` matches at the very end and also just before one final newline. */
  predicate DollarMatch(s: string, shape: string -> bool) {
    shape(s) || (|s| > 0 && s[|s| - 1] == '\n' && shape(s[..|s| - 1]))
  }

  predicate MatchesUuid(s: string) {
    DollarMatch(s, UuidShape)
  }

  predicate MatchesMac(s: string) {
    DollarMatch(s, MacShape)
  }

  /** Any of the generic VM name fragments occurs in the (lower-cased) name. */
  predicate GenericVmName(s: string) {
    Contains(s, "valuearray") || Contains(s, "unknown-") || Contains(s, "generic-") || Contains(s, "vm-")
  }

  // ---------------------------------------------------------------------------
  // FortiGate devices
  // ---------------------------------------------------------------------------

  datatype FortiGateDeviceRecord = FortiGateDeviceRecord(
    hostname: Option<string>,
    hardwareVendor: Option<string>,
    hardwareType: Option<string>,
    hardwareFamily: Option<string>,
    osName: Option<string>,
    hostSrc: Option<string>,
    purdueLevel: Option<string>,
    serial: Option<string>,
    version: Option<string>)

  /** The rule of the classification chain that fired. */
  datatype HostClass =
    | UuidHostname | MacHostname | GenericHostname
    | ServerHardware | MobileHardware | FirewallHardware | Workstation

  /** The classification chain, first matching rule wins. */
  function Classify(hostname: string, family: string, hwType: string): HostClass {
    var h := Lower(hostname);
    if MatchesUuid(h) then UuidHostname
    else if MatchesMac(h) then MacHostname
    else if GenericVmName(h) then GenericHostname
    else if family == "File Server" || family == "NAS" || Contains(hwType, "Server") then ServerHardware
    else if family == "Phone" || family == "iPhone" || family == "Tablet" then MobileHardware
    else if Contains(hwType, "Firewall") || h == "fortigate" then FirewallHardware
    else Workstation
  }

  function ClassDeviceType(c: HostClass): DeviceType {
    match c
    case UuidHostname | MacHostname | GenericHostname => Virtual
    case FirewallHardware => Firewall
    case ServerHardware | MobileHardware | Workstation => Physical
  }

  function ClassTags(c: HostClass): seq<string> {
    match c
    case UuidHostname => ["type:vm", "hostname:uuid"]
    case MacHostname => ["type:vm", "hostname:mac"]
    case GenericHostname => ["type:vm", "hostname:generic"]
    case ServerHardware => ["type:server"]
    case MobileHardware => ["type:mobile"]
    case FirewallHardware => ["type:firewall"]
    case Workstation => ["type:workstation"]
  }

  /** `hw_family:<slug>` unless the family is empty or 'Unknown'. */
  function FamilyTag(family: string): seq<string> {
    if family != "Unknown" && family != "" then ["hw_family:" + Slug(family)] else []
  }

  function FortiGateTags(r: FortiGateDeviceRecord): seq<string> {
    var hostname := r.hostname.GetOr("Unknown");
    var family := r.hardwareFamily.GetOr("Unknown");
    ["source:fortigate"]
      + ClassTags(Classify(hostname, family, r.hardwareType.GetOr("Unknown")))
      + FamilyTag(family)
      + OptTag("host_src:", r.hostSrc)
      + OptTag("purdue:", r.purdueLevel)
  }

  /** 'Unknown' (the default for a missing key) becomes absent. */
  function KnownOrNone(o: Option<string>): (r: Option<string>)
    ensures r.None? <==> o.None? || o.value == "Unknown"
    ensures r.Some? ==> r == o && r.value != "Unknown"
  {
    if o.Some? && o.value != "Unknown" then o else None
  }

  function NormalizeFortiGateDevice(r: FortiGateDeviceRecord, now: nat): (d: CanonicalDevice)
    ensures d.source == "fortigate"
    ensures d.externalId == if r.serial.Some? then r.serial.value else d.name
    ensures d.name == if r.hostname.Some? then r.hostname.value else "Unknown"
    ensures d.manufacturer.None? <==> r.hardwareVendor.None? || r.hardwareVendor.value == "Unknown"
    ensures d.model.None? <==> r.hardwareType.None? || r.hardwareType.value == "Unknown"
    ensures d.operatingSystem.None? <==> r.osName.None? || r.osName.value == "Unknown"
    ensures d.serialNumber.None? && d.owner.None? && d.complianceStatus.None? && d.avStatus.None?
    ensures d.customFields == []
  {
    var hostname := r.hostname.GetOr("Unknown");
    var family := r.hardwareFamily.GetOr("Unknown");
    var hwType := r.hardwareType.GetOr("Unknown");
    CanonicalDevice(
      r.serial.GetOr(hostname), "fortigate", hostname,
      ClassDeviceType(Classify(hostname, family, hwType)),
      KnownOrNone(r.hardwareVendor), KnownOrNone(r.hardwareType), None, None, None,
      KnownOrNone(r.osName), r.version, None, None,
      [], FortiGateTags(r), now, now)
  }

  // ---------------------------------------------------------------------------
  // Intune devices
  // ---------------------------------------------------------------------------

  datatype IntuneDeviceRecord = IntuneDeviceRecord(
    azureAdDeviceId: Option<string>,
    id: Option<string>,
    deviceName: Option<string>,
    deviceType: Option<string>,
    manufacturer: Option<string>,
    model: Option<string>,
    serialNumber: Option<string>,
    userPrincipalName: Option<string>,
    complianceState: Option<string>,
    operatingSystem: Option<string>,
    osVersion: Option<string>,
    lastSyncDateTime: Option<string>,
    enrollmentType: Option<string>,
    managementState: Option<string>)

  /** Intune's compliance vocabulary: "compliant", "noncompliant" and "unknown";
      any other text maps to UNKNOWN rather than failing. */
  function IntuneCompliance(state: string): (c: ComplianceStatus)
    ensures c == Compliant <==> state == "compliant"
    ensures c == NonCompliant <==> state == "noncompliant"
    ensures c == UnknownCompliance <==> state != "compliant" && state != "noncompliant"
  {
    if state == "compliant" then Compliant
    else if state == "noncompliant" then NonCompliant
    else UnknownCompliance
  }

  /** `owner_domain`: the lower-cased text after the first '@' (up to any
      second '@'), present only when the principal name contains '@'. */
  function OwnerDomain(email: Option<string>): (r: Option<string>)
    ensures r.Some? <==> email.Some? && '@' in email.value
  {
    if email.Some? && email.value != "" && '@' in email.value then
      CountPositive(email.value, '@');
      SplitLength(email.value, '@');
      Some(Lower(Split(email.value, '@')[1]))
    else None
  }

  function IntuneTags(r: IntuneDeviceRecord): seq<string> {
    var domain := OwnerDomain(r.userPrincipalName);
    ["source:intune", "compliance:" + r.complianceState.GetOr("unknown")]
      + (if Truthy(r.enrollmentType) then ["enrollment:" + Slug(r.enrollmentType.value)] else [])
      + (if Truthy(r.managementState) then ["mgmt_state:" + Slug(r.managementState.value)] else [])
      + ["device_type:" + r.deviceType.GetOr("physical")]
      + (if domain.Some? then ["owner_domain:" + domain.value] else [])
  }

  /** The external id is the Azure AD device id, else the Intune id; with
      neither, the record fails validation. */
  function NormalizeIntuneDevice(r: IntuneDeviceRecord, now: nat): (o: Outcome<CanonicalDevice>)
    ensures o.Ok? <==> r.azureAdDeviceId.Some? || r.id.Some?
    ensures o.Ok? ==> o.value.externalId == if r.azureAdDeviceId.Some? then r.azureAdDeviceId.value else r.id.value
    ensures o.Ok? ==> o.value.source == "intune"
    ensures o.Ok? ==> (o.value.deviceType == Virtual <==> r.deviceType == Some("virtual"))
    ensures o.Ok? ==> o.value.deviceType != Firewall
    ensures o.Ok? ==> o.value.complianceStatus == Some(IntuneCompliance(r.complianceState.GetOr("unknown")))
    ensures o.Ok? ==> (o.value.lastSeen.Some? <==> Truthy(r.lastSyncDateTime))
  {
    var externalId := if r.azureAdDeviceId.Some? then r.azureAdDeviceId else r.id;
    if externalId.None? then Raised("external_id: none is not an allowed value")
    else
      Ok(CanonicalDevice(
        externalId.value, "intune", r.deviceName.GetOr("Unknown Device"),
        if r.deviceType != Some("virtual") then Physical else Virtual,
        r.manufacturer, r.model, r.serialNumber, r.userPrincipalName,
        Some(IntuneCompliance(r.complianceState.GetOr("unknown"))),
        r.operatingSystem, r.osVersion, None,
        if Truthy(r.lastSyncDateTime) then r.lastSyncDateTime else None,
        [], IntuneTags(r), now, now))
  }

  // ---------------------------------------------------------------------------
  // ESET devices
  // ---------------------------------------------------------------------------

  datatype EsetDeviceRecord = EsetDeviceRecord(
    uuid: Option<string>,
    hostname: Option<string>,
    osName: Option<string>,
    osVersion: Option<string>,
    antivirusStatus: Option<string>,
    productVersion: Option<string>,
    threatCount: Option<int>,
    lastSeen: Option<string>)

  function EsetTags(r: EsetDeviceRecord): seq<string> {
    var threats := r.threatCount.GetOr(0);
    ["source:eset", "av_status:" + r.antivirusStatus.GetOr("unknown")]
      + OptTag("eset_version:", r.productVersion)
      + (if threats > 0 then ["threat_count:" + IntToString(threats)] else [])
  }

  /** The external id is the ESET uuid, else the hostname; with neither, the
      record fails validation. ESET devices are always physical. */
  function NormalizeEsetDevice(r: EsetDeviceRecord, now: nat): (o: Outcome<CanonicalDevice>)
    ensures o.Ok? <==> r.uuid.Some? || r.hostname.Some?
    ensures o.Ok? ==> o.value.externalId == if r.uuid.Some? then r.uuid.value else r.hostname.value
    ensures o.Ok? ==> o.value.source == "eset" && o.value.deviceType == Physical
    ensures o.Ok? ==> o.value.avStatus == Some(r.antivirusStatus.GetOr("unknown"))
  {
    var externalId := if r.uuid.Some? then r.uuid else r.hostname;
    if externalId.None? then Raised("external_id: none is not an allowed value")
    else
      Ok(CanonicalDevice(
        externalId.value, "eset", r.hostname.GetOr("Unknown Device"), Physical,
        None, None, None, None, None,
        r.osName, r.osVersion, Some(r.antivirusStatus.GetOr("unknown")),
        if Truthy(r.lastSeen) then r.lastSeen else None,
        [], EsetTags(r), now, now))
  }

  // ---------------------------------------------------------------------------
  // FortiGate interfaces, VLANs and prefixes
  // ---------------------------------------------------------------------------

  datatype FortiGateInterfaceRecord = FortiGateInterfaceRecord(
    name: Option<string>,
    description: Option<string>,
    status: Option<string>,
    ipAddresses: Option<seq<string>>,
    vlanId: Option<int>,
    mtu: Option<int>)

  /** 'up' is active, 'down' inactive, anything else unknown. */
  function LinkStatus(status: string): (s: InterfaceStatus)
    ensures s == Active <==> status == "up"
    ensures s == Inactive <==> status == "down"
    ensures s == UnknownStatus <==> status != "up" && status != "down"
  {
    if status == "up" then Active else if status == "down" then Inactive else UnknownStatus
  }

  function NormalizeFortiGateInterface(r: FortiGateInterfaceRecord, deviceId: string, now: nat): (i: CanonicalInterface)
    ensures i.deviceExternalId == deviceId && i.source == "fortigate"
    ensures i.status == LinkStatus(r.status.GetOr("unknown"))
    ensures i.macAddress.None? && i.customFields == [] && i.tags == ["source:fortigate"]
  {
    CanonicalInterface(
      deviceId, r.name.GetOr(""), None, r.description,
      LinkStatus(r.status.GetOr("unknown")), r.mtu, r.ipAddresses.GetOr([]), r.vlanId,
      [], ["source:fortigate"], "fortigate", now, now)
  }

  datatype FortiGateVlanRecord = FortiGateVlanRecord(vlanId: Option<int>, name: Option<string>, description: Option<string>)

  /** A VLAN without a name is named "VLAN-<id>"; without an id it fails validation. */
  function NormalizeFortiGateVlan(r: FortiGateVlanRecord, now: nat): (o: Outcome<CanonicalVLAN>)
    ensures o.Ok? <==> r.vlanId.Some?
    ensures o.Ok? ==> o.value.vlanId == r.vlanId.value && o.value.source == "fortigate"
  {
    if r.vlanId.None? then Raised("vlan_id: none is not an allowed value")
    else
      Ok(CanonicalVLAN(
        r.vlanId.value, r.name.GetOr("VLAN-" + IntToString(r.vlanId.value)),
        r.description, None, "fortigate", now, now))
  }

  datatype FortiGatePrefixRecord = FortiGatePrefixRecord(subnet: Option<string>, description: Option<string>, vlanId: Option<int>)

  function NormalizeFortiGatePrefix(r: FortiGatePrefixRecord, now: nat): (o: Outcome<CanonicalPrefix>)
    ensures o.Ok? <==> r.subnet.Some?
    ensures o.Ok? ==> o.value.prefix == r.subnet.value && o.value.vlanId == r.vlanId
  {
    if r.subnet.None? then Raised("prefix: none is not an allowed value")
    else Ok(CanonicalPrefix(r.subnet.value, r.description, r.vlanId, "fortigate", now, now))
  }

  // ---------------------------------------------------------------------------
  // DHCP leases and ARP entries
  // ---------------------------------------------------------------------------

  /** `f"{ip}/32"`; a missing ip renders as "None". */
  function HostAddress(ip: Option<string>): string {
    (if ip.Some? then ip.value else "None") + "/32"
  }

  datatype DhcpLeaseRecord = DhcpLeaseRecord(ip: Option<string>, mac: Option<string>, hostname: Option<string>, iface: Option<string>)

  datatype ArpEntryRecord = ArpEntryRecord(ip: Option<string>, mac: Option<string>, iface: Option<string>)

  /** The lease's address record, before any attribute is assigned to it. */
  function DhcpAddress(r: DhcpLeaseRecord, now: nat): (a: CanonicalIPAddress)
    ensures a.leaseType == Some("dhcp") && a.status == "active" && a.source == "fortigate"
    ensures a.interfaceName == Some(r.iface.GetOr("lan"))
  {
    CanonicalIPAddress(
      HostAddress(r.ip), Some("DHCP lease for " + r.hostname.GetOr("Unknown")), "active",
      None, Some(r.iface.GetOr("lan")), r.mac, Some("dhcp"), "fortigate", now, now)
  }

  /** As written: a truthy hostname is assigned to `client_hostname`, a field the
      address model does not declare, which fails; only leases without a
      hostname normalise. */
  function NormalizeDhcpLease(r: DhcpLeaseRecord, now: nat): (o: Outcome<CanonicalIPAddress>)
    ensures o.Ok? <==> !Truthy(r.hostname)
    ensures o.Ok? ==> o.value == DhcpAddress(r, now)
  {
    if Truthy(r.hostname) then Raised("\"CanonicalIPAddress\" object has no field \"client_hostname\"")
    else Ok(DhcpAddress(r, now))
  }

  /** As evidently intended: every lease normalises, hostname or not. */
  function NormalizeDhcpLeaseIntended(r: DhcpLeaseRecord, now: nat): (a: CanonicalIPAddress)
    ensures a.leaseType == Some("dhcp") && a.interfaceName == Some(r.iface.GetOr("lan"))
    ensures !Truthy(r.hostname) ==> NormalizeDhcpLease(r, now) == Ok(a)
  {
    DhcpAddress(r, now)
  }

  function NormalizeArpEntry(r: ArpEntryRecord, now: nat): (a: CanonicalIPAddress)
    ensures a.leaseType == Some("arp") && a.description == Some("ARP table entry")
    ensures a.interfaceName == r.iface && a.macAddress == r.mac && a.status == "active"
  {
    CanonicalIPAddress(
      HostAddress(r.ip), Some("ARP table entry"), "active",
      None, r.iface, r.mac, Some("arp"), "fortigate", now, now)
  }
}
