/** Properties of the normalisers: the classification chain and the tags it
    synthesises, the compliance vocabulary, the owner domain, the default VLAN
    name and the `/32` address. */
module NormalizerProperties {
  import opened Wrappers
  import opened Text
  import opened Canonical
  import opened Normalizer

  /** The number of tags that start with `prefix`. */
  function CountTagged(tags: seq<string>, prefix: string): nat {
    if tags == [] then 0 else (if StartsWith(tags[0], prefix) then 1 else 0) + CountTagged(tags[1..], prefix)
  }

  lemma {:induction false} CountTaggedAppend(a: seq<string>, b: seq<string>, prefix: string)
    ensures CountTagged(a + b, prefix) == CountTagged(a, prefix) + CountTagged(b, prefix)
  {
    if a != [] {
      assert (a + b)[0] == a[0];
      assert (a + b)[1..] == a[1..] + b;
      CountTaggedAppend(a[1..], b, prefix);
    } else {
      assert a + b == b;
    }
  }

  /** Strings that differ at position `i` of their fixed prefixes never start alike. */
  lemma PrefixMismatch(p: string, v: string, q: string, i: nat)
    requires i < |p| && i < |q| && p[i] != q[i]
    ensures !StartsWith(p + v, q)
  {
  }

  lemma PrefixMatch(p: string, v: string)
    ensures StartsWith(p + v, p)
  {
    assert (p + v)[..|p|] == p;
  }

  lemma CountTaggedPair(x: string, y: string, prefix: string)
    ensures CountTagged([x, y], prefix) == CountTagged([x], prefix) + CountTagged([y], prefix)
  {
    assert [x, y] == [x] + [y];
    CountTaggedAppend([x], [y], prefix);
  }

  function OneIf(b: bool): nat {
    if b then 1 else 0
  }

  /** A tag list of at most one tag that starts with `p`. */
  lemma CountOptTag(p: string, o: Option<string>, q: string, i: nat)
    requires i < |p| && i < |q| && p[i] != q[i]
    ensures CountTagged(OptTag(p, o), q) == 0
  {
    if Truthy(o) { PrefixMismatch(p, o.value, q, i); }
  }

  lemma CountOwnTag(p: string, o: Option<string>)
    ensures CountTagged(OptTag(p, o), p) == OneIf(Truthy(o))
  {
    if Truthy(o) { PrefixMatch(p, o.value); }
  }

  // ---------------------------------------------------------------------------
  // FortiGate classification and tags
  // ---------------------------------------------------------------------------

  function Hostname(r: FortiGateDeviceRecord): string { r.hostname.GetOr("Unknown") }
  function Family(r: FortiGateDeviceRecord): string { r.hardwareFamily.GetOr("Unknown") }
  function HwType(r: FortiGateDeviceRecord): string { r.hardwareType.GetOr("Unknown") }

  /** The FortiGate tags split into the groups they are built from. */
  lemma FortiGateTagGroups(r: FortiGateDeviceRecord, prefix: string)
    ensures CountTagged(FortiGateTags(r), prefix) ==
      CountTagged(["source:fortigate"], prefix)
      + CountTagged(ClassTags(Classify(Hostname(r), Family(r), HwType(r))), prefix)
      + CountTagged(FamilyTag(Family(r)), prefix)
      + CountTagged(OptTag("host_src:", r.hostSrc), prefix)
      + CountTagged(OptTag("purdue:", r.purdueLevel), prefix)
  {
    var a := ["source:fortigate"];
    var b := ClassTags(Classify(Hostname(r), Family(r), HwType(r)));
    var c := FamilyTag(Family(r));
    var d := OptTag("host_src:", r.hostSrc);
    var e := OptTag("purdue:", r.purdueLevel);
    CountTaggedAppend(a, b, prefix);
    CountTaggedAppend(a + b, c, prefix);
    CountTaggedAppend(a + b + c, d, prefix);
    CountTaggedAppend(a + b + c + d, e, prefix);
  }

  /** Every FortiGate device carries exactly one `type:` tag. */
  lemma FortiGateOneTypeTag(r: FortiGateDeviceRecord, now: nat)
    ensures CountTagged(NormalizeFortiGateDevice(r, now).tags, "type:") == 1
  {
    var p := "type:";
    FortiGateTagGroups(r, p);
    PrefixMismatch("source:fortigate", [], p, 0);
    ClassTagsOneType(Classify(Hostname(r), Family(r), HwType(r)));
    if FamilyTag(Family(r)) != [] {
      PrefixMismatch("hw_family:", Slug(Family(r)), p, 0);
    }
    CountOptTag("host_src:", r.hostSrc, p, 0);
    CountOptTag("purdue:", r.purdueLevel, p, 0);
  }

  /** Each rule of the chain contributes exactly one `type:` tag. */
  lemma ClassTagsOneType(c: HostClass)
    ensures CountTagged(ClassTags(c), "type:") == 1
  {
    var p := "type:";
    match c
    case UuidHostname =>
      PrefixMatch(p, "vm"); PrefixMismatch("hostname:uuid", [], p, 0);
      CountTaggedPair("type:vm", "hostname:uuid", p);
    case MacHostname =>
      PrefixMatch(p, "vm"); PrefixMismatch("hostname:mac", [], p, 0);
      CountTaggedPair("type:vm", "hostname:mac", p);
    case GenericHostname =>
      PrefixMatch(p, "vm"); PrefixMismatch("hostname:generic", [], p, 0);
      CountTaggedPair("type:vm", "hostname:generic", p);
    case ServerHardware => PrefixMatch(p, "server");
    case MobileHardware => PrefixMatch(p, "mobile");
    case FirewallHardware => PrefixMatch(p, "firewall");
    case Workstation => PrefixMatch(p, "workstation");
  }

  /** The FortiGate tags after the classification tags. */
  function MetadataTags(r: FortiGateDeviceRecord): seq<string> {
    FamilyTag(Family(r)) + OptTag("host_src:", r.hostSrc) + OptTag("purdue:", r.purdueLevel)
  }

  /** A normalised FortiGate device takes its type and its tags from the rule
      of the chain that fired. */
  lemma FortiGateDeviceParts(r: FortiGateDeviceRecord, now: nat)
    ensures var d, c := NormalizeFortiGateDevice(r, now), Classify(Hostname(r), Family(r), HwType(r));
      d.deviceType == ClassDeviceType(c) && d.tags == ["source:fortigate"] + ClassTags(c) + MetadataTags(r)
  {
    var d, c := NormalizeFortiGateDevice(r, now), Classify(Hostname(r), Family(r), HwType(r));
    assert d.tags == FortiGateTags(r);
    assert FortiGateTags(r) == ["source:fortigate"] + ClassTags(c) + MetadataTags(r);
  }

  /** The tags after the classification tags never name a type. */
  lemma MetadataTagsUntyped(r: FortiGateDeviceRecord)
    ensures "type:vm" !in MetadataTags(r) && "type:firewall" !in MetadataTags(r)
  {
    forall t | t in MetadataTags(r) ensures t != "type:vm" && t != "type:firewall" {
      assert t[0] == 'h' || t[0] == 'p';
    }
  }

  /** Within a tag list built around one rule's tags, `type:vm` marks the
      virtual rules and `type:firewall` the firewall rule. */
  lemma ClassTagsAgree(c: HostClass, rest: seq<string>)
    requires "type:vm" !in rest && "type:firewall" !in rest
    ensures ClassDeviceType(c) == Virtual <==> "type:vm" in ["source:fortigate"] + ClassTags(c) + rest
    ensures ClassDeviceType(c) == Firewall <==> "type:firewall" in ["source:fortigate"] + ClassTags(c) + rest
  {
  }

  /** The `type:` tag and the device type agree: virtual devices are exactly the
      `type:vm` ones, firewalls exactly the `type:firewall` ones. */
  lemma FortiGateTypeTagAgrees(r: FortiGateDeviceRecord, now: nat)
    ensures NormalizeFortiGateDevice(r, now).deviceType == Virtual <==> "type:vm" in NormalizeFortiGateDevice(r, now).tags
    ensures NormalizeFortiGateDevice(r, now).deviceType == Firewall <==> "type:firewall" in NormalizeFortiGateDevice(r, now).tags
  {
    FortiGateDeviceParts(r, now);
    MetadataTagsUntyped(r);
    ClassTagsAgree(Classify(Hostname(r), Family(r), HwType(r)), MetadataTags(r));
  }

  /** The rule that fires for a UUID- or MAC-shaped hostname. */
  lemma ShapedHostnameClass(r: FortiGateDeviceRecord)
    ensures MatchesUuid(Lower(Hostname(r))) ==> Classify(Hostname(r), Family(r), HwType(r)) == UuidHostname
    ensures !MatchesUuid(Lower(Hostname(r))) && MatchesMac(Lower(Hostname(r))) ==>
      Classify(Hostname(r), Family(r), HwType(r)) == MacHostname
  {
  }

  /** A UUID- or MAC-shaped hostname (after lower-casing) always yields a virtual
      machine, tagged with how it was recognised, whatever the hardware says. */
  lemma FortiGateShapedHostnameIsVirtual(r: FortiGateDeviceRecord, now: nat)
    ensures MatchesUuid(Lower(Hostname(r))) ==>
      var d := NormalizeFortiGateDevice(r, now);
      d.deviceType == Virtual && "type:vm" in d.tags && "hostname:uuid" in d.tags
    ensures !MatchesUuid(Lower(Hostname(r))) && MatchesMac(Lower(Hostname(r))) ==>
      var d := NormalizeFortiGateDevice(r, now);
      d.deviceType == Virtual && "type:vm" in d.tags && "hostname:mac" in d.tags
  {
    FortiGateDeviceParts(r, now);
    ShapedHostnameClass(r);
    var tags := NormalizeFortiGateDevice(r, now).tags;
    var c := Classify(Hostname(r), Family(r), HwType(r));
    assert tags[1..|ClassTags(c)| + 1] == ClassTags(c);
  }

  /** Hostname rules see the name lower-cased, so the case of the hostname never
      changes the classification. */
  lemma ClassifyIgnoresHostnameCase(hostname: string, family: string, hwType: string)
    ensures Classify(Lower(hostname), family, hwType) == Classify(hostname, family, hwType)
  {
    LowerIdempotent(hostname);
  }

  /** `$` also matches before a final newline: a UUID hostname followed by "\n"
      is still classified as a UUID hostname, although it is not UUID-shaped. */
  lemma UuidHostnameWithTrailingNewline(u: string, family: string, hwType: string)
    requires UuidShape(Lower(u))
    ensures Classify(u + "\n", family, hwType) == UuidHostname
    ensures !UuidShape(Lower(u + "\n"))
  {
    var h := Lower(u + "\n");
    assert h[..|h| - 1] == Lower(u);
    assert h[|h| - 1] == '\n';
  }

  /** The `hw_family:` tag appears (once) exactly when the family is present,
      non-empty and not 'Unknown'; `host_src:` and `purdue:` exactly when
      their values are truthy. */
  lemma FortiGateMetadataTags(r: FortiGateDeviceRecord, now: nat)
    ensures CountTagged(NormalizeFortiGateDevice(r, now).tags, "hw_family:") ==
      OneIf(r.hardwareFamily.Some? && r.hardwareFamily.value != "" && r.hardwareFamily.value != "Unknown")
    ensures CountTagged(NormalizeFortiGateDevice(r, now).tags, "host_src:") == OneIf(Truthy(r.hostSrc))
    ensures CountTagged(NormalizeFortiGateDevice(r, now).tags, "purdue:") == OneIf(Truthy(r.purdueLevel))
  {
    var c := Classify(Hostname(r), Family(r), HwType(r));
    var f := Family(r);
    // hw_family:
    FortiGateTagGroups(r, "hw_family:");
    PrefixMismatch("source:fortigate", [], "hw_family:", 0);
    ClassTagsMismatch(c, "hw_family:", 1);
    if FamilyTag(f) != [] { PrefixMatch("hw_family:", Slug(f)); }
    CountOptTag("host_src:", r.hostSrc, "hw_family:", 1);
    CountOptTag("purdue:", r.purdueLevel, "hw_family:", 0);
    // host_src:
    FortiGateTagGroups(r, "host_src:");
    PrefixMismatch("source:fortigate", [], "host_src:", 0);
    ClassTagsMismatch(c, "host_src:", 4);
    if FamilyTag(f) != [] { PrefixMismatch("hw_family:", Slug(f), "host_src:", 1); }
    CountOwnTag("host_src:", r.hostSrc);
    CountOptTag("purdue:", r.purdueLevel, "host_src:", 0);
    // purdue:
    FortiGateTagGroups(r, "purdue:");
    PrefixMismatch("source:fortigate", [], "purdue:", 0);
    ClassTagsMismatch(c, "purdue:", 0);
    if FamilyTag(f) != [] { PrefixMismatch("hw_family:", Slug(f), "purdue:", 0); }
    CountOptTag("host_src:", r.hostSrc, "purdue:", 0);
    CountOwnTag("purdue:", r.purdueLevel);
  }

  /** No classification tag starts with `q` when `q` differs at position `i`
      from "type:" and from "hostname:". */
  lemma ClassTagsMismatch(c: HostClass, q: string, i: nat)
    requires i < 5 && i < |q| && "type:"[i] != q[i] && "hostname:"[i] != q[i]
    ensures CountTagged(ClassTags(c), q) == 0
  {
    match c
    case UuidHostname =>
      PrefixMismatch("type:", "vm", q, i); PrefixMismatch("hostname:", "uuid", q, i);
      CountTaggedPair("type:vm", "hostname:uuid", q);
    case MacHostname =>
      PrefixMismatch("type:", "vm", q, i); PrefixMismatch("hostname:", "mac", q, i);
      CountTaggedPair("type:vm", "hostname:mac", q);
    case GenericHostname =>
      PrefixMismatch("type:", "vm", q, i); PrefixMismatch("hostname:", "generic", q, i);
      CountTaggedPair("type:vm", "hostname:generic", q);
    case ServerHardware => PrefixMismatch("type:", "server", q, i);
    case MobileHardware => PrefixMismatch("type:", "mobile", q, i);
    case FirewallHardware => PrefixMismatch("type:", "firewall", q, i);
    case Workstation => PrefixMismatch("type:", "workstation", q, i);
  }

  // ---------------------------------------------------------------------------
  // Intune
  // ---------------------------------------------------------------------------

  /** Intune's vocabulary agrees with the enum's own values except for
      non-compliance: the enum value "non_compliant" itself maps to UNKNOWN. */
  lemma IntuneVocabularyVsEnum(s: string)
    ensures s != "non_compliant" && ParseComplianceStatus(s).Some? ==>
      IntuneCompliance(s) == ParseComplianceStatus(s).value
    ensures ParseComplianceStatus("non_compliant") == Some(NonCompliant)
    ensures IntuneCompliance("non_compliant") == UnknownCompliance
  {
  }

  /** `i` and `j` delimit the text after the first '@' of `s`, up to the next
      '@' or the end. */
  predicate DomainBounds(s: string, i: int, j: int) {
    0 <= i < j <= |s| && s[i] == '@' && '@' !in s[..i] && '@' !in s[i + 1..j]
    && (j == |s| || s[j] == '@')
  }

  /** The owner domain is the lower-cased text between the first '@' and the
      next '@' (or the end). */
  lemma OwnerDomainBetweenAts(email: string)
    requires '@' in email
    ensures exists i, j :: DomainBounds(email, i, j) && OwnerDomain(Some(email)) == Some(Lower(email[i + 1..j]))
  {
    CountPositive(email, '@');
    SplitLength(email, '@');
    SplitJoin(email, '@');
    var pieces := Split(email, '@');
    var p0, p1 := pieces[0], pieces[1];
    assert p0 in pieces && p1 in pieces;
    var tail := Join(pieces[1..], '@');
    assert email == p0 + ['@'] + tail;
    var i, j := |p0|, |p0| + 1 + |p1|;
    if |pieces| == 2 {
      assert tail == p1;
    } else {
      assert pieces[1..][1..] == pieces[2..];
      assert tail == p1 + ['@'] + Join(pieces[2..], '@');
    }
    assert email[..i] == p0;
    assert email[i + 1..j] == p1;
    assert DomainBounds(email, i, j);
  }

  /** The owner domain never contains '@' and is already lower-case. */
  lemma OwnerDomainShape(email: Option<string>)
    ensures OwnerDomain(email).Some? ==>
      '@' !in OwnerDomain(email).value && Lower(OwnerDomain(email).value) == OwnerDomain(email).value
  {
    if OwnerDomain(email).Some? {
      var e := email.value;
      CountPositive(e, '@');
      SplitLength(e, '@');
      SplitJoin(e, '@');
      var p1 := Split(e, '@')[1];
      assert p1 in Split(e, '@');
      LowerIdempotent(p1);
      var d := Lower(p1);
      forall k | 0 <= k < |d| ensures d[k] != '@' {
        assert p1[k] != '@' by { assert p1[k] in p1; }
      }
    }
  }

  /** Exactly one `owner_domain:` tag when the principal name contains '@', none
      otherwise. */
  lemma IntuneOwnerDomainTag(r: IntuneDeviceRecord)
    ensures CountTagged(IntuneTags(r), "owner_domain:") ==
      OneIf(r.userPrincipalName.Some? && '@' in r.userPrincipalName.value)
  {
    var q := "owner_domain:";
    var domain := OwnerDomain(r.userPrincipalName);
    var a := ["source:intune", "compliance:" + r.complianceState.GetOr("unknown")];
    var b := if Truthy(r.enrollmentType) then ["enrollment:" + Slug(r.enrollmentType.value)] else [];
    var c := if Truthy(r.managementState) then ["mgmt_state:" + Slug(r.managementState.value)] else [];
    var d := ["device_type:" + r.deviceType.GetOr("physical")];
    var e := if domain.Some? then ["owner_domain:" + domain.value] else [];
    CountTaggedAppend(a, b, q);
    CountTaggedAppend(a + b, c, q);
    CountTaggedAppend(a + b + c, d, q);
    CountTaggedAppend(a + b + c + d, e, q);
    PrefixMismatch("source:intune", [], q, 0);
    PrefixMismatch("compliance:", r.complianceState.GetOr("unknown"), q, 0);
    assert CountTagged(a, q) == 0;
    if b != [] { PrefixMismatch("enrollment:", Slug(r.enrollmentType.value), q, 0); }
    if c != [] { PrefixMismatch("mgmt_state:", Slug(r.managementState.value), q, 0); }
    PrefixMismatch("device_type:", r.deviceType.GetOr("physical"), q, 0);
    if e != [] { PrefixMatch(q, domain.value); }
  }

  // ---------------------------------------------------------------------------
  // ESET
  // ---------------------------------------------------------------------------

  /** A `threat_count:` tag appears exactly when the count is positive, and its
      text reads back as the count. */
  lemma EsetThreatTag(r: EsetDeviceRecord)
    ensures CountTagged(EsetTags(r), "threat_count:") == OneIf(r.threatCount.GetOr(0) > 0)
    ensures r.threatCount.GetOr(0) > 0 ==>
      var t := EsetTags(r)[|EsetTags(r)| - 1];
      StartsWith(t, "threat_count:") && ParseInt(t[13..]) == Some(r.threatCount.value)
  {
    var q := "threat_count:";
    var n := r.threatCount.GetOr(0);
    var a := ["source:eset", "av_status:" + r.antivirusStatus.GetOr("unknown")];
    var b := OptTag("eset_version:", r.productVersion);
    var c := if n > 0 then [q + IntToString(n)] else [];
    CountTaggedAppend(a, b, q);
    CountTaggedAppend(a + b, c, q);
    PrefixMismatch("source:eset", [], q, 0);
    PrefixMismatch("av_status:", r.antivirusStatus.GetOr("unknown"), q, 0);
    assert CountTagged(a, q) == 0;
    CountOptTag("eset_version:", r.productVersion, q, 0);
    if n > 0 {
      PrefixMatch(q, IntToString(n));
      ParseIntToString(n);
      assert (q + IntToString(n))[13..] == IntToString(n);
    }
  }

  // ---------------------------------------------------------------------------
  // VLAN names and host addresses
  // ---------------------------------------------------------------------------

  /** An unnamed VLAN's default name "VLAN-<id>" carries its id, which reads back. */
  lemma VlanDefaultNameCarriesId(r: FortiGateVlanRecord, now: nat)
    requires r.vlanId.Some? && r.name.None?
    ensures NormalizeFortiGateVlan(r, now).Ok?
    ensures var name := NormalizeFortiGateVlan(r, now).value.name;
      StartsWith(name, "VLAN-") && ParseInt(name[5..]) == Some(r.vlanId.value)
  {
    var name := NormalizeFortiGateVlan(r, now).value.name;
    PrefixMatch("VLAN-", IntToString(r.vlanId.value));
    assert name[5..] == IntToString(r.vlanId.value);
    ParseIntToString(r.vlanId.value);
  }

  /** Dropping the "/32" suffix gives back the ip text ("None" when absent). */
  lemma HostAddressRoundTrip(ip: Option<string>)
    ensures |HostAddress(ip)| >= 3
    ensures HostAddress(ip)[|HostAddress(ip)| - 3..] == "/32"
    ensures HostAddress(ip)[..|HostAddress(ip)| - 3] == if ip.Some? then ip.value else "None"
  {
  }

  /** DHCP and ARP addresses are host routes, distinguished by lease type. */
  lemma LeaseKinds(lease: DhcpLeaseRecord, arp: ArpEntryRecord, now: nat)
    requires lease.ip == arp.ip
    ensures DhcpAddress(lease, now).address == NormalizeArpEntry(arp, now).address == HostAddress(lease.ip)
    ensures DhcpAddress(lease, now).leaseType != NormalizeArpEntry(arp, now).leaseType
  {
  }

  /** The lease of a named host, as written, fails instead of yielding
      "10.0.0.5/32"; the intended normaliser yields that address. */
  lemma DhcpLeaseWithHostnameFails()
    ensures var r := DhcpLeaseRecord(Some("10.0.0.5"), Some("aa:bb:cc:dd:ee:ff"), Some("laptop1"), None);
      NormalizeDhcpLease(r, 0).Raised? &&
      NormalizeDhcpLeaseIntended(r, 0).address == "10.0.0.5/32" &&
      NormalizeDhcpLeaseIntended(r, 0).leaseType == Some("dhcp")
  {
  }
}
