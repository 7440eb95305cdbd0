# netbox-infra-sync reconciliation core, in Dafny

This project models the part of netbox-infra-sync that turns per-source inventory
records (FortiGate, Intune, ESET) into canonical entities and reconciles them
against NetBox through a persisted state store:

- `canonical.dfy` (module `Canonical`): the canonical enums and records
  (`CanonicalDevice`, `CanonicalInterface`, `CanonicalIPAddress`,
  `CanonicalVLAN`, `CanonicalPrefix`, `SyncResult`) and their defaults.
- `normalizer.dfy` (module `Normalizer`): one pure function per
  `DataNormalizer.normalize_*`. A raw dictionary is a typed record of optional
  fields; `None` is a missing key. Where Python raises (a required field ends up
  `None`, an undeclared attribute is assigned), the result is `Raised`.
  `normalizer_properties.dfy` proves the classification, tag and address
  properties.
- `state_store.dfy` (module `StateStore`): the sync-state, object-mapping,
  stale-object and sync-run tables. They are `seq` fields of the class `Store`,
  whose methods mirror `DatabaseManager` and are specified by functions on the
  tables. `state_store_properties.dfy` proves the upsert, uniqueness,
  stale-marking and grace-period properties.
- `inventory.dfy` (module `Inventory`): the NetBox client as the reconciler
  sees it. A `Client` value fixes, for every argument, whether a call returns
  (`Ok`) or raises (`Raised`). `Reply` models the dictionary an upsert returns
  and its `str()` rendering.
- `serialization.dfy` (module `Serialization`): the sorted-key serialisation
  the change hash is computed over. The hash itself is an uninterpreted function
  `hash: string -> string` passed in by the caller.
- `reconciler.dfy` (module `Reconciler`): the device payload builder, one
  specification function per loop iteration of each pass (`DeviceStep`,
  `InterfaceStep`, ...) and its fold over the input (`DevicePass`, ...), and the
  class `Reconciler`. Its methods run the passes as loops over a `Store` and
  are proved to leave the store in the state the folds describe.
  `reconciler_properties.dfy` proves the pass-level properties.
- `wrappers.dfy`, `text.dfy`, `dicts.dfy`: `Option`/`Outcome`, the Python
  string operations the core uses (`lower`, `in`, `split`, `replace`, `str(int)`,
  `int(str)`), and insertion-ordered dictionaries with `dict.update`.

Time is a natural-number clock: every operation that reads `datetime.utcnow()`
or `time.time()` takes a `now` parameter instead. All reads within one pass
share one `now`, so every pass's duration is 0.

Store faults are modelled as an explicit parameter. A pass's `fault` argument
says that the store raised with that message: for the device pass in the
stale-marking query, before any stale row is added; for the other passes while
completing the run. The pass then
records a failed run and re-raises. The state and mapping writes made before
the fault are kept, as in the source, which commits after `fail_sync_run`.

## Model

| member | source | states |
|---|---|---|
| Canonical.ParseDeviceType | src/netbox_infra_sync/models/canonical.py:7-11 | The device type accepts exactly "physical", "virtual" and "firewall", and each accepted string is the value of the member it yields. |
| Canonical.ParseComplianceStatus | src/netbox_infra_sync/models/canonical.py:14-18 | Compliance accepts exactly "compliant", "non_compliant" and "unknown", and each accepted string is the value of the member it yields. |
| Canonical.NewDevice | src/netbox_infra_sync/models/canonical.py:28-54 | A device built from its four required fields has every optional field absent, empty custom fields and tags, and both timestamps equal to now. |
| Canonical.NewInterface | src/netbox_infra_sync/models/canonical.py:57-77 | An interface defaults to status UNKNOWN, with no MAC, description, MTU or VLAN, and empty addresses, custom fields and tags. |
| Canonical.NewIPAddress | src/netbox_infra_sync/models/canonical.py:80-97 | An address defaults to status "active", with no description, device, interface, MAC or lease type. |
| Canonical.NewSyncResult | src/netbox_infra_sync/models/canonical.py:127-136 | A result starts with zero created, updated and deleted counts and no errors. |
| Text.SplitJoin | src/netbox_infra_sync/models/normalizer.py:118 | Splitting on a separator and joining again gives back the string, and no piece contains the separator. |
| Text.ParseIntToString | src/netbox_infra_sync/reconciler/sync.py:263 | `int()` reads back the decimal text that `str()` wrote for any integer. |
| Dicts.UpdateLookup | src/netbox_infra_sync/reconciler/sync.py:228-235 | After `dict.update`, a key present in the update reads the update's value; every other key reads the original value. |
| Serialization.SortByKeySorted | src/netbox_infra_sync/reconciler/sync.py:32 | Sorting the keys gives a strictly key-ordered permutation of the entries. |
| Serialization.SerializeOrderIndependent | src/netbox_infra_sync/reconciler/sync.py:32 | Two field lists that are permutations of each other serialise to the same text. |
| Serialization.RenderObjectOrderIndependent | src/netbox_infra_sync/reconciler/sync.py:32 | A nested dictionary renders the same whatever its insertion order. |
| Serialization.DeviceTextIgnoresCustomFieldOrder | src/netbox_infra_sync/reconciler/sync.py:28-35 | Reordering a device's custom fields does not change its serialisation. |
| Normalizer.KnownOrNone | src/netbox_infra_sync/models/normalizer.py:75-77 | A vendor, type or OS value is dropped exactly when it is missing or equal to 'Unknown', and is otherwise kept. |
| Normalizer.NormalizeFortiGateDevice | src/netbox_infra_sync/models/normalizer.py:14-83 | Source is "fortigate". external_id is the serial, else the name. The name is the hostname, else "Unknown". Manufacturer, model and OS are absent exactly when missing or 'Unknown'. No serial, owner, compliance, AV status or custom fields. |
| Normalizer.IntuneCompliance | src/netbox_infra_sync/models/normalizer.py:88-92 | "compliant" maps to COMPLIANT and "noncompliant" to NON_COMPLIANT, each if and only if; every other string maps to UNKNOWN. |
| Normalizer.OwnerDomain | src/netbox_infra_sync/models/normalizer.py:116-119 | An owner domain exists exactly when the principal name is present and contains '@'. |
| Normalizer.NormalizeIntuneDevice | src/netbox_infra_sync/models/normalizer.py:86-138 | Succeeds exactly when azureADDeviceId or id is present, and takes external_id from the first present one. The device is VIRTUAL iff deviceType is "virtual", never a firewall. Compliance comes from the vocabulary map. last_seen is set iff lastSyncDateTime is non-empty. |
| Normalizer.NormalizeEsetDevice | src/netbox_infra_sync/models/normalizer.py:141-173 | Succeeds exactly when uuid or hostname is present. external_id is the uuid, else the hostname. The device is always PHYSICAL. av_status defaults to "unknown". |
| Normalizer.LinkStatus | src/netbox_infra_sync/models/normalizer.py:178-187 | 'up' maps to ACTIVE and 'down' to INACTIVE, each if and only if; anything else maps to UNKNOWN. |
| Normalizer.NormalizeFortiGateInterface | src/netbox_infra_sync/models/normalizer.py:176-193 | The interface belongs to the given device, takes its status from the link status, and carries only the tag "source:fortigate". |
| Normalizer.NormalizeFortiGateVlan | src/netbox_infra_sync/models/normalizer.py:196-203 | Succeeds exactly when vlan_id is present, keeping that id. |
| Normalizer.NormalizeFortiGatePrefix | src/netbox_infra_sync/models/normalizer.py:206-213 | Succeeds exactly when subnet is present, keeping the subnet and the VLAN id. |
| Normalizer.DhcpAddress | src/netbox_infra_sync/models/normalizer.py:218-231 | A DHCP address has lease type "dhcp", status "active", and interface name defaulting to "lan". |
| Normalizer.NormalizeDhcpLease | src/netbox_infra_sync/models/normalizer.py:216-233 | As written: succeeds exactly when the lease has no non-empty hostname, and then yields the DHCP address. |
| Normalizer.NormalizeDhcpLeaseIntended | src/netbox_infra_sync/models/normalizer.py:216-233 | Corrected: every lease yields a "dhcp" address with interface defaulting to "lan", and it agrees with the as-written function wherever that succeeds. |
| Normalizer.NormalizeArpEntry | src/netbox_infra_sync/models/normalizer.py:236-245 | An ARP address has lease type "arp", description "ARP table entry", and the entry's interface and MAC. |
| NormalizerProperties.FortiGateTagGroups | src/netbox_infra_sync/models/normalizer.py:26-68 | Tags for any prefix split into the source tag, the classification tags, the family tag, and the host_src and purdue tags. |
| NormalizerProperties.ClassTagsOneType | src/netbox_infra_sync/models/normalizer.py:36-55 | Every branch of the classification adds exactly one `type:` tag. |
| NormalizerProperties.FortiGateOneTypeTag | src/netbox_infra_sync/models/normalizer.py:25-68 | A normalised FortiGate device carries exactly one `type:` tag. |
| NormalizerProperties.FortiGateTypeTagAgrees | src/netbox_infra_sync/models/normalizer.py:36-55 | The device is VIRTUAL iff it is tagged `type:vm`, and FIREWALL iff tagged `type:firewall`. |
| NormalizerProperties.FortiGateShapedHostnameIsVirtual | src/netbox_infra_sync/models/normalizer.py:29-41 | A UUID-shaped lower-cased hostname gives VIRTUAL with `type:vm` and `hostname:uuid`. Failing that, a MAC-shaped one gives VIRTUAL with `type:vm` and `hostname:mac`. |
| NormalizerProperties.ClassifyIgnoresHostnameCase | src/netbox_infra_sync/models/normalizer.py:29-51 | Classification gives the same result for a hostname and its lower-case form. |
| NormalizerProperties.UuidHostnameWithTrailingNewline | src/netbox_infra_sync/models/normalizer.py:29 | `re.match` with `$` also accepts a UUID hostname followed by one newline, though the string itself is not UUID-shaped. |
| NormalizerProperties.FortiGateMetadataTags | src/netbox_infra_sync/models/normalizer.py:57-68 | There is one `hw_family:` tag iff the family is present, non-empty and not 'Unknown'; one `host_src:` tag iff host_src is non-empty; one `purdue:` tag iff purdue_level is non-empty. |
| NormalizerProperties.IntuneVocabularyVsEnum | src/netbox_infra_sync/models/normalizer.py:88-92 | The Intune map agrees with the enum's values except for "non_compliant". The enum accepts that value, but the map sends it to UNKNOWN. |
| NormalizerProperties.OwnerDomainBetweenAts | src/netbox_infra_sync/models/normalizer.py:116-119 | The owner domain is the lower-cased text between the first '@' and the next '@' (or the end). |
| NormalizerProperties.OwnerDomainShape | src/netbox_infra_sync/models/normalizer.py:116-119 | An owner domain contains no '@' and is already lower case. |
| NormalizerProperties.IntuneOwnerDomainTag | src/netbox_infra_sync/models/normalizer.py:115-119 | There is one `owner_domain:` tag iff the principal name contains '@', else none. |
| NormalizerProperties.EsetThreatTag | src/netbox_infra_sync/models/normalizer.py:155-158 | There is one `threat_count:` tag iff the count is positive, and its suffix reads back as the count. |
| NormalizerProperties.VlanDefaultNameCarriesId | src/netbox_infra_sync/models/normalizer.py:200 | A VLAN without a name is named "VLAN-" followed by text that reads back as its id. |
| NormalizerProperties.HostAddressRoundTrip | src/netbox_infra_sync/models/normalizer.py:219 | The address is the ip (or "None" when missing) followed by "/32", and stripping "/32" gives the ip back. |
| NormalizerProperties.LeaseKinds | src/netbox_infra_sync/models/normalizer.py:218-245 | A DHCP lease and an ARP entry for the same ip get the same `/32` address and different lease types. |
| NormalizerProperties.DhcpLeaseWithHostnameFails | src/netbox_infra_sync/models/normalizer.py:227-228 | The lease {ip 10.0.0.5, hostname laptop1} raises as written, while the corrected normaliser gives "10.0.0.5/32" with lease type "dhcp". |
| Dicts.FirstIndex | src/netbox_infra_sync/storage/database.py:108-112 | The result is the first position whose element has the key asked for. It is none exactly when no element has that key. Both tables' `.first()` lookups use this search, over their key column. |
| StateStore.StateIndex | src/netbox_infra_sync/storage/database.py:108-112 | The lookup finds the first row with the key, or reports that no row has it. |
| StateStore.MappingIndex | src/netbox_infra_sync/storage/database.py:175-179 | The lookup finds the first mapping with the key, or reports that no mapping has it. |
| StateStore.MappingsOf | src/netbox_infra_sync/storage/database.py:207-210 | The query holds exactly the mappings of the given source and object type. |
| StateStore.CompleteRun | src/netbox_infra_sync/storage/database.py:146-160 | A completed run has status completed, the three counts, error_count = number of errors, errors null iff the list is empty, completed_at and duration set, and its origin kept. |
| StateStore.FailRun | src/netbox_infra_sync/storage/database.py:162-170 | A failed run has status failed, errors = [error], completed_at and duration set, and its counts unchanged. |
| StateStore.StaleDueMembers | src/netbox_infra_sync/storage/database.py:233-239 | The grace-period query keeps exactly the rows marked strictly before the cutoff and not deleted. |
| StateStore.Store.GetSyncState | src/netbox_infra_sync/storage/database.py:105-112 | The sync state returned has the key; none is returned iff no row has the key. |
| StateStore.Store.UpdateSyncState | src/netbox_infra_sync/storage/database.py:114-133 | The states table becomes the upsert of the old one; the other tables are unchanged. |
| StateStore.Store.CreateSyncRun | src/netbox_infra_sync/storage/database.py:135-144 | Appends a running run started now and returns its index. |
| StateStore.Store.CompleteSyncRun | src/netbox_infra_sync/storage/database.py:146-160 | Replaces the run with its completed form; nothing else changes. |
| StateStore.Store.FailSyncRun | src/netbox_infra_sync/storage/database.py:162-170 | Replaces the run with its failed form; nothing else changes. |
| StateStore.Store.GetObjectMapping | src/netbox_infra_sync/storage/database.py:172-179 | The mapping returned has the key; none is returned iff no mapping has the key. |
| StateStore.Store.CreateObjectMapping | src/netbox_infra_sync/storage/database.py:181-190 | Appends a mapping unconditionally; the other tables are unchanged. |
| StateStore.Store.UpdateObjectMapping | src/netbox_infra_sync/storage/database.py:192-201 | The mappings table becomes the upsert of the old one; the other tables are unchanged. |
| StateStore.Store.MarkStaleObjects | src/netbox_infra_sync/storage/database.py:203-231 | The loop leaves the stale table as the stale marking of the matching mappings; mappings, states and runs are unchanged. |
| StateStore.Store.GetStaleObjects | src/netbox_infra_sync/storage/database.py:233-239 | Returns exactly the stale rows marked before now minus the grace days that are not deleted. |
| StateStoreProperties.UpsertStateLookup | src/netbox_infra_sync/storage/database.py:114-133 | After the upsert the key reads the new hash and last_seen. Its netbox_id is the new one if truthy or the row is new, else the old one. Every other key reads as before. |
| StateStoreProperties.UpsertStateUnique | src/netbox_infra_sync/storage/database.py:114-133 | The upsert keeps keys unique and adds a row iff the key was absent. |
| StateStoreProperties.UpsertMappingLookup | src/netbox_infra_sync/storage/database.py:192-201 | After the upsert the key maps to the latest netbox_id; every other key reads as before. |
| StateStoreProperties.UpsertMappingUnique | src/netbox_infra_sync/storage/database.py:192-201 | Upserting alone keeps at most one mapping per key. |
| StateStoreProperties.InsertMappingDuplicates | src/netbox_infra_sync/storage/database.py:181-190 | Creating a mapping for a key that is already mapped breaks uniqueness. |
| StateStoreProperties.MarkAllExtends | src/netbox_infra_sync/storage/database.py:212-231 | Stale marking only appends: the old rows are kept, unchanged and in order. |
| StateStoreProperties.MarkAllNewRows | src/netbox_infra_sync/storage/database.py:212-230 | Every appended row is active and stamped now. It copies the key and netbox_id of a mapping whose external_id is not current. |
| StateStoreProperties.MarkAllCovers | src/netbox_infra_sync/storage/database.py:212-230 | Afterwards every mapping whose external_id is not current has an active stale row. |
| StateStoreProperties.MarkAllNoop | src/netbox_infra_sync/storage/database.py:214-222 | When every such mapping already has an active stale row, nothing is added. |
| StateStoreProperties.MarkAllIdempotent | src/netbox_infra_sync/storage/database.py:203-231 | Marking twice with the same mappings and ids, at any later time, adds nothing the second time. |
| StateStoreProperties.MarkAllOneActive | src/netbox_infra_sync/storage/database.py:214-230 | Marking keeps at most one active stale row per key. |
| StateStoreProperties.MarkStaleRows | src/netbox_infra_sync/storage/database.py:203-231 | The new rows of one call belong to the queried source and type, have external_ids not in the current list, and come from existing mappings with their netbox_id. |
| StateStoreProperties.MarkStaleScenario | src/netbox_infra_sync/storage/database.py:203-231 | Mappings A, B, C with A and C seen: exactly one stale row, for B, carrying B's netbox_id. |
| StateStoreProperties.FreshStaleRowNotDue | src/netbox_infra_sync/storage/database.py:233-239 | A row marked now is not due even with zero grace days, because the comparison is strict. |
| StateStoreProperties.NewStaleRowDueAfterGrace | src/netbox_infra_sync/storage/database.py:233-239 | A newly marked row is due at a later time iff it was marked strictly before that time minus the grace period. |
| Inventory.IdText | src/netbox_infra_sync/reconciler/sync.py:113 | `str(reply.get('id'))` is never empty and reads back with `int()` iff the reply carried an id. |
| Reconciler.DeviceTypeId | src/netbox_infra_sync/reconciler/sync.py:173-195 | The device type is the model's type when that lookup returned a truthy id, else the Generic/Unknown type, else 1. |
| Reconciler.RoleFor | src/netbox_infra_sync/reconciler/sync.py:198-205 | FIREWALL maps to Firewall, VIRTUAL to Virtual Machine and PHYSICAL to Server, each if and only if. |
| Reconciler.RoleId | src/netbox_infra_sync/reconciler/sync.py:204-221 | The role is the mapped role when that lookup returns, else the Server role, else 1. |
| Reconciler.DevicePayloadFor | src/netbox_infra_sync/reconciler/sync.py:166-238 | The payload is built iff the site lookup returns. It has the device's name, the site, the device type and role from the chains, a serial iff the device's serial is non-empty, and the custom fields overlaid. |
| Reconciler.AssignmentDevice | src/netbox_infra_sync/reconciler/sync.py:471-482 | A device name is chosen iff device_name, hostname or client_hostname is non-empty; device_name wins. |
| Reconciler.AssignmentPlan | src/netbox_infra_sync/reconciler/sync.py:467-504 | A target exists only for a chosen device with a mapping whose id is a non-zero integer, and names a non-empty interface. |
| Reconciler.ExternalIds | src/netbox_infra_sync/reconciler/sync.py:89-93 | The ids collected for stale marking are every input external_id in input order, including those of devices that then fail. |
| Reconciler.FaultFor | src/netbox_infra_sync/reconciler/sync.py:161-164 | A store fault reaches a pass if and only if it names that pass's sync type, and the pass then raises that fault's message. |
| Reconciler.PassOutcome | src/netbox_infra_sync/reconciler/sync.py:139-164 | A pass raises exactly when the store faulted, and it raises the store's message. Otherwise it reports its source, sync type and counters, with deleted = 0. |
| Reconciler.NetworkResults | src/netbox_infra_sync/reconciler/sync.py:44-48 | The results of a FortiGate reconciliation's VLAN and prefix passes: two, in that order, each with source fortigate and deleted = 0. |
| Reconciler.LinkResults | src/netbox_infra_sync/reconciler/sync.py:50-54 | The results of the interface and IP address passes: two, in that order, each with source fortigate and deleted = 0. |
| Reconciler.Reconciler.ProcessDevice | src/netbox_infra_sync/reconciler/sync.py:91-133 | One loop iteration leaves the store and counters as `DeviceStep` describes. |
| Reconciler.Reconciler.ReconcileDevices | src/netbox_infra_sync/reconciler/sync.py:79-164 | The states and mappings end as `DevicePass` describes. Without a fault, stale marking runs over every input external_id in input order, failed devices included, and the run completes. With a fault, the run fails, stale rows are unchanged and the pass raises. The stale table ends as `DeviceStale` describes. |
| Reconciler.Reconciler.FinishDevicePass | src/netbox_infra_sync/reconciler/sync.py:135-164 | With a fault, the run fails, stale rows are unchanged and the pass raises. Otherwise every mapping not seen is marked stale and the run completes. States and mappings are unchanged. |
| Reconciler.Reconciler.ReconcileInterfaces | src/netbox_infra_sync/reconciler/sync.py:240-308 | The run and result are those of `InterfacePass` over the mappings; states, mappings and stale rows are unchanged. |
| Reconciler.Reconciler.ProcessInterface | src/netbox_infra_sync/reconciler/sync.py:251-281 | One loop iteration moves the counters as `InterfaceStep` describes, reading the device's mapping from the store. |
| Reconciler.Reconciler.ReconcileVlans | src/netbox_infra_sync/reconciler/sync.py:310-355 | The run and result are those of `VlanPass`; the other tables are unchanged. |
| Reconciler.Reconciler.ReconcilePrefixesAsWritten | src/netbox_infra_sync/reconciler/sync.py:357-400 | As written: the run and result are those of `PrefixPassAsWritten`; the other tables are unchanged. |
| Reconciler.Reconciler.ReconcilePrefixes | src/netbox_infra_sync/reconciler/sync.py:357-400 | Corrected: the run and result are those of `PrefixPass`, which calls `get_or_create_prefix`. |
| Reconciler.Reconciler.ReconcileIpAddresses | src/netbox_infra_sync/reconciler/sync.py:402-465 | The run and result are those of `IpPass`; the other tables are unchanged. |
| Reconciler.Reconciler.ProcessIpAddress | src/netbox_infra_sync/reconciler/sync.py:413-445 | One loop iteration moves the counters as `IpStep` describes. |
| Reconciler.Reconciler.FinishRun | src/netbox_infra_sync/reconciler/sync.py:283-308 | With a fault, the run fails and the pass raises the fault's message. Otherwise the run completes with deleted = 0, and the result carries the counters of the pass's specification. |
| Reconciler.Reconciler.ReconcileFortiGate | src/netbox_infra_sync/reconciler/sync.py:37-56 | Runs devices, VLANs, prefixes, interfaces and IP addresses in that order, and raises iff one of them faults. States and mappings end as the `DevicePass` fold leaves them and stale rows as `DeviceStale`. One run row per pass is appended, in order, up to and including the first that raises. On success the five results are the device pass's counters, then `NetworkResults`, then `LinkResults` over the mappings the device pass wrote. |
| Reconciler.Reconciler.ReconcileFortiGateRest | src/netbox_infra_sync/reconciler/sync.py:44-54 | VLANs, prefixes, interfaces and IP addresses run in that order. The call raises iff one of them faults. States, mappings and stale rows are unchanged. The run rows appended are those of `RestRuns`, and on success the results are `NetworkResults` followed by `LinkResults`. |
| Reconciler.Reconciler.ReconcileFortiGateNetworks | src/netbox_infra_sync/reconciler/sync.py:44-48 | VLANs, then prefixes. The call raises iff one of them faults. States, mappings and stale rows are unchanged, the appended run rows are those of `NetworkRuns` (the prefix row only when the VLAN pass did not raise), and on success the results are `NetworkResults`. |
| Reconciler.Reconciler.ReconcileFortiGateLinks | src/netbox_infra_sync/reconciler/sync.py:50-54 | Interfaces, then IP addresses. The call raises iff one of them faults. States and stale rows are unchanged, the appended run rows are those of `LinkRuns` over the mappings as they stood, and on success the results are `LinkResults`. |
| Reconciler.Reconciler.ReconcileIntune | src/netbox_infra_sync/reconciler/sync.py:58-65 | Only the device pass runs, and the pass raises iff it faults. States and mappings end as the `DevicePass` fold leaves them, stale rows as `DeviceStale`, exactly one intune device run row is appended, and on success the one result carries the fold's counters. |
| Reconciler.Reconciler.ReconcileEset | src/netbox_infra_sync/reconciler/sync.py:67-77 | Devices, then interfaces over the new mappings; raises iff one of them faults. States and mappings end as the `DevicePass` fold leaves them and stale rows as `DeviceStale`. The device run row is appended, then the interface run row only when the device pass did not raise. On success the results are the device counters and `InterfacePass` over the new mappings. |
| ReconcilerProperties.HashIgnoresCustomFieldOrder | src/netbox_infra_sync/reconciler/sync.py:28-35 | A device's hash does not depend on the insertion order of its custom fields. |
| ReconcilerProperties.DeviceTypeChain | src/netbox_infra_sync/reconciler/sync.py:173-195 | The device type is one of the three links. 1 is used only when the generic lookup raised. Without manufacturer and model the model lookup is skipped. |
| ReconcilerProperties.RoleChain | src/netbox_infra_sync/reconciler/sync.py:197-221 | The role is the mapped role, the Server role, or 1 when the Server lookup raised. |
| ReconcilerProperties.PayloadCustomFields | src/netbox_infra_sync/reconciler/sync.py:227-236 | The five overlaid keys read external_id, source, owner (or ''), the compliance value (or '') and av_status (or ''); every other key reads the device's own custom field. |
| ReconcilerProperties.DeviceStepFastPath | src/netbox_infra_sync/reconciler/sync.py:97-106 | With an equal stored hash, only the state row's last_seen moves: no upstream write, no mapping change, no counter change. |
| ReconcilerProperties.DeviceStepWrite | src/netbox_infra_sync/reconciler/sync.py:108-128 | For a new or changed device, the returned id is recorded in both tables. `updated` grows iff a state row existed, else `created`. |
| ReconcilerProperties.DeviceStepError | src/netbox_infra_sync/reconciler/sync.py:130-133 | A raising payload or upsert appends exactly one error and leaves tables and counters alone. |
| ReconcilerProperties.DevicePassCounts | src/netbox_infra_sync/reconciler/sync.py:91-133 | Each device adds at most one to created + updated + errors, and earlier errors are kept. |
| ReconcilerProperties.DevicePassBound | src/netbox_infra_sync/reconciler/sync.py:91-133 | created + updated + len(errors) is at most the number of devices. |
| ReconcilerProperties.DevicePassSparesInputs | src/netbox_infra_sync/reconciler/sync.py:89-136 | The device pass's stale marking never marks an input device, only other device mappings of that source. |
| ReconcilerProperties.DevicePassUnique | src/netbox_infra_sync/reconciler/sync.py:115-121 | The device pass keeps at most one state row and one mapping per key. |
| ReconcilerProperties.CleanPassSyncs | src/netbox_infra_sync/reconciler/sync.py:91-128 | After an error-free pass over distinct ids, every input device's stored hash equals its own. |
| ReconcilerProperties.SyncedPassQuiet | src/netbox_infra_sync/reconciler/sync.py:97-106 | Over devices whose hashes are all stored, a pass writes no mapping, sends nothing and changes no counter. |
| ReconcilerProperties.SecondPassQuiet | src/netbox_infra_sync/reconciler/sync.py:97-128 | Re-running an error-free device pass on the same input creates, updates and sends nothing and leaves the mappings as they were. |
| ReconcilerProperties.InterfaceWithoutDevice | src/netbox_infra_sync/reconciler/sync.py:253-259 | An interface whose device has no mapping adds exactly the "Device not found" error and makes no call. |
| ReconcilerProperties.InterfacePassBounds | src/netbox_infra_sync/reconciler/sync.py:250-281 | created + errors and updated + errors each grow by at most the number of interfaces. |
| ReconcilerProperties.InterfaceFindsUpsertedDevice | src/netbox_infra_sync/reconciler/sync.py:253-272 | After a device's upsert, its interfaces are sent with the device id the upsert returned. |
| ReconcilerProperties.InterfaceReplyCountsTwice | src/netbox_infra_sync/reconciler/sync.py:274-276 | A reply whose text holds 'created' and 'last_updated' counts as created and as updated at once. |
| ReconcilerProperties.VlanPassBounds | src/netbox_infra_sync/reconciler/sync.py:320-335 | Every VLAN is sent, created + errors grows by at most the number of VLANs, and `updated` never moves. |
| ReconcilerProperties.PrefixPassAsWrittenFails | src/netbox_infra_sync/reconciler/sync.py:367-380 | As written, every prefix appends exactly the missing-attribute error, in order; nothing is sent or counted. |
| ReconcilerProperties.PrefixPassCreates | src/netbox_infra_sync/reconciler/sync.py:367-380 | Corrected, every prefix is sent; when every call returns a truthy reply, all of them count as created and there are no errors. |
| ReconcilerProperties.IpCountsAnyCase | src/netbox_infra_sync/reconciler/sync.py:439-440 | An IP reply containing 'created' in any letter case counts as created. |
| ReconcilerProperties.IpPassBounds | src/netbox_infra_sync/reconciler/sync.py:412-445 | Every address is sent once, and created + errors and updated + errors each grow by at most the number of addresses. |
| ReconcilerProperties.NoAssignmentForCanonicalAddresses | src/netbox_infra_sync/reconciler/sync.py:474-495 | A canonical address has no device name, hostname or client hostname, so interface assignment never finds a target. |
| ReconcilerProperties.AssignmentPlanTargetsMappedDevice | src/netbox_infra_sync/reconciler/sync.py:471-504 | With a mapped device name and a non-zero id, the target is that device. Its interface is interface_name, else "lan" with a lease type, else "mgmt". |

## Left out

- HTTP, pynetbox and the source clients: the NetBox client is the `Client` value, whose calls return or raise. `get_or_create_device_interface` and `assign_ip_to_interface` are not in it, because assignment never reaches them for canonical addresses.
- SHA-256 and the JSON text: the hash is an uninterpreted function. It is applied to a sorted-key rendering of all device fields, `created_at` and `updated_at` included, as the source hashes the whole model. Freshly normalised devices therefore rarely hit the fast path; the model does not hide this. The model's rendering does not escape quotes or backslashes inside strings, as `json.dumps` does, so two different devices can render to the same text (a name `x", "operating_system": "y` with OS `z`, and a name `x` with OS `y", "operating_system": "z`), and the fast path can fire where the source's hashes differ.
- SQLAlchemy sessions: rows are visible immediately. The source's sessions use `autoflush=False`, so there a lookup may miss a row added earlier in the same pass, and duplicate external ids in one pass can create duplicate rows. The model writes through instead.
- Wall-clock time and float durations: `now` is a natural-number clock shared by a whole pass, so durations are 0.
- ISO-8601 parsing of `lastSyncDateTime` and `last_seen`: kept as an opaque optional value. In the source, a non-empty timestamp string that `datetime.fromisoformat` rejects raises `ValueError` out of the normalizer (src/netbox_infra_sync/models/normalizer.py:133, 168); the model's Normalizer.NormalizeIntuneDevice and Normalizer.NormalizeEsetDevice succeed on such a string and keep it as last_seen, because date parsing is not modelled.
- Raw values of the wrong type (a `None` stored under a present key, a number where a string is expected) are not modelled: a raw record field is either missing or a value of the expected type.
- `int()` accepting surrounding whitespace and digit-group underscores is not modelled: the model's `ParseInt` accepts an optional sign followed by decimal digits.
- Logging is not modelled. The `assignment_method` computed in the IP pass is also not modelled, because nothing uses it.
- Pydantic validation of `CanonicalVLAN.vlan_id` and `CanonicalPrefix.prefix` is modelled only as the `Raised` outcome when the field is missing.
- Reconciler.RoleFor: the `'Server'` default of the role mapping is not modelled separately, because the three device types cover every value.
- Reconciler.Reconciler.ReconcileDevices: a store fault inside the per-device `try` (`get_sync_state`, `update_sync_state` or `update_object_mapping` raising) is not modelled; the source records it as one "Error processing device" entry and goes on with the next device. The modelled fault is one raised by the stale-marking query before any stale row is added, so on a fault the stale table is unchanged; a fault part-way through `mark_stale_objects`, or in `complete_sync_run`, would keep the stale rows already added, because the source commits after `fail_sync_run`, and the model does not produce it.
- Reconciler.Reconciler.ReconcileFortiGate, Reconciler.Reconciler.ReconcileFortiGateRest, Reconciler.Reconciler.ReconcileFortiGateNetworks: the orchestrator runs the corrected prefix pass (`ReconcilePrefixes`, with `get_or_create_prefix`), not the pass as written, which gives one missing-attribute error per prefix and created = 0 (`ReconcilePrefixesAsWritten`, see Findings).
- Normalizer.NormalizeDhcpLeaseIntended: the correction drops the lease's hostname instead of carrying it as `client_hostname`, because `CanonicalIPAddress` declares no such field; interface assignment therefore stays unreachable for normalised leases (`ReconcilerProperties.NoAssignmentForCanonicalAddresses`).
- Text.Lower: lowercases the ASCII letters A-Z only, whereas Python's `str.lower` follows Unicode (so "MÜNCHEN" or a Kelvin sign are lowercased differently). This affects every member built on it: `Normalizer.OwnerDomain`, the `hw_family:`, `enrollment:` and `mgmt_state:` slugs, `Normalizer.Classify`'s hostname rules, and `ReconcilerProperties.IpCountsAnyCase`.
- The stale-object deletion in the NetBox client is an unimplemented stub upstream; `deleted` is always 0.

## Findings

| source | as written | input that shows it | evidently intended | confidence | as-written member | corrected member |
|---|---|---|---|---|---|---|
| src/netbox_infra_sync/models/normalizer.py:227-228 | A lease with a hostname assigns `client_hostname`, which `CanonicalIPAddress` does not declare; pydantic refuses the assignment, so the lease raises. | {ip: "10.0.0.5", mac: "aa:bb:cc:dd:ee:ff", hostname: "laptop1"} | The lease normalises to "10.0.0.5/32" with lease type "dhcp" and keeps the hostname: normalizer.py:225 attaches it "for interface assignment", and the IP pass reads `client_hostname` back (sync.py:478-480) to find the device. | not executed | Normalizer.NormalizeDhcpLease, NormalizerProperties.DhcpLeaseWithHostnameFails | Normalizer.NormalizeDhcpLeaseIntended |
| src/netbox_infra_sync/reconciler/sync.py:374 | The prefix pass calls `create_or_update_prefix`, which the NetBox client does not define (it has `get_or_create_prefix`), so every prefix lands in the error branch. | Any non-empty prefix list, e.g. one prefix "10.0.0.0/24" | Each prefix is sent with `get_or_create_prefix` and counted as created when the reply is truthy. | not executed | Reconciler.Reconciler.ReconcilePrefixesAsWritten, ReconcilerProperties.PrefixPassAsWrittenFails | Reconciler.Reconciler.ReconcilePrefixes, ReconcilerProperties.PrefixPassCreates |

