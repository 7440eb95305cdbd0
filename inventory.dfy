/** The inventory (NetBox) API as the reconciler sees it: each call either
    returns a value or raises. The HTTP client behind it is not modelled; a
    `Client` value fixes, for every argument, what the call does. */
module Inventory {
  import opened Wrappers
  import opened Text
  import opened Dicts

  /** A reply of a create/update call: an empty dict, or a serialised record
      whose `id` may be absent; `text` is the record's `str()` rendering. */
  datatype Reply = EmptyReply | Record(id: Option<int>, text: string)

  /** Python truthiness of the reply dict. */
  predicate ReplyTruthy(r: Reply) {
    r.Record?
  }

  /** `str(reply)`. */
  function ReplyText(r: Reply): string {
    if r.EmptyReply? then "{}" else r.text
  }

  /** `reply.get('id')`. */
  function ReplyId(r: Reply): Option<int> {
    if r.EmptyReply? then None else r.id
  }

  /** `str(reply.get('id'))`: the decimal id, or `"None"` when there is none.
      The text is never empty, and it reads back with `int()` exactly when the
      reply carried an id. */
  function IdText(r: Reply): (s: string)
    ensures s != ""
    ensures ParseInt(s) == ReplyId(r)
  {
    match ReplyId(r)
    case Some(i) =>
      ParseIntToString(i);
      IntToString(i)
    case None =>
      assert !IsDigit("None"[0]) && !IsDigit("None"[1]);
      "None"
  }

  datatype DevicePayload = DevicePayload(
    name: string,
    site: int,
    deviceType: int,
    role: int,
    serial: Option<string>,
    customFields: Dict)

  datatype InterfacePayload = InterfacePayload(
    device: int,
    name: string,
    description: string,
    macAddress: Option<string>,
    mtu: Option<int>,
    tags: seq<string>)

  datatype VlanPayload = VlanPayload(vid: int, name: string, description: string, tags: seq<string>)

  datatype PrefixPayload = PrefixPayload(prefix: string, description: string)

  datatype IpPayload = IpPayload(address: string, description: string, status: string)

  /** The calls the reconciler makes. There is no `create_or_update_prefix`:
      the client offers only `get_or_create_prefix`. */
  datatype Client = Client(
    getOrCreateSite: Outcome<int>,
    getOrCreateDeviceType: (string, string) -> Outcome<int>,
    getOrCreateDeviceRole: (string, string) -> Outcome<int>,
    createOrUpdateDevice: DevicePayload -> Outcome<Reply>,
    createOrUpdateInterface: InterfacePayload -> Outcome<Reply>,
    createOrUpdateIpAddress: IpPayload -> Outcome<Reply>,
    getOrCreateVlan: VlanPayload -> Outcome<Reply>,
    getOrCreatePrefix: PrefixPayload -> Outcome<Reply>)

  /** The message Python gives when the missing prefix call is looked up. */
  const MissingPrefixCall := "'NetBoxClient' object has no attribute 'create_or_update_prefix'"
}
