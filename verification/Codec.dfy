// transport/codec.py: encode drops null model fields, decode restores defaults
// and runs every validator again.
module Codec {
  import opened Wrappers
  import opened Strings
  import opened Json
  import opened Canonical
  import opened Models
  import opened Platforms
  import opened Hashing
  import opened Packets

  // ---------------------------------------------------------------------
  // Encoding: model_dump(mode="json", exclude_none=True)
  // ---------------------------------------------------------------------

  // Null model fields are dropped; nulls inside a payload are data and stay.
  function Present(fs: seq<Field>): seq<Field> {
    if fs == [] then []
    else (if fs[0].val.Null? then [] else [fs[0]]) + Present(fs[1..])
  }

  function Dump(ks: seq<string>, vs: seq<Json>): Json
    requires |ks| == |vs|
  {
    Obj(Present(Record(ks, vs)))
  }

  const SECURITY_KEYS := ["payload_hash", "transport_hash", "signature", "signature_algorithm", "signing_key_id",
                          "classification", "encryption_status", "pii_fields"]

  function SecurityValues(s: Security): (r: seq<Json>)
    ensures |r| == |SECURITY_KEYS|
  {
    [Str(s.payloadHash), Str(s.transportHash), StrOpt(s.signature), StrOpt(s.signatureAlgorithm),
     StrOpt(s.signingKeyId), Str(s.classification), Str(s.encryptionStatus), Arr(Strs(s.piiFields))]
  }

  const HOP_KEYS := ["hop_id", "packet_id", "node", "action", "direction", "status", "timestamp", "attempt",
                     "target_node", "duration_ms", "queue_ms", "network_ms", "error_code", "error_message",
                     "previous_hop_hash", "hop_hash", "hop_signature", "hop_signature_algorithm",
                     "hop_signing_key_id"]

  function HopValues(f: Time -> string, h: Hop): (r: seq<Json>)
    ensures |r| == |HOP_KEYS|
  {
    [Str(h.hopId), Str(h.packetId), Str(h.node), Str(h.action), Str(h.direction), Str(h.status),
     TimeJson(f, h.timestamp), NumOpt(h.attempt), StrOpt(h.targetNode), NumOpt(h.durationMs), NumOpt(h.queueMs),
     NumOpt(h.networkMs), StrOpt(h.errorCode), StrOpt(h.errorMessage), StrOpt(h.previousHopHash), Str(h.hopHash),
     StrOpt(h.hopSignature), StrOpt(h.hopSignatureAlgorithm), StrOpt(h.hopSigningKeyId)]
  }

  function EncodeLink(p: Platform, l: Link): Json {
    Dump(LINK_KEYS, LinkValues(p.wireTime, l))
  }

  function EncodeHop(p: Platform, h: Hop): Json {
    Dump(HOP_KEYS, HopValues(p.wireTime, h))
  }

  function EncodeAttachment(a: Attachment): Json {
    Dump(ATTACHMENT_KEYS, AttachmentValues(a))
  }

  function EncodeAll<T>(encode: T -> Json, ts: seq<T>): seq<Json> {
    seq(|ts|, i requires 0 <= i < |ts| => encode(ts[i]))
  }

  const PACKET_KEYS := ["header", "address", "tenant", "payload", "security", "governance", "provenance",
                        "delegation_chain", "hop_trace", "lineage", "attachments"]

  function PacketValues(p: Platform, k: Packet): (r: seq<Json>)
    ensures |r| == |PACKET_KEYS|
  {
    [Dump(HEADER_KEYS, HeaderValues(p.wireTime, k.header)), Dump(ADDRESS_KEYS, AddressValues(k.address)),
     Dump(TENANT_KEYS, TenantValues(k.tenant)), Obj(k.payload), Dump(SECURITY_KEYS, SecurityValues(k.security)),
     Dump(GOVERNANCE_KEYS, GovernanceValues(k.governance)), Dump(PROVENANCE_KEYS, ProvenanceValues(k.provenance)),
     Arr(EncodeAll(l => EncodeLink(p, l), k.delegationChain)), Arr(EncodeAll(h => EncodeHop(p, h), k.hopTrace)),
     Dump(LINEAGE_KEYS, LineageValues(k.lineage)), Arr(EncodeAll(EncodeAttachment, k.attachments))]
  }

  // encode_transport_packet
  function Encode(p: Platform, k: Packet): Json {
    Dump(PACKET_KEYS, PacketValues(p, k))
  }

  // ---------------------------------------------------------------------
  // Decoding: TransportPacket.model_validate of a dict
  // ---------------------------------------------------------------------

  // A field of a dict, if it is there.
  type Slot = Option<Json>

  function Read(fs: seq<Field>, key: string): Slot {
    if fs == [] then None else if fs[0].key == key then Some(fs[0].val) else Read(fs[1..], key)
  }

  function ReadAll(fs: seq<Field>, ks: seq<string>): seq<Slot> {
    seq(|ks|, i requires 0 <= i < |ks| => Read(fs, ks[i]))
  }

  // extra="forbid"
  predicate KnownKeys(fs: seq<Field>, ks: seq<string>) {
    forall i :: 0 <= i < |fs| ==> fs[i].key in ks
  }

  predicate IsStr(s: Slot) { s.Some? && s.value.Str? }
  predicate IsNum(s: Slot) { s.Some? && s.value.Num? }
  predicate IsBool(s: Slot) { s.Some? && s.value.Bool? }
  predicate IsArr(s: Slot) { s.Some? && s.value.Arr? }
  predicate IsObj(s: Slot) { s.Some? && s.value.Obj? }
  predicate IsNothing(s: Slot) { s.None? || s.value.Null? }
  predicate IsUuidText(s: Slot) { IsStr(s) && IsUuid(s.value.s) }
  predicate IsDigestText(s: Slot) { IsStr(s) && IsDigest(Norm(s.value.s)) }
  predicate IsTimeText(p: Platform, s: Slot) { IsStr(s) && p.readTime(s.value.s).Some? }
  predicate IsStrs(s: Slot) {
    IsArr(s) && forall i :: 0 <= i < |s.value.items| ==> s.value.items[i].Str?
  }

  function AsStr(s: Slot, default: string): string { if IsStr(s) then s.value.s else default }
  function AsNum(s: Slot, default: int): int { if IsNum(s) then s.value.n else default }
  function AsBool(s: Slot, default: bool): bool { if IsBool(s) then s.value.b else default }
  function AsStrOpt(s: Slot): Option<string> { if IsStr(s) then Some(s.value.s) else None }
  function AsNumOpt(s: Slot): Option<int> { if IsNum(s) then Some(s.value.n) else None }
  function AsUuid(s: Slot, default: Uuid): Uuid { if IsUuidText(s) then s.value.s else default }
  function AsUuidOpt(s: Slot): Option<Uuid> { if IsUuidText(s) then Some(s.value.s) else None }
  function AsDigest(s: Slot): Digest { if IsDigestText(s) then Norm(s.value.s) else ZEROS }
  function AsDigestOpt(s: Slot): Option<Digest> { if IsDigestText(s) then Some(Norm(s.value.s)) else None }
  function AsTime(p: Platform, s: Slot, default: Time): Time {
    if IsTimeText(p, s) then p.readTime(s.value.s).value else default
  }
  function AsTimeOpt(p: Platform, s: Slot): Option<Time> { if IsTimeText(p, s) then p.readTime(s.value.s) else None }
  function AsItems(s: Slot): seq<Json> { if IsArr(s) then s.value.items else [] }
  function AsDictOpt(s: Slot): Option<seq<Field>> { if IsObj(s) then Some(s.value.fields) else None }

  function AsStrs(s: Slot): seq<string> {
    if IsStrs(s) then seq(|s.value.items|, i requires 0 <= i < |s.value.items| => s.value.items[i].s) else []
  }

  // What default_factory yields for a missing id or time.
  datatype Fill = Fill(id: Uuid, now: Time)

  // A dict that may be read as a model with these keys.
  predicate Readable(v: Json, ks: seq<string>) {
    v.Obj? && KnownKeys(v.fields, ks)
  }

  function Slots(v: Json, ks: seq<string>): (r: seq<Slot>)
    requires v.Obj?
    ensures |r| == |ks|
  {
    ReadAll(v.fields, ks)
  }

  predicate HeaderTyped(p: Platform, s: seq<Slot>)
    requires |s| == 15
  {
    && (s[0].None? || IsUuidText(s[0])) && IsStr(s[1]) && IsStr(s[2]) && (s[3].None? || IsNum(s[3]))
    && (s[4].None? || IsTimeText(p, s[4])) && (IsNothing(s[5]) || IsTimeText(p, s[5])) && (s[6].None? || IsNum(s[6]))
    && (s[7].None? || IsStr(s[7])) && (IsNothing(s[8]) || IsStr(s[8])) && (IsNothing(s[9]) || IsStr(s[9]))
    && (IsNothing(s[10]) || IsStr(s[10])) && (IsNothing(s[11]) || IsUuidText(s[11])) && (s[12].None? || IsNum(s[12]))
    && (s[13].None? || IsBool(s[13])) && (IsNothing(s[14]) || IsTimeText(p, s[14]))
  }

  function HeaderOf(p: Platform, fill: Fill, s: seq<Slot>): Header
    requires |s| == 15
  {
    Header(AsUuid(s[0], fill.id), AsStr(s[1], ""), AsStr(s[2], ""), AsNum(s[3], 2), AsTime(p, s[4], fill.now),
           AsTimeOpt(p, s[5]), AsNum(s[6], 30000), AsStr(s[7], "1.0"), AsStrOpt(s[8]), AsStrOpt(s[9]), AsStrOpt(s[10]),
           AsUuidOpt(s[11]), AsNum(s[12], 0), AsBool(s[13], false), AsTimeOpt(p, s[14]))
  }

  function DecodeHeader(p: Platform, fill: Fill, v: Json): Result<Header> {
    if Readable(v, HEADER_KEYS) && HeaderTyped(p, Slots(v, HEADER_KEYS))
    then NewHeader(HeaderOf(p, fill, Slots(v, HEADER_KEYS))) else Err(ValueError)
  }

  function DecodeAddress(v: Json): Result<Address> {
    if !Readable(v, ADDRESS_KEYS) then Err(ValueError)
    else
      var s := Slots(v, ADDRESS_KEYS);
      if IsStr(s[0]) && IsStr(s[1]) && IsStr(s[2])
      then NewAddress(Address(AsStr(s[0], ""), AsStr(s[1], ""), AsStr(s[2], ""))) else Err(ValueError)
  }

  function DecodeTenant(v: Json): Result<Tenant> {
    if !Readable(v, TENANT_KEYS) then Err(ValueError)
    else
      var s := Slots(v, TENANT_KEYS);
      if IsStr(s[0]) && IsStr(s[1]) && IsStr(s[2]) && IsStr(s[3]) && (IsNothing(s[4]) || IsStr(s[4]))
      then NewTenant(Tenant(AsStr(s[0], ""), AsStr(s[1], ""), AsStr(s[2], ""), AsStr(s[3], ""), AsStrOpt(s[4])))
      else Err(ValueError)
  }

  predicate SecurityTyped(s: seq<Slot>)
    requires |s| == 8
  {
    && IsDigestText(s[0]) && IsDigestText(s[1]) && (IsNothing(s[2]) || IsStr(s[2])) && (IsNothing(s[3]) || IsStr(s[3]))
    && (IsNothing(s[4]) || IsStr(s[4])) && (s[5].None? || IsStr(s[5])) && (s[6].None? || IsStr(s[6]))
    && (s[7].None? || IsStrs(s[7]))
  }

  function SecurityOf(s: seq<Slot>): Security
    requires |s| == 8
  {
    Security(AsDigest(s[0]), AsDigest(s[1]), AsStrOpt(s[2]), AsStrOpt(s[3]), AsStrOpt(s[4]), AsStr(s[5], "internal"),
             AsStr(s[6], "plaintext"), AsStrs(s[7]))
  }

  function DecodeSecurity(v: Json): Result<Security> {
    if Readable(v, SECURITY_KEYS) && SecurityTyped(Slots(v, SECURITY_KEYS))
    then NewSecurity(SecurityOf(Slots(v, SECURITY_KEYS))) else Err(ValueError)
  }

  predicate GovernanceTyped(s: seq<Slot>)
    requires |s| == 6
  {
    && IsStr(s[0]) && (s[1].None? || IsStrs(s[1])) && (s[2].None? || IsNum(s[2])) && (s[3].None? || IsBool(s[3]))
    && (s[4].None? || IsBool(s[4])) && (IsNothing(s[5]) || IsStr(s[5]))
  }

  function GovernanceOf(s: seq<Slot>): Governance
    requires |s| == 6
  {
    Governance(AsStr(s[0], ""), AsStrs(s[1]), AsNum(s[2], 90), AsBool(s[3], false), AsBool(s[4], false), AsStrOpt(s[5]))
  }

  function DecodeGovernance(v: Json): Result<Governance> {
    if Readable(v, GOVERNANCE_KEYS) && GovernanceTyped(Slots(v, GOVERNANCE_KEYS))
    then NewGovernance(GovernanceOf(Slots(v, GOVERNANCE_KEYS))) else Err(ValueError)
  }

  function DecodeProvenance(v: Json): Result<Provenance> {
    if !Readable(v, PROVENANCE_KEYS) then Err(ValueError)
    else
      var s := Slots(v, PROVENANCE_KEYS);
      if IsStr(s[0]) && IsStr(s[1]) && (s[2].None? || IsBool(s[2])) && (IsNothing(s[3]) || IsStr(s[3]))
          && (IsNothing(s[4]) || IsStr(s[4]))
      then NewProvenance(Provenance(AsStr(s[0], ""), AsStr(s[1], ""), AsBool(s[2], false), AsStrOpt(s[3]),
                                    AsStrOpt(s[4])))
      else Err(ValueError)
  }

  function DecodeLineage(v: Json): Result<Lineage> {
    if !Readable(v, LINEAGE_KEYS) then Err(ValueError)
    else
      var s := Slots(v, LINEAGE_KEYS);
      if (IsNothing(s[0]) || IsUuidText(s[0])) && IsUuidText(s[1]) && (s[2].None? || IsNum(s[2]))
      then NewLineage(Lineage(AsUuidOpt(s[0]), s[1].value.s, AsNum(s[2], 0))) else Err(ValueError)
  }

  predicate AttachmentTyped(s: seq<Slot>)
    requires |s| == 6
  {
    && (s[0].None? || IsUuidText(s[0])) && IsStr(s[1]) && IsStr(s[2]) && IsDigestText(s[3])
    && (s[4].None? || IsBool(s[4])) && IsNum(s[5])
  }

  function AttachmentOf(fill: Fill, s: seq<Slot>): Attachment
    requires |s| == 6
  {
    Attachment(AsUuid(s[0], fill.id), AsStr(s[1], ""), AsStr(s[2], ""), AsDigest(s[3]), AsBool(s[4], true),
               AsNum(s[5], 0))
  }

  function DecodeAttachment(fill: Fill, v: Json): Result<Attachment> {
    if Readable(v, ATTACHMENT_KEYS) && AttachmentTyped(Slots(v, ATTACHMENT_KEYS))
    then NewAttachment(AttachmentOf(fill, Slots(v, ATTACHMENT_KEYS))) else Err(ValueError)
  }

  predicate LinkTyped(p: Platform, s: seq<Slot>)
    requires |s| == 7
  {
    && IsStr(s[0]) && IsStr(s[1]) && IsStrs(s[2]) && (s[3].None? || IsTimeText(p, s[3]))
    && (IsNothing(s[4]) || IsTimeText(p, s[4])) && (IsNothing(s[5]) || IsObj(s[5])) && (IsNothing(s[6]) || IsStr(s[6]))
  }

  function LinkOf(p: Platform, fill: Fill, s: seq<Slot>): Link
    requires |s| == 7
  {
    Link(AsStr(s[0], ""), AsStr(s[1], ""), AsStrs(s[2]), AsTime(p, s[3], fill.now), AsTimeOpt(p, s[4]), AsDictOpt(s[5]),
         AsStrOpt(s[6]))
  }

  function DecodeLink(p: Platform, fill: Fill, v: Json): Result<Link> {
    if Readable(v, LINK_KEYS) && LinkTyped(p, Slots(v, LINK_KEYS))
    then NewLink(LinkOf(p, fill, Slots(v, LINK_KEYS))) else Err(ValueError)
  }

  predicate HopTyped(p: Platform, s: seq<Slot>)
    requires |s| == 19
  {
    && (s[0].None? || IsUuidText(s[0])) && IsUuidText(s[1]) && IsStr(s[2]) && IsStr(s[3]) && IsStr(s[4]) && IsStr(s[5])
    && (s[6].None? || IsTimeText(p, s[6])) && (IsNothing(s[7]) || IsNum(s[7])) && (IsNothing(s[8]) || IsStr(s[8]))
    && (IsNothing(s[9]) || IsNum(s[9])) && (IsNothing(s[10]) || IsNum(s[10])) && (IsNothing(s[11]) || IsNum(s[11]))
    && (IsNothing(s[12]) || IsStr(s[12])) && (IsNothing(s[13]) || IsStr(s[13]))
    && (IsNothing(s[14]) || IsDigestText(s[14])) && IsDigestText(s[15])
    && (IsNothing(s[16]) || IsStr(s[16])) && (IsNothing(s[17]) || IsStr(s[17])) && (IsNothing(s[18]) || IsStr(s[18]))
  }

  function HopOf(p: Platform, fill: Fill, s: seq<Slot>): Hop
    requires |s| == 19 && IsUuidText(s[1])
  {
    Hop(AsUuid(s[0], fill.id), s[1].value.s, AsStr(s[2], ""), AsStr(s[3], ""), AsStr(s[4], ""), AsStr(s[5], ""),
        AsTime(p, s[6], fill.now), AsNumOpt(s[7]), AsStrOpt(s[8]), AsNumOpt(s[9]), AsNumOpt(s[10]), AsNumOpt(s[11]),
        AsStrOpt(s[12]), AsStrOpt(s[13]), AsDigestOpt(s[14]), AsDigest(s[15]), AsStrOpt(s[16]), AsStrOpt(s[17]),
        AsStrOpt(s[18]))
  }

  function DecodeHop(p: Platform, fill: Fill, v: Json): Result<Hop> {
    if Readable(v, HOP_KEYS) && HopTyped(p, Slots(v, HOP_KEYS))
    then NewHop(HopOf(p, fill, Slots(v, HOP_KEYS))) else Err(ValueError)
  }

  function DecodeAll<T>(decode: Json -> Result<T>, items: seq<Json>): Result<seq<T>> {
    if items == [] then Ok([])
    else
      var first :- decode(items[0]);
      var rest :- DecodeAll(decode, items[1..]);
      Ok([first] + rest)
  }

  predicate PacketTyped(s: seq<Slot>)
    requires |s| == 11
  {
    && s[0].Some? && s[1].Some? && s[2].Some? && IsObj(s[3]) && s[4].Some? && s[5].Some? && s[6].Some?
    && (s[7].None? || IsArr(s[7])) && (s[8].None? || IsArr(s[8])) && s[9].Some? && (s[10].None? || IsArr(s[10]))
  }

  function DecodeSections(p: Platform, fill: Fill, s: seq<Slot>): Result<Packet>
    requires |s| == 11 && PacketTyped(s)
  {
    var header :- DecodeHeader(p, fill, s[0].value);
    var address :- DecodeAddress(s[1].value);
    var tenant :- DecodeTenant(s[2].value);
    var security :- DecodeSecurity(s[4].value);
    var governance :- DecodeGovernance(s[5].value);
    var provenance :- DecodeProvenance(s[6].value);
    var links :- DecodeAll(v => DecodeLink(p, fill, v), AsItems(s[7]));
    var hops :- DecodeAll(v => DecodeHop(p, fill, v), AsItems(s[8]));
    var lineage :- DecodeLineage(s[9].value);
    var attachments :- DecodeAll(v => DecodeAttachment(fill, v), AsItems(s[10]));
    Ok(Packet(header, address, tenant, s[3].value.fields, security, governance, provenance, links, hops, lineage,
              attachments))
  }

  // decode_transport_packet
  function Decode(p: Platform, fill: Fill, v: Json): Result<Packet> {
    if !Readable(v, PACKET_KEYS) || !PacketTyped(Slots(v, PACKET_KEYS)) then Err(ValueError)
    else
      var sections :- DecodeSections(p, fill, Slots(v, PACKET_KEYS));
      NewPacket(p, sections)
  }
}
