// decode(encode(p)) == p, and exactly when.
module RoundTrip {
  import opened Wrappers
  import opened Strings
  import opened Json
  import opened Canonical
  import opened Models
  import opened Platforms
  import opened Hashing
  import opened Packets
  import opened Codec

  // ---------------------------------------------------------------------
  // Reading back what was dumped
  // ---------------------------------------------------------------------

  // The slot a dumped value is read from: a null was dropped.
  function SlotOf(v: Json): Slot {
    if v.Null? then None else Some(v)
  }

  function SlotsOf(vs: seq<Json>): seq<Slot> {
    seq(|vs|, i requires 0 <= i < |vs| => SlotOf(vs[i]))
  }

  lemma {:induction false} ReadAbsent(fs: seq<Field>, key: string)
    requires forall i :: 0 <= i < |fs| ==> fs[i].key != key
    ensures Read(Present(fs), key) == None
  {
    if fs != [] {
      ReadAbsent(fs[1..], key);
      PresentStep(fs);
    }
  }

  lemma {:induction false} PresentStep(fs: seq<Field>)
    requires fs != []
    ensures fs[0].val.Null? ==> Present(fs) == Present(fs[1..])
    ensures !fs[0].val.Null? ==> Present(fs) != [] && Present(fs)[0] == fs[0] && Present(fs)[1..] == Present(fs[1..])
  {
  }

  lemma {:induction false} ReadPresent(fs: seq<Field>, i: nat)
    requires DistinctKeys(fs) && i < |fs|
    ensures Read(Present(fs), fs[i].key) == SlotOf(fs[i].val)
  {
    PresentStep(fs);
    if i == 0 {
      ReadAbsent(fs[1..], fs[0].key);
    } else {
      ReadPresent(fs[1..], i - 1);
    }
  }

  lemma {:induction false} PresentKeys(fs: seq<Field>, ks: seq<string>)
    requires forall i :: 0 <= i < |fs| ==> fs[i].key in ks
    ensures KnownKeys(Present(fs), ks)
  {
    if fs != [] {
      PresentKeys(fs[1..], ks);
    }
  }

  lemma DumpReads(ks: seq<string>, vs: seq<Json>)
    requires |ks| == |vs| && Distinct(ks)
    ensures Readable(Dump(ks, vs), ks) && Slots(Dump(ks, vs), ks) == SlotsOf(vs)
  {
    var fs := Record(ks, vs);
    PresentKeys(fs, ks);
    forall i | 0 <= i < |ks| ensures Slots(Dump(ks, vs), ks)[i] == SlotsOf(vs)[i] {
      ReadPresent(fs, i);
    }
  }

  lemma DigestNormal(d: Digest)
    ensures Norm(d) == d
  {
    StripTrims(d, IsSpace);
    assert Lower(d) == d;
  }

  lemma StrsRead(ss: seq<string>)
    ensures var s := SlotOf(Arr(Strs(ss))); IsStrs(s) && AsStrs(s) == ss
  {
  }

  lemma StrBack(x: string)
    ensures IsStr(SlotOf(Str(x))) && forall d :: AsStr(SlotOf(Str(x)), d) == x
  {
  }

  lemma NumBack(n: int)
    ensures IsNum(SlotOf(Num(n))) && forall d :: AsNum(SlotOf(Num(n)), d) == n
  {
  }

  lemma BoolBack(b: bool)
    ensures IsBool(SlotOf(Bool(b))) && forall d :: AsBool(SlotOf(Bool(b)), d) == b
  {
  }

  lemma StrOptBack(x: Option<string>)
    ensures var s := SlotOf(StrOpt(x)); (IsNothing(s) || IsStr(s)) && AsStrOpt(s) == x
  {
  }

  lemma NumOptBack(n: Option<int>)
    ensures var s := SlotOf(NumOpt(n)); (IsNothing(s) || IsNum(s)) && AsNumOpt(s) == n
  {
  }

  lemma UuidBack(u: Uuid)
    ensures var s := SlotOf(Str(u)); IsUuidText(s) && s.value.s == u && forall d :: AsUuid(s, d) == u
  {
  }

  lemma UuidOptBack(u: Option<Uuid>)
    ensures var s := SlotOf(StrOpt(u)); (IsNothing(s) || IsUuidText(s)) && AsUuidOpt(s) == u
  {
  }

  lemma DigestBack(d: Digest)
    ensures var s := SlotOf(Str(d)); IsDigestText(s) && AsDigest(s) == d
  {
    DigestNormal(d);
  }

  lemma DigestOptBack(d: Option<Digest>)
    ensures var s := SlotOf(StrOpt(d)); (IsNothing(s) || IsDigestText(s)) && AsDigestOpt(s) == d
  {
    if d.Some? { DigestNormal(d.value); }
  }

  lemma TimeBack(p: Platform, t: Time)
    requires Lawful(p)
    ensures var s := SlotOf(TimeJson(p.wireTime, t)); IsTimeText(p, s) && forall d :: AsTime(p, s, d) == t
  {
  }

  lemma TimeOptBack(p: Platform, t: Option<Time>)
    requires Lawful(p)
    ensures var s := SlotOf(TimeOpt(p.wireTime, t)); (IsNothing(s) || IsTimeText(p, s)) && AsTimeOpt(p, s) == t
  {
    if t.Some? { TimeBack(p, t.value); }
  }

  // ---------------------------------------------------------------------
  // Each model reads back, and what is read is normal
  // ---------------------------------------------------------------------

  lemma HeaderFromSlots(p: Platform, fill: Fill, s: seq<Slot>, h: Header)
    requires Lawful(p) && |s| == 15
    requires s[0] == SlotOf(Str(h.packetId))
    requires s[1] == SlotOf(Str(h.packetType))
    requires s[2] == SlotOf(Str(h.action))
    requires s[3] == SlotOf(Num(h.priority))
    requires s[4] == SlotOf(TimeJson(p.wireTime, h.createdAt))
    requires s[5] == SlotOf(TimeOpt(p.wireTime, h.expiresAt))
    requires s[6] == SlotOf(Num(h.timeoutMs))
    requires s[7] == SlotOf(Str(h.schemaVersion))
    requires s[8] == SlotOf(StrOpt(h.idempotencyKey))
    requires s[9] == SlotOf(StrOpt(h.traceId))
    requires s[10] == SlotOf(StrOpt(h.correlationId))
    requires s[11] == SlotOf(StrOpt(h.causationId))
    requires s[12] == SlotOf(Num(h.retryCount))
    requires s[13] == SlotOf(Bool(h.replayMode))
    requires s[14] == SlotOf(TimeOpt(p.wireTime, h.notBefore))
    ensures HeaderTyped(p, s) && HeaderOf(p, fill, s) == h
  {
    hide IsStr, IsNum, IsBool, IsNothing, IsUuidText, IsDigestText, IsTimeText, AsStr, AsNum, AsBool, AsStrOpt,
         AsNumOpt,
         AsUuid, AsUuidOpt, AsDigest, AsDigestOpt, AsTime, AsTimeOpt, StrOpt, NumOpt, TimeJson, TimeOpt, SlotOf;
    UuidBack(h.packetId);
    StrBack(h.packetType);
    StrBack(h.action);
    NumBack(h.priority);
    TimeBack(p, h.createdAt);
    TimeOptBack(p, h.expiresAt);
    NumBack(h.timeoutMs);
    StrBack(h.schemaVersion);
    StrOptBack(h.idempotencyKey);
    StrOptBack(h.traceId);
    StrOptBack(h.correlationId);
    UuidOptBack(h.causationId);
    NumBack(h.retryCount);
    BoolBack(h.replayMode);
    TimeOptBack(p, h.notBefore);
  }

  lemma HeaderSlots(p: Platform, fill: Fill, h: Header)
    requires Lawful(p)
    ensures var s := SlotsOf(HeaderValues(p.wireTime, h)); HeaderTyped(p, s) && HeaderOf(p, fill, s) == h
  {
    hide HeaderTyped, HeaderOf, SlotOf, StrOpt, TimeJson, TimeOpt;
    HeaderFromSlots(p, fill, SlotsOf(HeaderValues(p.wireTime, h)), h);
  }

  lemma HeaderBack(p: Platform, fill: Fill, h: Header)
    requires Lawful(p)
    ensures DecodeHeader(p, fill, Dump(HEADER_KEYS, HeaderValues(p.wireTime, h))) == NewHeader(h)
  {
    hide Dump, HeaderTyped, HeaderOf, NewHeader, Slots, SlotsOf, Readable, HeaderValues;
    DumpReads(HEADER_KEYS, HeaderValues(p.wireTime, h));
    HeaderSlots(p, fill, h);
  }

  lemma AddressBack(a: Address)
    ensures DecodeAddress(Dump(ADDRESS_KEYS, AddressValues(a))) == NewAddress(a)
  {
    hide Dump, NewAddress, Slots, Readable;
    DumpReads(ADDRESS_KEYS, AddressValues(a));
  }

  lemma TenantBack(t: Tenant)
    ensures DecodeTenant(Dump(TENANT_KEYS, TenantValues(t))) == NewTenant(t)
  {
    hide Dump, NewTenant, Slots, Readable;
    DumpReads(TENANT_KEYS, TenantValues(t));
  }

  lemma SecuritySlots(sec: Security)
    ensures var s := SlotsOf(SecurityValues(sec)); SecurityTyped(s) && SecurityOf(s) == sec
  {
    DigestNormal(sec.payloadHash);
    DigestNormal(sec.transportHash);
    StrsRead(sec.piiFields);
  }

  lemma SecurityBack(sec: Security)
    ensures DecodeSecurity(Dump(SECURITY_KEYS, SecurityValues(sec))) == NewSecurity(sec)
  {
    hide Dump, SecurityTyped, SecurityOf, NewSecurity, Slots, SlotsOf, Readable, SecurityValues;
    DumpReads(SECURITY_KEYS, SecurityValues(sec));
    SecuritySlots(sec);
  }

  lemma GovernanceSlots(g: Governance)
    ensures var s := SlotsOf(GovernanceValues(g)); GovernanceTyped(s) && GovernanceOf(s) == g
  {
    StrsRead(g.complianceTags);
  }

  lemma GovernanceBack(g: Governance)
    ensures DecodeGovernance(Dump(GOVERNANCE_KEYS, GovernanceValues(g))) == NewGovernance(g)
  {
    hide Dump, GovernanceTyped, GovernanceOf, NewGovernance, Slots, SlotsOf, Readable, GovernanceValues;
    DumpReads(GOVERNANCE_KEYS, GovernanceValues(g));
    GovernanceSlots(g);
  }

  lemma ProvenanceBack(v: Provenance)
    ensures DecodeProvenance(Dump(PROVENANCE_KEYS, ProvenanceValues(v))) == NewProvenance(v)
  {
    hide Dump, NewProvenance, Slots, Readable;
    DumpReads(PROVENANCE_KEYS, ProvenanceValues(v));
  }

  lemma LineageBack(l: Lineage)
    ensures DecodeLineage(Dump(LINEAGE_KEYS, LineageValues(l))) == NewLineage(l)
  {
    hide Dump, NewLineage, Slots, Readable;
    DumpReads(LINEAGE_KEYS, LineageValues(l));
  }

  lemma AttachmentSlots(fill: Fill, a: Attachment)
    ensures var s := SlotsOf(AttachmentValues(a)); AttachmentTyped(s) && AttachmentOf(fill, s) == a
  {
    DigestNormal(a.contentHash);
  }

  lemma AttachmentBack(fill: Fill, a: Attachment)
    ensures DecodeAttachment(fill, EncodeAttachment(a)) == NewAttachment(a)
  {
    hide Dump, AttachmentTyped, AttachmentOf, NewAttachment, Slots, SlotsOf, Readable, AttachmentValues;
    DumpReads(ATTACHMENT_KEYS, AttachmentValues(a));
    AttachmentSlots(fill, a);
  }

  lemma LinkSlots(p: Platform, fill: Fill, l: Link)
    requires Lawful(p)
    ensures var s := SlotsOf(LinkValues(p.wireTime, l)); LinkTyped(p, s) && LinkOf(p, fill, s) == l
  {
    StrsRead(l.scope);
  }

  lemma LinkBack(p: Platform, fill: Fill, l: Link)
    requires Lawful(p)
    ensures DecodeLink(p, fill, EncodeLink(p, l)) == NewLink(l)
  {
    hide Dump, LinkTyped, LinkOf, NewLink, Slots, SlotsOf, Readable, LinkValues;
    DumpReads(LINK_KEYS, LinkValues(p.wireTime, l));
    LinkSlots(p, fill, l);
  }

  lemma HopFromSlots(p: Platform, fill: Fill, s: seq<Slot>, h: Hop)
    requires Lawful(p) && |s| == 19
    requires s[0] == SlotOf(Str(h.hopId))
    requires s[1] == SlotOf(Str(h.packetId))
    requires s[2] == SlotOf(Str(h.node))
    requires s[3] == SlotOf(Str(h.action))
    requires s[4] == SlotOf(Str(h.direction))
    requires s[5] == SlotOf(Str(h.status))
    requires s[6] == SlotOf(TimeJson(p.wireTime, h.timestamp))
    requires s[7] == SlotOf(NumOpt(h.attempt))
    requires s[8] == SlotOf(StrOpt(h.targetNode))
    requires s[9] == SlotOf(NumOpt(h.durationMs))
    requires s[10] == SlotOf(NumOpt(h.queueMs))
    requires s[11] == SlotOf(NumOpt(h.networkMs))
    requires s[12] == SlotOf(StrOpt(h.errorCode))
    requires s[13] == SlotOf(StrOpt(h.errorMessage))
    requires s[14] == SlotOf(StrOpt(h.previousHopHash))
    requires s[15] == SlotOf(Str(h.hopHash))
    requires s[16] == SlotOf(StrOpt(h.hopSignature))
    requires s[17] == SlotOf(StrOpt(h.hopSignatureAlgorithm))
    requires s[18] == SlotOf(StrOpt(h.hopSigningKeyId))
    ensures HopTyped(p, s) && HopOf(p, fill, s) == h
  {
    hide IsStr, IsNum, IsBool, IsNothing, IsUuidText, IsDigestText, IsTimeText, AsStr, AsNum, AsBool, AsStrOpt,
         AsNumOpt,
         AsUuid, AsUuidOpt, AsDigest, AsDigestOpt, AsTime, AsTimeOpt, StrOpt, NumOpt, TimeJson, TimeOpt, SlotOf;
    UuidBack(h.hopId);
    UuidBack(h.packetId);
    StrBack(h.node);
    StrBack(h.action);
    StrBack(h.direction);
    StrBack(h.status);
    TimeBack(p, h.timestamp);
    NumOptBack(h.attempt);
    StrOptBack(h.targetNode);
    NumOptBack(h.durationMs);
    NumOptBack(h.queueMs);
    NumOptBack(h.networkMs);
    StrOptBack(h.errorCode);
    StrOptBack(h.errorMessage);
    DigestOptBack(h.previousHopHash);
    DigestBack(h.hopHash);
    StrOptBack(h.hopSignature);
    StrOptBack(h.hopSignatureAlgorithm);
    StrOptBack(h.hopSigningKeyId);
  }

  lemma HopSlots(p: Platform, fill: Fill, h: Hop)
    requires Lawful(p)
    ensures var s := SlotsOf(HopValues(p.wireTime, h)); HopTyped(p, s) && HopOf(p, fill, s) == h
  {
    hide HopTyped, HopOf, SlotOf, StrOpt, NumOpt, TimeJson;
    HopFromSlots(p, fill, SlotsOf(HopValues(p.wireTime, h)), h);
  }

  // Keys told apart by their length and first letter.
  lemma MarkedKeysDistinct(ks: seq<string>, lengths: seq<nat>, heads: string)
    requires |ks| == |lengths| == |heads|
    requires forall i :: 0 <= i < |ks| ==> |ks[i]| == lengths[i] > 0 && ks[i][0] == heads[i]
    requires forall i, j :: 0 <= i < j < |ks| ==> lengths[i] != lengths[j] || heads[i] != heads[j]
    ensures Distinct(ks)
  {
    forall i, j | 0 <= i < j < |ks| ensures ks[i] != ks[j] {
      assert lengths[i] != lengths[j] || heads[i] != heads[j];
    }
  }

  lemma HopKeyMarks(ks: seq<string>, lengths: seq<nat>, heads: string)
    requires ks == HOP_KEYS && heads == "hpnadstatdqneephhhh"
    requires lengths == [6, 9, 4, 6, 9, 6, 9, 7, 11, 11, 8, 10, 10, 13, 17, 8, 13, 23, 18]
    ensures |ks| == |lengths| == |heads|
    ensures forall i :: 0 <= i < |ks| ==> |ks[i]| == lengths[i] > 0 && ks[i][0] == heads[i]
  {
    assert |ks| == |lengths| == |heads| == 19;
    forall i | 0 <= i < 19 ensures |ks[i]| == lengths[i] > 0 && ks[i][0] == heads[i] {
    }
  }

  lemma HopMarksDiffer(lengths: seq<nat>, heads: string)
    requires heads == "hpnadstatdqneephhhh"
    requires lengths == [6, 9, 4, 6, 9, 6, 9, 7, 11, 11, 8, 10, 10, 13, 17, 8, 13, 23, 18]
    ensures |lengths| == |heads|
    ensures forall i, j :: 0 <= i < j < |lengths| ==> lengths[i] != lengths[j] || heads[i] != heads[j]
  {
    assert |lengths| == |heads| == 19;
  }

  lemma HopKeysDistinct()
    ensures Distinct(HOP_KEYS)
  {
    hide Distinct;
    var lengths := [6, 9, 4, 6, 9, 6, 9, 7, 11, 11, 8, 10, 10, 13, 17, 8, 13, 23, 18];
    var heads := "hpnadstatdqneephhhh";
    HopKeyMarks(HOP_KEYS, lengths, heads);
    HopMarksDiffer(lengths, heads);
    MarkedKeysDistinct(HOP_KEYS, lengths, heads);
  }

  lemma HopBack(p: Platform, fill: Fill, h: Hop)
    requires Lawful(p)
    ensures DecodeHop(p, fill, EncodeHop(p, h)) == NewHop(h)
  {
    hide Dump, HopTyped, HopOf, NewHop, Slots, SlotsOf, Readable, HopValues;
    HopKeysDistinct();
    DumpReads(HOP_KEYS, HopValues(p.wireTime, h));
    HopSlots(p, fill, h);
  }

  // ---------------------------------------------------------------------
  // Lists and the packet
  // ---------------------------------------------------------------------

  lemma {:induction false} DecodeAllBack<T>(decode: Json -> Result<T>, items: seq<Json>, ts: seq<T>)
    requires |items| == |ts| && forall i :: 0 <= i < |ts| ==> decode(items[i]) == Ok(ts[i])
    ensures DecodeAll(decode, items) == Ok(ts)
  {
    if items != [] {
      DecodeAllBack(decode, items[1..], ts[1..]);
      assert ts == [ts[0]] + ts[1..];
    }
  }

  lemma {:induction false} DecodeAllEach<T>(decode: Json -> Result<T>, items: seq<Json>)
    requires DecodeAll(decode, items).Ok?
    ensures var ts := DecodeAll(decode, items).value;
            |ts| == |items| && forall i :: 0 <= i < |ts| ==> decode(items[i]) == Ok(ts[i])
  {
    if items != [] {
      DecodeAllEach(decode, items[1..]);
    }
  }

  lemma LinksBack(p: Platform, fill: Fill, ls: seq<Link>)
    requires Lawful(p) && forall i :: 0 <= i < |ls| ==> LinkNormal(ls[i])
    ensures DecodeAll(v => DecodeLink(p, fill, v), EncodeAll(l => EncodeLink(p, l), ls)) == Ok(ls)
  {
    hide EncodeLink, DecodeLink, NormLink, LinkOk;
    var items := EncodeAll(l => EncodeLink(p, l), ls);
    forall i | 0 <= i < |ls| ensures DecodeLink(p, fill, items[i]) == Ok(ls[i]) {
      LinkBack(p, fill, ls[i]);
    }
    DecodeAllBack(v => DecodeLink(p, fill, v), items, ls);
  }

  lemma HopsBack(p: Platform, fill: Fill, hs: seq<Hop>)
    requires Lawful(p) && forall i :: 0 <= i < |hs| ==> HopNormal(hs[i])
    ensures DecodeAll(v => DecodeHop(p, fill, v), EncodeAll(h => EncodeHop(p, h), hs)) == Ok(hs)
  {
    hide EncodeHop, DecodeHop, NormHop, HopOk;
    var items := EncodeAll(h => EncodeHop(p, h), hs);
    forall i | 0 <= i < |hs| ensures DecodeHop(p, fill, items[i]) == Ok(hs[i]) {
      HopBack(p, fill, hs[i]);
    }
    DecodeAllBack(v => DecodeHop(p, fill, v), items, hs);
  }

  lemma AttachmentsBack(fill: Fill, ts: seq<Attachment>)
    requires forall i :: 0 <= i < |ts| ==> AttachmentNormal(ts[i])
    ensures DecodeAll(v => DecodeAttachment(fill, v), EncodeAll(EncodeAttachment, ts)) == Ok(ts)
  {
    hide EncodeAttachment, DecodeAttachment, NormAttachment, AttachmentOk;
    var items := EncodeAll(EncodeAttachment, ts);
    forall i | 0 <= i < |ts| ensures DecodeAttachment(fill, items[i]) == Ok(ts[i]) {
      AttachmentBack(fill, ts[i]);
    }
    DecodeAllBack(v => DecodeAttachment(fill, v), items, ts);
  }

  // The slots of an encoded packet.
  ghost predicate EncodedSlots(p: Platform, k: Packet, s: seq<Slot>) {
    && |s| == 11
    && s[0] == Some(Dump(HEADER_KEYS, HeaderValues(p.wireTime, k.header)))
    && s[1] == Some(Dump(ADDRESS_KEYS, AddressValues(k.address)))
    && s[2] == Some(Dump(TENANT_KEYS, TenantValues(k.tenant)))
    && s[3] == Some(Obj(k.payload))
    && s[4] == Some(Dump(SECURITY_KEYS, SecurityValues(k.security)))
    && s[5] == Some(Dump(GOVERNANCE_KEYS, GovernanceValues(k.governance)))
    && s[6] == Some(Dump(PROVENANCE_KEYS, ProvenanceValues(k.provenance)))
    && s[7] == Some(Arr(EncodeAll(l => EncodeLink(p, l), k.delegationChain)))
    && s[8] == Some(Arr(EncodeAll(h => EncodeHop(p, h), k.hopTrace)))
    && s[9] == Some(Dump(LINEAGE_KEYS, LineageValues(k.lineage)))
    && s[10] == Some(Arr(EncodeAll(EncodeAttachment, k.attachments)))
  }

  lemma EncodeSlots(p: Platform, k: Packet)
    ensures Readable(Encode(p, k), PACKET_KEYS) && EncodedSlots(p, k, Slots(Encode(p, k), PACKET_KEYS))
  {
    hide Present, Readable, Slots, EncodeAll, HeaderValues, AddressValues, TenantValues, SecurityValues,
         GovernanceValues, ProvenanceValues, LineageValues;
    DumpReads(PACKET_KEYS, PacketValues(p, k));
  }

  lemma SectionsBack(p: Platform, fill: Fill, k: Packet, s: seq<Slot>)
    requires Lawful(p) && SectionsOk(k) && EncodedSlots(p, k, s)
    ensures PacketTyped(s) && DecodeSections(p, fill, s) == Ok(k)
  {
    hide Dump, EncodeAll, DecodeAll, DecodeHeader, DecodeAddress, DecodeTenant, DecodeSecurity, DecodeGovernance,
         DecodeProvenance, DecodeLineage, NormHeader, HeaderOk, NormAddress, AddressOk, NormTenant, TenantOk,
         NormSecurity, SecurityOk, NormGovernance, GovernanceOk, NormProvenance, ProvenanceOk, LinkNormal, HopNormal,
         AttachmentNormal, HeaderValues, AddressValues, TenantValues, SecurityValues, GovernanceValues,
         ProvenanceValues, LineageValues;
    HeaderBack(p, fill, k.header);
    AddressBack(k.address);
    TenantBack(k.tenant);
    SecurityBack(k.security);
    GovernanceBack(k.governance);
    ProvenanceBack(k.provenance);
    LinksBack(p, fill, k.delegationChain);
    HopsBack(p, fill, k.hopTrace);
    LineageBack(k.lineage);
    AttachmentsBack(fill, k.attachments);
  }

  // An encoded packet decodes to itself.
  lemma DecodeEncode(p: Platform, fill: Fill, k: Packet)
    requires Lawful(p) && ValidPacket(p, k)
    ensures Decode(p, fill, Encode(p, k)) == Ok(k)
  {
    hide Encode, DecodeSections, Slots, PacketTyped, SectionsOk, IntegrityOk, EncodedSlots;
    EncodeSlots(p, k);
    SectionsBack(p, fill, k, Slots(Encode(p, k), PACKET_KEYS));
  }

  // Whatever decodes is a valid packet: normal in every section, and intact.
  lemma DecodedSectionsOk(p: Platform, fill: Fill, s: seq<Slot>)
    requires |s| == 11 && PacketTyped(s) && DecodeSections(p, fill, s).Ok?
    ensures SectionsOk(DecodeSections(p, fill, s).value)
  {
    hide AsItems, HeaderTyped, HeaderOf, SecurityTyped, SecurityOf, GovernanceTyped, GovernanceOf, LinkTyped, LinkOf,
         HopTyped, HopOf, AttachmentTyped, AttachmentOf, Readable, Slots, DecodeAll, DecodeHeader, DecodeAddress,
         DecodeTenant, DecodeSecurity, DecodeGovernance, DecodeProvenance, DecodeLineage, DecodeLink, DecodeHop,
         DecodeAttachment, NormHeader, HeaderOk, NormAddress, AddressOk, NormTenant, TenantOk, NormSecurity,
         SecurityOk, NormGovernance, GovernanceOk, NormProvenance, ProvenanceOk, LinkNormal, HopNormal,
         AttachmentNormal;
    HeaderDecodesNormal(p, fill, s[0].value);
    AddressDecodesNormal(s[1].value);
    TenantDecodesNormal(s[2].value);
    SecurityDecodesNormal(s[4].value);
    GovernanceDecodesNormal(s[5].value);
    ProvenanceDecodesNormal(s[6].value);
    LinksDecodeNormal(p, fill, AsItems(s[7]));
    HopsDecodeNormal(p, fill, AsItems(s[8]));
    LineageDecodesNormal(s[9].value);
    AttachmentsDecodeNormal(fill, AsItems(s[10]));
  }

  lemma HeaderDecodesNormal(p: Platform, fill: Fill, v: Json)
    ensures var r := DecodeHeader(p, fill, v); r.Ok? ==> NormHeader(r.value) == r.value && HeaderOk(r.value)
  {
    hide HeaderTyped, HeaderOf, Slots, HeaderOk, NormHeader;
    if DecodeHeader(p, fill, v).Ok? { NormHeaderIdempotent(HeaderOf(p, fill, Slots(v, HEADER_KEYS))); }
  }

  lemma AddressDecodesNormal(v: Json)
    ensures var r := DecodeAddress(v); r.Ok? ==> NormAddress(r.value) == r.value && AddressOk(r.value)
  {
    hide Slots, IsStr, AsStr, AddressOk;
    if DecodeAddress(v).Ok? {
      var s := Slots(v, ADDRESS_KEYS);
      NormAddressIdempotent(Address(AsStr(s[0], ""), AsStr(s[1], ""), AsStr(s[2], "")));
    }
  }

  lemma TenantDecodesNormal(v: Json)
    ensures var r := DecodeTenant(v); r.Ok? ==> NormTenant(r.value) == r.value && TenantOk(r.value)
  {
    hide Slots, IsStr, IsNothing, AsStr, AsStrOpt, TenantOk;
    if DecodeTenant(v).Ok? {
      var s := Slots(v, TENANT_KEYS);
      NormTenantIdempotent(Tenant(AsStr(s[0], ""), AsStr(s[1], ""), AsStr(s[2], ""), AsStr(s[3], ""), AsStrOpt(s[4])));
    }
  }

  lemma SecurityDecodesNormal(v: Json)
    ensures var r := DecodeSecurity(v); r.Ok? ==> NormSecurity(r.value) == r.value && SecurityOk(r.value)
  {
    hide SecurityTyped, SecurityOf, Slots, SecurityOk, NormSecurity;
    if DecodeSecurity(v).Ok? { NormSecurityIdempotent(SecurityOf(Slots(v, SECURITY_KEYS))); }
  }

  lemma GovernanceDecodesNormal(v: Json)
    ensures var r := DecodeGovernance(v); r.Ok? ==> NormGovernance(r.value) == r.value && GovernanceOk(r.value)
  {
    hide GovernanceTyped, GovernanceOf, Slots, GovernanceOk, NormGovernance;
    if DecodeGovernance(v).Ok? { NormGovernanceIdempotent(GovernanceOf(Slots(v, GOVERNANCE_KEYS))); }
  }

  lemma ProvenanceDecodesNormal(v: Json)
    ensures var r := DecodeProvenance(v); r.Ok? ==> NormProvenance(r.value) == r.value && ProvenanceOk(r.value)
  {
    hide Slots, IsStr, IsBool, IsNothing, AsStr, AsBool, AsStrOpt, ProvenanceOk, NormProvenance;
    if DecodeProvenance(v).Ok? {
      var s := Slots(v, PROVENANCE_KEYS);
      NormProvenanceIdempotent(Provenance(AsStr(s[0], ""), AsStr(s[1], ""), AsBool(s[2], false), AsStrOpt(s[3]),
                                          AsStrOpt(s[4])));
    }
  }

  lemma LineageDecodesNormal(v: Json)
    ensures var r := DecodeLineage(v); r.Ok? ==> r.value.generation >= 0
  {
    hide Slots;
  }

  lemma LinksDecodeNormal(p: Platform, fill: Fill, items: seq<Json>)
    ensures var r := DecodeAll(v => DecodeLink(p, fill, v), items);
            r.Ok? ==> forall i :: 0 <= i < |r.value| ==> LinkNormal(r.value[i])
  {
    hide LinkTyped, LinkOf, Slots, LinkOk, NormLink, DecodeAll;
    var decode := v => DecodeLink(p, fill, v);
    if DecodeAll(decode, items).Ok? {
      DecodeAllEach(decode, items);
      var ls := DecodeAll(decode, items).value;
      forall i | 0 <= i < |ls| ensures LinkNormal(ls[i]) {
        assert DecodeLink(p, fill, items[i]) == Ok(ls[i]);
        NormLinkIdempotent(LinkOf(p, fill, Slots(items[i], LINK_KEYS)));
      }
    }
  }

  lemma HopsDecodeNormal(p: Platform, fill: Fill, items: seq<Json>)
    ensures var r := DecodeAll(v => DecodeHop(p, fill, v), items);
            r.Ok? ==> forall i :: 0 <= i < |r.value| ==> HopNormal(r.value[i])
  {
    hide HopTyped, HopOf, Slots, HopOk, NormHop, DecodeAll;
    var decode := v => DecodeHop(p, fill, v);
    if DecodeAll(decode, items).Ok? {
      DecodeAllEach(decode, items);
      var hs := DecodeAll(decode, items).value;
      forall i | 0 <= i < |hs| ensures HopNormal(hs[i]) {
        assert DecodeHop(p, fill, items[i]) == Ok(hs[i]);
        HopDecodesNormal(p, fill, items[i]);
      }
    }
  }

  lemma HopDecodesNormal(p: Platform, fill: Fill, v: Json)
    ensures var r := DecodeHop(p, fill, v); r.Ok? ==> HopNormal(r.value)
  {
    hide Slots, HopOk, NormHop, AsUuid, AsStr, AsTime, AsNumOpt, AsStrOpt, AsDigestOpt, AsDigest;
    if DecodeHop(p, fill, v).Ok? {
      NormHopIdempotent(HopOf(p, fill, Slots(v, HOP_KEYS)));
    }
  }

  lemma AttachmentsDecodeNormal(fill: Fill, items: seq<Json>)
    ensures var r := DecodeAll(v => DecodeAttachment(fill, v), items);
            r.Ok? ==> forall i :: 0 <= i < |r.value| ==> AttachmentNormal(r.value[i])
  {
    hide AttachmentTyped, AttachmentOf, Slots, AttachmentOk, NormAttachment, DecodeAll;
    var decode := v => DecodeAttachment(fill, v);
    if DecodeAll(decode, items).Ok? {
      DecodeAllEach(decode, items);
      var ts := DecodeAll(decode, items).value;
      forall i | 0 <= i < |ts| ensures AttachmentNormal(ts[i]) {
        assert DecodeAttachment(fill, items[i]) == Ok(ts[i]);
        NormAttachmentIdempotent(AttachmentOf(fill, Slots(items[i], ATTACHMENT_KEYS)));
      }
    }
  }

  lemma DecodedIsValid(p: Platform, fill: Fill, v: Json)
    requires Decode(p, fill, v).Ok?
    ensures ValidPacket(p, Decode(p, fill, v).value)
  {
    hide DecodeSections, Slots, PacketTyped, SectionsOk, IntegrityOk;
    DecodedSectionsOk(p, fill, Slots(v, PACKET_KEYS));
  }

  // A packet with a hop that the hop's own validators refuse does not decode.
  lemma BadHopRefused(p: Platform, fill: Fill, k: Packet, i: nat)
    requires Lawful(p) && i < |k.hopTrace| && NewHop(k.hopTrace[i]).Err?
    ensures Decode(p, fill, Encode(p, k)).Err?
  {
    hide Encode, Slots, SectionsOk, IntegrityOk, Dump, EncodeHop, DecodeHop, NewHop, DecodeHeader, DecodeAddress,
         DecodeTenant, DecodeSecurity, DecodeGovernance, DecodeProvenance, DecodeLineage, DecodeAll, EncodeAll;
    EncodeSlots(p, k);
    HopBack(p, fill, k.hopTrace[i]);
    BadHopInList(p, fill, k.hopTrace, i);
  }

  lemma BadHopInList(p: Platform, fill: Fill, hs: seq<Hop>, i: nat)
    requires i < |hs| && DecodeHop(p, fill, EncodeHop(p, hs[i])).Err?
    ensures DecodeAll(v => DecodeHop(p, fill, v), EncodeAll(h => EncodeHop(p, h), hs)).Err?
  {
    hide EncodeHop, DecodeHop;
    var items := EncodeAll(h => EncodeHop(p, h), hs);
    var decode := v => DecodeHop(p, fill, v);
    assert decode(items[i]).Err?;
    if DecodeAll(decode, items).Ok? {
      DecodeAllEach(decode, items);
    }
  }

  // The round trip returns the packet exactly when every section is what its own
  // constructor returns and both hashes are right.
  lemma RoundTripExactly(p: Platform, fill: Fill, k: Packet)
    requires Lawful(p)
    ensures Decode(p, fill, Encode(p, k)) == Ok(k) <==> ValidPacket(p, k)
  {
    hide Decode, Encode, ValidPacket;
    if ValidPacket(p, k) {
      DecodeEncode(p, fill, k);
    } else if Decode(p, fill, Encode(p, k)) == Ok(k) {
      DecodedIsValid(p, fill, Encode(p, k));
    }
  }
}
