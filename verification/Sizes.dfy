// How long the JSON text of a packet can get.
module Sizes {
  import opened Wrappers
  import opened Strings
  import opened Json
  import opened Canonical
  import opened JsonReader
  import opened Models
  import opened Platforms
  import opened Hashing
  import opened Codec
  import opened Validation

  // A bound on the UTF-8 length of a value's text: six bytes for a character.
  function Weight(v: Json): nat
    decreases v, 1
  {
    match v
    case Null => 4
    case Bool(_) => 5
    case Num(n) => |Utf8(Decimal(n))|
    case Str(s) => 2 + 6 * |s|
    case Arr(items) => 1 + ItemsWeight(items)
    case Obj(fields) => 1 + FieldsWeight(fields)
  }

  function ItemsWeight(vs: seq<Json>): nat
    decreases vs, 0
  {
    if vs == [] then 1 else 1 + Weight(vs[0]) + ItemsWeight(vs[1..])
  }

  function FieldsWeight(fs: seq<Field>): nat
    decreases fs, 0
  {
    if fs == [] then 1 else 4 + 6 * |fs[0].key| + Weight(fs[0].val) + FieldsWeight(fs[1..])
  }

  // ---------------------------------------------------------------------
  // The text of a value is no longer than its weight
  // ---------------------------------------------------------------------

  lemma {:induction false} Utf8AtMost(s: string, n: nat)
    requires |s| <= n
    ensures |Utf8(s)| <= 4 * n
    ensures IsAscii(s) ==> |Utf8(s)| == |s|
  {
    if s != "" {
      Utf8AtMost(s[1..], n - 1);
    }
  }

  lemma EscapeLength(c: char)
    ensures |Utf8(EscapeChar(c))| <= 6
  {
    Utf8AtMost(EscapeChar(c), |EscapeChar(c)|);
  }

  lemma {:induction false} WriteStrBound(s: string, k: string)
    ensures |Utf8(WriteStr(s, k))| <= 6 * |s| + 1 + |Utf8(k)|
  {
    hide EscapeChar;
    if s == "" {
      Utf8Concat("\"", k);
      Utf8AtMost("\"", 1);
    } else {
      WriteStrBound(s[1..], k);
      EscapeLength(s[0]);
      Utf8Concat(EscapeChar(s[0]), WriteStr(s[1..], k));
    }
  }

  // One ASCII character in front of a text.
  lemma {:induction false} OneMore(c: string, k: string)
    requires |c| == 1 && c[0] < '\U{80}'
    ensures |Utf8(c + k)| == 1 + |Utf8(k)| && |Utf8("" + k)| == |Utf8(k)|
  {
    Utf8Concat(c, k);
    Utf8AtMost(c, 1);
    assert "" + k == k;
  }

  lemma {:induction false} WordLength(w: string, k: string)
    requires IsAscii(w)
    ensures |Utf8(w + k)| == |w| + |Utf8(k)|
  {
    Utf8Concat(w, k);
    Utf8AtMost(w, |w|);
  }

  lemma {:induction false} WriteBound(v: Json, k: string)
    ensures |Utf8(Write(v, k))| <= Weight(v) + |Utf8(k)|
    decreases v, 2
  {
    match v
    case Null => WordLength("null", k);
    case Bool(b) => WordLength(if b then "true" else "false", k);
    case Num(n) => Utf8Concat(Decimal(n), k);
    case Str(s) =>
      WriteStrBound(s, k);
      OneMore("\"", WriteStr(s, k));
    case Arr(items) =>
      WriteItemsBound(items, true, k);
      OneMore("[", WriteItems(items, true, k));
    case Obj(fields) =>
      WriteFieldsBound(fields, true, k);
      OneMore("{", WriteFields(fields, true, k));
  }

  lemma {:induction false} WriteItemsBound(vs: seq<Json>, first: bool, k: string)
    ensures |Utf8(WriteItems(vs, first, k))| <= ItemsWeight(vs) + |Utf8(k)|
    decreases vs, 1
  {
    if vs == [] {
      OneMore("]", k);
    } else {
      var rest := WriteItems(vs[1..], false, k);
      WriteItemsBound(vs[1..], false, k);
      WriteBound(vs[0], rest);
      OneMore(",", Write(vs[0], rest));
    }
  }

  lemma {:induction false} WriteFieldsBound(fs: seq<Field>, first: bool, k: string)
    ensures |Utf8(WriteFields(fs, first, k))| <= FieldsWeight(fs) + |Utf8(k)|
    decreases fs, 1
  {
    if fs == [] {
      OneMore("}", k);
    } else {
      var rest := WriteFields(fs[1..], false, k);
      var value := Write(fs[0].val, rest);
      WriteFieldsBound(fs[1..], false, k);
      WriteBound(fs[0].val, rest);
      OneMore(":", value);
      WriteStrBound(fs[0].key, ":" + value);
      FieldStart(fs[0].key, ":" + value, first);
    }
  }

  lemma {:induction false} FieldStart(key: string, k: string, first: bool)
    ensures |Utf8((if first then "" else ",") + "\"" + WriteStr(key, k))| <= 2 + |Utf8(WriteStr(key, k))|
  {
    hide WriteStr;
    var comma, text := if first then "" else ",", WriteStr(key, k);
    Utf8Concat(comma + "\"", text);
    assert |comma + "\""| <= 2;
    Utf8AtMost(comma + "\"", 2);
  }

  // ---------------------------------------------------------------------
  // Sorting keys changes no weight
  // ---------------------------------------------------------------------

  lemma {:induction false} InsertWeight(f: Field, fs: seq<Field>)
    ensures FieldsWeight(Insert(f, fs)) == 4 + 6 * |f.key| + Weight(f.val) + FieldsWeight(fs)
  {
    if fs == [] || AtMost(f.key, fs[0].key) {
      assert ([f] + fs)[1..] == fs;
    } else {
      InsertWeight(f, fs[1..]);
      assert ([fs[0]] + Insert(f, fs[1..]))[1..] == Insert(f, fs[1..]);
    }
  }

  lemma {:induction false} CanonicalWeight(v: Json)
    ensures Weight(Canonicalize(v)) == Weight(v)
    decreases v, 1
  {
    match v
    case Arr(items) => CanonItemsWeight(items);
    case Obj(fields) => CanonFieldsWeight(fields);
    case _ =>
  }

  lemma {:induction false} CanonItemsWeight(vs: seq<Json>)
    ensures ItemsWeight(CanonItems(vs)) == ItemsWeight(vs)
    decreases vs, 0
  {
    if vs != [] {
      CanonicalWeight(vs[0]);
      CanonItemsWeight(vs[1..]);
      assert ([Canonicalize(vs[0])] + CanonItems(vs[1..]))[1..] == CanonItems(vs[1..]);
    }
  }

  lemma {:induction false} CanonFieldsWeight(fs: seq<Field>)
    ensures FieldsWeight(CanonFields(fs)) == FieldsWeight(fs)
    decreases fs, 0
  {
    if fs != [] {
      CanonicalWeight(fs[0].val);
      CanonFieldsWeight(fs[1..]);
      InsertWeight(Field(fs[0].key, Canonicalize(fs[0].val)), CanonFields(fs[1..]));
    }
  }

  lemma SizeAtMostWeight(p: Platform, k: Packet)
    ensures PacketSizeBytes(p, k) <= Weight(Encode(p, k))
  {
    hide Encode;
    CanonicalWeight(Encode(p, k));
    WriteBound(Canonicalize(Encode(p, k)), "");
  }

  // ---------------------------------------------------------------------
  // Records with short keys and light values
  // ---------------------------------------------------------------------

  predicate LightFields(fs: seq<Field>, c: nat) {
    forall i :: 0 <= i < |fs| ==> 4 + 6 * |fs[i].key| + Weight(fs[i].val) <= c
  }

  lemma OneMoreTimes(n: nat, c: nat)
    ensures (n + 1) * c == n * c + c
  {
  }

  lemma {:induction false} TimesAtMost(n: nat, m: nat, c: nat)
    requires n <= m
    ensures n * c <= m * c
    decreases m
  {
    if n < m {
      TimesAtMost(n, m - 1, c);
      OneMoreTimes(m - 1, c);
    }
  }

  lemma {:induction false} LightFieldsWeight(fs: seq<Field>, c: nat)
    requires LightFields(fs, c)
    ensures FieldsWeight(fs) <= 1 + |fs| * c
  {
    if fs != [] {
      LightFieldsWeight(fs[1..], c);
      OneMoreTimes(|fs[1..]|, c);
    }
  }

  lemma {:induction false} PresentLight(fs: seq<Field>, c: nat)
    requires LightFields(fs, c)
    ensures LightFields(Present(fs), c) && |Present(fs)| <= |fs|
  {
    hide Weight;
    if fs != [] {
      PresentLight(fs[1..], c);
    }
  }

  predicate ShortKeys(ks: seq<string>) {
    forall i :: 0 <= i < |ks| ==> |ks[i]| <= 24
  }

  predicate LightValues(vs: seq<Json>, w: nat) {
    forall i :: 0 <= i < |vs| ==> Weight(vs[i]) <= w
  }

  lemma DumpWeight(ks: seq<string>, vs: seq<Json>, w: nat)
    requires |ks| == |vs| && ShortKeys(ks) && LightValues(vs, w)
    ensures Weight(Dump(ks, vs)) <= 2 + |ks| * (148 + w)
  {
    hide FieldsWeight, Present;
    var fs := Record(ks, vs);
    assert LightFields(fs, 148 + w);
    PresentLight(fs, 148 + w);
    LightFieldsWeight(Present(fs), 148 + w);
    TimesAtMost(|Present(fs)|, |fs|, 148 + w);
  }

  lemma SmallNumber(n: int)
    requires 0 <= n < 100
    ensures Weight(Num(n)) <= 8
  {
    assert n >= 10 ==> n / 10 < 10;
    assert |Digits(n)| <= 2;
    assert Sign(n) + Digits(n) == Digits(n);
    Utf8AtMost(Decimal(n), 2);
  }

  // ---------------------------------------------------------------------
  // Packets of short texts
  // ---------------------------------------------------------------------

  predicate ShortOpt(s: Option<string>) {
    s.Some? ==> |s.value| <= 64
  }

  predicate ShortTime(p: Platform, t: Option<Time>) {
    t.Some? ==> |p.wireTime(t.value)| <= 64
  }

  predicate SmallOpt(n: Option<int>) {
    n.Some? ==> 0 <= n.value < 100
  }

  lemma LightText(s: string)
    requires |s| <= 64
    ensures Weight(Str(s)) <= 400
  {
  }

  lemma LightOpt(s: Option<string>)
    requires ShortOpt(s)
    ensures Weight(StrOpt(s)) <= 400
  {
  }

  lemma LightNum(n: Option<int>)
    requires SmallOpt(n)
    ensures Weight(NumOpt(n)) <= 400
  {
    hide Weight;
    assert Weight(Null) == 4 by { LightLeaves(true); }
    if n.Some? {
      SmallNumber(n.value);
    }
  }

  lemma LightTime(p: Platform, t: Option<Time>)
    requires ShortTime(p, t)
    ensures Weight(TimeOpt(p.wireTime, t)) <= 400
    ensures t.Some? ==> Weight(TimeJson(p.wireTime, t.value)) <= 400
  {
  }

  lemma LightLeaves(b: bool)
    ensures Weight(Null) == 4 && Weight(Bool(b)) == 5 && Weight(Arr([])) == 2
  {
  }

  predicate ShortHeader(p: Platform, h: Header) {
    && |h.packetType| <= 64 && |h.action| <= 64 && 0 <= h.priority < 100 && ShortTime(p, Some(h.createdAt))
    && ShortTime(p, h.expiresAt) && 0 <= h.timeoutMs < 100 && |h.schemaVersion| <= 64 && ShortOpt(h.idempotencyKey)
    && ShortOpt(h.traceId) && ShortOpt(h.correlationId) && 0 <= h.retryCount < 100 && ShortTime(p, h.notBefore)
  }

  // The lists of light values that the sections are written from.
  lemma HeaderLight(p: Platform, h: Header)
    requires ShortHeader(p, h)
    ensures LightValues(HeaderValues(p.wireTime, h), 400)
  {
    hide Weight, TimeJson, TimeOpt, StrOpt, ShortTime, ShortOpt, IsUuid;
    assert |h.packetId| == 36 && (h.causationId.Some? ==> |h.causationId.value| == 36) by { UuidsAreShort(h); }
    LightText(h.packetId);
    LightText(h.packetType);
    LightText(h.action);
    SmallNumber(h.priority);
    LightTime(p, Some(h.createdAt));
    LightTime(p, h.expiresAt);
    SmallNumber(h.timeoutMs);
    LightText(h.schemaVersion);
    LightOpt(h.idempotencyKey);
    LightOpt(h.traceId);
    LightOpt(h.correlationId);
    assert ShortOpt(h.causationId) by { CausationIsShort(h); }
    LightOpt(h.causationId);
    SmallNumber(h.retryCount);
    LightLeaves(h.replayMode);
    LightTime(p, h.notBefore);
  }

  lemma UuidsAreShort(h: Header)
    ensures |h.packetId| == 36 && (h.causationId.Some? ==> |h.causationId.value| == 36)
  {
  }

  lemma CausationIsShort(h: Header)
    ensures ShortOpt(h.causationId)
  {
  }

  predicate ShortHop(p: Platform, h: Hop) {
    && |h.node| <= 64 && |h.action| <= 64 && |h.direction| <= 64 && |h.status| <= 64 && ShortTime(p, Some(h.timestamp))
    && SmallOpt(h.attempt) && ShortOpt(h.targetNode) && SmallOpt(h.durationMs) && SmallOpt(h.queueMs)
    && SmallOpt(h.networkMs) && ShortOpt(h.errorCode) && ShortOpt(h.errorMessage) && ShortOpt(h.hopSignature)
    && ShortOpt(h.hopSignatureAlgorithm) && ShortOpt(h.hopSigningKeyId)
  }

  lemma HopLight(p: Platform, h: Hop)
    requires ShortHop(p, h)
    ensures LightValues(HopValues(p.wireTime, h), 400)
  {
    hide Weight, TimeJson, StrOpt, NumOpt, ShortTime, ShortOpt, SmallOpt;
    assert |h.hopId| == 36 && |h.packetId| == 36 && |h.hopHash| == 64 && ShortOpt(h.previousHopHash)
        by { IdsAreShort(h); }
    LightText(h.hopId);
    LightText(h.packetId);
    LightText(h.node);
    LightText(h.action);
    LightText(h.direction);
    LightText(h.status);
    LightTime(p, Some(h.timestamp));
    LightNum(h.attempt);
    LightOpt(h.targetNode);
    LightNum(h.durationMs);
    LightNum(h.queueMs);
    LightNum(h.networkMs);
    LightOpt(h.errorCode);
    LightOpt(h.errorMessage);
    LightOpt(h.previousHopHash);
    LightText(h.hopHash);
    LightOpt(h.hopSignature);
    LightOpt(h.hopSignatureAlgorithm);
    LightOpt(h.hopSigningKeyId);
  }

  lemma IdsAreShort(h: Hop)
    ensures |h.hopId| == 36 && |h.packetId| == 36 && |h.hopHash| == 64 && ShortOpt(h.previousHopHash)
  {
  }

  predicate ShortNames(p: Platform, k: Packet) {
    && |k.address.sourceNode| <= 64 && |k.address.destinationNode| <= 64 && |k.address.replyTo| <= 64
    && |k.tenant.actor| <= 64 && |k.tenant.onBehalfOf| <= 64 && |k.tenant.originator| <= 64 && |k.tenant.orgId| <= 64
    && ShortOpt(k.tenant.userId)
    && |k.provenance.originKind| <= 64 && |k.provenance.requestedAction| <= 64 && ShortOpt(k.provenance.routeKind)
    && ShortOpt(k.provenance.originalSourceNode)
  }

  predicate ShortRules(k: Packet) {
    && ShortOpt(k.security.signature) && ShortOpt(k.security.signatureAlgorithm) && ShortOpt(k.security.signingKeyId)
    && |k.security.classification| <= 64 && |k.security.encryptionStatus| <= 64 && k.security.piiFields == []
    && |k.governance.intent| <= 64 && k.governance.complianceTags == [] && 0 <= k.governance.retentionDays < 100
    && ShortOpt(k.governance.dataSubjectId) && 0 <= k.lineage.generation < 100
  }

  lemma NamesLight(p: Platform, k: Packet)
    requires ShortNames(p, k)
    ensures LightValues(AddressValues(k.address), 400) && LightValues(TenantValues(k.tenant), 400)
    ensures LightValues(ProvenanceValues(k.provenance), 400)
  {
    hide Weight, StrOpt, ShortOpt;
    LightText(k.address.sourceNode);
    LightText(k.address.destinationNode);
    LightText(k.address.replyTo);
    LightText(k.tenant.actor);
    LightText(k.tenant.onBehalfOf);
    LightText(k.tenant.originator);
    LightText(k.tenant.orgId);
    LightOpt(k.tenant.userId);
    LightText(k.provenance.originKind);
    LightText(k.provenance.requestedAction);
    LightLeaves(k.provenance.resolvedByGate);
    LightOpt(k.provenance.routeKind);
    LightOpt(k.provenance.originalSourceNode);
  }

  lemma RulesLight(k: Packet)
    requires ShortRules(k)
    ensures LightValues(SecurityValues(k.security), 400) && LightValues(GovernanceValues(k.governance), 400)
    ensures LightValues(LineageValues(k.lineage), 400)
  {
    hide Weight, StrOpt, ShortOpt;
    assert Strs([]) == [];
    HashesAreShort(k);
    LightText(k.security.payloadHash);
    LightText(k.security.transportHash);
    LightOpt(k.security.signature);
    LightOpt(k.security.signatureAlgorithm);
    LightOpt(k.security.signingKeyId);
    LightText(k.security.classification);
    LightText(k.security.encryptionStatus);
    LightLeaves(k.governance.redactionApplied);
    LightLeaves(k.governance.auditRequired);
    LightText(k.governance.intent);
    SmallNumber(k.governance.retentionDays);
    LightOpt(k.governance.dataSubjectId);
    LightOpt(k.lineage.parentId);
    LightText(k.lineage.rootId);
    SmallNumber(k.lineage.generation);
  }

  lemma HashesAreShort(k: Packet)
    ensures |k.security.payloadHash| == 64 && |k.security.transportHash| == 64
    ensures |k.lineage.rootId| == 36 && ShortOpt(k.lineage.parentId)
  {
  }

  lemma KeysAreShort()
    ensures ShortKeys(HEADER_KEYS) && ShortKeys(ADDRESS_KEYS) && ShortKeys(TENANT_KEYS) && ShortKeys(PROVENANCE_KEYS)
  {
  }

  lemma MoreKeysAreShort()
    ensures ShortKeys(SECURITY_KEYS) && ShortKeys(GOVERNANCE_KEYS) && ShortKeys(LINEAGE_KEYS)
    ensures ShortKeys(HOP_KEYS) && ShortKeys(PACKET_KEYS)
  {
  }

  // A packet of short texts, with no payload, links or attachments and at most one hop.
  predicate ShortPacket(p: Platform, k: Packet) {
    && ShortHeader(p, k.header) && ShortNames(p, k) && ShortRules(k)
    && k.payload == [] && k.delegationChain == [] && k.attachments == []
    && |k.hopTrace| <= 1 && (k.hopTrace != [] ==> ShortHop(p, k.hopTrace[0]))
  }

  lemma ShortPacketLight(p: Platform, k: Packet)
    requires ShortPacket(p, k)
    ensures LightValues(PacketValues(p, k), 11_000)
  {
    hide Weight, Dump, ShortHeader, ShortNames, ShortRules, ShortHop, ShortKeys, LightValues, HeaderValues,
         AddressValues, TenantValues, ProvenanceValues, SecurityValues, GovernanceValues, LineageValues, HopValues;
    KeysAreShort();
    MoreKeysAreShort();
    HeaderLight(p, k.header);
    NamesLight(p, k);
    RulesLight(k);
    DumpWeight(HEADER_KEYS, HeaderValues(p.wireTime, k.header), 400);
    DumpWeight(ADDRESS_KEYS, AddressValues(k.address), 400);
    DumpWeight(TENANT_KEYS, TenantValues(k.tenant), 400);
    DumpWeight(SECURITY_KEYS, SecurityValues(k.security), 400);
    DumpWeight(GOVERNANCE_KEYS, GovernanceValues(k.governance), 400);
    DumpWeight(PROVENANCE_KEYS, ProvenanceValues(k.provenance), 400);
    DumpWeight(LINEAGE_KEYS, LineageValues(k.lineage), 400);
    EmptyParts();
    assert Obj(k.payload) == Obj([]);
    assert EncodeAll(l => EncodeLink(p, l), k.delegationChain) == [];
    assert EncodeAll(EncodeAttachment, k.attachments) == [];
    var hops := EncodeAll(h => EncodeHop(p, h), k.hopTrace);
    if k.hopTrace == [] {
      assert hops == [];
    } else {
      HopLight(p, k.hopTrace[0]);
      DumpWeight(HOP_KEYS, HopValues(p.wireTime, k.hopTrace[0]), 400);
      assert hops == [EncodeHop(p, k.hopTrace[0])];
      OneItem(hops[0]);
    }
    ElevenLight(PacketValues(p, k), 11_000);
  }

  lemma EmptyParts()
    ensures Weight(Obj([])) == 2 && Weight(Arr([])) == 2
  {
  }

  lemma {:induction false} OneItem(v: Json)
    ensures Weight(Arr([v])) == 3 + Weight(v)
  {
    var vs := [v];
    assert vs[1..] == [] && ItemsWeight(vs[1..]) == 1;
    assert ItemsWeight(vs) == 2 + Weight(vs[0]);
  }

  lemma ElevenLight(vs: seq<Json>, w: nat)
    requires |vs| == 11
    requires Weight(vs[0]) <= w && Weight(vs[1]) <= w && Weight(vs[2]) <= w && Weight(vs[3]) <= w && Weight(vs[4]) <= w
    requires Weight(vs[5]) <= w && Weight(vs[6]) <= w && Weight(vs[7]) <= w && Weight(vs[8]) <= w && Weight(vs[9]) <= w
    requires Weight(vs[10]) <= w
    ensures LightValues(vs, w)
  {
    hide Weight;
  }

  // Such a packet is well within the default size limit.
  lemma ShortPacketFits(p: Platform, k: Packet)
    requires ShortPacket(p, k)
    ensures PacketSizeBytes(p, k) <= 262_144
  {
    hide Weight, Dump, ShortPacket, PacketValues, PacketSizeBytes, ShortKeys, LightValues;
    MoreKeysAreShort();
    ShortPacketLight(p, k);
    DumpWeight(PACKET_KEYS, PacketValues(p, k), 11_000);
    SizeAtMostWeight(p, k);
  }

  // The size that is compared with the limit is that of a UTF-8 text that reads as
  // the encoded packet, and no text that reads so is shorter.
  lemma SizeExactly(p: Platform, k: Packet) returns (text: string, c: Json)
    requires WellFormed(Encode(p, k))
    ensures PacketSizeBytes(p, k) == |Utf8(text)| && ReadValue(text) == Some((c, ""))
    ensures SameValue(Encode(p, k), c) && Ascending(c)
    ensures forall t: string :: ReadValue(t) == Some((c, "")) ==> |t| >= |text|
  {
    hide Write, ReadValue, Canonicalize, Encode, Ascending;
    var v := Encode(p, k);
    c := Canonicalize(v);
    text := Write(c, "");
    CanonicalExactly(v, c);
    ReadBack(c, "");
    forall t: string | ReadValue(t) == Some((c, "")) ensures |t| >= |text| {
      ValueShortest(t);
    }
  }
}
