// What a dict must hold to decode, key by key, and what a missing key means:
// transport/codec.py and the field declarations of transport/models.py.
module DecodeRules {
  import opened Wrappers
  import opened Strings
  import opened Json
  import opened Models
  import opened Platforms
  import opened Hashing
  import opened Packets
  import opened Codec
  import opened RoundTrip
  import opened ModelRules

  // ---------------------------------------------------------------------
  // Kinds of fields
  // ---------------------------------------------------------------------

  // A field with a default may be missing, but not null.
  predicate Unless(s: Slot, typed: bool) {
    s == None || typed
  }

  // An optional field may also be null.
  predicate OrNull(s: Slot, typed: bool) {
    s == None || s == Some(Null) || typed
  }

  // What each type of field is read from, and as what.
  lemma TextsRead(s: Slot, t: string, d: string)
    ensures IsStr(s) <==> exists u :: s == Some(Str(u))
    ensures AsStr(Some(Str(t)), d) == t && AsStr(None, d) == d
    ensures AsStrOpt(Some(Str(t))) == Some(t) && AsStrOpt(None) == None && AsStrOpt(Some(Null)) == None
  {
    assert s == Some(Str(t)) ==> IsStr(s);
    assert IsStr(s) ==> s == Some(Str(s.value.s));
  }

  lemma NumbersRead(s: Slot, n: int, d: int, b: bool, c: bool)
    ensures IsNum(s) <==> exists m :: s == Some(Num(m))
    ensures IsBool(s) <==> s == Some(Bool(true)) || s == Some(Bool(false))
    ensures AsNum(Some(Num(n)), d) == n && AsNum(None, d) == d && AsNumOpt(Some(Num(n))) == Some(n)
    ensures AsNumOpt(None) == None && AsNumOpt(Some(Null)) == None
    ensures AsBool(Some(Bool(b)), c) == b && AsBool(None, c) == c
  {
    assert IsNum(s) ==> s == Some(Num(s.value.n));
    assert IsBool(s) ==> s == Some(Bool(s.value.b));
  }

  lemma TimesRead(p: Platform, s: Slot, t: string, now: Time)
    ensures IsTimeText(p, s) <==> exists u :: s == Some(Str(u)) && p.readTime(u).Some?
    ensures p.readTime(t).Some? ==>
      AsTime(p, Some(Str(t)), now) == p.readTime(t).value && AsTimeOpt(p, Some(Str(t))) == p.readTime(t)
    ensures AsTime(p, None, now) == now && AsTimeOpt(p, None) == None && AsTimeOpt(p, Some(Null)) == None
  {
    assert IsTimeText(p, s) ==> s == Some(Str(s.value.s));
  }

  lemma IdsRead(s: Slot, u: Uuid, d: Uuid, h: string)
    ensures IsUuidText(s) <==> exists t: Uuid :: s == Some(Str(t))
    ensures AsUuid(Some(Str(u)), d) == u && AsUuid(None, d) == d
    ensures AsUuidOpt(Some(Str(u))) == Some(u) && AsUuidOpt(None) == None && AsUuidOpt(Some(Null)) == None
    ensures IsDigestText(s) <==> exists t :: s == Some(Str(t)) && IsDigest(Norm(t))
    ensures IsDigest(Norm(h)) ==> AsDigest(Some(Str(h))) == Norm(h) && AsDigestOpt(Some(Str(h))) == Some(Norm(h))
    ensures AsDigestOpt(None) == None && AsDigestOpt(Some(Null)) == None
  {
    hide Norm, IsUuid, IsDigest;
    assert IsUuidText(s) ==> s == Some(Str(s.value.s));
    assert IsDigestText(s) ==> s == Some(Str(s.value.s));
  }

  lemma ListsRead(ss: seq<string>, fs: seq<Field>, vs: seq<Json>)
    ensures IsStrs(Some(Arr(Strs(ss)))) && AsStrs(Some(Arr(Strs(ss)))) == ss && AsStrs(None) == []
    ensures !IsStrs(Some(Null)) && (IsStrs(Some(Arr(vs))) <==> forall v :: v in vs ==> v.Str?)
    ensures IsObj(Some(Obj(fs))) && AsDictOpt(Some(Obj(fs))) == Some(fs) && AsDictOpt(None) == None
    ensures AsDictOpt(Some(Null)) == None && !IsObj(Some(Null))
  {
  }

  // Every key of a dict is one of these.
  predicate OnlyKeys(v: Json, ks: seq<string>) {
    v.Obj? && forall f :: f in v.fields ==> f.key in ks
  }

  lemma ReadableExactly(v: Json, ks: seq<string>)
    ensures Readable(v, ks) <==> OnlyKeys(v, ks)
  {
    if Readable(v, ks) {
      forall f | f in v.fields ensures f.key in ks {
        var i :| 0 <= i < |v.fields| && v.fields[i] == f;
      }
    }
  }

  lemma ObjectsOnly(v: Json, ks: seq<string>)
    ensures OnlyKeys(v, ks) ==> v.Obj?
  {
  }

  // An id that is there is taken as it is.
  lemma IdTaken(s: Slot, d: Uuid)
    ensures IsUuidText(s) ==> s.Some? && s.value.Str? && IsUuid(s.value.s) && AsUuid(s, d) == s.value.s
  {
  }

  // ---------------------------------------------------------------------
  // The models
  // ---------------------------------------------------------------------

  function HeaderKeys(): seq<string> {
    ["packet_id", "packet_type", "action", "priority", "created_at", "expires_at", "timeout_ms", "schema_version",
     "idempotency_key", "trace_id", "correlation_id", "causation_id", "retry_count", "replay_mode", "not_before"]
  }

  predicate HeaderFits(p: Platform, fs: seq<Field>) {
    && Unless(Read(fs, "packet_id"), IsUuidText(Read(fs, "packet_id"))) && IsStr(Read(fs, "packet_type"))
    && IsStr(Read(fs, "action")) && Unless(Read(fs, "priority"), IsNum(Read(fs, "priority")))
    && Unless(Read(fs, "created_at"), IsTimeText(p, Read(fs, "created_at")))
    && OrNull(Read(fs, "expires_at"), IsTimeText(p, Read(fs, "expires_at")))
    && Unless(Read(fs, "timeout_ms"), IsNum(Read(fs, "timeout_ms")))
    && Unless(Read(fs, "schema_version"), IsStr(Read(fs, "schema_version")))
    && OrNull(Read(fs, "idempotency_key"), IsStr(Read(fs, "idempotency_key")))
    && OrNull(Read(fs, "trace_id"), IsStr(Read(fs, "trace_id")))
    && OrNull(Read(fs, "correlation_id"), IsStr(Read(fs, "correlation_id")))
    && OrNull(Read(fs, "causation_id"), IsUuidText(Read(fs, "causation_id")))
    && Unless(Read(fs, "retry_count"), IsNum(Read(fs, "retry_count")))
    && Unless(Read(fs, "replay_mode"), IsBool(Read(fs, "replay_mode")))
    && OrNull(Read(fs, "not_before"), IsTimeText(p, Read(fs, "not_before")))
  }

  function HeaderRead(p: Platform, fill: Fill, fs: seq<Field>): Header {
    Header(
      AsUuid(Read(fs, "packet_id"), fill.id), AsStr(Read(fs, "packet_type"), ""), AsStr(Read(fs, "action"), ""),
      AsNum(Read(fs, "priority"), 2), AsTime(p, Read(fs, "created_at"), fill.now),
      AsTimeOpt(p, Read(fs, "expires_at")), AsNum(Read(fs, "timeout_ms"), 30_000),
      AsStr(Read(fs, "schema_version"), "1.0"), AsStrOpt(Read(fs, "idempotency_key")), AsStrOpt(Read(fs, "trace_id")),
      AsStrOpt(Read(fs, "correlation_id")), AsUuidOpt(Read(fs, "causation_id")), AsNum(Read(fs, "retry_count"), 0),
      AsBool(Read(fs, "replay_mode"), false), AsTimeOpt(p, Read(fs, "not_before")))
  }

  lemma HeaderSlotted(p: Platform, fill: Fill, fs: seq<Field>)
    ensures var s := ReadAll(fs, HEADER_KEYS);
            && |s| == 15 && (HeaderTyped(p, s) <==> HeaderFits(p, fs))
            && (HeaderTyped(p, s) ==> HeaderOf(p, fill, s) == HeaderRead(p, fill, fs))
  {
    hide IsStr, IsNum, IsBool, IsObj, IsUuidText, IsDigestText, IsTimeText, IsStrs, AsStr, AsNum, AsBool, AsStrOpt,
         AsNumOpt, AsUuid, AsUuidOpt, AsDigest, AsDigestOpt, AsTime, AsTimeOpt, AsStrs, AsDictOpt, Read;
    var ks, s := HEADER_KEYS, ReadAll(fs, HEADER_KEYS);
    assert s[0] == Read(fs, ks[0]) && s[1] == Read(fs, ks[1]) && s[2] == Read(fs, ks[2]);
    assert s[3] == Read(fs, ks[3]) && s[4] == Read(fs, ks[4]) && s[5] == Read(fs, ks[5]);
    assert s[6] == Read(fs, ks[6]) && s[7] == Read(fs, ks[7]) && s[8] == Read(fs, ks[8]);
    assert s[9] == Read(fs, ks[9]) && s[10] == Read(fs, ks[10]) && s[11] == Read(fs, ks[11]);
    assert s[12] == Read(fs, ks[12]) && s[13] == Read(fs, ks[13]) && s[14] == Read(fs, ks[14]);
  }

  lemma HeaderDecodesExactly(p: Platform, fill: Fill, v: Json, r: Header)
    ensures DecodeHeader(p, fill, v) == Ok(r)
            <==> && OnlyKeys(v, HeaderKeys()) && HeaderFits(p, v.fields)
                 && HeaderMade(HeaderRead(p, fill, v.fields), r)
  {
    hide HeaderFits, HeaderRead, HeaderTyped, HeaderOf, HeaderMade, NewHeader, OnlyKeys, Readable, ReadAll;
    ReadableExactly(v, HEADER_KEYS);
    assert HeaderKeys() == HEADER_KEYS;
    ObjectsOnly(v, HEADER_KEYS);
    if v.Obj? {
      HeaderExactly(HeaderRead(p, fill, v.fields), r);
      HeaderSlotted(p, fill, v.fields);
    }
  }

  function AddressKeys(): seq<string> {
    ["source_node", "destination_node", "reply_to"]
  }

  predicate AddressFits(fs: seq<Field>) {
    && IsStr(Read(fs, "source_node")) && IsStr(Read(fs, "destination_node")) && IsStr(Read(fs, "reply_to"))
  }

  function AddressRead(fs: seq<Field>): Address {
    Address(
      AsStr(Read(fs, "source_node"), ""), AsStr(Read(fs, "destination_node"), ""), AsStr(Read(fs, "reply_to"), ""))
  }

  lemma AddressDecodesExactly(v: Json, r: Address)
    ensures DecodeAddress(v) == Ok(r)
            <==> && OnlyKeys(v, AddressKeys()) && AddressFits(v.fields)
                 && AddressMade(AddressRead(v.fields), r)
  {
    hide IsStr, IsNum, IsBool, IsObj, IsUuidText, IsDigestText, IsTimeText, IsStrs, AsStr, AsNum, AsBool, AsStrOpt,
         AsNumOpt, AsUuid, AsUuidOpt, AsDigest, AsDigestOpt, AsTime, AsTimeOpt, AsStrs, AsDictOpt, Read,
         OnlyKeys, Readable, AddressMade, NewAddress;
    ReadableExactly(v, ADDRESS_KEYS);
    assert AddressKeys() == ADDRESS_KEYS;
    ObjectsOnly(v, ADDRESS_KEYS);
    if v.Obj? {
      var fs, ks, s := v.fields, ADDRESS_KEYS, Slots(v, ADDRESS_KEYS);
      assert s[0] == Read(fs, ks[0]) && s[1] == Read(fs, ks[1]) && s[2] == Read(fs, ks[2]);
      AddressExactly(AddressRead(v.fields), r);
    }
  }

  function TenantKeys(): seq<string> {
    ["actor", "on_behalf_of", "originator", "org_id", "user_id"]
  }

  predicate TenantFits(fs: seq<Field>) {
    && IsStr(Read(fs, "actor")) && IsStr(Read(fs, "on_behalf_of")) && IsStr(Read(fs, "originator"))
    && IsStr(Read(fs, "org_id")) && OrNull(Read(fs, "user_id"), IsStr(Read(fs, "user_id")))
  }

  function TenantRead(fs: seq<Field>): Tenant {
    Tenant(
      AsStr(Read(fs, "actor"), ""), AsStr(Read(fs, "on_behalf_of"), ""), AsStr(Read(fs, "originator"), ""),
      AsStr(Read(fs, "org_id"), ""), AsStrOpt(Read(fs, "user_id")))
  }

  lemma TenantDecodesExactly(v: Json, r: Tenant)
    ensures DecodeTenant(v) == Ok(r)
            <==> && OnlyKeys(v, TenantKeys()) && TenantFits(v.fields)
                 && TenantMade(TenantRead(v.fields), r)
  {
    hide IsStr, IsNum, IsBool, IsObj, IsUuidText, IsDigestText, IsTimeText, IsStrs, AsStr, AsNum, AsBool, AsStrOpt,
         AsNumOpt, AsUuid, AsUuidOpt, AsDigest, AsDigestOpt, AsTime, AsTimeOpt, AsStrs, AsDictOpt, Read,
         OnlyKeys, Readable, TenantMade, NewTenant;
    ReadableExactly(v, TENANT_KEYS);
    assert TenantKeys() == TENANT_KEYS;
    ObjectsOnly(v, TENANT_KEYS);
    if v.Obj? {
      var fs, ks, s := v.fields, TENANT_KEYS, Slots(v, TENANT_KEYS);
      assert s[0] == Read(fs, ks[0]) && s[1] == Read(fs, ks[1]) && s[2] == Read(fs, ks[2]);
      assert s[3] == Read(fs, ks[3]) && s[4] == Read(fs, ks[4]);
      TenantExactly(TenantRead(v.fields), r);
    }
  }

  function SecurityKeys(): seq<string> {
    ["payload_hash", "transport_hash", "signature", "signature_algorithm", "signing_key_id", "classification",
     "encryption_status", "pii_fields"]
  }

  predicate SecurityFits(fs: seq<Field>) {
    && IsDigestText(Read(fs, "payload_hash")) && IsDigestText(Read(fs, "transport_hash"))
    && OrNull(Read(fs, "signature"), IsStr(Read(fs, "signature")))
    && OrNull(Read(fs, "signature_algorithm"), IsStr(Read(fs, "signature_algorithm")))
    && OrNull(Read(fs, "signing_key_id"), IsStr(Read(fs, "signing_key_id")))
    && Unless(Read(fs, "classification"), IsStr(Read(fs, "classification")))
    && Unless(Read(fs, "encryption_status"), IsStr(Read(fs, "encryption_status")))
    && Unless(Read(fs, "pii_fields"), IsStrs(Read(fs, "pii_fields")))
  }

  function SecurityRead(fs: seq<Field>): Security {
    Security(
      AsDigest(Read(fs, "payload_hash")), AsDigest(Read(fs, "transport_hash")), AsStrOpt(Read(fs, "signature")),
      AsStrOpt(Read(fs, "signature_algorithm")), AsStrOpt(Read(fs, "signing_key_id")),
      AsStr(Read(fs, "classification"), "internal"), AsStr(Read(fs, "encryption_status"), "plaintext"),
      AsStrs(Read(fs, "pii_fields")))
  }

  lemma SecuritySlotted(fs: seq<Field>)
    ensures var s := ReadAll(fs, SECURITY_KEYS);
            && |s| == 8 && (SecurityTyped(s) <==> SecurityFits(fs))
            && (SecurityTyped(s) ==> SecurityOf(s) == SecurityRead(fs))
  {
    hide IsStr, IsNum, IsBool, IsObj, IsUuidText, IsDigestText, IsTimeText, IsStrs, AsStr, AsNum, AsBool, AsStrOpt,
         AsNumOpt, AsUuid, AsUuidOpt, AsDigest, AsDigestOpt, AsTime, AsTimeOpt, AsStrs, AsDictOpt, Read;
    var ks, s := SECURITY_KEYS, ReadAll(fs, SECURITY_KEYS);
    assert s[0] == Read(fs, ks[0]) && s[1] == Read(fs, ks[1]) && s[2] == Read(fs, ks[2]);
    assert s[3] == Read(fs, ks[3]) && s[4] == Read(fs, ks[4]) && s[5] == Read(fs, ks[5]);
    assert s[6] == Read(fs, ks[6]) && s[7] == Read(fs, ks[7]);
  }

  lemma SecurityDecodesExactly(v: Json, r: Security)
    ensures DecodeSecurity(v) == Ok(r)
            <==> && OnlyKeys(v, SecurityKeys()) && SecurityFits(v.fields)
                 && SecurityMade(SecurityRead(v.fields), r)
  {
    hide SecurityFits, SecurityRead, SecurityTyped, SecurityOf, SecurityMade, NewSecurity, OnlyKeys, Readable, ReadAll;
    ReadableExactly(v, SECURITY_KEYS);
    assert SecurityKeys() == SECURITY_KEYS;
    ObjectsOnly(v, SECURITY_KEYS);
    if v.Obj? {
      SecurityExactly(SecurityRead(v.fields), r);
      SecuritySlotted(v.fields);
    }
  }

  function GovernanceKeys(): seq<string> {
    ["intent", "compliance_tags", "retention_days", "redaction_applied", "audit_required", "data_subject_id"]
  }

  predicate GovernanceFits(fs: seq<Field>) {
    && IsStr(Read(fs, "intent")) && Unless(Read(fs, "compliance_tags"), IsStrs(Read(fs, "compliance_tags")))
    && Unless(Read(fs, "retention_days"), IsNum(Read(fs, "retention_days")))
    && Unless(Read(fs, "redaction_applied"), IsBool(Read(fs, "redaction_applied")))
    && Unless(Read(fs, "audit_required"), IsBool(Read(fs, "audit_required")))
    && OrNull(Read(fs, "data_subject_id"), IsStr(Read(fs, "data_subject_id")))
  }

  function GovernanceRead(fs: seq<Field>): Governance {
    Governance(
      AsStr(Read(fs, "intent"), ""), AsStrs(Read(fs, "compliance_tags")), AsNum(Read(fs, "retention_days"), 90),
      AsBool(Read(fs, "redaction_applied"), false), AsBool(Read(fs, "audit_required"), false),
      AsStrOpt(Read(fs, "data_subject_id")))
  }

  lemma GovernanceSlotted(fs: seq<Field>)
    ensures var s := ReadAll(fs, GOVERNANCE_KEYS);
            && |s| == 6 && (GovernanceTyped(s) <==> GovernanceFits(fs))
            && (GovernanceTyped(s) ==> GovernanceOf(s) == GovernanceRead(fs))
  {
    hide IsStr, IsNum, IsBool, IsObj, IsUuidText, IsDigestText, IsTimeText, IsStrs, AsStr, AsNum, AsBool, AsStrOpt,
         AsNumOpt, AsUuid, AsUuidOpt, AsDigest, AsDigestOpt, AsTime, AsTimeOpt, AsStrs, AsDictOpt, Read;
    var ks, s := GOVERNANCE_KEYS, ReadAll(fs, GOVERNANCE_KEYS);
    assert s[0] == Read(fs, ks[0]) && s[1] == Read(fs, ks[1]) && s[2] == Read(fs, ks[2]);
    assert s[3] == Read(fs, ks[3]) && s[4] == Read(fs, ks[4]) && s[5] == Read(fs, ks[5]);
  }

  lemma GovernanceDecodesExactly(v: Json, r: Governance)
    ensures DecodeGovernance(v) == Ok(r)
            <==> && OnlyKeys(v, GovernanceKeys()) && GovernanceFits(v.fields)
                 && GovernanceMade(GovernanceRead(v.fields), r)
  {
    hide GovernanceFits, GovernanceRead, GovernanceTyped, GovernanceOf, GovernanceMade, NewGovernance, OnlyKeys,
         Readable, ReadAll;
    ReadableExactly(v, GOVERNANCE_KEYS);
    assert GovernanceKeys() == GOVERNANCE_KEYS;
    ObjectsOnly(v, GOVERNANCE_KEYS);
    if v.Obj? {
      GovernanceExactly(GovernanceRead(v.fields), r);
      GovernanceSlotted(v.fields);
    }
  }

  function ProvenanceKeys(): seq<string> {
    ["origin_kind", "requested_action", "resolved_by_gate", "route_kind", "original_source_node"]
  }

  predicate ProvenanceFits(fs: seq<Field>) {
    && IsStr(Read(fs, "origin_kind")) && IsStr(Read(fs, "requested_action"))
    && Unless(Read(fs, "resolved_by_gate"), IsBool(Read(fs, "resolved_by_gate")))
    && OrNull(Read(fs, "route_kind"), IsStr(Read(fs, "route_kind")))
    && OrNull(Read(fs, "original_source_node"), IsStr(Read(fs, "original_source_node")))
  }

  function ProvenanceRead(fs: seq<Field>): Provenance {
    Provenance(
      AsStr(Read(fs, "origin_kind"), ""), AsStr(Read(fs, "requested_action"), ""),
      AsBool(Read(fs, "resolved_by_gate"), false), AsStrOpt(Read(fs, "route_kind")),
      AsStrOpt(Read(fs, "original_source_node")))
  }

  lemma ProvenanceDecodesExactly(v: Json, r: Provenance)
    ensures DecodeProvenance(v) == Ok(r)
            <==> && OnlyKeys(v, ProvenanceKeys()) && ProvenanceFits(v.fields)
                 && ProvenanceMade(ProvenanceRead(v.fields), r)
  {
    hide IsStr, IsNum, IsBool, IsObj, IsUuidText, IsDigestText, IsTimeText, IsStrs, AsStr, AsNum, AsBool, AsStrOpt,
         AsNumOpt, AsUuid, AsUuidOpt, AsDigest, AsDigestOpt, AsTime, AsTimeOpt, AsStrs, AsDictOpt, Read,
         OnlyKeys, Readable, ProvenanceMade, NewProvenance;
    ReadableExactly(v, PROVENANCE_KEYS);
    assert ProvenanceKeys() == PROVENANCE_KEYS;
    ObjectsOnly(v, PROVENANCE_KEYS);
    if v.Obj? {
      var fs, ks, s := v.fields, PROVENANCE_KEYS, Slots(v, PROVENANCE_KEYS);
      assert s[0] == Read(fs, ks[0]) && s[1] == Read(fs, ks[1]) && s[2] == Read(fs, ks[2]);
      assert s[3] == Read(fs, ks[3]) && s[4] == Read(fs, ks[4]);
      ProvenanceExactly(ProvenanceRead(v.fields), r);
    }
  }

  function AttachmentKeys(): seq<string> {
    ["attachment_id", "media_type", "uri", "content_hash", "encrypted", "size_bytes"]
  }

  predicate AttachmentFits(fs: seq<Field>) {
    && Unless(Read(fs, "attachment_id"), IsUuidText(Read(fs, "attachment_id"))) && IsStr(Read(fs, "media_type"))
    && IsStr(Read(fs, "uri")) && IsDigestText(Read(fs, "content_hash"))
    && Unless(Read(fs, "encrypted"), IsBool(Read(fs, "encrypted"))) && IsNum(Read(fs, "size_bytes"))
  }

  function AttachmentRead(fill: Fill, fs: seq<Field>): Attachment {
    Attachment(
      AsUuid(Read(fs, "attachment_id"), fill.id), AsStr(Read(fs, "media_type"), ""), AsStr(Read(fs, "uri"), ""),
      AsDigest(Read(fs, "content_hash")), AsBool(Read(fs, "encrypted"), true), AsNum(Read(fs, "size_bytes"), 0))
  }

  lemma AttachmentSlotted(fill: Fill, fs: seq<Field>)
    ensures var s := ReadAll(fs, ATTACHMENT_KEYS);
            && |s| == 6 && (AttachmentTyped(s) <==> AttachmentFits(fs))
            && (AttachmentTyped(s) ==> AttachmentOf(fill, s) == AttachmentRead(fill, fs))
  {
    hide IsStr, IsNum, IsBool, IsObj, IsUuidText, IsDigestText, IsTimeText, IsStrs, AsStr, AsNum, AsBool, AsStrOpt,
         AsNumOpt, AsUuid, AsUuidOpt, AsDigest, AsDigestOpt, AsTime, AsTimeOpt, AsStrs, AsDictOpt, Read;
    var ks, s := ATTACHMENT_KEYS, ReadAll(fs, ATTACHMENT_KEYS);
    assert s[0] == Read(fs, ks[0]) && s[1] == Read(fs, ks[1]) && s[2] == Read(fs, ks[2]);
    assert s[3] == Read(fs, ks[3]) && s[4] == Read(fs, ks[4]) && s[5] == Read(fs, ks[5]);
  }

  lemma AttachmentDecodesExactly(fill: Fill, v: Json, r: Attachment)
    ensures DecodeAttachment(fill, v) == Ok(r)
            <==> && OnlyKeys(v, AttachmentKeys()) && AttachmentFits(v.fields)
                 && AttachmentMade(AttachmentRead(fill, v.fields), r)
  {
    hide AttachmentFits, AttachmentRead, AttachmentTyped, AttachmentOf, AttachmentMade, NewAttachment, OnlyKeys,
         Readable, ReadAll;
    ReadableExactly(v, ATTACHMENT_KEYS);
    assert AttachmentKeys() == ATTACHMENT_KEYS;
    ObjectsOnly(v, ATTACHMENT_KEYS);
    if v.Obj? {
      AttachmentExactly(AttachmentRead(fill, v.fields), r);
      AttachmentSlotted(fill, v.fields);
    }
  }

  function LinkKeys(): seq<string> {
    ["delegator", "delegatee", "scope", "granted_at", "expires_at", "constraints", "proof"]
  }

  predicate LinkFits(p: Platform, fs: seq<Field>) {
    && IsStr(Read(fs, "delegator")) && IsStr(Read(fs, "delegatee")) && IsStrs(Read(fs, "scope"))
    && Unless(Read(fs, "granted_at"), IsTimeText(p, Read(fs, "granted_at")))
    && OrNull(Read(fs, "expires_at"), IsTimeText(p, Read(fs, "expires_at")))
    && OrNull(Read(fs, "constraints"), IsObj(Read(fs, "constraints")))
    && OrNull(Read(fs, "proof"), IsStr(Read(fs, "proof")))
  }

  function LinkRead(p: Platform, fill: Fill, fs: seq<Field>): Link {
    Link(
      AsStr(Read(fs, "delegator"), ""), AsStr(Read(fs, "delegatee"), ""), AsStrs(Read(fs, "scope")),
      AsTime(p, Read(fs, "granted_at"), fill.now), AsTimeOpt(p, Read(fs, "expires_at")),
      AsDictOpt(Read(fs, "constraints")), AsStrOpt(Read(fs, "proof")))
  }

  lemma LinkSlotted(p: Platform, fill: Fill, fs: seq<Field>)
    ensures var s := ReadAll(fs, LINK_KEYS);
            && |s| == 7 && (LinkTyped(p, s) <==> LinkFits(p, fs))
            && (LinkTyped(p, s) ==> LinkOf(p, fill, s) == LinkRead(p, fill, fs))
  {
    hide IsStr, IsNum, IsBool, IsObj, IsUuidText, IsDigestText, IsTimeText, IsStrs, AsStr, AsNum, AsBool, AsStrOpt,
         AsNumOpt, AsUuid, AsUuidOpt, AsDigest, AsDigestOpt, AsTime, AsTimeOpt, AsStrs, AsDictOpt, Read;
    var ks, s := LINK_KEYS, ReadAll(fs, LINK_KEYS);
    assert s[0] == Read(fs, ks[0]) && s[1] == Read(fs, ks[1]) && s[2] == Read(fs, ks[2]);
    assert s[3] == Read(fs, ks[3]) && s[4] == Read(fs, ks[4]) && s[5] == Read(fs, ks[5]);
    assert s[6] == Read(fs, ks[6]);
  }

  lemma LinkDecodesExactly(p: Platform, fill: Fill, v: Json, r: Link)
    ensures DecodeLink(p, fill, v) == Ok(r)
            <==> && OnlyKeys(v, LinkKeys()) && LinkFits(p, v.fields)
                 && LinkMade(LinkRead(p, fill, v.fields), r)
  {
    hide LinkFits, LinkRead, LinkTyped, LinkOf, LinkMade, NewLink, OnlyKeys, Readable, ReadAll;
    ReadableExactly(v, LINK_KEYS);
    assert LinkKeys() == LINK_KEYS;
    ObjectsOnly(v, LINK_KEYS);
    if v.Obj? {
      LinkExactly(LinkRead(p, fill, v.fields), r);
      LinkSlotted(p, fill, v.fields);
    }
  }

  function HopKeys(): seq<string> {
    ["hop_id", "packet_id", "node", "action", "direction", "status", "timestamp", "attempt", "target_node",
     "duration_ms", "queue_ms", "network_ms", "error_code", "error_message", "previous_hop_hash", "hop_hash",
     "hop_signature", "hop_signature_algorithm", "hop_signing_key_id"]
  }

  predicate HopFits(p: Platform, fs: seq<Field>) {
    && Unless(Read(fs, "hop_id"), IsUuidText(Read(fs, "hop_id"))) && IsUuidText(Read(fs, "packet_id"))
    && IsStr(Read(fs, "node")) && IsStr(Read(fs, "action")) && IsStr(Read(fs, "direction"))
    && IsStr(Read(fs, "status")) && Unless(Read(fs, "timestamp"), IsTimeText(p, Read(fs, "timestamp")))
    && OrNull(Read(fs, "attempt"), IsNum(Read(fs, "attempt")))
    && OrNull(Read(fs, "target_node"), IsStr(Read(fs, "target_node")))
    && OrNull(Read(fs, "duration_ms"), IsNum(Read(fs, "duration_ms")))
    && OrNull(Read(fs, "queue_ms"), IsNum(Read(fs, "queue_ms")))
    && OrNull(Read(fs, "network_ms"), IsNum(Read(fs, "network_ms")))
    && OrNull(Read(fs, "error_code"), IsStr(Read(fs, "error_code")))
    && OrNull(Read(fs, "error_message"), IsStr(Read(fs, "error_message")))
    && OrNull(Read(fs, "previous_hop_hash"), IsDigestText(Read(fs, "previous_hop_hash")))
    && IsDigestText(Read(fs, "hop_hash")) && OrNull(Read(fs, "hop_signature"), IsStr(Read(fs, "hop_signature")))
    && OrNull(Read(fs, "hop_signature_algorithm"), IsStr(Read(fs, "hop_signature_algorithm")))
    && OrNull(Read(fs, "hop_signing_key_id"), IsStr(Read(fs, "hop_signing_key_id")))
  }

  function HopRead(p: Platform, fill: Fill, fs: seq<Field>): Hop {
    Hop(
      AsUuid(Read(fs, "hop_id"), fill.id), AsUuid(Read(fs, "packet_id"), fill.id), AsStr(Read(fs, "node"), ""),
      AsStr(Read(fs, "action"), ""), AsStr(Read(fs, "direction"), ""), AsStr(Read(fs, "status"), ""),
      AsTime(p, Read(fs, "timestamp"), fill.now), AsNumOpt(Read(fs, "attempt")), AsStrOpt(Read(fs, "target_node")),
      AsNumOpt(Read(fs, "duration_ms")), AsNumOpt(Read(fs, "queue_ms")), AsNumOpt(Read(fs, "network_ms")),
      AsStrOpt(Read(fs, "error_code")), AsStrOpt(Read(fs, "error_message")),
      AsDigestOpt(Read(fs, "previous_hop_hash")), AsDigest(Read(fs, "hop_hash")), AsStrOpt(Read(fs, "hop_signature")),
      AsStrOpt(Read(fs, "hop_signature_algorithm")), AsStrOpt(Read(fs, "hop_signing_key_id")))
  }

  // The slots of a hop are what stands under its keys.
  predicate HopKeyed(s: seq<Slot>, fs: seq<Field>) {
    && |s| == 19 && s[0] == Read(fs, "hop_id") && s[1] == Read(fs, "packet_id") && s[2] == Read(fs, "node")
    && s[3] == Read(fs, "action") && s[4] == Read(fs, "direction") && s[5] == Read(fs, "status")
    && s[6] == Read(fs, "timestamp") && s[7] == Read(fs, "attempt") && s[8] == Read(fs, "target_node")
    && s[9] == Read(fs, "duration_ms") && s[10] == Read(fs, "queue_ms") && s[11] == Read(fs, "network_ms")
    && s[12] == Read(fs, "error_code") && s[13] == Read(fs, "error_message") && s[14] == Read(fs, "previous_hop_hash")
    && s[15] == Read(fs, "hop_hash") && s[16] == Read(fs, "hop_signature")
    && s[17] == Read(fs, "hop_signature_algorithm") && s[18] == Read(fs, "hop_signing_key_id")
  }

  lemma HopKeysRead(fs: seq<Field>)
    ensures HopKeyed(ReadAll(fs, HOP_KEYS), fs)
  {
    hide Read;
    var ks, s := HOP_KEYS, ReadAll(fs, HOP_KEYS);
    assert s[0] == Read(fs, ks[0]) && s[1] == Read(fs, ks[1]) && s[2] == Read(fs, ks[2]);
    assert s[3] == Read(fs, ks[3]) && s[4] == Read(fs, ks[4]) && s[5] == Read(fs, ks[5]);
    assert s[6] == Read(fs, ks[6]) && s[7] == Read(fs, ks[7]) && s[8] == Read(fs, ks[8]);
    assert s[9] == Read(fs, ks[9]) && s[10] == Read(fs, ks[10]) && s[11] == Read(fs, ks[11]);
    assert s[12] == Read(fs, ks[12]) && s[13] == Read(fs, ks[13]) && s[14] == Read(fs, ks[14]);
    assert s[15] == Read(fs, ks[15]) && s[16] == Read(fs, ks[16]) && s[17] == Read(fs, ks[17]);
    assert s[18] == Read(fs, ks[18]);
  }

  lemma HopTypedExactly(p: Platform, s: seq<Slot>, fs: seq<Field>)
    requires HopKeyed(s, fs)
    ensures HopTyped(p, s) <==> HopFits(p, fs)
  {
    hide IsStr, IsNum, IsBool, IsObj, IsUuidText, IsDigestText, IsTimeText, IsStrs, AsStr, AsNum, AsBool, AsStrOpt,
         AsNumOpt, AsUuid, AsUuidOpt, AsDigest, AsDigestOpt, AsTime, AsTimeOpt, AsStrs, AsDictOpt, Read;
  }

  lemma HopReadExactly(p: Platform, fill: Fill, s: seq<Slot>, fs: seq<Field>)
    requires HopKeyed(s, fs) && IsUuidText(s[1])
    ensures HopOf(p, fill, s) == HopRead(p, fill, fs)
  {
    hide IsStr, IsNum, IsBool, IsObj, IsUuidText, IsDigestText, IsTimeText, IsStrs, AsStr, AsNum, AsBool, AsStrOpt,
         AsNumOpt, AsUuid, AsUuidOpt, AsDigest, AsDigestOpt, AsTime, AsTimeOpt, AsStrs, AsDictOpt, Read;
    IdTaken(s[1], fill.id);
  }

  lemma HopTypedId(p: Platform, s: seq<Slot>)
    requires |s| == 19 && HopTyped(p, s)
    ensures IsUuidText(s[1])
  {
  }

  lemma HopSlotted(p: Platform, fill: Fill, fs: seq<Field>)
    ensures var s := ReadAll(fs, HOP_KEYS);
            && |s| == 19 && (HopTyped(p, s) <==> HopFits(p, fs))
            && (HopTyped(p, s) ==> HopOf(p, fill, s) == HopRead(p, fill, fs))
  {
    hide HopFits, HopOf, HopRead, HopTyped, ReadAll;
    var s := ReadAll(fs, HOP_KEYS);
    HopKeysRead(fs);
    HopTypedExactly(p, s, fs);
    if HopTyped(p, s) {
      HopTypedId(p, s);
      HopReadExactly(p, fill, s, fs);
    }
  }

  lemma HopDecodesExactly(p: Platform, fill: Fill, v: Json, r: Hop)
    ensures DecodeHop(p, fill, v) == Ok(r)
            <==> && OnlyKeys(v, HopKeys()) && HopFits(p, v.fields)
                 && HopMade(HopRead(p, fill, v.fields), r)
  {
    hide HopFits, HopRead, HopTyped, HopOf, HopMade, NewHop, OnlyKeys, Readable, ReadAll;
    ReadableExactly(v, HOP_KEYS);
    assert HopKeys() == HOP_KEYS;
    ObjectsOnly(v, HOP_KEYS);
    if v.Obj? {
      HopExactly(HopRead(p, fill, v.fields), r);
      HopSlotted(p, fill, v.fields);
    }
  }

  function LineageKeys(): seq<string> {
    ["parent_id", "root_id", "generation"]
  }

  predicate LineageFits(fs: seq<Field>) {
    && OrNull(Read(fs, "parent_id"), IsUuidText(Read(fs, "parent_id"))) && IsUuidText(Read(fs, "root_id"))
    && Unless(Read(fs, "generation"), IsNum(Read(fs, "generation")))
  }

  function LineageRead(fs: seq<Field>): Lineage {
    Lineage(
      AsUuidOpt(Read(fs, "parent_id")), AsUuid(Read(fs, "root_id"), "00000000-0000-0000-0000-000000000000"),
      AsNum(Read(fs, "generation"), 0))
  }

  lemma LineageDecodesExactly(v: Json, r: Lineage)
    ensures DecodeLineage(v) == Ok(r)
            <==> && OnlyKeys(v, LineageKeys()) && LineageFits(v.fields)
                 && r == LineageRead(v.fields) && r.generation >= 0
  {
    hide IsStr, IsNum, IsBool, IsObj, IsUuidText, IsDigestText, IsTimeText, IsStrs, AsStr, AsNum, AsBool, AsStrOpt,
         AsNumOpt, AsUuid, AsUuidOpt, AsDigest, AsDigestOpt, AsTime, AsTimeOpt, AsStrs, AsDictOpt, Read,
         OnlyKeys, Readable;
    ReadableExactly(v, LINEAGE_KEYS);
    assert LineageKeys() == LINEAGE_KEYS;
    ObjectsOnly(v, LINEAGE_KEYS);
    if v.Obj? {
      var fs, ks, s := v.fields, LINEAGE_KEYS, Slots(v, LINEAGE_KEYS);
      assert s[0] == Read(fs, ks[0]) && s[1] == Read(fs, ks[1]) && s[2] == Read(fs, ks[2]);
      IdTaken(s[1], "00000000-0000-0000-0000-000000000000");
    }
  }

  // ---------------------------------------------------------------------
  // The packet
  // ---------------------------------------------------------------------

  function PacketKeys(): seq<string> {
    ["header", "address", "tenant", "payload", "security", "governance", "provenance", "delegation_chain", "hop_trace",
     "lineage", "attachments"]
  }

  // A list that may be missing, each item of which decodes.
  predicate Listed<T(==)>(decode: Json -> Result<T>, s: Slot, ts: seq<T>) {
    if s == None then ts == []
    else
      && s.value.Arr? && |s.value.items| == |ts|
      && forall i :: 0 <= i < |ts| ==> decode(s.value.items[i]) == Ok(ts[i])
  }

  lemma {:induction false} DecodeAllExactly<T>(decode: Json -> Result<T>, s: Slot, ts: seq<T>)
    ensures Unless(s, IsArr(s)) && DecodeAll(decode, AsItems(s)) == Ok(ts) <==> Listed(decode, s, ts)
  {
    if Unless(s, IsArr(s)) {
      if DecodeAll(decode, AsItems(s)) == Ok(ts) {
        DecodeAllEach(decode, AsItems(s));
      }
      if Listed(decode, s, ts) {
        DecodeAllBack(decode, AsItems(s), ts);
      }
    }
  }

  lemma {:induction false} DecodeAllError<T>(decode: Json -> Result<T>, items: seq<Json>)
    requires forall v :: v in items && decode(v).Err? ==> decode(v) == Err(ValueError)
    ensures DecodeAll(decode, items).Err? ==> DecodeAll(decode, items) == Err(ValueError)
  {
    if items != [] {
      assert items[0] in items;
      DecodeAllError(decode, items[1..]);
    }
  }

  // The dict holds these sections, each under its name; payload and hashes are
  // taken as they are.
  predicate SectionsRead(p: Platform, fill: Fill, fs: seq<Field>, k: Packet) {
    && Read(fs, "header").Some? && DecodeHeader(p, fill, Read(fs, "header").value) == Ok(k.header)
    && Read(fs, "address").Some? && DecodeAddress(Read(fs, "address").value) == Ok(k.address)
    && Read(fs, "tenant").Some? && DecodeTenant(Read(fs, "tenant").value) == Ok(k.tenant)
    && Read(fs, "payload") == Some(Obj(k.payload))
    && Read(fs, "security").Some? && DecodeSecurity(Read(fs, "security").value) == Ok(k.security)
    && Read(fs, "governance").Some? && DecodeGovernance(Read(fs, "governance").value) == Ok(k.governance)
    && Read(fs, "provenance").Some? && DecodeProvenance(Read(fs, "provenance").value) == Ok(k.provenance)
    && Listed(v => DecodeLink(p, fill, v), Read(fs, "delegation_chain"), k.delegationChain)
    && Listed(v => DecodeHop(p, fill, v), Read(fs, "hop_trace"), k.hopTrace)
    && Read(fs, "lineage").Some? && DecodeLineage(Read(fs, "lineage").value) == Ok(k.lineage)
    && Listed(v => DecodeAttachment(fill, v), Read(fs, "attachments"), k.attachments)
  }

  // A model that does not decode raises a value error.
  lemma ModelErrors(p: Platform, fill: Fill, v: Json)
    ensures DecodeHeader(p, fill, v).Err? ==> DecodeHeader(p, fill, v) == Err(ValueError)
    ensures DecodeSecurity(v).Err? ==> DecodeSecurity(v) == Err(ValueError)
    ensures DecodeGovernance(v).Err? ==> DecodeGovernance(v) == Err(ValueError)
    ensures DecodeLink(p, fill, v).Err? ==> DecodeLink(p, fill, v) == Err(ValueError)
    ensures DecodeHop(p, fill, v).Err? ==> DecodeHop(p, fill, v) == Err(ValueError)
    ensures DecodeAttachment(fill, v).Err? ==> DecodeAttachment(fill, v) == Err(ValueError)
  {
    hide Readable, Slots, HeaderTyped, HeaderOf, SecurityTyped, SecurityOf, GovernanceTyped, GovernanceOf,
         AttachmentTyped, AttachmentOf, LinkTyped, LinkOf, HopTyped, HopOf, HeaderOk, HopOk, LinkOk, AttachmentOk,
         SecurityOk, GovernanceOk, NormHeader, NormHop, NormLink, NormAttachment, NormSecurity, NormGovernance;
  }

  lemma SmallModelErrors(v: Json)
    ensures DecodeAddress(v).Err? ==> DecodeAddress(v) == Err(ValueError)
    ensures DecodeTenant(v).Err? ==> DecodeTenant(v) == Err(ValueError)
    ensures DecodeProvenance(v).Err? ==> DecodeProvenance(v) == Err(ValueError)
    ensures DecodeLineage(v).Err? ==> DecodeLineage(v) == Err(ValueError)
  {
    hide Readable, Slots, IsStr, IsBool, IsNum, IsUuidText, AsStr, AsStrOpt, AsBool, AsNum, AsUuidOpt, AddressOk,
         TenantOk, ProvenanceOk, NormAddress, NormTenant, NormProvenance;
  }

  lemma ListErrors(p: Platform, fill: Fill, items: seq<Json>)
    ensures var r := DecodeAll(v => DecodeLink(p, fill, v), items); r.Err? ==> r == Err(ValueError)
    ensures var r := DecodeAll(v => DecodeHop(p, fill, v), items); r.Err? ==> r == Err(ValueError)
    ensures var r := DecodeAll(v => DecodeAttachment(fill, v), items); r.Err? ==> r == Err(ValueError)
  {
    hide DecodeLink, DecodeHop, DecodeAttachment, DecodeAll;
    forall v | v in items ensures
        && (DecodeLink(p, fill, v).Err? ==> DecodeLink(p, fill, v) == Err(ValueError))
        && (DecodeHop(p, fill, v).Err? ==> DecodeHop(p, fill, v) == Err(ValueError))
        && (DecodeAttachment(fill, v).Err? ==> DecodeAttachment(fill, v) == Err(ValueError))
    {
      ModelErrors(p, fill, v);
    }
    DecodeAllError(v => DecodeLink(p, fill, v), items);
    DecodeAllError(v => DecodeHop(p, fill, v), items);
    DecodeAllError(v => DecodeAttachment(fill, v), items);
  }

  lemma SectionErrors(p: Platform, fill: Fill, s: seq<Slot>)
    requires |s| == 11 && PacketTyped(s)
    ensures DecodeSections(p, fill, s).Err? ==> DecodeSections(p, fill, s) == Err(ValueError)
  {
    hide DecodeHeader, DecodeAddress, DecodeTenant, DecodeSecurity, DecodeGovernance, DecodeProvenance, DecodeLineage,
         DecodeAll;
    ModelErrors(p, fill, s[0].value);
    SmallModelErrors(s[1].value);
    SmallModelErrors(s[2].value);
    ModelErrors(p, fill, s[4].value);
    ModelErrors(p, fill, s[5].value);
    SmallModelErrors(s[6].value);
    SmallModelErrors(s[9].value);
    ListErrors(p, fill, AsItems(s[7]));
    ListErrors(p, fill, AsItems(s[8]));
    ListErrors(p, fill, AsItems(s[10]));
  }

  lemma SectionsExactly(p: Platform, fill: Fill, fs: seq<Field>, k: Packet)
    ensures var s := ReadAll(fs, PACKET_KEYS);
            && |s| == 11
            && (PacketTyped(s) && DecodeSections(p, fill, s) == Ok(k) <==> SectionsRead(p, fill, fs, k))
            && (PacketTyped(s) && DecodeSections(p, fill, s).Err? ==> DecodeSections(p, fill, s) == Err(ValueError))
  {
    hide Read, DecodeHeader, DecodeAddress, DecodeTenant, DecodeSecurity, DecodeGovernance, DecodeProvenance,
         DecodeLineage, DecodeAll, Listed;
    var ks, s := PACKET_KEYS, ReadAll(fs, PACKET_KEYS);
    assert s[0] == Read(fs, ks[0]) && s[1] == Read(fs, ks[1]) && s[2] == Read(fs, ks[2]) && s[3] == Read(fs, ks[3]);
    assert s[4] == Read(fs, ks[4]) && s[5] == Read(fs, ks[5]) && s[6] == Read(fs, ks[6]) && s[7] == Read(fs, ks[7]);
    assert s[8] == Read(fs, ks[8]) && s[9] == Read(fs, ks[9]) && s[10] == Read(fs, ks[10]);
    DecodeAllExactly(v => DecodeLink(p, fill, v), s[7], k.delegationChain);
    DecodeAllExactly(v => DecodeHop(p, fill, v), s[8], k.hopTrace);
    DecodeAllExactly(v => DecodeAttachment(fill, v), s[10], k.attachments);
    if PacketTyped(s) {
      SectionErrors(p, fill, s);
    }
  }

  // A dict decodes to `k` exactly when its keys are known, its sections are those of
  // `k`, and both hashes are right. Only wrong hashes raise an integrity error.
  lemma DecodeExactly(p: Platform, fill: Fill, v: Json, k: Packet)
    ensures Decode(p, fill, v) == Ok(k)
            <==> OnlyKeys(v, PacketKeys()) && SectionsRead(p, fill, v.fields, k) && IntegrityOk(p, k)
    ensures OnlyKeys(v, PacketKeys()) && SectionsRead(p, fill, v.fields, k) && !IntegrityOk(p, k)
            ==> Decode(p, fill, v) == Err(IntegrityError)
  {
    hide DecodeSections, IntegrityOk, SectionsRead, OnlyKeys, Readable, PacketTyped, ReadAll;
    ReadableExactly(v, PACKET_KEYS);
    assert PacketKeys() == PACKET_KEYS;
    ObjectsOnly(v, PACKET_KEYS);
    if v.Obj? {
      SectionsExactly(p, fill, v.fields, k);
    }
  }

  // Whatever does not decode raises one of two errors.
  lemma DecodeErrorExactly(p: Platform, fill: Fill, v: Json)
    ensures Decode(p, fill, v).Err? ==>
      Decode(p, fill, v) == Err(if OnlyKeys(v, PacketKeys()) && (exists k :: SectionsRead(p, fill, v.fields, k))
                                then IntegrityError else ValueError)
  {
    hide DecodeSections, IntegrityOk, SectionsRead, OnlyKeys, Readable, PacketTyped, ReadAll;
    ReadableExactly(v, PACKET_KEYS);
    assert PacketKeys() == PACKET_KEYS;
    ObjectsOnly(v, PACKET_KEYS);
    if Readable(v, PACKET_KEYS) && PacketTyped(Slots(v, PACKET_KEYS)) {
      var sections := DecodeSections(p, fill, Slots(v, PACKET_KEYS));
      SectionErrors(p, fill, Slots(v, PACKET_KEYS));
      if sections.Ok? {
        SectionsExactly(p, fill, v.fields, sections.value);
      }
    }
    if OnlyKeys(v, PacketKeys()) && (exists k :: SectionsRead(p, fill, v.fields, k)) {
      var k :| SectionsRead(p, fill, v.fields, k);
      DecodeExactly(p, fill, v, k);
    }
  }
}
