// Which value stands under which name in the JSON that is hashed and in the JSON
// that is sent: transport/hashing.py, compute_hop_hash and transport/codec.py.
module FieldNames {
  import opened Wrappers
  import opened Json
  import opened Canonical
  import opened Models
  import opened Platforms
  import opened Hashing
  import opened Packets
  import opened Codec
  import opened RoundTrip

  // ---------------------------------------------------------------------
  // Reading a record by name
  // ---------------------------------------------------------------------

  // Under `key` stands `v`. What is sent leaves nulls out; what is hashed keeps them.
  predicate At(fs: seq<Field>, sent: bool, key: string, v: Json) {
    Read(fs, key) == if sent && v == Null then None else Some(v)
  }

  lemma {:induction false} RecordReads(ks: seq<string>, vs: seq<Json>, i: nat)
    requires |ks| == |vs| && i < |ks| && Distinct(ks)
    ensures Read(Record(ks, vs), ks[i]) == Some(vs[i])
  {
    var fs := Record(ks, vs);
    assert fs[0] == Field(ks[0], vs[0]) && fs[1..] == Record(ks[1..], vs[1..]);
    if i > 0 {
      RecordReads(ks[1..], vs[1..], i - 1);
    }
  }

  // The fields of a section, as it is hashed or sent.
  function Section(sent: bool, ks: seq<string>, vs: seq<Json>): seq<Field>
    requires |ks| == |vs|
  {
    if sent then Present(Record(ks, vs)) else Record(ks, vs)
  }

  lemma SectionReads(sent: bool, ks: seq<string>, vs: seq<Json>)
    requires |ks| == |vs| && Distinct(ks)
    ensures |Section(false, ks, vs)| == |ks|
    ensures forall i :: 0 <= i < |ks| ==> At(Section(sent, ks, vs), sent, ks[i], vs[i])
  {
    var fs := Record(ks, vs);
    forall i | 0 <= i < |ks| ensures At(Section(sent, ks, vs), sent, ks[i], vs[i]) {
      if sent {
        ReadPresent(fs, i);
      } else {
        RecordReads(ks, vs, i);
      }
    }
  }

  function Text(s: Option<string>): Json {
    if s.Some? then Str(s.value) else Null
  }

  function Count(n: Option<int>): Json {
    if n.Some? then Num(n.value) else Null
  }

  function Moment(f: Time -> string, t: Option<Time>): Json {
    if t.Some? then Str(f(t.value)) else Null
  }

  function Texts(ss: seq<string>): Json {
    Arr(seq(|ss|, i requires 0 <= i < |ss| => Str(ss[i])))
  }

  // ---------------------------------------------------------------------
  // The sections
  // ---------------------------------------------------------------------

  predicate HeaderNamed(fs: seq<Field>, sent: bool, f: Time -> string, h: Header) {
    && At(fs, sent, "packet_id", Str(h.packetId)) && At(fs, sent, "packet_type", Str(h.packetType))
    && At(fs, sent, "action", Str(h.action)) && At(fs, sent, "priority", Num(h.priority))
    && At(fs, sent, "created_at", Str(f(h.createdAt))) && At(fs, sent, "expires_at", Moment(f, h.expiresAt))
    && At(fs, sent, "timeout_ms", Num(h.timeoutMs)) && At(fs, sent, "schema_version", Str(h.schemaVersion))
    && At(fs, sent, "idempotency_key", Text(h.idempotencyKey)) && At(fs, sent, "trace_id", Text(h.traceId))
    && At(fs, sent, "correlation_id", Text(h.correlationId)) && At(fs, sent, "causation_id", Text(h.causationId))
    && At(fs, sent, "retry_count", Num(h.retryCount)) && At(fs, sent, "replay_mode", Bool(h.replayMode))
    && At(fs, sent, "not_before", Moment(f, h.notBefore)) && (!sent ==> |fs| == 15)
  }

  lemma HeaderKeysDistinct()
    ensures Distinct(HEADER_KEYS) && |HEADER_KEYS| == 15
  {
  }

  lemma HeaderNames(sent: bool, f: Time -> string, h: Header)
    ensures HeaderNamed(Section(sent, HEADER_KEYS, HeaderValues(f, h)), sent, f, h)
  {
    hide Section, At, Distinct;
    HeaderKeysDistinct();
    var ks, vs := HEADER_KEYS, HeaderValues(f, h);
    SectionReads(sent, ks, vs);
    var fs := Section(sent, ks, vs);
    assert At(fs, sent, ks[0], vs[0]) && At(fs, sent, ks[1], vs[1]) && At(fs, sent, ks[2], vs[2]);
    assert At(fs, sent, ks[3], vs[3]) && At(fs, sent, ks[4], vs[4]) && At(fs, sent, ks[5], vs[5]);
    assert At(fs, sent, ks[6], vs[6]) && At(fs, sent, ks[7], vs[7]) && At(fs, sent, ks[8], vs[8]);
    assert At(fs, sent, ks[9], vs[9]) && At(fs, sent, ks[10], vs[10]) && At(fs, sent, ks[11], vs[11]);
    assert At(fs, sent, ks[12], vs[12]) && At(fs, sent, ks[13], vs[13]) && At(fs, sent, ks[14], vs[14]);
  }

  predicate AddressNamed(fs: seq<Field>, sent: bool, a: Address) {
    && At(fs, sent, "source_node", Str(a.sourceNode)) && At(fs, sent, "destination_node", Str(a.destinationNode))
    && At(fs, sent, "reply_to", Str(a.replyTo)) && (!sent ==> |fs| == 3)
  }

  lemma AddressKeysDistinct()
    ensures Distinct(ADDRESS_KEYS) && |ADDRESS_KEYS| == 3
  {
  }

  lemma AddressNames(sent: bool, a: Address)
    ensures AddressNamed(Section(sent, ADDRESS_KEYS, AddressValues(a)), sent, a)
  {
    hide Section, At, Distinct;
    AddressKeysDistinct();
    var ks, vs := ADDRESS_KEYS, AddressValues(a);
    SectionReads(sent, ks, vs);
    var fs := Section(sent, ks, vs);
    assert At(fs, sent, ks[0], vs[0]) && At(fs, sent, ks[1], vs[1]) && At(fs, sent, ks[2], vs[2]);
  }

  predicate TenantNamed(fs: seq<Field>, sent: bool, t: Tenant) {
    && At(fs, sent, "actor", Str(t.actor)) && At(fs, sent, "on_behalf_of", Str(t.onBehalfOf))
    && At(fs, sent, "originator", Str(t.originator)) && At(fs, sent, "org_id", Str(t.orgId))
    && At(fs, sent, "user_id", Text(t.userId)) && (!sent ==> |fs| == 5)
  }

  lemma TenantKeysDistinct()
    ensures Distinct(TENANT_KEYS) && |TENANT_KEYS| == 5
  {
  }

  lemma TenantNames(sent: bool, t: Tenant)
    ensures TenantNamed(Section(sent, TENANT_KEYS, TenantValues(t)), sent, t)
  {
    hide Section, At, Distinct;
    TenantKeysDistinct();
    var ks, vs := TENANT_KEYS, TenantValues(t);
    SectionReads(sent, ks, vs);
    var fs := Section(sent, ks, vs);
    assert At(fs, sent, ks[0], vs[0]) && At(fs, sent, ks[1], vs[1]) && At(fs, sent, ks[2], vs[2]);
    assert At(fs, sent, ks[3], vs[3]) && At(fs, sent, ks[4], vs[4]);
  }

  predicate GovernanceNamed(fs: seq<Field>, sent: bool, g: Governance) {
    && At(fs, sent, "intent", Str(g.intent)) && At(fs, sent, "compliance_tags", Texts(g.complianceTags))
    && At(fs, sent, "retention_days", Num(g.retentionDays))
    && At(fs, sent, "redaction_applied", Bool(g.redactionApplied))
    && At(fs, sent, "audit_required", Bool(g.auditRequired)) && At(fs, sent, "data_subject_id", Text(g.dataSubjectId))
    && (!sent ==> |fs| == 6)
  }

  lemma GovernanceKeysDistinct()
    ensures Distinct(GOVERNANCE_KEYS) && |GOVERNANCE_KEYS| == 6
  {
  }

  lemma GovernanceNames(sent: bool, g: Governance)
    ensures GovernanceNamed(Section(sent, GOVERNANCE_KEYS, GovernanceValues(g)), sent, g)
  {
    hide Section, At, Distinct;
    GovernanceKeysDistinct();
    var ks, vs := GOVERNANCE_KEYS, GovernanceValues(g);
    SectionReads(sent, ks, vs);
    var fs := Section(sent, ks, vs);
    assert At(fs, sent, ks[0], vs[0]) && At(fs, sent, ks[1], vs[1]) && At(fs, sent, ks[2], vs[2]);
    assert At(fs, sent, ks[3], vs[3]) && At(fs, sent, ks[4], vs[4]) && At(fs, sent, ks[5], vs[5]);
  }

  predicate ProvenanceNamed(fs: seq<Field>, sent: bool, v: Provenance) {
    && At(fs, sent, "origin_kind", Str(v.originKind)) && At(fs, sent, "requested_action", Str(v.requestedAction))
    && At(fs, sent, "resolved_by_gate", Bool(v.resolvedByGate)) && At(fs, sent, "route_kind", Text(v.routeKind))
    && At(fs, sent, "original_source_node", Text(v.originalSourceNode)) && (!sent ==> |fs| == 5)
  }

  lemma ProvenanceKeysDistinct()
    ensures Distinct(PROVENANCE_KEYS) && |PROVENANCE_KEYS| == 5
  {
  }

  lemma ProvenanceNames(sent: bool, v: Provenance)
    ensures ProvenanceNamed(Section(sent, PROVENANCE_KEYS, ProvenanceValues(v)), sent, v)
  {
    hide Section, At, Distinct;
    ProvenanceKeysDistinct();
    var ks, vs := PROVENANCE_KEYS, ProvenanceValues(v);
    SectionReads(sent, ks, vs);
    var fs := Section(sent, ks, vs);
    assert At(fs, sent, ks[0], vs[0]) && At(fs, sent, ks[1], vs[1]) && At(fs, sent, ks[2], vs[2]);
    assert At(fs, sent, ks[3], vs[3]) && At(fs, sent, ks[4], vs[4]);
  }

  predicate LineageNamed(fs: seq<Field>, sent: bool, l: Lineage) {
    && At(fs, sent, "parent_id", Text(l.parentId)) && At(fs, sent, "root_id", Str(l.rootId))
    && At(fs, sent, "generation", Num(l.generation)) && (!sent ==> |fs| == 3)
  }

  lemma LineageKeysDistinct()
    ensures Distinct(LINEAGE_KEYS) && |LINEAGE_KEYS| == 3
  {
  }

  lemma LineageNames(sent: bool, l: Lineage)
    ensures LineageNamed(Section(sent, LINEAGE_KEYS, LineageValues(l)), sent, l)
  {
    hide Section, At, Distinct;
    LineageKeysDistinct();
    var ks, vs := LINEAGE_KEYS, LineageValues(l);
    SectionReads(sent, ks, vs);
    var fs := Section(sent, ks, vs);
    assert At(fs, sent, ks[0], vs[0]) && At(fs, sent, ks[1], vs[1]) && At(fs, sent, ks[2], vs[2]);
  }

  predicate AttachmentNamed(fs: seq<Field>, sent: bool, a: Attachment) {
    && At(fs, sent, "attachment_id", Str(a.attachmentId)) && At(fs, sent, "media_type", Str(a.mediaType))
    && At(fs, sent, "uri", Str(a.uri)) && At(fs, sent, "content_hash", Str(a.contentHash))
    && At(fs, sent, "encrypted", Bool(a.encrypted)) && At(fs, sent, "size_bytes", Num(a.sizeBytes))
    && (!sent ==> |fs| == 6)
  }

  lemma AttachmentKeysDistinct()
    ensures Distinct(ATTACHMENT_KEYS) && |ATTACHMENT_KEYS| == 6
  {
  }

  lemma AttachmentNames(sent: bool, a: Attachment)
    ensures AttachmentNamed(Section(sent, ATTACHMENT_KEYS, AttachmentValues(a)), sent, a)
  {
    hide Section, At, Distinct;
    AttachmentKeysDistinct();
    var ks, vs := ATTACHMENT_KEYS, AttachmentValues(a);
    SectionReads(sent, ks, vs);
    var fs := Section(sent, ks, vs);
    assert At(fs, sent, ks[0], vs[0]) && At(fs, sent, ks[1], vs[1]) && At(fs, sent, ks[2], vs[2]);
    assert At(fs, sent, ks[3], vs[3]) && At(fs, sent, ks[4], vs[4]) && At(fs, sent, ks[5], vs[5]);
  }

  predicate LinkNamed(fs: seq<Field>, sent: bool, f: Time -> string, l: Link) {
    && At(fs, sent, "delegator", Str(l.delegator)) && At(fs, sent, "delegatee", Str(l.delegatee))
    && At(fs, sent, "scope", Texts(l.scope)) && At(fs, sent, "granted_at", Str(f(l.grantedAt)))
    && At(fs, sent, "expires_at", Moment(f, l.expiresAt))
    && At(fs, sent, "constraints", if l.constraints.Some? then Obj(l.constraints.value) else Null)
    && At(fs, sent, "proof", Text(l.proof)) && (!sent ==> |fs| == 7)
  }

  lemma LinkKeysDistinct()
    ensures Distinct(LINK_KEYS) && |LINK_KEYS| == 7
  {
  }

  lemma LinkNames(sent: bool, f: Time -> string, l: Link)
    ensures LinkNamed(Section(sent, LINK_KEYS, LinkValues(f, l)), sent, f, l)
  {
    hide Section, At, Distinct;
    LinkKeysDistinct();
    var ks, vs := LINK_KEYS, LinkValues(f, l);
    SectionReads(sent, ks, vs);
    var fs := Section(sent, ks, vs);
    assert At(fs, sent, ks[0], vs[0]) && At(fs, sent, ks[1], vs[1]) && At(fs, sent, ks[2], vs[2]);
    assert At(fs, sent, ks[3], vs[3]) && At(fs, sent, ks[4], vs[4]) && At(fs, sent, ks[5], vs[5]);
    assert At(fs, sent, ks[6], vs[6]);
  }

  predicate SecurityNamed(fs: seq<Field>, sent: bool, s: Security) {
    && At(fs, sent, "payload_hash", Str(s.payloadHash)) && At(fs, sent, "transport_hash", Str(s.transportHash))
    && At(fs, sent, "signature", Text(s.signature)) && At(fs, sent, "signature_algorithm", Text(s.signatureAlgorithm))
    && At(fs, sent, "signing_key_id", Text(s.signingKeyId)) && At(fs, sent, "classification", Str(s.classification))
    && At(fs, sent, "encryption_status", Str(s.encryptionStatus)) && At(fs, sent, "pii_fields", Texts(s.piiFields))
    && (!sent ==> |fs| == 8)
  }

  lemma SecurityKeysDistinct()
    ensures Distinct(SECURITY_KEYS) && |SECURITY_KEYS| == 8
  {
  }

  lemma SecurityNames(sent: bool, s: Security)
    ensures SecurityNamed(Section(sent, SECURITY_KEYS, SecurityValues(s)), sent, s)
  {
    hide Section, At, Distinct;
    SecurityKeysDistinct();
    var ks, vs := SECURITY_KEYS, SecurityValues(s);
    SectionReads(sent, ks, vs);
    var fs := Section(sent, ks, vs);
    assert At(fs, sent, ks[0], vs[0]) && At(fs, sent, ks[1], vs[1]) && At(fs, sent, ks[2], vs[2]);
    assert At(fs, sent, ks[3], vs[3]) && At(fs, sent, ks[4], vs[4]) && At(fs, sent, ks[5], vs[5]);
    assert At(fs, sent, ks[6], vs[6]) && At(fs, sent, ks[7], vs[7]);
  }

  predicate HopNamed(fs: seq<Field>, sent: bool, f: Time -> string, h: Hop) {
    && At(fs, sent, "hop_id", Str(h.hopId)) && At(fs, sent, "packet_id", Str(h.packetId))
    && At(fs, sent, "node", Str(h.node)) && At(fs, sent, "action", Str(h.action))
    && At(fs, sent, "direction", Str(h.direction)) && At(fs, sent, "status", Str(h.status))
    && At(fs, sent, "timestamp", Str(f(h.timestamp))) && At(fs, sent, "attempt", Count(h.attempt))
    && At(fs, sent, "target_node", Text(h.targetNode)) && At(fs, sent, "duration_ms", Count(h.durationMs))
    && At(fs, sent, "queue_ms", Count(h.queueMs)) && At(fs, sent, "network_ms", Count(h.networkMs))
    && At(fs, sent, "error_code", Text(h.errorCode)) && At(fs, sent, "error_message", Text(h.errorMessage))
    && At(fs, sent, "previous_hop_hash", Text(h.previousHopHash)) && At(fs, sent, "hop_hash", Str(h.hopHash))
    && At(fs, sent, "hop_signature", Text(h.hopSignature))
    && At(fs, sent, "hop_signature_algorithm", Text(h.hopSignatureAlgorithm))
    && At(fs, sent, "hop_signing_key_id", Text(h.hopSigningKeyId)) && (!sent ==> |fs| == 19)
  }

  lemma HopNames(sent: bool, f: Time -> string, h: Hop)
    ensures HopNamed(Section(sent, HOP_KEYS, HopValues(f, h)), sent, f, h)
  {
    hide Section, At, Distinct;
    HopKeysDistinct();
    var ks, vs := HOP_KEYS, HopValues(f, h);
    SectionReads(sent, ks, vs);
    var fs := Section(sent, ks, vs);
    assert At(fs, sent, ks[0], vs[0]) && At(fs, sent, ks[1], vs[1]) && At(fs, sent, ks[2], vs[2]);
    assert At(fs, sent, ks[3], vs[3]) && At(fs, sent, ks[4], vs[4]) && At(fs, sent, ks[5], vs[5]);
    assert At(fs, sent, ks[6], vs[6]) && At(fs, sent, ks[7], vs[7]) && At(fs, sent, ks[8], vs[8]);
    assert At(fs, sent, ks[9], vs[9]) && At(fs, sent, ks[10], vs[10]) && At(fs, sent, ks[11], vs[11]);
    assert At(fs, sent, ks[12], vs[12]) && At(fs, sent, ks[13], vs[13]) && At(fs, sent, ks[14], vs[14]);
    assert At(fs, sent, ks[15], vs[15]) && At(fs, sent, ks[16], vs[16]) && At(fs, sent, ks[17], vs[17]);
    assert At(fs, sent, ks[18], vs[18]);
  }

  // ---------------------------------------------------------------------
  // What is hashed
  // ---------------------------------------------------------------------

  // The fields behind a hop hash.
  predicate PreimageNamed(p: Platform, fs: seq<Field>, th: Digest, h: Hop) {
    && |fs| == 16 && Read(fs, "transport_hash") == Some(Str(th)) && Read(fs, "hop_id") == Some(Str(h.hopId))
    && Read(fs, "packet_id") == Some(Str(h.packetId)) && Read(fs, "node") == Some(Str(h.node))
    && Read(fs, "action") == Some(Str(h.action)) && Read(fs, "direction") == Some(Str(h.direction))
    && Read(fs, "status") == Some(Str(h.status)) && Read(fs, "timestamp") == Some(Str(p.isoformat(h.timestamp)))
    && Read(fs, "attempt") == Some(Count(h.attempt)) && Read(fs, "target_node") == Some(Text(h.targetNode))
    && Read(fs, "duration_ms") == Some(Count(h.durationMs)) && Read(fs, "queue_ms") == Some(Count(h.queueMs))
    && Read(fs, "network_ms") == Some(Count(h.networkMs)) && Read(fs, "error_code") == Some(Text(h.errorCode))
    && Read(fs, "error_message") == Some(Text(h.errorMessage))
    && Read(fs, "previous_hop_hash") == Some(Text(h.previousHopHash))
  }

  lemma PreimageKeysDistinct()
    ensures Distinct(HOP_HASH_KEYS)
  {
  }

  lemma RecordReadsAll(ks: seq<string>, vs: seq<Json>)
    requires |ks| == |vs| && Distinct(ks)
    ensures forall i :: 0 <= i < |ks| ==> Read(Record(ks, vs), ks[i]) == Some(vs[i])
  {
    forall i | 0 <= i < |ks| ensures Read(Record(ks, vs), ks[i]) == Some(vs[i]) {
      RecordReads(ks, vs, i);
    }
  }

  lemma PreimageNames(p: Platform, th: Digest, h: Hop)
    ensures PreimageNamed(p, Record(HOP_HASH_KEYS, HopHashValues(p, th, h)), th, h)
  {
    hide Read, Distinct;
    PreimageKeysDistinct();
    var ks, vs := HOP_HASH_KEYS, HopHashValues(p, th, h);
    RecordReadsAll(ks, vs);
    var fs := Record(ks, vs);
    assert Read(fs, ks[0]) == Some(vs[0]) && Read(fs, ks[1]) == Some(vs[1]) && Read(fs, ks[2]) == Some(vs[2]);
    assert Read(fs, ks[3]) == Some(vs[3]) && Read(fs, ks[4]) == Some(vs[4]) && Read(fs, ks[5]) == Some(vs[5]);
    assert Read(fs, ks[6]) == Some(vs[6]) && Read(fs, ks[7]) == Some(vs[7]) && Read(fs, ks[8]) == Some(vs[8]);
    assert Read(fs, ks[9]) == Some(vs[9]) && Read(fs, ks[10]) == Some(vs[10]) && Read(fs, ks[11]) == Some(vs[11]);
    assert Read(fs, ks[12]) == Some(vs[12]) && Read(fs, ks[13]) == Some(vs[13]) && Read(fs, ks[14]) == Some(vs[14]);
    assert Read(fs, ks[15]) == Some(vs[15]);
  }

  // A hop hash is the digest of the canonical JSON of these sixteen fields.
  lemma HopHashExactly(p: Platform, th: Digest, h: Hop) returns (fs: seq<Field>)
    ensures ComputeHopHash(p, th, h) == p.hash(CanonicalJson(Obj(fs))) && PreimageNamed(p, fs, th, h)
  {
    hide PreimageNamed, CanonicalJson;
    fs := Record(HOP_HASH_KEYS, HopHashValues(p, th, h));
    PreimageNames(p, th, h);
  }

  // The object, or the list of objects, that stands under a name.
  function FieldsAt(fs: seq<Field>, key: string): seq<Field> {
    var v := Read(fs, key);
    if v.Some? && v.value.Obj? then v.value.fields else []
  }

  function ItemsAt(fs: seq<Field>, key: string): seq<Json> {
    var v := Read(fs, key);
    if v.Some? && v.value.Arr? then v.value.items else []
  }

  predicate LinksNamed(vs: seq<Json>, sent: bool, f: Time -> string, ls: seq<Link>) {
    && |vs| == |ls|
    && forall i :: 0 <= i < |ls| ==> vs[i].Obj? && LinkNamed(vs[i].fields, sent, f, ls[i])
  }

  predicate AttachmentsNamed(vs: seq<Json>, sent: bool, ts: seq<Attachment>) {
    && |vs| == |ts|
    && forall i :: 0 <= i < |ts| ==> vs[i].Obj? && AttachmentNamed(vs[i].fields, sent, ts[i])
  }

  predicate HopsNamed(vs: seq<Json>, sent: bool, f: Time -> string, hs: seq<Hop>) {
    && |vs| == |hs|
    && forall i :: 0 <= i < |hs| ==> vs[i].Obj? && HopNamed(vs[i].fields, sent, f, hs[i])
  }

  // The sections that are both hashed and sent, each under its name.
  predicate CoreNamed(fs: seq<Field>, sent: bool, f: Time -> string, k: Packet) {
    && HeaderNamed(FieldsAt(fs, "header"), sent, f, k.header) && AddressNamed(FieldsAt(fs, "address"), sent, k.address)
    && TenantNamed(FieldsAt(fs, "tenant"), sent, k.tenant) && Read(fs, "payload") == Some(Obj(k.payload))
    && GovernanceNamed(FieldsAt(fs, "governance"), sent, k.governance)
    && LinksNamed(ItemsAt(fs, "delegation_chain"), sent, f, k.delegationChain)
    && LineageNamed(FieldsAt(fs, "lineage"), sent, k.lineage)
    && AttachmentsNamed(ItemsAt(fs, "attachments"), sent, k.attachments)
    && ProvenanceNamed(FieldsAt(fs, "provenance"), sent, k.provenance)
  }

  lemma LinksNames(sent: bool, f: Time -> string, ls: seq<Link>, vs: seq<Json>)
    requires |vs| == |ls|
    requires forall i :: 0 <= i < |ls| ==> vs[i] == Obj(Section(sent, LINK_KEYS, LinkValues(f, ls[i])))
    ensures LinksNamed(vs, sent, f, ls)
  {
    hide Section, LinkNamed;
    forall i | 0 <= i < |ls| ensures vs[i].Obj? && LinkNamed(vs[i].fields, sent, f, ls[i]) {
      LinkNames(sent, f, ls[i]);
    }
  }

  lemma AttachmentsNames(sent: bool, ts: seq<Attachment>, vs: seq<Json>)
    requires |vs| == |ts|
    requires forall i :: 0 <= i < |ts| ==> vs[i] == Obj(Section(sent, ATTACHMENT_KEYS, AttachmentValues(ts[i])))
    ensures AttachmentsNamed(vs, sent, ts)
  {
    hide Section, AttachmentNamed;
    forall i | 0 <= i < |ts| ensures vs[i].Obj? && AttachmentNamed(vs[i].fields, sent, ts[i]) {
      AttachmentNames(sent, ts[i]);
    }
  }

  lemma HopsNames(sent: bool, f: Time -> string, hs: seq<Hop>, vs: seq<Json>)
    requires |vs| == |hs|
    requires forall i :: 0 <= i < |hs| ==> vs[i] == Obj(Section(sent, HOP_KEYS, HopValues(f, hs[i])))
    ensures HopsNamed(vs, sent, f, hs)
  {
    hide Section, HopNamed;
    forall i | 0 <= i < |hs| ensures vs[i].Obj? && HopNamed(vs[i].fields, sent, f, hs[i]) {
      HopNames(sent, f, hs[i]);
    }
  }

  // The ten fields behind a transport hash.
  predicate EnvelopeNamed(p: Platform, fs: seq<Field>, k: Packet) {
    |fs| == 10 && CoreNamed(fs, false, p.isoformat, k)
    && Read(fs, "payload_hash") == Some(Str(k.security.payloadHash))
  }

  lemma EnvelopeKeysDistinct()
    ensures Distinct(ENVELOPE_KEYS)
  {
  }

  lemma EnvelopeReads(p: Platform, k: Packet)
    ensures var fs := Record(ENVELOPE_KEYS, EnvelopeValues(p, k));
            && |fs| == 10
            && Read(fs, "header") == Some(HeaderJson(p, k.header))
            && Read(fs, "address") == Some(AddressJson(k.address)) && Read(fs, "tenant") == Some(TenantJson(k.tenant))
            && Read(fs, "payload") == Some(Obj(k.payload))
            && Read(fs, "governance") == Some(GovernanceJson(k.governance))
            && Read(fs, "delegation_chain") == Some(Arr(LinkJsons(p, k.delegationChain)))
            && Read(fs, "lineage") == Some(LineageJson(k.lineage))
            && Read(fs, "attachments") == Some(Arr(AttachmentJsons(k.attachments)))
            && Read(fs, "provenance") == Some(ProvenanceJson(k.provenance))
            && Read(fs, "payload_hash") == Some(Str(k.security.payloadHash))
  {
    hide Read, Distinct, HeaderJson, AddressJson, TenantJson, GovernanceJson, LinkJsons, LineageJson, AttachmentJsons,
         ProvenanceJson;
    EnvelopeKeysDistinct();
    var ks, vs := ENVELOPE_KEYS, EnvelopeValues(p, k);
    RecordReadsAll(ks, vs);
    var fs := Record(ks, vs);
    assert Read(fs, ks[0]) == Some(vs[0]) && Read(fs, ks[1]) == Some(vs[1]) && Read(fs, ks[2]) == Some(vs[2]);
    assert Read(fs, ks[3]) == Some(vs[3]) && Read(fs, ks[4]) == Some(vs[4]) && Read(fs, ks[5]) == Some(vs[5]);
    assert Read(fs, ks[6]) == Some(vs[6]) && Read(fs, ks[7]) == Some(vs[7]) && Read(fs, ks[8]) == Some(vs[8]);
    assert Read(fs, ks[9]) == Some(vs[9]);
  }

  // A transport hash is the digest of the canonical JSON of these ten fields, and a
  // payload hash that of the payload.
  lemma TransportHashExactly(p: Platform, k: Packet) returns (fs: seq<Field>)
    ensures ComputeTransportHash(p, k) == p.hash(CanonicalJson(Obj(fs))) && EnvelopeNamed(p, fs, k)
    ensures ComputePayloadHash(p, k.payload) == p.hash(CanonicalJson(Obj(k.payload)))
  {
    hide CanonicalJson, HeaderNamed, AddressNamed, TenantNamed, GovernanceNamed, LinksNamed, LineageNamed,
         AttachmentsNamed, ProvenanceNamed, HeaderValues, AddressValues, TenantValues, GovernanceValues,
         LineageValues, ProvenanceValues, LinkValues, AttachmentValues, Read;
    fs := Record(ENVELOPE_KEYS, EnvelopeValues(p, k));
    EnvelopeReads(p, k);
    HeaderNames(false, p.isoformat, k.header);
    AddressNames(false, k.address);
    TenantNames(false, k.tenant);
    GovernanceNames(false, k.governance);
    LinksNames(false, p.isoformat, k.delegationChain, LinkJsons(p, k.delegationChain));
    LineageNames(false, k.lineage);
    AttachmentsNames(false, k.attachments, AttachmentJsons(k.attachments));
    ProvenanceNames(false, k.provenance);
  }

  // Constructing a packet checks these two hashes and nothing else.
  lemma IntegrityExactly(p: Platform, k: Packet) returns (fs: seq<Field>)
    ensures EnvelopeNamed(p, fs, k)
    ensures NewPacket(p, k)
            == if k.security.payloadHash == p.hash(CanonicalJson(Obj(k.payload)))
                  && k.security.transportHash == p.hash(CanonicalJson(Obj(fs)))
               then Ok(k) else Err(IntegrityError)
  {
    hide EnvelopeNamed, CanonicalJson;
    fs := TransportHashExactly(p, k);
  }

  // ---------------------------------------------------------------------
  // What is sent
  // ---------------------------------------------------------------------

  lemma PacketReads(p: Platform, k: Packet)
    ensures Encode(p, k).Obj?
    ensures var fs := Encode(p, k).fields;
            && Read(fs, "header") == Some(Dump(HEADER_KEYS, HeaderValues(p.wireTime, k.header)))
            && Read(fs, "address") == Some(Dump(ADDRESS_KEYS, AddressValues(k.address)))
            && Read(fs, "tenant") == Some(Dump(TENANT_KEYS, TenantValues(k.tenant)))
            && Read(fs, "payload") == Some(Obj(k.payload))
            && Read(fs, "security") == Some(Dump(SECURITY_KEYS, SecurityValues(k.security)))
            && Read(fs, "governance") == Some(Dump(GOVERNANCE_KEYS, GovernanceValues(k.governance)))
            && Read(fs, "provenance") == Some(Dump(PROVENANCE_KEYS, ProvenanceValues(k.provenance)))
            && Read(fs, "delegation_chain") == Some(Arr(EncodeAll(l => EncodeLink(p, l), k.delegationChain)))
            && Read(fs, "hop_trace") == Some(Arr(EncodeAll(h => EncodeHop(p, h), k.hopTrace)))
            && Read(fs, "lineage") == Some(Dump(LINEAGE_KEYS, LineageValues(k.lineage)))
            && Read(fs, "attachments") == Some(Arr(EncodeAll(EncodeAttachment, k.attachments)))
  {
    hide Present, Readable, EncodeAll, HeaderValues, AddressValues, TenantValues, SecurityValues, GovernanceValues,
         ProvenanceValues, LineageValues, Read;
    EncodeSlots(p, k);
    var fs, s := Encode(p, k).fields, Slots(Encode(p, k), PACKET_KEYS);
    var ks := PACKET_KEYS;
    assert s[0] == Read(fs, ks[0]) && s[1] == Read(fs, ks[1]) && s[2] == Read(fs, ks[2]) && s[3] == Read(fs, ks[3]);
    assert s[4] == Read(fs, ks[4]) && s[5] == Read(fs, ks[5]) && s[6] == Read(fs, ks[6]) && s[7] == Read(fs, ks[7]);
    assert s[8] == Read(fs, ks[8]) && s[9] == Read(fs, ks[9]) && s[10] == Read(fs, ks[10]);
  }

  // An encoded packet holds every section and every field under its name.
  lemma EncodedExactly(p: Platform, k: Packet)
    ensures Encode(p, k).Obj?
    ensures var fs := Encode(p, k).fields;
            && CoreNamed(fs, true, p.wireTime, k)
            && SecurityNamed(FieldsAt(fs, "security"), true, k.security)
            && HopsNamed(ItemsAt(fs, "hop_trace"), true, p.wireTime, k.hopTrace)
  {
    hide HeaderNamed, AddressNamed, TenantNamed, GovernanceNamed, LinksNamed, LineageNamed, AttachmentsNamed,
         ProvenanceNamed, SecurityNamed, HopsNamed, HeaderValues, AddressValues, TenantValues, GovernanceValues,
         LineageValues, ProvenanceValues, LinkValues, AttachmentValues, SecurityValues, HopValues, Read, Present,
         Encode;
    PacketReads(p, k);
    HeaderNames(true, p.wireTime, k.header);
    AddressNames(true, k.address);
    TenantNames(true, k.tenant);
    GovernanceNames(true, k.governance);
    LinksNames(true, p.wireTime, k.delegationChain, EncodeAll(l => EncodeLink(p, l), k.delegationChain));
    LineageNames(true, k.lineage);
    AttachmentsNames(true, k.attachments, EncodeAll(EncodeAttachment, k.attachments));
    ProvenanceNames(true, k.provenance);
    SecurityNames(true, k.security);
    HopsNames(true, p.wireTime, k.hopTrace, EncodeAll(h => EncodeHop(p, h), k.hopTrace));
  }
}
