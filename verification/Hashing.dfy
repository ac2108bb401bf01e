// transport/hashing.py and compute_hop_hash: what the digests cover.
module Hashing {
  import opened Wrappers
  import opened Strings
  import opened Json
  import opened Canonical
  import opened Models
  import opened Platforms

  function StrOpt(s: Option<string>): Json {
    match s case None => Null case Some(t) => Str(t)
  }

  function NumOpt(n: Option<int>): Json {
    match n case None => Null case Some(i) => Num(i)
  }

  // A time in the textual form `f`: isoformat when hashing, wireTime when sending.
  function TimeJson(f: Time -> string, t: Time): Json {
    Str(f(t))
  }

  function TimeOpt(f: Time -> string, t: Option<Time>): Json {
    match t case None => Null case Some(u) => TimeJson(f, u)
  }

  function Strs(ss: seq<string>): seq<Json> {
    seq(|ss|, i requires 0 <= i < |ss| => Str(ss[i]))
  }

  function DictOpt(d: Option<seq<Field>>): Json {
    match d case None => Null case Some(fs) => Obj(fs)
  }

  const HEADER_KEYS := ["packet_id", "packet_type", "action", "priority", "created_at", "expires_at", "timeout_ms",
                        "schema_version", "idempotency_key", "trace_id", "correlation_id", "causation_id",
                        "retry_count", "replay_mode", "not_before"]

  function HeaderValues(f: Time -> string, h: Header): (r: seq<Json>)
    ensures |r| == |HEADER_KEYS|
  {
    [Str(h.packetId), Str(h.packetType), Str(h.action), Num(h.priority), TimeJson(f, h.createdAt),
     TimeOpt(f, h.expiresAt), Num(h.timeoutMs), Str(h.schemaVersion), StrOpt(h.idempotencyKey), StrOpt(h.traceId),
     StrOpt(h.correlationId), StrOpt(h.causationId), Num(h.retryCount), Bool(h.replayMode), TimeOpt(f, h.notBefore)]
  }

  function HeaderJson(p: Platform, h: Header): Json {
    Obj(Record(HEADER_KEYS, HeaderValues(p.isoformat, h)))
  }

  const ADDRESS_KEYS := ["source_node", "destination_node", "reply_to"]

  function AddressValues(a: Address): (r: seq<Json>)
    ensures |r| == |ADDRESS_KEYS|
  {
    [Str(a.sourceNode), Str(a.destinationNode), Str(a.replyTo)]
  }

  function AddressJson(a: Address): Json {
    Obj(Record(ADDRESS_KEYS, AddressValues(a)))
  }

  const TENANT_KEYS := ["actor", "on_behalf_of", "originator", "org_id", "user_id"]

  function TenantValues(t: Tenant): (r: seq<Json>)
    ensures |r| == |TENANT_KEYS|
  {
    [Str(t.actor), Str(t.onBehalfOf), Str(t.originator), Str(t.orgId), StrOpt(t.userId)]
  }

  function TenantJson(t: Tenant): Json {
    Obj(Record(TENANT_KEYS, TenantValues(t)))
  }

  const GOVERNANCE_KEYS := ["intent", "compliance_tags", "retention_days", "redaction_applied", "audit_required",
                            "data_subject_id"]

  function GovernanceValues(g: Governance): (r: seq<Json>)
    ensures |r| == |GOVERNANCE_KEYS|
  {
    [Str(g.intent), Arr(Strs(g.complianceTags)), Num(g.retentionDays), Bool(g.redactionApplied),
     Bool(g.auditRequired), StrOpt(g.dataSubjectId)]
  }

  function GovernanceJson(g: Governance): Json {
    Obj(Record(GOVERNANCE_KEYS, GovernanceValues(g)))
  }

  const PROVENANCE_KEYS := ["origin_kind", "requested_action", "resolved_by_gate", "route_kind",
                            "original_source_node"]

  function ProvenanceValues(v: Provenance): (r: seq<Json>)
    ensures |r| == |PROVENANCE_KEYS|
  {
    [Str(v.originKind), Str(v.requestedAction), Bool(v.resolvedByGate), StrOpt(v.routeKind),
     StrOpt(v.originalSourceNode)]
  }

  function ProvenanceJson(v: Provenance): Json {
    Obj(Record(PROVENANCE_KEYS, ProvenanceValues(v)))
  }

  const LINEAGE_KEYS := ["parent_id", "root_id", "generation"]

  function LineageValues(l: Lineage): (r: seq<Json>)
    ensures |r| == |LINEAGE_KEYS|
  {
    [StrOpt(l.parentId), Str(l.rootId), Num(l.generation)]
  }

  function LineageJson(l: Lineage): Json {
    Obj(Record(LINEAGE_KEYS, LineageValues(l)))
  }

  const ATTACHMENT_KEYS := ["attachment_id", "media_type", "uri", "content_hash", "encrypted", "size_bytes"]

  function AttachmentValues(a: Attachment): (r: seq<Json>)
    ensures |r| == |ATTACHMENT_KEYS|
  {
    [Str(a.attachmentId), Str(a.mediaType), Str(a.uri), Str(a.contentHash), Bool(a.encrypted), Num(a.sizeBytes)]
  }

  const LINK_KEYS := ["delegator", "delegatee", "scope", "granted_at", "expires_at", "constraints", "proof"]

  function LinkValues(f: Time -> string, l: Link): (r: seq<Json>)
    ensures |r| == |LINK_KEYS|
  {
    [Str(l.delegator), Str(l.delegatee), Arr(Strs(l.scope)), TimeJson(f, l.grantedAt), TimeOpt(f, l.expiresAt),
     DictOpt(l.constraints), StrOpt(l.proof)]
  }

  function LinkJson(p: Platform, l: Link): Json {
    Obj(Record(LINK_KEYS, LinkValues(p.isoformat, l)))
  }

  function AttachmentJson(a: Attachment): Json {
    Obj(Record(ATTACHMENT_KEYS, AttachmentValues(a)))
  }

  function LinkJsons(p: Platform, ls: seq<Link>): seq<Json> {
    seq(|ls|, i requires 0 <= i < |ls| => LinkJson(p, ls[i]))
  }

  function AttachmentJsons(ts: seq<Attachment>): seq<Json> {
    seq(|ts|, i requires 0 <= i < |ts| => AttachmentJson(ts[i]))
  }

  const ENVELOPE_KEYS := ["header", "address", "tenant", "payload", "governance", "delegation_chain", "lineage",
                          "attachments", "provenance", "payload_hash"]

  function EnvelopeValues(p: Platform, k: Packet): (r: seq<Json>)
    ensures |r| == |ENVELOPE_KEYS|
  {
    [HeaderJson(p, k.header), AddressJson(k.address), TenantJson(k.tenant), Obj(k.payload),
     GovernanceJson(k.governance), Arr(LinkJsons(p, k.delegationChain)), LineageJson(k.lineage),
     Arr(AttachmentJsons(k.attachments)), ProvenanceJson(k.provenance), Str(k.security.payloadHash)]
  }

  function PayloadBytes(payload: seq<Field>): seq<Byte> {
    CanonicalJson(Obj(payload))
  }

  function EnvelopeJson(p: Platform, k: Packet): Json {
    Obj(Record(ENVELOPE_KEYS, EnvelopeValues(p, k)))
  }

  function EnvelopeBytes(p: Platform, k: Packet): seq<Byte> {
    CanonicalJson(EnvelopeJson(p, k))
  }

  function ComputePayloadHash(p: Platform, payload: seq<Field>): Digest {
    p.hash(PayloadBytes(payload))
  }

  function ComputeTransportHash(p: Platform, k: Packet): Digest {
    p.hash(EnvelopeBytes(p, k))
  }

  const HOP_HASH_KEYS := ["transport_hash", "hop_id", "packet_id", "node", "action", "direction", "status",
                          "timestamp", "attempt", "target_node", "duration_ms", "queue_ms", "network_ms",
                          "error_code", "error_message", "previous_hop_hash"]

  function HopHashValues(p: Platform, transportHash: Digest, h: Hop): (r: seq<Json>)
    ensures |r| == |HOP_HASH_KEYS|
  {
    [Str(transportHash), Str(h.hopId), Str(h.packetId), Str(h.node), Str(h.action), Str(h.direction), Str(h.status),
     TimeJson(p.isoformat, h.timestamp), NumOpt(h.attempt), StrOpt(h.targetNode), NumOpt(h.durationMs),
     NumOpt(h.queueMs), NumOpt(h.networkMs), StrOpt(h.errorCode), StrOpt(h.errorMessage), StrOpt(h.previousHopHash)]
  }

  function HopJson(p: Platform, transportHash: Digest, h: Hop): Json {
    Obj(Record(HOP_HASH_KEYS, HopHashValues(p, transportHash, h)))
  }

  function HopBytes(p: Platform, transportHash: Digest, h: Hop): seq<Byte> {
    CanonicalJson(HopJson(p, transportHash, h))
  }

  // compute_hop_hash
  function ComputeHopHash(p: Platform, transportHash: Digest, h: Hop): Digest {
    p.hash(HopBytes(p, transportHash, h))
  }

  // ---------------------------------------------------------------------
  // Equal bytes, equal fields
  // ---------------------------------------------------------------------

  lemma TimeOptInjective(p: Platform, s: Option<Time>, t: Option<Time>)
    requires Lawful(p) && TimeOpt(p.isoformat, s) == TimeOpt(p.isoformat, t)
    ensures s == t
  {
    if s.Some? && t.Some? {
      TimeInjective(p, s.value, t.value);
    }
  }

  lemma TimeInjective(p: Platform, s: Time, t: Time)
    requires Lawful(p) && TimeJson(p.isoformat, s) == TimeJson(p.isoformat, t)
    ensures s == t
  {
    assert p.readTime(p.isoformat(s)) == Some(s) && p.readTime(p.isoformat(t)) == Some(t);
  }

  lemma StrsInjective(a: seq<string>, b: seq<string>)
    requires Canonicalize(Arr(Strs(a))) == Canonicalize(Arr(Strs(b)))
    ensures a == b
  {
    assert |a| == |CanonItems(Strs(a))| == |b|;
    forall i | 0 <= i < |a| ensures a[i] == b[i] {
      CanonItemAt(Strs(a), i);
      CanonItemAt(Strs(b), i);
    }
  }

  lemma HeaderValuesInjective(p: Platform, a: Header, b: Header)
    requires Lawful(p)
    requires HeaderValues(p.isoformat, a) == HeaderValues(p.isoformat, b)
    ensures a == b
  {
    var vs, ws := HeaderValues(p.isoformat, a), HeaderValues(p.isoformat, b);
    assert vs[0] == ws[0] && vs[1] == ws[1] && vs[2] == ws[2] && vs[3] == ws[3] && vs[4] == ws[4];
    assert vs[5] == ws[5] && vs[6] == ws[6] && vs[7] == ws[7] && vs[8] == ws[8] && vs[9] == ws[9];
    assert vs[10] == ws[10] && vs[11] == ws[11] && vs[12] == ws[12] && vs[13] == ws[13] && vs[14] == ws[14];
    TimeInjective(p, a.createdAt, b.createdAt);
    TimeOptInjective(p, a.expiresAt, b.expiresAt);
    TimeOptInjective(p, a.notBefore, b.notBefore);
  }

  // The fields of a hop that compute_hop_hash covers.
  function Hashed(h: Hop): Hop {
    h.(hopHash := ZEROS, hopSignature := None, hopSignatureAlgorithm := None, hopSigningKeyId := None)
  }

  lemma HopFromValues(vs: seq<Json>, ws: seq<Json>, p: Platform, a: Hop, b: Hop)
    requires Lawful(p) && |vs| == 16 && vs == ws
    requires vs[1] == Str(a.hopId) && vs[2] == Str(a.packetId) && vs[3] == Str(a.node) && vs[4] == Str(a.action)
    requires ws[1] == Str(b.hopId) && ws[2] == Str(b.packetId) && ws[3] == Str(b.node) && ws[4] == Str(b.action)
    requires vs[5] == Str(a.direction) && vs[6] == Str(a.status) && vs[7] == TimeJson(p.isoformat, a.timestamp)
    requires ws[5] == Str(b.direction) && ws[6] == Str(b.status) && ws[7] == TimeJson(p.isoformat, b.timestamp)
    requires vs[8] == NumOpt(a.attempt) && vs[9] == StrOpt(a.targetNode) && vs[10] == NumOpt(a.durationMs)
    requires ws[8] == NumOpt(b.attempt) && ws[9] == StrOpt(b.targetNode) && ws[10] == NumOpt(b.durationMs)
    requires vs[11] == NumOpt(a.queueMs) && vs[12] == NumOpt(a.networkMs) && vs[13] == StrOpt(a.errorCode)
    requires ws[11] == NumOpt(b.queueMs) && ws[12] == NumOpt(b.networkMs) && ws[13] == StrOpt(b.errorCode)
    requires vs[14] == StrOpt(a.errorMessage) && vs[15] == StrOpt(a.previousHopHash)
    requires ws[14] == StrOpt(b.errorMessage) && ws[15] == StrOpt(b.previousHopHash)
    ensures Hashed(a) == Hashed(b)
  {
    TimeInjective(p, a.timestamp, b.timestamp);
  }

  lemma HopValuesInjective(p: Platform, ta: Digest, a: Hop, tb: Digest, b: Hop)
    requires Lawful(p)
    requires HopHashValues(p, ta, a) == HopHashValues(p, tb, b)
    ensures ta == tb && Hashed(a) == Hashed(b)
  {
    hide StrOpt, NumOpt, TimeJson, Hashed;
    var vs, ws := HopHashValues(p, ta, a), HopHashValues(p, tb, b);
    assert vs[0] == ws[0];
    HopFromValues(vs, ws, p, a, b);
  }

  // The bytes that are hashed determine the transport hash and every covered field.
  lemma HopBytesInjective(p: Platform, ta: Digest, a: Hop, tb: Digest, b: Hop)
    requires Lawful(p)
    requires HopBytes(p, ta, a) == HopBytes(p, tb, b)
    ensures ta == tb && Hashed(a) == Hashed(b)
  {
    hide Canonicalize, CanonicalJson;
    BytesDetermineForm(HopJson(p, ta, a), HopJson(p, tb, b));
    LeavesInjective(HOP_HASH_KEYS, HopHashValues(p, ta, a), HopHashValues(p, tb, b));
    HopValuesInjective(p, ta, a, tb, b);
  }

  lemma AddressValuesInjective(a: Address, b: Address)
    requires AddressValues(a) == AddressValues(b)
    ensures a == b
  {
    var vs, ws := AddressValues(a), AddressValues(b);
    assert vs[0] == ws[0] && vs[1] == ws[1] && vs[2] == ws[2];
  }

  lemma TenantValuesInjective(a: Tenant, b: Tenant)
    requires TenantValues(a) == TenantValues(b)
    ensures a == b
  {
    var vs, ws := TenantValues(a), TenantValues(b);
    assert vs[0] == ws[0] && vs[1] == ws[1] && vs[2] == ws[2] && vs[3] == ws[3] && vs[4] == ws[4];
  }

  lemma ProvenanceValuesInjective(a: Provenance, b: Provenance)
    requires ProvenanceValues(a) == ProvenanceValues(b)
    ensures a == b
  {
    var vs, ws := ProvenanceValues(a), ProvenanceValues(b);
    assert vs[0] == ws[0] && vs[1] == ws[1] && vs[2] == ws[2] && vs[3] == ws[3] && vs[4] == ws[4];
  }

  lemma LineageValuesInjective(a: Lineage, b: Lineage)
    requires LineageValues(a) == LineageValues(b)
    ensures a == b
  {
    var vs, ws := LineageValues(a), LineageValues(b);
    assert vs[0] == ws[0] && vs[1] == ws[1] && vs[2] == ws[2];
  }

  lemma AttachmentValuesInjective(a: Attachment, b: Attachment)
    requires AttachmentValues(a) == AttachmentValues(b)
    ensures a == b
  {
    var vs, ws := AttachmentValues(a), AttachmentValues(b);
    assert vs[0] == ws[0] && vs[1] == ws[1] && vs[2] == ws[2] && vs[3] == ws[3] && vs[4] == ws[4] && vs[5] == ws[5];
  }

  lemma GovernanceFromValues(ks: seq<string>, vs: seq<Json>, ws: seq<Json>, a: Governance, b: Governance)
    requires |ks| == |vs| == |ws| == 6
    requires Canonicalize(Obj(Record(ks, vs))) == Canonicalize(Obj(Record(ks, ws)))
    requires vs[0] == Str(a.intent) && vs[1] == Arr(Strs(a.complianceTags)) && vs[2] == Num(a.retentionDays)
    requires ws[0] == Str(b.intent) && ws[1] == Arr(Strs(b.complianceTags)) && ws[2] == Num(b.retentionDays)
    requires vs[3] == Bool(a.redactionApplied) && vs[4] == Bool(a.auditRequired) && vs[5] == StrOpt(a.dataSubjectId)
    requires ws[3] == Bool(b.redactionApplied) && ws[4] == Bool(b.auditRequired) && ws[5] == StrOpt(b.dataSubjectId)
    ensures a == b
  {
    RecordInjective(ks, vs, ws);
    StrsInjective(a.complianceTags, b.complianceTags);
  }

  // Equal links, except that constraint dicts need only be the same value.
  predicate SameLink(a: Link, b: Link) {
    && a.(constraints := None) == b.(constraints := None)
    && Canonicalize(DictOpt(a.constraints)) == Canonicalize(DictOpt(b.constraints))
  }

  lemma LinkFromValues(ks: seq<string>, vs: seq<Json>, ws: seq<Json>, p: Platform, a: Link, b: Link)
    requires Lawful(p) && |ks| == |vs| == |ws| == 7
    requires Canonicalize(Obj(Record(ks, vs))) == Canonicalize(Obj(Record(ks, ws)))
    requires vs[0] == Str(a.delegator) && vs[1] == Str(a.delegatee) && vs[2] == Arr(Strs(a.scope))
    requires ws[0] == Str(b.delegator) && ws[1] == Str(b.delegatee) && ws[2] == Arr(Strs(b.scope))
    requires vs[3] == TimeJson(p.isoformat, a.grantedAt) && vs[4] == TimeOpt(p.isoformat, a.expiresAt)
    requires ws[3] == TimeJson(p.isoformat, b.grantedAt) && ws[4] == TimeOpt(p.isoformat, b.expiresAt)
    requires vs[5] == DictOpt(a.constraints) && vs[6] == StrOpt(a.proof)
    requires ws[5] == DictOpt(b.constraints) && ws[6] == StrOpt(b.proof)
    ensures SameLink(a, b)
  {
    RecordInjective(ks, vs, ws);
    StrsInjective(a.scope, b.scope);
    assert Canonicalize(vs[3]) == vs[3] && Canonicalize(ws[3]) == ws[3];
    TimeInjective(p, a.grantedAt, b.grantedAt);
    assert Canonicalize(vs[4]) == vs[4] && Canonicalize(ws[4]) == ws[4];
    TimeOptInjective(p, a.expiresAt, b.expiresAt);
    assert Canonicalize(vs[6]) == vs[6] && Canonicalize(ws[6]) == ws[6];
  }

  lemma LinkInjective(p: Platform, a: Link, b: Link)
    requires Lawful(p) && Canonicalize(LinkJson(p, a)) == Canonicalize(LinkJson(p, b))
    ensures SameLink(a, b)
  {
    LinkFromValues(LINK_KEYS, LinkValues(p.isoformat, a), LinkValues(p.isoformat, b), p, a, b);
  }

  predicate SameLinks(a: seq<Link>, b: seq<Link>) {
    |a| == |b| && forall i :: 0 <= i < |a| ==> SameLink(a[i], b[i])
  }

  lemma LinksInjective(p: Platform, a: seq<Link>, b: seq<Link>)
    requires Lawful(p)
    requires Canonicalize(Arr(LinkJsons(p, a))) == Canonicalize(Arr(LinkJsons(p, b)))
    ensures SameLinks(a, b)
  {
    assert |a| == |CanonItems(LinkJsons(p, a))| == |b|;
    forall i | 0 <= i < |a| ensures SameLink(a[i], b[i]) {
      CanonItemAt(LinkJsons(p, a), i);
      CanonItemAt(LinkJsons(p, b), i);
      LinkInjective(p, a[i], b[i]);
    }
  }

  lemma AttachmentInjective(a: Attachment, b: Attachment)
    requires Canonicalize(AttachmentJson(a)) == Canonicalize(AttachmentJson(b))
    ensures a == b
  {
    LeavesInjective(ATTACHMENT_KEYS, AttachmentValues(a), AttachmentValues(b));
    AttachmentValuesInjective(a, b);
  }

  lemma AttachmentsInjective(a: seq<Attachment>, b: seq<Attachment>)
    requires Canonicalize(Arr(AttachmentJsons(a))) == Canonicalize(Arr(AttachmentJsons(b)))
    ensures a == b
  {
    assert |a| == |CanonItems(AttachmentJsons(a))| == |b|;
    forall i | 0 <= i < |a| ensures a[i] == b[i] {
      CanonItemAt(AttachmentJsons(a), i);
      CanonItemAt(AttachmentJsons(b), i);
      AttachmentInjective(a[i], b[i]);
    }
  }

  // The nine sections the transport hash covers, and the payload hash.
  ghost predicate SameContent(a: Packet, b: Packet) {
    && a.header == b.header && a.address == b.address && a.tenant == b.tenant
    && Canonicalize(Obj(a.payload)) == Canonicalize(Obj(b.payload))
    && a.governance == b.governance && a.provenance == b.provenance
    && SameLinks(a.delegationChain, b.delegationChain)
    && a.lineage == b.lineage && a.attachments == b.attachments
    && a.security.payloadHash == b.security.payloadHash
  }

  lemma HeaderLeaves(f: Time -> string, h: Header)
    ensures Leaves(HeaderValues(f, h))
  {
  }

  lemma HeaderInjective(p: Platform, a: Header, b: Header)
    requires Lawful(p) && Canonicalize(HeaderJson(p, a)) == Canonicalize(HeaderJson(p, b))
    ensures a == b
  {
    hide Canonicalize, HeaderValues, Leaves;
    HeaderLeaves(p.isoformat, a);
    HeaderLeaves(p.isoformat, b);
    LeavesInjective(HEADER_KEYS, HeaderValues(p.isoformat, a), HeaderValues(p.isoformat, b));
    HeaderValuesInjective(p, a, b);
  }

  lemma AddressInjective(a: Address, b: Address)
    requires Canonicalize(AddressJson(a)) == Canonicalize(AddressJson(b))
    ensures a == b
  {
    LeavesInjective(ADDRESS_KEYS, AddressValues(a), AddressValues(b));
    AddressValuesInjective(a, b);
  }

  lemma TenantInjective(a: Tenant, b: Tenant)
    requires Canonicalize(TenantJson(a)) == Canonicalize(TenantJson(b))
    ensures a == b
  {
    LeavesInjective(TENANT_KEYS, TenantValues(a), TenantValues(b));
    TenantValuesInjective(a, b);
  }

  lemma ProvenanceInjective(a: Provenance, b: Provenance)
    requires Canonicalize(ProvenanceJson(a)) == Canonicalize(ProvenanceJson(b))
    ensures a == b
  {
    LeavesInjective(PROVENANCE_KEYS, ProvenanceValues(a), ProvenanceValues(b));
    ProvenanceValuesInjective(a, b);
  }

  lemma LineageInjective(a: Lineage, b: Lineage)
    requires Canonicalize(LineageJson(a)) == Canonicalize(LineageJson(b))
    ensures a == b
  {
    LeavesInjective(LINEAGE_KEYS, LineageValues(a), LineageValues(b));
    LineageValuesInjective(a, b);
  }

  lemma GovernanceInjective(a: Governance, b: Governance)
    requires Canonicalize(GovernanceJson(a)) == Canonicalize(GovernanceJson(b))
    ensures a == b
  {
    GovernanceFromValues(GOVERNANCE_KEYS, GovernanceValues(a), GovernanceValues(b), a, b);
  }

  lemma EnvelopeFromValues(ks: seq<string>, vs: seq<Json>, ws: seq<Json>, p: Platform, a: Packet, b: Packet)
    requires Lawful(p) && |ks| == |vs| == |ws| == 10
    requires Canonicalize(Obj(Record(ks, vs))) == Canonicalize(Obj(Record(ks, ws)))
    requires vs[0] == HeaderJson(p, a.header) && ws[0] == HeaderJson(p, b.header)
    requires vs[1] == AddressJson(a.address) && ws[1] == AddressJson(b.address)
    requires vs[2] == TenantJson(a.tenant) && ws[2] == TenantJson(b.tenant)
    requires vs[3] == Obj(a.payload) && ws[3] == Obj(b.payload)
    requires vs[4] == GovernanceJson(a.governance) && ws[4] == GovernanceJson(b.governance)
    requires vs[5] == Arr(LinkJsons(p, a.delegationChain)) && ws[5] == Arr(LinkJsons(p, b.delegationChain))
    requires vs[6] == LineageJson(a.lineage) && ws[6] == LineageJson(b.lineage)
    requires vs[7] == Arr(AttachmentJsons(a.attachments)) && ws[7] == Arr(AttachmentJsons(b.attachments))
    requires vs[8] == ProvenanceJson(a.provenance) && ws[8] == ProvenanceJson(b.provenance)
    requires vs[9] == Str(a.security.payloadHash) && ws[9] == Str(b.security.payloadHash)
    ensures SameContent(a, b)
  {
    RecordInjective(ks, vs, ws);
    HeaderInjective(p, a.header, b.header);
    AddressInjective(a.address, b.address);
    TenantInjective(a.tenant, b.tenant);
    GovernanceInjective(a.governance, b.governance);
    LinksInjective(p, a.delegationChain, b.delegationChain);
    LineageInjective(a.lineage, b.lineage);
    AttachmentsInjective(a.attachments, b.attachments);
    ProvenanceInjective(a.provenance, b.provenance);
    assert Canonicalize(vs[9]) == vs[9] && Canonicalize(ws[9]) == ws[9];
  }

  // The bytes behind a transport hash determine everything the hash covers.
  lemma EnvelopeBytesInjective(p: Platform, a: Packet, b: Packet)
    requires Lawful(p) && EnvelopeBytes(p, a) == EnvelopeBytes(p, b)
    ensures SameContent(a, b)
  {
    hide HeaderJson, AddressJson, TenantJson, GovernanceJson, LineageJson, ProvenanceJson, LinkJsons, AttachmentJsons;
    hide Canonicalize, CanonicalJson, SameContent;
    assert CanonicalJson(EnvelopeJson(p, a)) == CanonicalJson(EnvelopeJson(p, b));
    BytesDetermineForm(EnvelopeJson(p, a), EnvelopeJson(p, b));
    EnvelopeFromValues(ENVELOPE_KEYS, EnvelopeValues(p, a), EnvelopeValues(p, b), p, a, b);
  }
}
