// transport/models.py, transport/tenant.py and transport/provenance.py: the
// frozen models and the validators that run when one is constructed.
module Models {
  import opened Wrappers
  import opened Strings
  import opened Json

  // Microseconds since the epoch, always UTC (ensure_utc).
  type Time = int

  predicate IsHex(c: char) {
    '0' <= c <= '9' || 'a' <= c <= 'f'
  }

  predicate IsDigest(s: string) {
    |s| == 64 && forall i :: 0 <= i < |s| ==> IsHex(s[i])
  }

  // "0" * 64
  function Zeros(): (r: string)
    ensures IsDigest(r)
  {
    seq(64, _ => '0')
  }

  // A lowercase SHA-256 hex digest.
  type Digest = s: string | IsDigest(s) witness Zeros()

  const ZEROS: Digest := Zeros()

  predicate IsUuid(s: string) {
    |s| == 36 && forall i :: 0 <= i < 36 ==> if i in {8, 13, 18, 23} then s[i] == '-' else IsHex(s[i])
  }

  // str(uuid)
  type Uuid = s: string | IsUuid(s) witness "00000000-0000-0000-0000-000000000000"

  const PACKET_TYPES := {"request", "response", "event", "command", "delegation", "failure",
                         "replay_request", "replay_response", "compensation"}
  const CLASSIFICATIONS := {"public", "internal", "confidential", "restricted"}
  const ENCRYPTIONS := {"plaintext", "encrypted", "envelope_only"}
  const ALGORITHMS := {"hmac-sha256", "ed25519"}
  const DIRECTIONS := {"ingress", "dispatch", "execution", "response"}
  const STATUSES := {"received", "validated", "processing", "delegated", "completed", "failed"}

  datatype Header = Header(
    packetId: Uuid,
    packetType: string,
    action: string,
    priority: int,
    createdAt: Time,
    expiresAt: Option<Time>,
    timeoutMs: int,
    schemaVersion: string,
    idempotencyKey: Option<string>,
    traceId: Option<string>,
    correlationId: Option<string>,
    causationId: Option<Uuid>,
    retryCount: int,
    replayMode: bool,
    notBefore: Option<Time>)

  datatype Address = Address(sourceNode: string, destinationNode: string, replyTo: string)

  datatype Tenant = Tenant(actor: string, onBehalfOf: string, originator: string, orgId: string, userId: Option<string>)

  datatype Security = Security(
    payloadHash: Digest,
    transportHash: Digest,
    signature: Option<string>,
    signatureAlgorithm: Option<string>,
    signingKeyId: Option<string>,
    classification: string,
    encryptionStatus: string,
    piiFields: seq<string>)

  datatype Governance = Governance(
    intent: string,
    complianceTags: seq<string>,
    retentionDays: int,
    redactionApplied: bool,
    auditRequired: bool,
    dataSubjectId: Option<string>)

  datatype Provenance = Provenance(
    originKind: string,
    requestedAction: string,
    resolvedByGate: bool,
    routeKind: Option<string>,
    originalSourceNode: Option<string>)

  datatype Lineage = Lineage(parentId: Option<Uuid>, rootId: Uuid, generation: int)

  datatype Attachment = Attachment(
    attachmentId: Uuid,
    mediaType: string,
    uri: string,
    contentHash: Digest,
    encrypted: bool,
    sizeBytes: int)

  datatype Hop = Hop(
    hopId: Uuid,
    packetId: Uuid,
    node: string,
    action: string,
    direction: string,
    status: string,
    timestamp: Time,
    attempt: Option<int>,
    targetNode: Option<string>,
    durationMs: Option<int>,
    queueMs: Option<int>,
    networkMs: Option<int>,
    errorCode: Option<string>,
    errorMessage: Option<string>,
    previousHopHash: Option<Digest>,
    hopHash: Digest,
    hopSignature: Option<string>,
    hopSignatureAlgorithm: Option<string>,
    hopSigningKeyId: Option<string>)

  datatype Link = Link(
    delegator: string,
    delegatee: string,
    scope: seq<string>,
    grantedAt: Time,
    expiresAt: Option<Time>,
    constraints: Option<seq<Field>>,
    proof: Option<string>)

  datatype Packet = Packet(
    header: Header,
    address: Address,
    tenant: Tenant,
    payload: seq<Field>,
    security: Security,
    governance: Governance,
    provenance: Provenance,
    delegationChain: seq<Link>,
    hopTrace: seq<Hop>,
    lineage: Lineage,
    attachments: seq<Attachment>)

  // ---------------------------------------------------------------------
  // Field normalisers
  // ---------------------------------------------------------------------

  // normalize_optional_string
  function StripOpt(s: Option<string>): Option<string> {
    match s case None => None case Some(t) => Some(Strip(t))
  }

  function NormOpt(s: Option<string>): Option<string> {
    match s case None => None case Some(t) => Some(Norm(t))
  }

  predicate NotBlank(s: Option<string>) {
    s.Some? ==> s.value != ""
  }

  predicate OneOf(s: Option<string>, allowed: set<string>) {
    s.Some? ==> s.value in allowed
  }

  predicate AtLeast(n: Option<int>, low: int) {
    n.Some? ==> n.value >= low
  }

  predicate Distinct(ss: seq<string>) {
    forall i, j :: 0 <= i < j < |ss| ==> ss[i] != ss[j]
  }

  // tag.strip().upper(), on ASCII letters
  function Shout(s: string): string {
    Upper(Strip(s))
  }

  // tuple(f(item) for item in items if item.strip())
  function Cleaned(f: string -> string, items: seq<string>): seq<string> {
    if items == [] then []
    else (if Strip(items[0]) == "" then [] else [f(items[0])]) + Cleaned(f, items[1..])
  }

  // ^[a-z0-9][a-z0-9._-]{0,63}$
  predicate ActionName(s: string) {
    && 1 <= |s| <= 64
    && s[0] !in {'.', '_', '-'}
    && forall i :: 0 <= i < |s| ==> 'a' <= s[i] <= 'z' || '0' <= s[i] <= '9' || s[i] in {'.', '_', '-'}
  }

  // ---------------------------------------------------------------------
  // Model constructors: Ok with the normalised model, or ValidationError
  // ---------------------------------------------------------------------

  function NormHeader(h: Header): Header {
    h.(
      packetType := Norm(h.packetType),
      action := Norm(h.action),
      schemaVersion := Strip(h.schemaVersion),
      idempotencyKey := StripOpt(h.idempotencyKey),
      traceId := StripOpt(h.traceId),
      correlationId := StripOpt(h.correlationId))
  }

  predicate HeaderOk(h: Header) {
    && h.packetType in PACKET_TYPES
    && ActionName(h.action)
    && h.timeoutMs >= 1 && h.retryCount >= 0
    && h.schemaVersion != "" && NotBlank(h.idempotencyKey) && NotBlank(h.traceId) && NotBlank(h.correlationId)
    && 0 <= h.priority <= 3
    && (h.expiresAt.Some? ==> h.expiresAt.value > h.createdAt)
    && (h.notBefore.Some? ==> h.notBefore.value >= h.createdAt)
  }

  function NewHeader(h: Header): Result<Header> {
    if HeaderOk(NormHeader(h)) then Ok(NormHeader(h)) else Err(ValueError)
  }

  function NormAddress(a: Address): Address {
    Address(Norm(a.sourceNode), Norm(a.destinationNode), Norm(a.replyTo))
  }

  predicate AddressOk(a: Address) {
    a.sourceNode != "" && a.destinationNode != "" && a.replyTo != ""
  }

  function NewAddress(a: Address): Result<Address> {
    if AddressOk(NormAddress(a)) then Ok(NormAddress(a)) else Err(ValueError)
  }

  function NormTenant(t: Tenant): Tenant {
    Tenant(Strip(t.actor), Strip(t.onBehalfOf), Strip(t.originator), Strip(t.orgId), StripOpt(t.userId))
  }

  predicate TenantOk(t: Tenant) {
    t.actor != "" && t.onBehalfOf != "" && t.originator != "" && t.orgId != "" && NotBlank(t.userId)
  }

  function NewTenant(t: Tenant): Result<Tenant> {
    if TenantOk(NormTenant(t)) then Ok(NormTenant(t)) else Err(ValueError)
  }

  function NormSecurity(s: Security): Security {
    s.(
      signature := StripOpt(s.signature),
      signatureAlgorithm := NormOpt(s.signatureAlgorithm),
      signingKeyId := StripOpt(s.signingKeyId),
      classification := Norm(s.classification),
      encryptionStatus := Norm(s.encryptionStatus),
      piiFields := Cleaned(Strip, s.piiFields))
  }

  predicate SecurityOk(s: Security) {
    && NotBlank(s.signature) && NotBlank(s.signingKeyId)
    && OneOf(s.signatureAlgorithm, ALGORITHMS)
    && s.classification in CLASSIFICATIONS && s.encryptionStatus in ENCRYPTIONS
    && Distinct(s.piiFields)
    && s.signature.Some? == s.signatureAlgorithm.Some?
  }

  function NewSecurity(s: Security): Result<Security> {
    if SecurityOk(NormSecurity(s)) then Ok(NormSecurity(s)) else Err(ValueError)
  }

  function NormGovernance(g: Governance): Governance {
    g.(
      intent := Norm(g.intent),
      complianceTags := Cleaned(Shout, g.complianceTags),
      dataSubjectId := StripOpt(g.dataSubjectId))
  }

  predicate GovernanceOk(g: Governance) {
    g.intent != "" && g.retentionDays >= 0 && Distinct(g.complianceTags) && NotBlank(g.dataSubjectId)
  }

  function NewGovernance(g: Governance): Result<Governance> {
    if GovernanceOk(NormGovernance(g)) then Ok(NormGovernance(g)) else Err(ValueError)
  }

  function NormProvenance(p: Provenance): Provenance {
    Provenance(Norm(p.originKind), Norm(p.requestedAction), p.resolvedByGate, NormOpt(p.routeKind),
                        NormOpt(p.originalSourceNode))
  }

  predicate ProvenanceOk(p: Provenance) {
    && p.originKind in {"client", "node", "gate"}
    && p.requestedAction != ""
    && OneOf(p.routeKind, {"external_ingress", "gate_relay"})
    && NotBlank(p.originalSourceNode)
  }

  function NewProvenance(p: Provenance): Result<Provenance> {
    if ProvenanceOk(NormProvenance(p)) then Ok(NormProvenance(p)) else Err(ValueError)
  }

  function NewLineage(l: Lineage): Result<Lineage> {
    if l.generation >= 0 then Ok(l) else Err(ValueError)
  }

  function NormAttachment(a: Attachment): Attachment {
    a.(mediaType := Strip(a.mediaType), uri := Strip(a.uri))
  }

  predicate AttachmentOk(a: Attachment) {
    a.mediaType != "" && a.uri != "" && a.sizeBytes >= 0
  }

  function NewAttachment(a: Attachment): Result<Attachment> {
    if AttachmentOk(NormAttachment(a)) then Ok(NormAttachment(a)) else Err(ValueError)
  }

  function NormHop(h: Hop): Hop {
    h.(
      node := Norm(h.node), action := Norm(h.action), direction := Norm(h.direction), status := Norm(h.status),
      targetNode := StripOpt(h.targetNode), errorCode := StripOpt(h.errorCode),
      errorMessage := StripOpt(h.errorMessage), hopSignature := StripOpt(h.hopSignature),
      hopSignatureAlgorithm := NormOpt(h.hopSignatureAlgorithm),
      hopSigningKeyId := StripOpt(h.hopSigningKeyId))
  }

  predicate HopOk(h: Hop) {
    && h.node != "" && h.action != "" && h.direction in DIRECTIONS && h.status in STATUSES
    && AtLeast(h.attempt, 1) && AtLeast(h.durationMs, 0) && AtLeast(h.queueMs, 0) && AtLeast(h.networkMs, 0)
    && NotBlank(h.targetNode) && NotBlank(h.errorCode) && NotBlank(h.errorMessage)
    && NotBlank(h.hopSignature) && NotBlank(h.hopSigningKeyId) && OneOf(h.hopSignatureAlgorithm, ALGORITHMS)
    && (h.direction == "dispatch" ==> h.targetNode.Some?)
    && h.hopSignature.Some? == h.hopSignatureAlgorithm.Some?
    && h.hopSignature.Some? == h.hopSigningKeyId.Some?
    && (h.status == "failed" ==> h.errorCode.Some? || h.errorMessage.Some?)
  }

  function NewHop(h: Hop): Result<Hop> {
    if HopOk(NormHop(h)) then Ok(NormHop(h)) else Err(ValueError)
  }

  function NormLink(l: Link): Link {
    l.(
      delegator := Norm(l.delegator), delegatee := Norm(l.delegatee), scope := Cleaned(Norm, l.scope),
      proof := StripOpt(l.proof))
  }

  predicate LinkOk(l: Link) {
    && l.delegator != "" && l.delegatee != "" && l.scope != [] && Distinct(l.scope) && NotBlank(l.proof)
    && (l.expiresAt.Some? ==> l.expiresAt.value > l.grantedAt)
  }

  function NewLink(l: Link): Result<Link> {
    if LinkOk(NormLink(l)) then Ok(NormLink(l)) else Err(ValueError)
  }

  // ---------------------------------------------------------------------
  // A constructed model is a fixed point of its own constructor
  // ---------------------------------------------------------------------

  lemma NormOptIdempotent(s: Option<string>)
    ensures StripOpt(StripOpt(s)) == StripOpt(s)
    ensures NormOpt(NormOpt(s)) == NormOpt(s)
  {
    if s.Some? { NormIdempotent(s.value); }
  }

  lemma {:induction false} CleanedIdempotent(f: string -> string, items: seq<string>)
    requires forall s :: f(f(s)) == f(s) && (Strip(f(s)) == "" <==> Strip(s) == "")
    ensures Cleaned(f, Cleaned(f, items)) == Cleaned(f, items)
  {
    if items != [] {
      CleanedIdempotent(f, items[1..]);
      var rest := Cleaned(f, items[1..]);
      if Strip(items[0]) == "" {
        assert Cleaned(f, items) == rest;
      } else {
        assert Cleaned(f, items) == [f(items[0])] + rest;
        assert Strip(f(items[0])) != "";
        assert Cleaned(f, items)[1..] == rest;
      }
    }
  }

  lemma NormalisersSettle()
    ensures forall s :: Strip(Strip(s)) == Strip(s) && (Strip(Strip(s)) == "" <==> Strip(s) == "")
    ensures forall s :: Norm(Norm(s)) == Norm(s) && (Strip(Norm(s)) == "" <==> Strip(s) == "")
    ensures forall s :: Shout(Shout(s)) == Shout(s) && (Strip(Shout(s)) == "" <==> Strip(s) == "")
  {
    forall s
      ensures Strip(Strip(s)) == Strip(s) && Norm(Norm(s)) == Norm(s) && Shout(Shout(s)) == Shout(s)
      ensures (Strip(Norm(s)) == "" <==> Strip(s) == "") && (Strip(Shout(s)) == "" <==> Strip(s) == "")
    {
      NormIdempotent(s);
      ShoutIdempotent(s);
    }
  }

  lemma NormHeaderIdempotent(h: Header)
    ensures NormHeader(NormHeader(h)) == NormHeader(h)
  {
    NormIdempotent(h.packetType);
    NormIdempotent(h.action);
    NormIdempotent(h.schemaVersion);
    NormOptIdempotent(h.idempotencyKey);
    NormOptIdempotent(h.traceId);
    NormOptIdempotent(h.correlationId);
  }

  lemma NormAddressIdempotent(a: Address)
    ensures NormAddress(NormAddress(a)) == NormAddress(a)
  {
    NormIdempotent(a.sourceNode);
    NormIdempotent(a.destinationNode);
    NormIdempotent(a.replyTo);
  }

  lemma NormTenantIdempotent(t: Tenant)
    ensures NormTenant(NormTenant(t)) == NormTenant(t)
  {
    NormIdempotent(t.actor);
    NormIdempotent(t.onBehalfOf);
    NormIdempotent(t.originator);
    NormIdempotent(t.orgId);
    NormOptIdempotent(t.userId);
  }

  lemma NormAttachmentIdempotent(a: Attachment)
    ensures NormAttachment(NormAttachment(a)) == NormAttachment(a)
  {
    NormIdempotent(a.mediaType);
    NormIdempotent(a.uri);
  }

  lemma NormLinkIdempotent(l: Link)
    ensures NormLink(NormLink(l)) == NormLink(l)
  {
    NormIdempotent(l.delegator);
    NormIdempotent(l.delegatee);
    NormOptIdempotent(l.proof);
    NormalisersSettle();
    CleanedIdempotent(Norm, l.scope);
  }

  lemma NormSecurityIdempotent(s: Security)
    ensures NormSecurity(NormSecurity(s)) == NormSecurity(s)
  {
    NormOptIdempotent(s.signature);
    NormOptIdempotent(s.signatureAlgorithm);
    NormOptIdempotent(s.signingKeyId);
    NormIdempotent(s.classification);
    NormIdempotent(s.encryptionStatus);
    NormalisersSettle();
    CleanedIdempotent(Strip, s.piiFields);
  }

  lemma NormGovernanceIdempotent(g: Governance)
    ensures NormGovernance(NormGovernance(g)) == NormGovernance(g)
  {
    NormIdempotent(g.intent);
    NormOptIdempotent(g.dataSubjectId);
    NormalisersSettle();
    CleanedIdempotent(Shout, g.complianceTags);
  }

  lemma NormProvenanceIdempotent(p: Provenance)
    ensures NormProvenance(NormProvenance(p)) == NormProvenance(p)
  {
    NormIdempotent(p.originKind);
    NormIdempotent(p.requestedAction);
    NormOptIdempotent(p.routeKind);
    NormOptIdempotent(p.originalSourceNode);
  }

  lemma NormHopIdempotent(h: Hop)
    ensures NormHop(NormHop(h)) == NormHop(h)
  {
    NormIdempotent(h.node);
    NormIdempotent(h.action);
    NormIdempotent(h.direction);
    NormIdempotent(h.status);
    NormOptIdempotent(h.targetNode);
    NormOptIdempotent(h.errorCode);
    NormOptIdempotent(h.errorMessage);
    NormOptIdempotent(h.hopSignature);
    NormOptIdempotent(h.hopSignatureAlgorithm);
    NormOptIdempotent(h.hopSigningKeyId);
  }

  lemma HeaderFixed(h: Header)
    requires NewHeader(h).Ok?
    ensures NewHeader(NewHeader(h).value) == NewHeader(h)
  {
    NormHeaderIdempotent(h);
  }

  lemma SecurityFixed(s: Security)
    requires NewSecurity(s).Ok?
    ensures NewSecurity(NewSecurity(s).value) == NewSecurity(s)
  {
    NormSecurityIdempotent(s);
  }

  lemma HopFixed(h: Hop)
    requires NewHop(h).Ok?
    ensures NewHop(NewHop(h).value) == NewHop(h)
  {
    NormHopIdempotent(h);
  }
}
