// transport/packet.py and transport/lineage.py.
module Packets {
  import opened Wrappers
  import opened Strings
  import opened Json
  import opened Canonical
  import opened Models
  import opened Platforms
  import opened Hashing

  // ---------------------------------------------------------------------
  // Construction and integrity
  // ---------------------------------------------------------------------

  predicate IntegrityOk(p: Platform, k: Packet) {
    && k.security.payloadHash == ComputePayloadHash(p, k.payload)
    && k.security.transportHash == ComputeTransportHash(p, k)
  }

  // TransportPacket(...): runs validate_integrity on sections that are already models.
  function NewPacket(p: Platform, k: Packet): Result<Packet> {
    if IntegrityOk(p, k) then Ok(k) else Err(IntegrityError)
  }

  function WithHop(p: Platform, k: Packet, hop: Hop): Result<Packet> {
    if hop.packetId != k.header.packetId then Err(ValueError)
    else NewPacket(p, k.(hopTrace := k.hopTrace + [hop]))
  }

  // _finalize_transport_packet
  function Finalize(p: Platform, k: Packet, preserveSignature: bool): Result<Packet> {
    var s := k.security;
    var payloadHash := ComputePayloadHash(p, k.payload);
    var hashed := k.(security := s.(payloadHash := payloadHash));
    var transportHash := ComputeTransportHash(p, hashed);
    var keep := preserveSignature && s.payloadHash == payloadHash && s.transportHash == transportHash;
    NewPacket(p, k.(security := s.(
      payloadHash := payloadHash,
      transportHash := transportHash,
      signature := if keep then s.signature else None,
      signatureAlgorithm := if keep then s.signatureAlgorithm else None,
      signingKeyId := if keep then s.signingKeyId else None)))
  }

  datatype CreateArgs = CreateArgs(
    action: string,
    payload: seq<Field>,
    tenant: Tenant,
    destinationNode: string,
    sourceNode: string,
    replyTo: string,
    priority: int,
    timeoutMs: int,
    classification: string,
    complianceTags: seq<string>,
    retentionDays: int,
    expiresAt: Option<Time>,
    idempotencyKey: Option<string>,
    traceId: Option<string>,
    correlationId: Option<string>,
    provenance: Option<Provenance>)

  // Python's `value or default` on strings.
  function Or(s: Option<string>, default: string): string {
    if s.Some? && s.value != "" then s.value else default
  }

  function DefaultProvenance(source: string, action: string): Result<Provenance> {
    var kind := if source == "client" then "client" else if source == "gate" then "gate" else "node";
    NewProvenance(Provenance(kind, action, false, None, if kind == "client" then None else Some(source)))
  }

  function UnsignedSecurity(classification: string, encryptionStatus: string,
                            piiFields: seq<string>): Result<Security> {
    NewSecurity(Security(ZEROS, ZEROS, None, None, None, classification, encryptionStatus, piiFields))
  }

  function RootHeader(id: Uuid, now: Time, a: CreateArgs): Header {
    Header(id, "request", Norm(a.action), a.priority, now, a.expiresAt, a.timeoutMs, "1.0", a.idempotencyKey,
           Some(Or(a.traceId, id)), Some(Or(a.correlationId, id)), None, 0, false, None)
  }

  // The root packet before its hashes are computed.
  function CreateUnhashed(id: Uuid, now: Time, a: CreateArgs): Result<Packet> {
    var action, source := Norm(a.action), Norm(a.sourceNode);
    var header :- NewHeader(RootHeader(id, now, a));
    var address :- NewAddress(Address(source, Norm(a.destinationNode), Norm(a.replyTo)));
    var governance :- NewGovernance(Governance(action, a.complianceTags, a.retentionDays, false, false, None));
    var security :- UnsignedSecurity(a.classification, "plaintext", []);
    var provenance :- if a.provenance.Some? then Ok(a.provenance.value) else DefaultProvenance(source, action);
    Ok(Packet(header, address, a.tenant, a.payload, security, governance, provenance, [], [], Lineage(None, id, 0), []))
  }

  // create_transport_packet, with the fresh id and the clock reading as inputs
  function Create(p: Platform, id: Uuid, now: Time, a: CreateArgs): Result<Packet> {
    var root :- CreateUnhashed(id, now, a);
    Finalize(p, root, false)
  }

  datatype DeriveArgs = DeriveArgs(
    packetType: Option<string>,
    action: Option<string>,
    sourceNode: Option<string>,
    destinationNode: Option<string>,
    replyTo: Option<string>,
    payload: Option<seq<Field>>,
    provenance: Option<Provenance>,
    hop: Option<Hop>,
    link: Option<Link>,
    governance: Option<Governance>,
    priority: Option<int>,
    expiresAt: Option<Time>,
    timeoutMs: Option<int>,
    notBefore: Option<Time>,
    replayMode: Option<bool>)

  // derive() with no argument given
  const INHERIT := DeriveArgs(None, None, None, None, None, None, None, None, None, None, None, None, None, None, None)

  function Given<T>(v: Option<T>, default: T): T {
    if v.Some? then v.value else default
  }

  function GivenOpt<T>(v: Option<T>, default: Option<T>): Option<T> {
    if v.Some? then v else default
  }

  // derive_lineage
  function DeriveLineage(parent: Packet): Lineage {
    Lineage(Some(parent.header.packetId), parent.lineage.rootId, parent.lineage.generation + 1)
  }

  function DeriveHeader(parent: Header, id: Uuid, now: Time, a: DeriveArgs): Header {
    Header(id, Or(a.packetType, parent.packetType), Or(a.action, parent.action), Given(a.priority, parent.priority),
           now, GivenOpt(a.expiresAt, parent.expiresAt), Given(a.timeoutMs, parent.timeoutMs), parent.schemaVersion,
           parent.idempotencyKey, parent.traceId, parent.correlationId, Some(parent.packetId), 0,
           Given(a.replayMode, parent.replayMode), GivenOpt(a.notBefore, parent.notBefore))
  }

  function DeriveAddress(parent: Address, a: DeriveArgs): Address {
    Address(Norm(Or(a.sourceNode, parent.sourceNode)),
            Norm(Or(a.destinationNode, parent.destinationNode)),
            Norm(Or(a.replyTo, parent.replyTo)))
  }

  // The child before its hashes are computed.
  function ChildBody(parent: Packet, header: Header, address: Address, security: Security, a: DeriveArgs): Packet {
    Packet(
      header, address, parent.tenant, Given(a.payload, parent.payload), security,
      Given(a.governance, parent.governance), Given(a.provenance, parent.provenance),
      parent.delegationChain + (if a.link.Some? then [a.link.value] else []),
      if a.hop.Some? then [a.hop.value] else [],
      DeriveLineage(parent), parent.attachments)
  }

  function DeriveUnhashed(parent: Packet, id: Uuid, now: Time, a: DeriveArgs): Result<Packet> {
    var header :- NewHeader(DeriveHeader(parent.header, id, now, a));
    var address :- NewAddress(DeriveAddress(parent.address, a));
    var _ :- NewLineage(DeriveLineage(parent));
    var security :- UnsignedSecurity(parent.security.classification, parent.security.encryptionStatus,
                                     parent.security.piiFields);
    Ok(ChildBody(parent, header, address, security, a))
  }

  // TransportPacket.derive
  function Derive(p: Platform, parent: Packet, id: Uuid, now: Time, a: DeriveArgs): Result<Packet> {
    var child :- DeriveUnhashed(parent, id, now, a);
    Finalize(p, child, false)
  }

  // validate_parent_child_lineage
  function ValidateParentChildLineage(parent: Packet, child: Packet): Result<()> {
    var _ :- Check(child.lineage.parentId == Some(parent.header.packetId), TransportValidation);
    var _ :- Check(child.lineage.rootId == parent.lineage.rootId, TransportValidation);
    Check(child.lineage.generation == parent.lineage.generation + 1, TransportValidation)
  }

  // ---------------------------------------------------------------------
  // Properties
  // ---------------------------------------------------------------------

  // The hop trace, the signature and the other uncovered security fields.
  predicate SameCore(a: Packet, b: Packet) {
    && a == b.(hopTrace := a.hopTrace, security := a.security)
    && a.security.payloadHash == b.security.payloadHash
  }

  // Changing only what the hash leaves out never changes the hash.
  lemma HashIgnoresTrace(p: Platform, a: Packet, b: Packet)
    requires SameCore(a, b)
    ensures ComputeTransportHash(p, a) == ComputeTransportHash(p, b)
    ensures ComputePayloadHash(p, a.payload) == ComputePayloadHash(p, b.payload)
  {
    assert EnvelopeValues(p, a) == EnvelopeValues(p, b);
  }

  // Two intact packets with one transport hash have the same content, or their
  // envelopes are two byte strings with one digest.
  lemma TransportHashCommits(p: Platform, a: Packet, b: Packet)
    requires Lawful(p) && IntegrityOk(p, a) && IntegrityOk(p, b)
    requires a.security.transportHash == b.security.transportHash
    ensures SameContent(a, b) || Collides(p, EnvelopeBytes(p, a), EnvelopeBytes(p, b))
    ensures WellFormed(Obj(a.payload)) && WellFormed(Obj(b.payload)) && SameContent(a, b)
            ==> SameValue(Obj(a.payload), Obj(b.payload))
  {
    if EnvelopeBytes(p, a) == EnvelopeBytes(p, b) {
      EnvelopeBytesInjective(p, a, b);
    }
    if WellFormed(Obj(a.payload)) && WellFormed(Obj(b.payload)) {
      CanonicalIffSame(Obj(a.payload), Obj(b.payload));
    }
  }

  // Finalising never fails, and a signature survives only if it was to be kept
  // and both hashes were already right.
  lemma FinalizeSound(p: Platform, k: Packet, preserve: bool)
    ensures var r := Finalize(p, k, preserve);
            && r.Ok? && IntegrityOk(p, r.value)
            && r.value == k.(security := r.value.security)
            && r.value.security.classification == k.security.classification
            && r.value.security.encryptionStatus == k.security.encryptionStatus
            && r.value.security.piiFields == k.security.piiFields
            && (preserve && IntegrityOk(p, k) ==> r.value == k)
            && (!(preserve && IntegrityOk(p, k)) ==>
                 && r.value.security.signature.None? && r.value.security.signatureAlgorithm.None?
                 && r.value.security.signingKeyId.None?)
  {
    var s := k.security;
    var payloadHash := ComputePayloadHash(p, k.payload);
    var hashed := k.(security := s.(payloadHash := payloadHash));
    var transportHash := ComputeTransportHash(p, hashed);
    var keep := preserve && s.payloadHash == payloadHash && s.transportHash == transportHash;
    var final := k.(security := s.(
      payloadHash := payloadHash,
      transportHash := transportHash,
      signature := if keep then s.signature else None,
      signatureAlgorithm := if keep then s.signatureAlgorithm else None,
      signingKeyId := if keep then s.signingKeyId else None));
    HashIgnoresTrace(p, hashed, final);
    if s.payloadHash == payloadHash {
      assert hashed == k;
    }
  }

  // Every section is what its model's constructor returns: `NewX(x) == Ok(x)`.
  predicate SectionsOk(k: Packet) {
    && NormHeader(k.header) == k.header && HeaderOk(k.header)
    && NormAddress(k.address) == k.address && AddressOk(k.address)
    && NormTenant(k.tenant) == k.tenant && TenantOk(k.tenant)
    && NormSecurity(k.security) == k.security && SecurityOk(k.security)
    && NormGovernance(k.governance) == k.governance && GovernanceOk(k.governance)
    && NormProvenance(k.provenance) == k.provenance && ProvenanceOk(k.provenance)
    && k.lineage.generation >= 0
    && (forall i :: 0 <= i < |k.delegationChain| ==> LinkNormal(k.delegationChain[i]))
    && (forall i :: 0 <= i < |k.hopTrace| ==> HopNormal(k.hopTrace[i]))
    && (forall i :: 0 <= i < |k.attachments| ==> AttachmentNormal(k.attachments[i]))
  }

  predicate LinkNormal(l: Link) {
    NormLink(l) == l && LinkOk(l)
  }

  predicate HopNormal(h: Hop) {
    NormHop(h) == h && HopOk(h)
  }

  predicate AttachmentNormal(a: Attachment) {
    NormAttachment(a) == a && AttachmentOk(a)
  }

  predicate ValidPacket(p: Platform, k: Packet) {
    SectionsOk(k) && IntegrityOk(p, k)
  }

  // A child differs from its parent exactly as the lineage rules say.
  predicate ChildOf(child: Packet, parent: Packet, id: Uuid) {
    && child.header.packetId == id
    && child.header.causationId == Some(parent.header.packetId)
    && child.lineage == DeriveLineage(parent)
    && child.tenant == parent.tenant
    && child.header.schemaVersion == parent.header.schemaVersion
    && child.header.correlationId == parent.header.correlationId
    && child.header.traceId == parent.header.traceId
    && child.header.idempotencyKey == parent.header.idempotencyKey
    && child.attachments == parent.attachments
    && parent.delegationChain <= child.delegationChain
  }

  // The lineage check accepts a pair exactly when the child names the parent, has
  // its root, and is one generation on; otherwise it raises a validation error.
  lemma LineageCheckedExactly(parent: Packet, child: Packet)
    ensures ValidateParentChildLineage(parent, child)
            == if child.lineage.parentId == Some(parent.header.packetId)
                  && child.lineage.rootId == parent.lineage.rootId
                  && child.lineage.generation == parent.lineage.generation + 1
               then Ok(()) else Err(TransportValidation)
  {
  }

  function Unsigned(s: Security): Security {
    s.(payloadHash := ZEROS, transportHash := ZEROS, signature := None, signatureAlgorithm := None,
       signingKeyId := None)
  }

  lemma UnsignedNormal(s: Security)
    requires NormSecurity(s) == s && SecurityOk(s)
    ensures NormSecurity(Unsigned(s)) == Unsigned(s) && SecurityOk(Unsigned(s))
  {
    assert Norm(s.classification) == s.classification && Norm(s.encryptionStatus) == s.encryptionStatus;
    assert Cleaned(Strip, s.piiFields) == s.piiFields;
  }

  lemma UnsignedSecurityOf(s: Security)
    requires NormSecurity(s) == s && SecurityOk(s)
    ensures UnsignedSecurity(s.classification, s.encryptionStatus, s.piiFields) == Ok(Unsigned(s))
  {
    UnsignedNormal(s);
    assert Unsigned(s) == Security(ZEROS, ZEROS, None, None, None, s.classification, s.encryptionStatus, s.piiFields);
  }

  lemma HeaderInherits(h: Header, id: Uuid, now: Time, a: DeriveArgs)
    requires NormHeader(h) == h
    ensures var c := NormHeader(DeriveHeader(h, id, now, a));
            && c.packetId == id && c.causationId == Some(h.packetId) && c.schemaVersion == h.schemaVersion
            && c.correlationId == h.correlationId && c.traceId == h.traceId && c.idempotencyKey == h.idempotencyKey
            && c.createdAt == now
  {
    assert StripOpt(h.correlationId) == h.correlationId && StripOpt(h.traceId) == h.traceId;
    assert StripOpt(h.idempotencyKey) == h.idempotencyKey && Strip(h.schemaVersion) == h.schemaVersion;
  }

  // What a derivation needs of its header and address, and nothing more.
  predicate DeriveAdmits(parent: Packet, id: Uuid, now: Time, a: DeriveArgs) {
    && HeaderOk(NormHeader(DeriveHeader(parent.header, id, now, a)))
    && AddressOk(NormAddress(DeriveAddress(parent.address, a)))
  }

  // The sections of a parent that derive builds on.
  predicate Derivable(k: Packet) {
    && NormHeader(k.header) == k.header
    && NormSecurity(k.security) == k.security && SecurityOk(k.security)
    && k.lineage.generation >= 0
  }

  // The child, once its header and address are accepted.
  function Child(parent: Packet, id: Uuid, now: Time, a: DeriveArgs): Packet {
    ChildBody(parent, NormHeader(DeriveHeader(parent.header, id, now, a)),
              NormAddress(DeriveAddress(parent.address, a)), Unsigned(parent.security), a)
  }

  lemma DeriveUnhashedIsChild(parent: Packet, id: Uuid, now: Time, a: DeriveArgs)
    requires Derivable(parent)
    ensures DeriveUnhashed(parent, id, now, a)
            == if DeriveAdmits(parent, id, now, a) then Ok(Child(parent, id, now, a)) else Err(ValueError)
  {
    UnsignedSecurityOf(parent.security);
    assert NewLineage(DeriveLineage(parent)).Ok?;
  }

  lemma ChildIsChildOf(parent: Packet, id: Uuid, now: Time, a: DeriveArgs)
    requires Derivable(parent)
    ensures ChildOf(Child(parent, id, now, a), parent, id)
    ensures Child(parent, id, now, a).header.createdAt == now
  {
    HeaderInherits(parent.header, id, now, a);
  }

  // Whether derive succeeds is decided by the new header and address alone, and
  // what it returns is an intact, unsigned child that the lineage check accepts.
  lemma DeriveMakesChild(p: Platform, parent: Packet, id: Uuid, now: Time, a: DeriveArgs)
    requires Derivable(parent)
    ensures Derive(p, parent, id, now, a).Ok? <==> DeriveAdmits(parent, id, now, a)
    ensures Derive(p, parent, id, now, a).Ok? ==>
      var c := Derive(p, parent, id, now, a).value;
      && ChildOf(c, parent, id) && IntegrityOk(p, c)
      && c.security.signature.None? && c.security.classification == parent.security.classification
      && c == Child(parent, id, now, a).(security := c.security)
      && ValidateParentChildLineage(parent, c).Ok?
  {
    DeriveUnhashedIsChild(parent, id, now, a);
    ChildIsChildOf(parent, id, now, a);
    FinalizeSound(p, Child(parent, id, now, a), false);
  }
}
