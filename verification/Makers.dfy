// What derive and the hop builders make of their arguments, field by field:
// transport/packet.py and transport/hop_trace.py.
module Makers {
  import opened Wrappers
  import opened Strings
  import opened Models
  import opened Platforms
  import opened Hashing
  import opened Packets
  import opened Signatures
  import opened HopTraces
  import opened ModelRules

  // ---------------------------------------------------------------------
  // Hops
  // ---------------------------------------------------------------------

  // The hop that is asked for, as its constructor is called.
  function AskedHop(k: Packet, id: Uuid, now: Time, a: HopArgs): Hop {
    Hop(id, k.header.packetId, a.node, a.action, a.direction, a.status, now, a.attempt,
        if a.targetNode.Some? then Some(Norm(a.targetNode.value)) else None, a.durationMs, a.queueMs, a.networkMs,
        a.errorCode, a.errorMessage, if k.hopTrace == [] then None else Some(k.hopTrace[|k.hopTrace| - 1].hopHash),
        ZEROS, None, None, None)
  }

  // The hop without what is computed after construction.
  function Unfinished(h: Hop): Hop {
    h.(hopHash := ZEROS, hopSignature := None, hopSignatureAlgorithm := None, hopSigningKeyId := None)
  }

  // How a hop is signed over its own hash: not at all, or with what was given.
  predicate HopSigned(p: Platform, signing: Option<SigningMaterial>, h: Hop) {
    match signing
    case None => h.hopSignature.None? && h.hopSignatureAlgorithm.None? && h.hopSigningKeyId.None?
    case Some(m) =>
      && m.keyId.Some? && m.algorithm.Some?
      && h.hopSignatureAlgorithm == Some(Norm(m.algorithm.value)) && h.hopSigningKeyId == Some(Strip(m.keyId.value))
      && (|| (Norm(m.algorithm.value) == "hmac-sha256" && h.hopSignature == Some(p.mac(m.key, h.hopHash)))
          || (Norm(m.algorithm.value) == "ed25519" && p.edLoads(m.key).Ok?
              && h.hopSignature == Some(p.edSign(m.key, h.hopHash))))
  }

  // Why no hop is built.
  function HopError(p: Platform, asked: bool, signing: Option<SigningMaterial>): Error {
    if !asked || signing.None? then ValueError
    else if signing.value.keyId.None? || signing.value.algorithm.None? then TransportValidation
    else if Norm(signing.value.algorithm.value) == "ed25519" && p.edLoads(signing.value.key).Err?
    then p.edLoads(signing.value.key).error
    else AuthenticationError
  }

  lemma NormedTarget(k: Packet, id: Uuid, now: Time, a: HopArgs)
    ensures ProvisionalHop(k, id, now, a)
            == AskedHop(k, id, now, a).(node := Norm(a.node), action := Norm(a.action), direction := Norm(a.direction),
                                        status := Norm(a.status))
  {
    hide Norm;
  }

  // Normalising the names before the constructor does it makes no difference.
  lemma AskedIsProvisional(k: Packet, id: Uuid, now: Time, a: HopArgs)
    ensures NewHop(ProvisionalHop(k, id, now, a)) == NewHop(AskedHop(k, id, now, a))
  {
    hide Norm, Strip;
    NormedTarget(k, id, now, a);
    NormIdempotent(a.node);
    NormIdempotent(a.action);
    NormIdempotent(a.direction);
    NormIdempotent(a.status);
  }

  // A built hop is what was asked for, in normal form and linked to the trace, with
  // its own hash and signature; and every such hop can be built.
  lemma MakeHopExactly(p: Platform, k: Packet, id: Uuid, now: Time, a: HopArgs, h: Hop)
    ensures MakeHop(p, k, id, now, a) == Ok(h)
            <==> && HopMade(AskedHop(k, id, now, a), Unfinished(h))
                 && h.hopHash == ComputeHopHash(p, k.security.transportHash, h) && HopSigned(p, a.signing, h)
    ensures MakeHop(p, k, id, now, a).Err? ==>
      MakeHop(p, k, id, now, a).error == HopError(p, NewHop(AskedHop(k, id, now, a)).Ok?, a.signing)
  {
    hide Norm, Strip, NewHop, ComputeHopHash, HopMade, AskedHop;
    AskedIsProvisional(k, id, now, a);
    AskedIsBare(k, id, now, a);
    HopExactly(AskedHop(k, id, now, a), Unfinished(h));
    var made := NewHop(AskedHop(k, id, now, a));
    if made.Ok? {
      HopExactly(AskedHop(k, id, now, a), made.value);
      MadeBare(AskedHop(k, id, now, a), made.value);
      HashReadsBare(p, k.security.transportHash, h, made.value);
    }
    AlgorithmsApart();
  }

  lemma AskedIsBare(k: Packet, id: Uuid, now: Time, a: HopArgs)
    ensures AskedHop(k, id, now, a) == Unfinished(AskedHop(k, id, now, a))
    ensures NewHop(AskedHop(k, id, now, a)).Err? ==> NewHop(AskedHop(k, id, now, a)) == Err(ValueError)
  {
    hide Norm;
  }

  // An unsigned request makes an unsigned hop with the placeholder hash.
  lemma MadeBare(asked: Hop, r: Hop)
    requires HopMade(asked, r) && asked == Unfinished(asked)
    ensures r == Unfinished(r)
  {
  }

  lemma HashReadsBare(p: Platform, th: Digest, h: Hop, bare: Hop)
    ensures Unfinished(h) == bare ==> ComputeHopHash(p, th, h) == ComputeHopHash(p, th, bare)
  {
    if Unfinished(h) == bare {
      assert HopHashValues(p, th, h) == HopHashValues(p, th, bare);
    }
  }

  // ---------------------------------------------------------------------
  // Children
  // ---------------------------------------------------------------------

  // The header of the child, as its constructor is called: an argument that is
  // not given, or a blank packet type or action, is taken from the parent.
  function AskedHeader(h: Header, id: Uuid, now: Time, a: DeriveArgs): Header {
    Header(
      id,
      if a.packetType.Some? && a.packetType.value != "" then a.packetType.value else h.packetType,
      if a.action.Some? && a.action.value != "" then a.action.value else h.action,
      if a.priority.Some? then a.priority.value else h.priority,
      now,
      if a.expiresAt.Some? then a.expiresAt else h.expiresAt,
      if a.timeoutMs.Some? then a.timeoutMs.value else h.timeoutMs,
      h.schemaVersion, h.idempotencyKey, h.traceId, h.correlationId, Some(h.packetId), 0,
      if a.replayMode.Some? then a.replayMode.value else h.replayMode,
      if a.notBefore.Some? then a.notBefore else h.notBefore)
  }

  function AskedAddress(b: Address, a: DeriveArgs): Address {
    Address(
      if a.sourceNode.Some? && a.sourceNode.value != "" then a.sourceNode.value else b.sourceNode,
      if a.destinationNode.Some? && a.destinationNode.value != "" then a.destinationNode.value else b.destinationNode,
      if a.replyTo.Some? && a.replyTo.value != "" then a.replyTo.value else b.replyTo)
  }

  // Everything about a child but its header and address.
  predicate ChildSays(p: Platform, parent: Packet, a: DeriveArgs, c: Packet) {
    && c.tenant == parent.tenant && c.attachments == parent.attachments
    && c.payload == (if a.payload.Some? then a.payload.value else parent.payload)
    && c.governance == (if a.governance.Some? then a.governance.value else parent.governance)
    && c.provenance == (if a.provenance.Some? then a.provenance.value else parent.provenance)
    && c.delegationChain == (if a.link.Some? then parent.delegationChain + [a.link.value] else parent.delegationChain)
    && c.hopTrace == (if a.hop.Some? then [a.hop.value] else [])
    && c.lineage == Lineage(Some(parent.header.packetId), parent.lineage.rootId, parent.lineage.generation + 1)
    && c.security == Security(ComputePayloadHash(p, c.payload), ComputeTransportHash(p, c), None, None, None,
                              parent.security.classification, parent.security.encryptionStatus,
                              parent.security.piiFields)
  }

  lemma AskedIsDerived(parent: Packet, id: Uuid, now: Time, a: DeriveArgs)
    ensures AskedHeader(parent.header, id, now, a) == DeriveHeader(parent.header, id, now, a)
    ensures NewAddress(AskedAddress(parent.address, a)) == NewAddress(DeriveAddress(parent.address, a))
  {
    hide Norm;
    var b := AskedAddress(parent.address, a);
    NormIdempotent(b.sourceNode);
    NormIdempotent(b.destinationNode);
    NormIdempotent(b.replyTo);
  }

  // Two intact packets that agree outside their hashes agree in them.
  lemma IntactIsDetermined(p: Platform, c: Packet, d: Packet)
    requires IntegrityOk(p, c)
    requires d == c.(security := d.security)
    requires d.security == Security(ComputePayloadHash(p, d.payload), ComputeTransportHash(p, d), None, None, None,
                                    c.security.classification, c.security.encryptionStatus, c.security.piiFields)
    requires c.security.signature.None? && c.security.signatureAlgorithm.None? && c.security.signingKeyId.None?
    ensures c == d
  {
    hide ComputePayloadHash, ComputeTransportHash;
    HashIgnoresTrace(p, c, d);
  }

  // A child is made exactly from a header and an address that their constructors
  // take, and is what was asked for in every field.
  lemma DeriveExactly(p: Platform, parent: Packet, id: Uuid, now: Time, a: DeriveArgs, c: Packet)
    requires Derivable(parent)
    ensures Derive(p, parent, id, now, a) == Ok(c)
            <==> && HeaderMade(AskedHeader(parent.header, id, now, a), c.header)
                 && AddressMade(AskedAddress(parent.address, a), c.address) && ChildSays(p, parent, a, c)
    ensures Derive(p, parent, id, now, a).Err? ==> Derive(p, parent, id, now, a) == Err(ValueError)
  {
    hide Derive, IntegrityOk, NormHeader, HeaderOk, NormAddress, AddressOk, ChildOf, DeriveHeader, DeriveAddress,
         AskedHeader, AskedAddress, HeaderMade, AddressMade, ComputePayloadHash, ComputeTransportHash, NormSecurity,
         SecurityOk;
    AskedIsDerived(parent, id, now, a);
    HeaderExactly(AskedHeader(parent.header, id, now, a), c.header);
    AddressExactly(AskedAddress(parent.address, a), c.address);
    DeriveMakesChild(p, parent, id, now, a);
    DeriveFails(p, parent, id, now, a);
    if DeriveAdmits(parent, id, now, a) {
      var d := Derive(p, parent, id, now, a).value;
      DerivedSays(p, parent, id, now, a);
      if d.header == c.header && d.address == c.address && ChildSays(p, parent, a, c) {
        assert c == d.(security := c.security);
        IntactIsDetermined(p, d, c);
      }
    }
  }

  lemma DeriveFails(p: Platform, parent: Packet, id: Uuid, now: Time, a: DeriveArgs)
    requires Derivable(parent)
    ensures Derive(p, parent, id, now, a).Err? ==> Derive(p, parent, id, now, a) == Err(ValueError)
  {
    hide Finalize, NormHeader, HeaderOk, NormAddress, AddressOk, NormSecurity, SecurityOk, IntegrityOk, DeriveHeader,
         DeriveAddress, ChildBody;
    DeriveUnhashedIsChild(parent, id, now, a);
    FinalizeSound(p, Child(parent, id, now, a), false);
  }

  lemma DerivedSays(p: Platform, parent: Packet, id: Uuid, now: Time, a: DeriveArgs)
    requires Derivable(parent) && Derive(p, parent, id, now, a).Ok?
    ensures ChildSays(p, parent, a, Derive(p, parent, id, now, a).value)
  {
    hide Finalize, NormHeader, HeaderOk, NormAddress, AddressOk, NormSecurity, SecurityOk, DeriveHeader, DeriveAddress,
         ComputePayloadHash, ComputeTransportHash, DeriveUnhashed;
    DeriveUnhashedIsChild(parent, id, now, a);
    FinalizeSound(p, Child(parent, id, now, a), false);
  }
}
