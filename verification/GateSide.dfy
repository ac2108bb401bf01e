// Keys, signatures and errors on Gate's side of an exchange:
// gate_authority/config.py and gate_authority/dispatch.py.
module GateSide {
  import opened Wrappers
  import opened Strings
  import opened Json
  import opened Models
  import opened Platforms
  import opened Packets
  import opened Signatures
  import opened HopTraces
  import opened Runs
  import opened Codec
  import opened Validation
  import opened Execution
  import opened Dispatch
  import opened AnswerContents
  import opened RefusalRules

  // ---------------------------------------------------------------------
  // Keys and signatures
  // ---------------------------------------------------------------------

  // How Gate signs what it dispatches: with its key over the transport hash, or not
  // at all without one.
  predicate DispatchSigned(p: Platform, g: GateConfig, s: Security) {
    match g.signingKey
    case None => true
    case Some(key) =>
      && g.signingKeyId.Some? && g.signingAlgorithm.Some?
      && s.signatureAlgorithm == Some(Norm(g.signingAlgorithm.value))
      && s.signingKeyId == Some(Strip(g.signingKeyId.value)) && Strip(g.signingKeyId.value) != ""
      && (|| (Norm(g.signingAlgorithm.value) == "hmac-sha256" && s.signature == Some(p.mac(key, s.transportHash)))
          || (Norm(g.signingAlgorithm.value) == "ed25519" && p.edLoads(key).Ok?
              && s.signature == Some(p.edSign(key, s.transportHash))))
  }

  // The signature is the only thing that signing adds, and there is none without a
  // key. A key without id or algorithm is a configuration error.
  lemma MaybeSignExactly(p: Platform, g: GateConfig, k: Packet)
    requires Sound(p, k)
    ensures var r := MaybeSign(p, g, k);
            && (g.signingKey.None? ==> r == Ok(k))
            && (g.signingKey.Some? && (g.signingKeyId.None? || g.signingAlgorithm.None?)
                ==> r == Err(DispatchConfiguration))
            && (r.Ok? ==> DispatchSigned(p, g, r.value.security)
                          && r.value == k.(security := k.security.(
                               signature := r.value.security.signature,
                               signatureAlgorithm := r.value.security.signatureAlgorithm,
                               signingKeyId := r.value.security.signingKeyId)))
            && (r.Err? && r.error == DispatchSecurity ==>
                 Norm(g.signingAlgorithm.value) !in ALGORITHMS || p.edLoads(g.signingKey.value).Err?)
  {
    hide SignPacket, IntegrityOk, Norm, Strip;
    AlgorithmsApart();
    if g.signingKey.Some? && g.signingKeyId.Some? && g.signingAlgorithm.Some? {
      SignTouchesSignatureOnly(p, k, g.signingKey.value, g.signingKeyId.value, g.signingAlgorithm.value);
    }
  }

  // The key Gate verifies with: the one its table has for the key id, and otherwise
  // its own for its own key id.
  lemma GateKeysExactly(g: GateConfig, keyId: Option<string>, key: string)
    ensures KeyFor(GateResolver(g), keyId, key)
            <==> && keyId.Some?
                 && if keyId.value in g.verifyingKeys then g.verifyingKeys[keyId.value] == key
                    else g.signingKeyId == keyId && g.signingKey == Some(key)
  {
  }

  // What Gate bounds: bytes, hops, links, attachments and the clock of the other side.
  predicate WithinLimits(p: Platform, g: GateConfig, k: Packet, now: Time) {
    && PacketSizeBytes(p, k) <= 262_144 && |k.hopTrace| <= 64 && |k.delegationChain| <= 8 && |k.attachments| <= 32
    && (forall i :: 0 <= i < |k.attachments| ==>
         k.attachments[i].sizeBytes <= 10_485_760 && g.checkUri(k.attachments[i].uri).Ok?)
    && k.header.createdAt - now <= 30_000_000
  }

  // Of the one schema version, and valid at the time.
  predicate Timely(k: Packet, now: Time) {
    && k.header.schemaVersion == "1.0" && (k.header.notBefore.Some? ==> k.header.notBefore.value <= now)
    && (k.header.expiresAt.Some? ==> now <= k.header.expiresAt.value)
  }

  // Consistent about replay and governance.
  predicate Regular(k: Packet) {
    && (k.header.packetType == "replay_request" <==> k.header.replayMode)
    && ("GDPR" in k.governance.complianceTags ==> !Missing(k.governance.dataSubjectId))
    && (k.security.classification == "restricted" ==> k.governance.auditRequired)
  }

  // Signed where that is asked, and well wherever Gate has any key to check with.
  ghost predicate SignedEnough(p: Platform, g: GateConfig, k: Packet, signed: bool) {
    && (k.security.signature.None? ==> !signed)
    && (k.security.signature.Some? && (signed || g.verifyingKeys != map[] || g.signingKey.Some?)
        ==> VerifyPacket(p, k, GateResolver(g)) == Ok(true))
  }

  lemma GateLimits(p: Platform, g: GateConfig, k: Packet, signed: bool, now: Time)
    ensures var c := GateChecks(g, signed);
            && !Broken(FromTheFuture, p, k, c, now) && !Broken(TooLarge, p, k, c, now)
            && !Broken(TooManyHops, p, k, c, now) && !Broken(TooManyLinks, p, k, c, now)
            && !Broken(TooManyAttachments, p, k, c, now) && !Broken(BadAttachment, p, k, c, now)
            <==> WithinLimits(p, g, k, now)
  {
    hide PacketSizeBytes;
  }

  // The rules that Gate leaves open.
  lemma GateOpen(p: Platform, g: GateConfig, k: Packet, signed: bool, now: Time)
    ensures var c := GateChecks(g, signed);
            && !Broken(TypeNotAllowed, p, k, c, now) && !Broken(ActionNotAllowed, p, k, c, now)
            && !Broken(ForAnotherNode, p, k, c, now) && !Broken(ReplayDisabled, p, k, c, now)
            && !Broken(KeyMissing, p, k, c, now)
  {
    hide Missing, Norm, GateResolver;
  }

  lemma GateTimes(p: Platform, g: GateConfig, k: Packet, signed: bool, now: Time)
    ensures var c := GateChecks(g, signed);
            && !Broken(UnknownSchema, p, k, c, now) && !Broken(TooEarly, p, k, c, now) && !Broken(Expired, p, k, c, now)
            <==> Timely(k, now)
  {
    hide Missing, Norm, GateResolver, GateChecks;
  }

  lemma GateRules(p: Platform, g: GateConfig, k: Packet, signed: bool, now: Time)
    ensures var c := GateChecks(g, signed);
            && !Broken(ReplayUnmarked, p, k, c, now) && !Broken(ReplayElsewhere, p, k, c, now)
            && !Broken(SubjectMissing, p, k, c, now) && !Broken(AuditMissing, p, k, c, now)
            <==> Regular(k)
  {
    hide Missing, Norm, GateResolver, GateChecks;
  }

  lemma GateSigned(p: Platform, g: GateConfig, k: Packet, signed: bool, now: Time)
    ensures !Broken(BadSignature, p, k, GateChecks(g, signed), now) <==> SignedEnough(p, g, k, signed)
  {
    hide VerifyPacket;
  }

  lemma GateChains(p: Platform, g: GateConfig, k: Packet, signed: bool, now: Time)
    ensures !Broken(BadChain, p, k, GateChecks(g, signed), now) <==> ChainHolds(k, now)
    ensures !Broken(BadTrace, p, k, GateChecks(g, signed), now)
            <==> TraceOk(p, k, TracePolicy(g.verifyHops, NoResolver, true))
  {
    hide ChainHolds, TraceOk;
  }

  // What Gate accepts, sent or received.
  lemma GateAcceptsExactly(p: Platform, g: GateConfig, k: Packet, signed: bool, now: Time)
    ensures Verdict(p, k, GateChecks(g, signed), now).Ok?
            <==> && WithinLimits(p, g, k, now) && Timely(k, now) && Regular(k) && SignedEnough(p, g, k, signed)
                 && ChainHolds(k, now) && TraceOk(p, k, TracePolicy(g.verifyHops, NoResolver, true))
  {
    hide Verdict, Broken, WithinLimits, Timely, Regular, SignedEnough, ChainHolds, TraceOk;
    var c := GateChecks(g, signed);
    AcceptedRuleByRule(p, k, c, now);
    GateLimits(p, g, k, signed, now);
    GateOpen(p, g, k, signed, now);
    GateTimes(p, g, k, signed, now);
    GateRules(p, g, k, signed, now);
    GateSigned(p, g, k, signed, now);
    GateChains(p, g, k, signed, now);
  }

  // An exchange with a worker that signs under a key id Gate knows the matching key
  // for succeeds, also when Gate requires signatures, if size, replay mode and time permit.
  lemma SignedExchangeSucceeds(p: Platform, fill: Fill, g: GateConfig, w: Worker, k: Packet, targetNode: string,
                               sent: Time, received: Time, now: Time, m: Moments, onError: Moments, verifyKey: string)
    requires Lawful(p) && ValidPacket(p, k) && Norm(w.node) == Norm(targetNode) != ""
    requires MayPost(p, g, k, targetNode, Ok(()), sent)
    requires AnswerTo(p, w, MaybeSign(p, g, k).value, now, m, onError).Ok?
    requires var r := AnswerTo(p, w, MaybeSign(p, g, k).value, now, m, onError).value;
             var c := GateChecks(g, g.verifyResponses);
             && PacketSizeBytes(p, r) <= 262_144 && !k.header.replayMode && Opens(r, c) <= received
             && Before(received, Closes(r))
    requires AnswerKey(w.keys).Some? && w.keys.algorithm.Some? && w.keys.keyId.Some?
    requires KeyPair(p, Norm(w.keys.algorithm.value), AnswerKey(w.keys).value, verifyKey)
    requires KeyFor(GateResolver(g), Some(Strip(w.keys.keyId.value)), verifyKey)
    ensures Send(p, fill, g, k, targetNode, Ok(()), body => Serve(p, fill, w, body, now, m, onError), sent,
                 received).result
            == AnswerTo(p, w, MaybeSign(p, g, k).value, now, m, onError)
  {
    hide ValidPacket, Verdict, Encode, AnswerTo, MayPost, MaybeSign, Norm, Strip, Send, Serve, PacketSizeBytes, Opens,
         Closes, AnswerSigned, CanSign, KeyPair, GateResolver, VerifyPacket, KeyFor;
    MayPostSigns(p, g, k, targetNode, sent);
    var signed := MaybeSign(p, g, k).value;
    SignedIsValid(p, g, k);
    ValidIsAnswerable(p, signed);
    EveryAnswerSigned(p, w, signed, now, m, onError);
    var r := AnswerTo(p, w, signed, now, m, onError).value;
    AnswerVerifies(p, r, w.keys, GateResolver(g), verifyKey);
    VerifiedIsHeld(p, r, GateChecks(g, g.verifyResponses));
    ExchangeSucceedsExactly(p, fill, g, w, k, targetNode, sent, received, now, m, onError);
  }

  lemma MayPostSigns(p: Platform, g: GateConfig, k: Packet, targetNode: string, sent: Time)
    requires MayPost(p, g, k, targetNode, Ok(()), sent)
    ensures MaybeSign(p, g, k).Ok?
  {
    hide MaybeSign, AssertGateAuthored, Verdict, Norm;
  }

  lemma VerifiedIsHeld(p: Platform, r: Packet, c: Config)
    requires VerifyPacket(p, r, c.resolver) == Ok(true)
    ensures SignatureHolds(p, r, c)
  {
    hide VerifyText;
  }

  // And whatever a worker sends: while Gate verifies responses, it returns only
  // packets that are signed well under a key it knows.
  lemma VerifiedAnswersAreSigned(p: Platform, fill: Fill, g: GateConfig, k: Packet, targetNode: string,
                                 url: Result<()>, worker: Json -> Result<Json>, sent: Time, received: Time)
    requires g.verifyResponses
    requires Send(p, fill, g, k, targetNode, url, worker, sent, received).result.Ok?
    ensures var s := Send(p, fill, g, k, targetNode, url, worker, sent, received).result.value.security;
            SignedWell(p, GateResolver(g), s.signature, s.signatureAlgorithm, s.signingKeyId, s.transportHash)
  {
    hide Verdict, Send, SignedWell, GateResolver, VerifyPacket, TimelessRest, Opens, Closes, ValidPacket;
    AcceptedIsAnswer(p, fill, g, k, targetNode, url, worker, sent, received);
    var r := Send(p, fill, g, k, targetNode, url, worker, sent, received).result.value;
    var c := GateChecks(g, true);
    AcceptedIsSignedWell(p, r, c, received, 0);
    SignatureRequired(p, r, c, received);
  }

  lemma SignatureRequired(p: Platform, k: Packet, c: Config, now: Time)
    requires Verdict(p, k, c, now).Ok? && c.requireSignature && !c.devMode
    ensures k.security.signature.Some?
  {
    hide Verdict, PacketSizeBytes, ChainHolds, TraceOk, Norm, Opens, Closes, VerifyPacket;
    AcceptedInOneInterval(p, k, c, now);
  }

  // ---------------------------------------------------------------------
  // What a dispatch fails with
  // ---------------------------------------------------------------------

  // Before anything is posted: a blank target, the URL's own error, missing
  // authority, the signing error, and the security error for what validation refuses.
  lemma FailsUnsent(p: Platform, fill: Fill, g: GateConfig, k: Packet, targetNode: string, url: Result<()>,
                    worker: Json -> Result<Json>, sent: Time, received: Time)
    requires ValidPacket(p, k) && !MayPost(p, g, k, targetNode, url, sent)
    ensures var r := Send(p, fill, g, k, targetNode, url, worker, sent, received).result;
            && r.Err?
            && (Norm(targetNode) == "" ==> r.error == DispatchConfiguration)
            && (Norm(targetNode) != "" && url.Err? ==> r.error == url.error)
            && (Norm(targetNode) != "" && url.Ok? && AssertGateAuthored(g, k, Norm(targetNode)).Err?
                ==> r.error == DispatchAuthority)
            && (Norm(targetNode) != "" && url.Ok? && AssertGateAuthored(g, k, Norm(targetNode)).Ok?
                ==> r.error == if MaybeSign(p, g, k).Err? then MaybeSign(p, g, k).error
                               else RefusalError(Verdict(p, MaybeSign(p, g, k).value,
                                                         GateChecks(g, g.requireSignature), sent)))
  {
    hide Verdict, Encode, MaybeSign, ReadAnswer, Norm, ValidateExecuteIngress, ValidPacket;
    if MaybeSign(p, g, k).Ok? {
      SignedIsValid(p, g, k);
      ValidTimeout(p, MaybeSign(p, g, k).value);
    }
  }

  // The transport's own errors become the dispatcher's security error.
  function RefusalError(verdict: Result<()>): Error {
    if verdict.Err? && verdict.error in {ValueError, TypeError} then verdict.error else DispatchSecurity
  }

  // After the post: the worker's own error; a security error for a body whose hashes
  // are wrong or whose packet is refused; and otherwise no answer to what was sent.
  lemma FailsSent(p: Platform, fill: Fill, g: GateConfig, k: Packet, targetNode: string, url: Result<()>,
                  worker: Json -> Result<Json>, sent: Time, received: Time)
    requires MayPost(p, g, k, targetNode, url, sent)
    ensures var signed := MaybeSign(p, g, k).value;
            var answer := worker(Encode(p, signed));
            var r := Send(p, fill, g, k, targetNode, url, worker, sent, received).result;
            if answer.Err? then r == Err(answer.error)
            else
              var d := Decode(p, fill, answer.value);
              if d.Err? then r == Err(if d.error == IntegrityError then DispatchSecurity else WorkerResponse)
              else
                var verdict := Verdict(p, d.value, GateChecks(g, g.verifyResponses), received);
                if verdict.Err? then r == Err(RefusalError(verdict))
                else if Answers(d.value, signed, Norm(targetNode), g.gateNode) then r == d
                else r == Err(WorkerResponse)
  {
    hide Verdict, Encode, Decode, MaybeSign, AssertGateAuthored, Norm, Answers;
  }
}
