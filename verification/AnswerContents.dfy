// What is inside the packets a worker answers with: runtime/execution.py and the
// request handler of runtime/app.py.
module AnswerContents {
  import opened Wrappers
  import opened Strings
  import opened Json
  import opened Models
  import opened Platforms
  import opened Packets
  import opened Hashing
  import opened Signatures
  import opened HopTraces
  import opened Runs
  import opened Codec
  import opened Validation
  import opened Execution
  import opened Dispatch
  import opened ModelRules
  import opened Makers

  // ---------------------------------------------------------------------
  // The hop and the signature of an answer
  // ---------------------------------------------------------------------

  // The response hop: who answered what, when and with which status and error.
  predicate ResponseHopSays(h: Hop, packetId: Uuid, node: string, action: string, status: string, code: Option<string>,
                            message: Option<string>, m: Moments) {
    && h.hopId == m.responseHop && h.packetId == packetId && h.node == node && h.action == action
    && h.direction == "response" && h.status == status && h.timestamp == m.finished
    && h.attempt.None? && h.targetNode.None? && h.durationMs.None? && h.queueMs.None? && h.networkMs.None?
    && Stays(code, h.errorCode, Strip) && Stays(message, h.errorMessage, Strip)
    && h.previousHopHash.None? && h.hopSignature.None? && h.hopSignatureAlgorithm.None? && h.hopSigningKeyId.None?
  }

  // The key a node signs its answers with, by the algorithm it names; without an
  // algorithm the shared key comes first.
  function AnswerKey(keys: SigningKeys): Option<string> {
    match keys.algorithm
    case None => if keys.signingKey.Some? then keys.signingKey else keys.signingPrivateKey
    case Some(a) =>
      if Norm(a) == "hmac-sha256" then keys.signingKey
      else if Norm(a) == "ed25519" then keys.signingPrivateKey
      else None
  }

  // An answer is signed over its transport hash with that key, or not at all.
  predicate AnswerSigned(p: Platform, keys: SigningKeys, s: Security) {
    match AnswerKey(keys)
    case None => s.signature.None? && s.signatureAlgorithm.None? && s.signingKeyId.None?
    case Some(key) =>
      && keys.algorithm.Some? && keys.keyId.Some? && Strip(keys.keyId.value) != ""
      && s.signatureAlgorithm == Some(Norm(keys.algorithm.value)) && s.signingKeyId == Some(Strip(keys.keyId.value))
      && s.signature == Some(if Norm(keys.algorithm.value) == "hmac-sha256" then p.mac(key, s.transportHash)
                             else p.edSign(key, s.transportHash))
  }

  lemma SignAnswerSays(p: Platform, k: Packet, keys: SigningKeys)
    requires Sound(p, k) && SignAnswer(p, k, keys).Ok?
    requires k.security.signature.None? && k.security.signatureAlgorithm.None? && k.security.signingKeyId.None?
    ensures var r := SignAnswer(p, k, keys).value;
            r == k.(security := r.security) && AnswerSigned(p, keys, r.security)
  {
    hide SignPacket, IntegrityOk, Norm, Strip;
    AlgorithmsApart();
    if AnswerKey(keys).Some? {
      SignTouchesSignatureOnly(p, k, AnswerKey(keys).value, keys.keyId.value, keys.algorithm.value);
    }
  }

  lemma ResponseHopMade(p: Platform, c: Packet, node: string, action: string, status: string, code: Option<string>,
                        message: Option<string>, m: Moments)
    requires c.hopTrace == [] && Norm(node) == node && Norm(action) == action && Norm(status) == status
    ensures var r := MakeHop(p, c, m.responseHop, m.finished,
                             PlainHop(node, action, "response", status, code, message));
            r.Ok? ==> ResponseHopSays(r.value, c.header.packetId, node, action, status, code, message, m)
  {
    hide Norm, Strip, MakeHop;
    WordsAreNormal();
    var a := PlainHop(node, action, "response", status, code, message);
    var r := MakeHop(p, c, m.responseHop, m.finished, a);
    if r.Ok? {
      MakeHopExactly(p, c, m.responseHop, m.finished, a, r.value);
    }
  }

  // The one hop of an answer and its signature.
  lemma AnswerSays(p: Platform, base: Packet, packetType: string, node: string, payload: seq<Field>, status: string,
                   code: Option<string>, message: Option<string>, keys: SigningKeys, m: Moments)
    requires Answerable(p, base) && packetType in {"response", "failure"} && Norm(node) == node
    requires status in STATUSES && Norm(status) == status
    requires Answer(p, base, packetType, node, payload, status, code, message, keys, m).Ok?
    ensures var r := Answer(p, base, packetType, node, payload, status, code, message, keys, m).value;
            && |r.hopTrace| == 1 && r.payload == payload && AnswerSigned(p, keys, r.security)
            && ResponseHopSays(r.hopTrace[0], r.header.packetId, node, base.header.action, status, code, message, m)
  {
    hide Derive, MakeHop, WithHop, SignAnswer, ChildOf, Sound, TraceOk, Norm, HeaderOk, NormHeader, NormAddress,
         CanSign, WindowAdmits, AnswerArgs, ResponseHopSays, AnswerSigned;
    var c := Derive(p, base, m.packet, m.made, AnswerArgs(packetType, node, base.address.replyTo, payload)).value;
    AnswerExactly(p, base, packetType, node, payload, status, code, message, keys, m);
    ChildAnswers(p, base, packetType, node, payload, m);
    assert c.security.signature.None? && c.security.signatureAlgorithm.None? && c.security.signingKeyId.None?
        by {
          AnswerableDerives(p, base);
          ChildUnsigned(p, base, m.packet, m.made, AnswerArgs(packetType, node, base.address.replyTo, payload));
        }
    assert Norm(c.header.action) == c.header.action by { ActionPresent(base.header); }
    assert Norm("response") == "response" by { WordsAreNormal(); }
    var a := PlainHop(node, c.header.action, "response", status, code, message);
    ResponseHopMade(p, c, node, c.header.action, status, code, message, m);
    var hop := MakeHop(p, c, m.responseHop, m.finished, a).value;
    AppendedAnswers(p, c, hop, m.responseHop, m.finished, a);
    SignAnswerSays(p, c.(hopTrace := [hop]), keys);
  }

  lemma AnswerableDerives(p: Platform, k: Packet)
    requires Answerable(p, k)
    ensures Derivable(k)
  {
    hide NormHeader, HeaderOk, NormAddress, NormSecurity, SecurityOk, IntegrityOk;
  }

  lemma ChildUnsigned(p: Platform, base: Packet, id: Uuid, now: Time, a: DeriveArgs)
    requires Derivable(base) && Derive(p, base, id, now, a).Ok?
    ensures var s := Derive(p, base, id, now, a).value.security;
            s.signature.None? && s.signatureAlgorithm.None? && s.signingKeyId.None?
  {
    hide Derive, Derivable, HeaderMade, AddressMade;
    DeriveExactly(p, base, id, now, a, Derive(p, base, id, now, a).value);
  }

  // A signed answer verifies for whoever has the key that matches.
  lemma AnswerVerifies(p: Platform, r: Packet, keys: SigningKeys, resolver: KeyResolver, verifyKey: string)
    requires AnswerSigned(p, keys, r.security) && AnswerKey(keys).Some? && CanSign(p, keys)
    requires KeyPair(p, Norm(keys.algorithm.value), AnswerKey(keys).value, verifyKey)
    requires KeyFor(resolver, Some(Strip(keys.keyId.value)), verifyKey)
    ensures VerifyPacket(p, r, resolver) == Ok(true)
  {
    hide Norm, Strip;
    AlgorithmsApart();
    ResolvedKey(resolver, Some(Strip(keys.keyId.value)), verifyKey);
    VerifyPacketExactly(p, r, resolver);
  }

  // ---------------------------------------------------------------------
  // Error packets
  // ---------------------------------------------------------------------

  // The payload of a failure packet, read by its four keys; it has no others.
  predicate FailureSays(fs: seq<Field>, className: string, message: string, packetId: Uuid) {
    && |fs| == 4
    && Read(fs, "status") == Some(Str("failed")) && Read(fs, "error") == Some(Str(className))
    && Read(fs, "message") == Some(Str(message)) && Read(fs, "packet_id") == Some(Str(packetId))
  }

  lemma {:induction false} FourFields(fs: seq<Field>, a: string, b: string, c: string, d: string)
    requires |fs| == 4 && fs[0].key == a && fs[1].key == b && fs[2].key == c && fs[3].key == d
    requires a != b && a != c && a != d && b != c && b != d && c != d
    ensures Read(fs, a) == Some(fs[0].val) && Read(fs, b) == Some(fs[1].val)
    ensures Read(fs, c) == Some(fs[2].val) && Read(fs, d) == Some(fs[3].val)
  {
    var one, two, three := fs[1..], fs[1..][1..], fs[1..][1..][1..];
    assert one[0] == fs[1] && two[0] == fs[2] && three[0] == fs[3];
    assert Read(three, d) == Some(fs[3].val) && Read(two, c) == Some(fs[2].val) && Read(one, b) == Some(fs[1].val);
    assert Read(two, d) == Read(three, d) && Read(one, c) == Read(two, c) && Read(one, d) == Read(two, d);
  }

  lemma FailurePayloadSays(k: Packet, className: string, message: string)
    ensures FailureSays(FailurePayload(k, className, message), className, message, k.header.packetId)
  {
    var fs := FailurePayload(k, className, message);
    assert "status"[0] == 's' && "error"[0] == 'e' && "message"[0] == 'm' && "packet_id"[0] == 'p';
    FourFields(fs, "status", "error", "message", "packet_id");
  }

  // Every error packet says which packet failed and how, in its payload and in its hop.
  ghost predicate ErrorSays(r: Packet, k: Packet, className: string, text: string, node: string, expose: bool,
                            m: Moments) {
    var message := if expose then text else className;
    && FailureSays(r.payload, className, message, k.header.packetId)
    && |r.hopTrace| == 1
    && ResponseHopSays(r.hopTrace[0], r.header.packetId, node, k.header.action, "failed", Some(className),
                       Some(message), m)
  }

  lemma ErrorPacketSays(p: Platform, k: Packet, className: string, text: string, nodeName: string, keys: SigningKeys,
                        expose: bool, m: Moments)
    requires Answerable(p, k) && ErrorPacket(p, k, className, text, nodeName, keys, expose, m).Ok?
    ensures var r := ErrorPacket(p, k, className, text, nodeName, keys, expose, m).value;
            ErrorSays(r, k, className, text, Norm(nodeName), expose, m) && AnswerSigned(p, keys, r.security)
  {
    hide Answer, Norm, Answerable, AnswerSigned, FailurePayload, FailureSays, ResponseHopSays;
    var message := if expose then text else className;
    NormIdempotent(nodeName);
    WordsAreNormal();
    FailurePayloadSays(k, className, message);
    AnswerSays(p, k, "failure", Norm(nodeName), FailurePayload(k, className, message), "failed", Some(className),
               Some(message), keys, m);
  }

  // ---------------------------------------------------------------------
  // Responses
  // ---------------------------------------------------------------------

  // The status of the response hop: the payload's own, if it is a text that names
  // a hop status, and "completed" otherwise.
  lemma {:induction false} PayloadStatusMeans(payload: seq<Field>)
    ensures var names := {"received", "validated", "processing", "delegated", "completed", "failed"};
            && PayloadStatus(payload) in names
            && (forall s :: Read(payload, "status") == Some(Str(s)) && Norm(s) in names
                            ==> PayloadStatus(payload) == Norm(s))
            && ((forall s :: Read(payload, "status") == Some(Str(s)) ==> Norm(s) !in names)
                ==> PayloadStatus(payload) == "completed")
  {
    hide Norm, Read;
    WordsAreNormal();
  }

  // The handler is given the request with one more hop, which says that this node
  // is processing it.
  lemma ProcessingSays(p: Platform, k: Packet, node: string, m: Moments)
    requires Answerable(p, k) && Norm(node) == node && node != ""
    ensures var r := ProcessingPacket(p, k, node, m);
            && r.Ok? && |r.value.hopTrace| == |k.hopTrace| + 1
            && var h := r.value.hopTrace[|k.hopTrace|];
               && r.value == k.(hopTrace := k.hopTrace + [h])
               && h.hopId == m.executionHop && h.node == node && h.action == k.header.action
               && h.direction == "execution" && h.status == "processing" && h.timestamp == m.started
               && h.errorCode.None? && h.errorMessage.None? && h.hopSignature.None?
  {
    hide MakeHop, Norm, Strip, HeaderOk, NormHeader, NormAddress, NormSecurity, SecurityOk, ComputePayloadHash,
         ComputeTransportHash;
    WordsAreNormal();
    ActionPresent(k.header);
    ProcessingExists(p, k, node, m);
    var a := PlainHop(node, k.header.action, "execution", "processing", None, None);
    MakeHopExactly(p, k, m.executionHop, m.started, a, MakeHop(p, k, m.executionHop, m.started, a).value);
  }

  // ---------------------------------------------------------------------
  // What a worker reports
  // ---------------------------------------------------------------------

  // What a worker's attempt fails with: the ingress check, validation, a missing
  // handler, a result that is no dict, or the handler's own exception.
  ghost predicate FailsWith(p: Platform, w: Worker, k: Packet, now: Time, m: Moments, e: Error) {
    var ingress := if w.enforceIngress then ValidateExecuteIngress(k, w.node, w.gateNode, w.requireRouteKind)
                   else Ok(());
    var verdict := Verdict(p, k, w.config.(localNode := Some(Norm(w.node))), now);
    if ingress.Err? then e == ValueError
    else if verdict.Err? then e == verdict.error
    else
      match w.handlers(k.header.action)
      case None => e == ValueError
      case Some(handler) =>
        && ProcessingPacket(p, k, Norm(w.node), m).Ok?
        && match handler(ProcessingPacket(p, k, Norm(w.node), m).value)
           case NotADict => e == TypeError
           case Raised(error) => e == error
           case Returned(_) => false
  }

  // A failed attempt is reported as it failed: nothing at all unless errors are
  // returned, and then a packet that names the very exception.
  lemma FailureReported(p: Platform, w: Worker, k: Packet, now: Time, m: Moments, onError: Moments, e: Error)
    requires Answerable(p, k) && FailsWith(p, w, k, now, m, e)
    ensures var r := AnswerTo(p, w, k, now, m, onError);
            && (!w.returnErrors ==> r == Err(e))
            && (r.Ok? ==> w.returnErrors
                          && ErrorSays(r.value, k, w.describe(e).0, w.describe(e).1, Norm(w.node), w.exposeErrors,
                                       onError)
                          && AnswerSigned(p, w.keys, r.value.security))
  {
    hide Verdict, ProcessingPacket, Norm, Answerable, ErrorPacket, ErrorSays, AnswerSigned, Answer;
    IngressRefusals(k, w.node, w.gateNode, w.requireRouteKind);
    assert Attempt(p, w, k, now, m) == Err(e);
    if AnswerTo(p, w, k, now, m, onError).Ok? {
      ErrorPacketSays(p, k, w.describe(e).0, w.describe(e).1, w.node, w.keys, w.exposeErrors, onError);
    }
  }

  // When a worker behind Gate takes a packet in, and how it refuses one.
  lemma IngressRefusals(k: Packet, localNode: string, gateNode: string, requireRouteKind: bool)
    ensures var r := ValidateExecuteIngress(k, localNode, gateNode, requireRouteKind);
            && (r.Err? ==> r == Err(ValueError))
            && (r.Ok? <==> && Norm(k.address.sourceNode) == Norm(gateNode)
                           && Norm(k.address.destinationNode) == Norm(localNode) && k.provenance.resolvedByGate
                           && k.provenance.originKind in {"client", "node", "gate"}
                           && (match k.provenance.routeKind
                               case None => !requireRouteKind
                               case Some(kind) => Norm(kind) == "external_ingress"))
  {
    hide Norm;
    RouteKindIsNormal();
    var kinds := ["external_ingress"];
    assert kinds[0] == "external_ingress";
  }

  // ---------------------------------------------------------------------
  // Every answer is signed
  // ---------------------------------------------------------------------

  lemma ResponseSigned(p: Platform, k: Packet, nodeName: string, keys: SigningKeys, c: Config,
                       handlers: string -> Option<Packet -> Outcome>, now: Time, m: Moments)
    requires Answerable(p, k) && ExecutePacket(p, k, nodeName, keys, c, handlers, now, m).Ok?
    ensures AnswerSigned(p, keys, ExecutePacket(p, k, nodeName, keys, c, handlers, now, m).value.security)
    ensures CanSign(p, keys)
  {
    hide Verdict, ProcessingPacket, Answer, AnswerHolds, PayloadStatus, Norm, CanSign, WindowAdmits, Answerable,
         AnswerSigned;
    var node := Norm(nodeName);
    NormIdempotent(nodeName);
    ExecuteExactly(p, k, nodeName, keys, c, handlers, now, m);
    VerdictNamesNode(p, k, c, node, now);
    assert node != "" by { AnswerableNamed(p, k); }
    ProcessingExists(p, k, node, m);
    var processing := ProcessingPacket(p, k, node, m).value;
    var payload := HandlerResult(p, k, node, c, handlers, now, m).value;
    PayloadStatusNormal(payload);
    AnswerSays(p, processing, "response", node, payload, PayloadStatus(payload), None, None, keys, m);
  }

  lemma AnswerableNamed(p: Platform, k: Packet)
    requires Answerable(p, k)
    ensures k.address.destinationNode != ""
  {
    hide Sound, NormHeader, HeaderOk, NormAddress;
  }

  // Response or error packet, what a worker answers with is signed as its keys say.
  lemma EveryAnswerSigned(p: Platform, w: Worker, k: Packet, now: Time, m: Moments, onError: Moments)
    requires Answerable(p, k) && AnswerTo(p, w, k, now, m, onError).Ok?
    ensures AnswerSigned(p, w.keys, AnswerTo(p, w, k, now, m, onError).value.security) && CanSign(p, w.keys)
  {
    hide ExecutePacket, ErrorPacket, Answerable, AnswerSigned, CanSign, ValidateExecuteIngress, Norm, ErrorSays,
         WindowAdmits, AnswerHolds, FailurePayload;
    match Attempt(p, w, k, now, m)
    case Ok(_) => ResponseSigned(p, k, w.node, w.keys, w.config, w.handlers, now, m);
    case Err(error) =>
      ErrorPacketSays(p, k, w.describe(error).0, w.describe(error).1, w.node, w.keys, w.exposeErrors, onError);
      ErrorExactly(p, k, w.describe(error).0, w.describe(error).1, w.node, w.keys, w.exposeErrors, onError);
  }
}
