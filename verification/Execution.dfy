// runtime/execution.py and runtime/inbound_policy.py: how a worker answers.
module Execution {
  import opened Wrappers
  import opened Strings
  import opened Json
  import opened Canonical
  import opened Models
  import opened Platforms
  import opened Hashing
  import opened Packets
  import opened Signatures
  import opened HopTraces
  import opened Runs
  import opened Lineages
  import opened Codec
  import opened Validation

  datatype SigningKeys = SigningKeys(
    signingKey: Option<string>,
    signingPrivateKey: Option<string>,
    keyId: Option<string>,
    algorithm: Option<string>)

  // _resolve_signing_material
  function ResolveSigning(keys: SigningKeys): Result<Option<string>> {
    if keys.algorithm.None? then Ok(if keys.signingKey.Some? then keys.signingKey else keys.signingPrivateKey)
    else if Norm(keys.algorithm.value) == "hmac-sha256" then Ok(keys.signingKey)
    else if Norm(keys.algorithm.value) == "ed25519" then Ok(keys.signingPrivateKey)
    else Err(ValueError)
  }

  function SignAnswer(p: Platform, k: Packet, keys: SigningKeys): Result<Packet> {
    var key :- ResolveSigning(keys);
    if key.None? then Ok(k)
    else if keys.keyId.None? || keys.algorithm.None? then Err(ValueError)
    else SignPacket(p, k, key.value, keys.keyId.value, keys.algorithm.value)
  }

  // str(payload.get("status", "completed")).strip().lower(), or "completed" when
  // that is no hop status. The text of a value that is not a string never is one.
  function PayloadStatus(payload: seq<Field>): string {
    var status := AsStr(Read(payload, "status"), "completed");
    if Norm(status) in STATUSES then Norm(status) else "completed"
  }

  // The fresh ids and clock readings of one answer.
  datatype Moments = Moments(
    executionHop: Uuid,
    started: Time,
    packet: Uuid,
    made: Time,
    responseHop: Uuid,
    finished: Time)

  function PlainHop(node: string, action: string, direction: string, status: string, code: Option<string>,
                    message: Option<string>): HopArgs {
    HopArgs(node, action, direction, status, None, None, None, None, None, code, message, None)
  }

  function AnswerArgs(packetType: string, node: string, replyTo: string, payload: seq<Field>): DeriveArgs {
    INHERIT.(packetType := Some(packetType), sourceNode := Some(node), destinationNode := Some(replyTo),
             replyTo := Some(node), payload := Some(payload))
  }

  // What both kinds of answer do: derive, append a response hop, sign.
  function Answer(p: Platform, base: Packet, packetType: string, node: string, payload: seq<Field>, status: string,
                  code: Option<string>, message: Option<string>, keys: SigningKeys, m: Moments): Result<Packet> {
    var child :- Derive(p, base, m.packet, m.made, AnswerArgs(packetType, node, base.address.replyTo, payload));
    var hop :- MakeHop(p, child, m.responseHop, m.finished,
                       PlainHop(node, child.header.action, "response", status, code, message));
    var answered :- WithHop(p, child, hop);
    SignAnswer(p, answered, keys)
  }

  // What became of the handler: its dict, a value that is neither dict nor
  // packet, or an exception (a timeout is one).
  datatype Outcome = Returned(payload: seq<Field>) | NotADict | Raised(error: Error)

  // The request with its execution hop, which is what the handler is given.
  function ProcessingPacket(p: Platform, k: Packet, node: string, m: Moments): Result<Packet> {
    var hop :- MakeHop(p, k, m.executionHop, m.started,
                       PlainHop(node, k.header.action, "execution", "processing", None, None));
    WithHop(p, k, hop)
  }

  // execute_transport_packet, for a handler that does not build a packet itself
  function ExecutePacket(p: Platform, k: Packet, nodeName: string, keys: SigningKeys, c: Config,
                         handlers: string -> Option<Packet -> Outcome>, now: Time, m: Moments): Result<Packet> {
    var node := Norm(nodeName);
    var _ :- Verdict(p, k, c.(localNode := Some(node)), now);
    match handlers(k.header.action)
    case None => Err(ValueError)
    case Some(handler) =>
      var processing :- ProcessingPacket(p, k, node, m);
      match handler(processing)
      case NotADict => Err(TypeError)
      case Raised(error) => Err(error)
      case Returned(payload) =>
        Answer(p, processing, "response", node, payload, PayloadStatus(payload), None, None, keys, m)
  }

  const FAILURE_KEYS := ["status", "error", "message", "packet_id"]

  function FailurePayload(k: Packet, className: string, message: string): seq<Field> {
    Record(FAILURE_KEYS, [Str("failed"), Str(className), Str(message), Str(k.header.packetId)])
  }

  // create_error_transport_packet, given the exception's class name and text
  function ErrorPacket(p: Platform, k: Packet, className: string, text: string, nodeName: string, keys: SigningKeys,
                       exposeInternalErrors: bool, m: Moments): Result<Packet> {
    var node := Norm(nodeName);
    var message := if exposeInternalErrors then text else className;
    Answer(p, k, "failure", node, FailurePayload(k, className, message), "failed", Some(className), Some(message),
           keys, m)
  }

  // ---------------------------------------------------------------------
  // validate_execute_ingress_packet
  // ---------------------------------------------------------------------

  function AssertGateSource(k: Packet, gateNode: string): Result<()> {
    Check(Norm(k.address.sourceNode) == Norm(gateNode), ValueError)
  }

  function AssertTargetsLocal(k: Packet, localNode: string): Result<()> {
    Check(Norm(k.address.destinationNode) == Norm(localNode), ValueError)
  }

  function AssertMediated(k: Packet, routeKinds: seq<string>, requireRouteKind: bool): Result<()> {
    var v := k.provenance;
    var _ :- Check(v.resolvedByGate, ValueError);
    var _ :- Check(v.originKind in {"client", "node", "gate"}, ValueError);
    match v.routeKind
    case None => Check(!requireRouteKind, ValueError)
    case Some(kind) => Check(exists i :: 0 <= i < |routeKinds| && Norm(routeKinds[i]) == Norm(kind), ValueError)
  }

  function ValidateExecuteIngress(k: Packet, localNode: string, gateNode: string, requireRouteKind: bool): Result<()> {
    var _ :- AssertGateSource(k, gateNode);
    var _ :- AssertTargetsLocal(k, localNode);
    AssertMediated(k, ["external_ingress"], requireRouteKind)
  }

  // ---------------------------------------------------------------------
  // When an answer exists
  // ---------------------------------------------------------------------

  // The request's own times let a packet made at `made` inherit them.
  predicate WindowAdmits(h: Header, made: Time) {
    (h.expiresAt.Some? ==> made < h.expiresAt.value) && (h.notBefore.Some? ==> made <= h.notBefore.value)
  }

  // What signing needs: a key that signs, a key id that is not blank, or no key at all.
  predicate CanSign(p: Platform, keys: SigningKeys) {
    var key := ResolveSigning(keys);
    && key.Ok?
    && (key.value.Some? ==>
      && keys.keyId.Some? && Strip(keys.keyId.value) != "" && keys.algorithm.Some?
      && (Norm(keys.algorithm.value) == "ed25519" ==> p.edLoads(key.value.value).Ok?))
  }

  // A request as a worker holds it: it decoded, so its sections are normal.
  predicate Answerable(p: Platform, k: Packet) {
    && Sound(p, k)
    && NormHeader(k.header) == k.header && HeaderOk(k.header)
    && NormAddress(k.address) == k.address && AddressOk(k.address)
    && k.lineage.generation >= 0
  }

  // What an answer takes over from its request without a change.
  predicate Inherited(r: Packet, request: Packet, made: Time) {
    && r.header.createdAt == made && r.header.expiresAt == request.header.expiresAt
    && r.header.notBefore == request.header.notBefore && r.header.replayMode == request.header.replayMode
    && r.governance == request.governance && r.provenance == request.provenance
    && r.delegationChain == request.delegationChain && r.attachments == request.attachments
    && r.security.classification == request.security.classification
  }

  // Everything an answer owes to the request and the node it comes from.
  ghost predicate AnswerHolds(p: Platform, r: Packet, request: Packet, packetType: string, node: string,
                              payload: seq<Field>, status: string, m: Moments) {
    && Sound(p, r) && (forall policy: TracePolicy :: TraceOk(p, r, policy))
    && ChildOf(r, request, m.packet)
    && r.header.packetType == packetType && r.header.action == request.header.action
    && r.address == Address(node, request.address.replyTo, node)
    && r.payload == payload
    && Inherited(r, request, m.made)
    && |r.hopTrace| == 1 && r.hopTrace[0].node == node && r.hopTrace[0].direction == "response"
    && r.hopTrace[0].status == status && r.hopTrace[0].timestamp == m.finished
  }

  // The words of this module are in normal form.
  lemma WordsAreNormal()
    ensures Norm("response") == "response" && Norm("failure") == "failure" && Norm("execution") == "execution"
    ensures Norm("processing") == "processing" && Norm("failed") == "failed" && Norm("completed") == "completed"
  {
    hide Norm;
    WordIsNormal("response");
    WordIsNormal("failure");
    WordIsNormal("execution");
    WordIsNormal("processing");
    WordIsNormal("failed");
    WordIsNormal("completed");
  }

  lemma PayloadStatusNormal(payload: seq<Field>)
    ensures PayloadStatus(payload) in STATUSES && Norm(PayloadStatus(payload)) == PayloadStatus(payload)
  {
    hide Norm, Read;
    WordsAreNormal();
    NormIdempotent(AsStr(Read(payload, "status"), "completed"));
  }

  // A hop with no signing material is built exactly when its own fields are in order.
  lemma PlainHopBuilds(p: Platform, k: Packet, id: Uuid, now: Time, node: string, action: string, direction: string,
                       status: string, code: Option<string>, message: Option<string>)
    requires Norm(node) == node && Norm(action) == action && action != ""
    requires Norm(direction) == direction && direction in {"execution", "response"}
    requires Norm(status) == status && status in STATUSES
    ensures var r := MakeHop(p, k, id, now, PlainHop(node, action, direction, status, code, message));
            && (r.Ok? <==> && node != "" && NotBlank(StripOpt(code)) && NotBlank(StripOpt(message))
                           && (status == "failed" ==> code.Some? || message.Some?))
            && (r.Ok? ==> r.value.node == node && r.value.direction == direction && r.value.status == status
                          && r.value.timestamp == now && r.value.packetId == k.header.packetId
                          && r.value.hopSignature.None?)
  {
    hide Norm, ComputeHopHash, Strip;
  }

  lemma AnswerHeader(h: Header, packetType: string, id: Uuid, now: Time, node: string, replyTo: string,
                     payload: seq<Field>)
    requires NormHeader(h) == h && HeaderOk(h) && packetType in {"response", "failure"}
    ensures var c := NormHeader(DeriveHeader(h, id, now, AnswerArgs(packetType, node, replyTo, payload)));
            && c.packetType == packetType && c.action == h.action && c.createdAt == now
            && c.expiresAt == h.expiresAt && c.notBefore == h.notBefore && c.replayMode == h.replayMode
            && (HeaderOk(c) <==> WindowAdmits(h, now))
  {
    hide Norm, Strip, ActionName;
    WordsAreNormal();
    HeaderInherits(h, id, now, AnswerArgs(packetType, node, replyTo, payload));
  }

  lemma AnswerAddress(a: Address, packetType: string, node: string, payload: seq<Field>)
    requires NormAddress(a) == a && AddressOk(a) && Norm(node) == node && node != ""
    ensures NormAddress(DeriveAddress(a, AnswerArgs(packetType, node, a.replyTo, payload)))
            == Address(node, a.replyTo, node)
  {
    hide Norm;
  }

  lemma SignAnswerExactly(p: Platform, k: Packet, keys: SigningKeys)
    requires Sound(p, k)
    ensures SignAnswer(p, k, keys).Ok? <==> CanSign(p, keys)
    ensures SignAnswer(p, k, keys).Ok? ==> var r := SignAnswer(p, k, keys).value;
      && r == k.(security := r.security) && Sound(p, r)
      && r.security.transportHash == k.security.transportHash
      && r.security.classification == k.security.classification
  {
    hide SignPacket, IntegrityOk, Norm, Strip;
    var key := ResolveSigning(keys);
    if key.Ok? && key.value.Some? && keys.keyId.Some? && keys.algorithm.Some? {
      SignTouchesSignatureOnly(p, k, key.value.value, keys.keyId.value, keys.algorithm.value);
      var signed := SignText(p, Norm(keys.algorithm.value), key.value.value, k.security.transportHash);
      if signed.Ok? && Strip(keys.keyId.value) != "" {
        SignsWith(p, Norm(keys.algorithm.value), key.value.value, k.security.transportHash);
        ResignedSound(p, k, signed.value, keys.algorithm.value, keys.keyId.value);
      }
    }
  }

  lemma SignsWith(p: Platform, algorithm: string, key: string, message: string)
    requires SignText(p, algorithm, key, message).Ok?
    ensures algorithm in ALGORITHMS
  {
  }

  lemma ChildAnswers(p: Platform, base: Packet, packetType: string, node: string, payload: seq<Field>, m: Moments)
    requires Answerable(p, base) && packetType in {"response", "failure"} && Norm(node) == node && node != ""
    ensures var r := Derive(p, base, m.packet, m.made, AnswerArgs(packetType, node, base.address.replyTo, payload));
            && (r.Ok? <==> WindowAdmits(base.header, m.made))
            && (r.Ok? ==> var c := r.value;
                 && Sound(p, c) && c.hopTrace == [] && ChildOf(c, base, m.packet)
                 && c.header.packetType == packetType && c.header.action == base.header.action
                 && c.address == Address(node, base.address.replyTo, node) && c.payload == payload
                 && Inherited(c, base, m.made))
  {
    hide Derive, IntegrityOk, NormHeader, HeaderOk, NormAddress, NormSecurity, SecurityOk, Norm, DeriveHeader,
         DeriveAddress, ChildOf;
    var a := AnswerArgs(packetType, node, base.address.replyTo, payload);
    DeriveMakesChild(p, base, m.packet, m.made, a);
    AnswerHeader(base.header, packetType, m.packet, m.made, node, base.address.replyTo, payload);
    AnswerAddress(base.address, packetType, node, payload);
    if DeriveAdmits(base, m.packet, m.made, a) {
      DeriveIsFinalizedChild(p, base, m.packet, m.made, a);
    }
  }

  lemma DeriveIsFinalizedChild(p: Platform, base: Packet, id: Uuid, now: Time, a: DeriveArgs)
    requires Derivable(base) && Derive(p, base, id, now, a).Ok?
    ensures NormSecurity(Derive(p, base, id, now, a).value.security) == Derive(p, base, id, now, a).value.security
    ensures SecurityOk(Derive(p, base, id, now, a).value.security)
  {
    hide IntegrityOk, NormHeader, HeaderOk, NormAddress, NormSecurity, SecurityOk, DeriveUnhashed, DeriveHeader,
         DeriveAddress, Finalize;
    DeriveUnhashedIsChild(base, id, now, a);
    FinalizeSound(p, Child(base, id, now, a), false);
    RehashedNormal(Unsigned(base.security), Derive(p, base, id, now, a).value.security)
        by { UnsignedNormal(base.security); }
  }

  // What stands between a request and an answer to it.
  predicate AnswerAdmits(p: Platform, base: Packet, node: string, status: string, code: Option<string>,
                         message: Option<string>, keys: SigningKeys, made: Time) {
    && node != "" && WindowAdmits(base.header, made)
    && NotBlank(StripOpt(code)) && NotBlank(StripOpt(message))
    && (status == "failed" ==> code.Some? || message.Some?)
    && CanSign(p, keys)
  }

  lemma AppendedAnswers(p: Platform, c: Packet, hop: Hop, id: Uuid, now: Time, a: HopArgs)
    requires Sound(p, c) && c.hopTrace == [] && MakeHop(p, c, id, now, a) == Ok(hop) && a.signing.None?
    ensures WithHop(p, c, hop) == Ok(c.(hopTrace := [hop]))
    ensures Sound(p, c.(hopTrace := [hop]))
    ensures forall policy: TracePolicy :: TraceOk(p, c.(hopTrace := [hop]), policy)
  {
    hide MakeHop, WithHop, IntegrityOk, NormSecurity, SecurityOk, CheckHopAt;
    assert c.hopTrace + [hop] == [hop];
    AppendKeeps(p, c, id, now, a, TracePolicy(false, NoResolver, false));
    forall policy: TracePolicy ensures TraceOk(p, c.(hopTrace := [hop]), policy) {
      AppendKeeps(p, c, id, now, a, policy);
    }
  }

  lemma SignedAnswerHolds(p: Platform, k: Packet, r: Packet, request: Packet, packetType: string, node: string,
                          payload: seq<Field>, status: string, m: Moments)
    requires AnswerHolds(p, k, request, packetType, node, payload, status, m)
    requires Sound(p, r) && r == k.(security := r.security)
    requires r.security.transportHash == k.security.transportHash
    requires r.security.classification == k.security.classification
    ensures AnswerHolds(p, r, request, packetType, node, payload, status, m)
  {
    hide Sound, TraceOk;
    forall policy: TracePolicy ensures TraceOk(p, r, policy) {
      TraceReadsCore(p, k, r, policy);
    }
  }

  // An answer is made exactly when it is admitted, and then it holds.
  lemma AnswerExactly(p: Platform, base: Packet, packetType: string, node: string, payload: seq<Field>, status: string,
                      code: Option<string>, message: Option<string>, keys: SigningKeys, m: Moments)
    requires Answerable(p, base) && packetType in {"response", "failure"} && Norm(node) == node
    requires status in STATUSES && Norm(status) == status
    ensures var r := Answer(p, base, packetType, node, payload, status, code, message, keys, m);
            && (r.Ok? <==> AnswerAdmits(p, base, node, status, code, message, keys, m.made))
            && (r.Ok? ==> AnswerHolds(p, r.value, base, packetType, node, payload, status, m))
  {
    hide Derive, MakeHop, WithHop, SignAnswer, ChildOf, Sound, TraceOk, Norm, HeaderOk, NormHeader, NormAddress,
         CanSign, WindowAdmits, AnswerArgs;
    var a := AnswerArgs(packetType, node, base.address.replyTo, payload);
    var derived := Derive(p, base, m.packet, m.made, a);
    WordsAreNormal();
    if node == "" {
      if derived.Ok? { BlankNodeFails(p, derived.value, node, status, code, message, m); }
    } else {
      ChildAnswers(p, base, packetType, node, payload, m);
      if derived.Ok? {
        var c := derived.value;
        ActionPresent(base.header);
        PlainHopBuilds(p, c, m.responseHop, m.finished, node, c.header.action, "response", status, code, message);
        var made := MakeHop(p, c, m.responseHop, m.finished,
                            PlainHop(node, c.header.action, "response", status, code, message));
        if made.Ok? {
          AppendedAnswers(p, c, made.value, m.responseHop, m.finished,
                          PlainHop(node, c.header.action, "response", status, code, message));
          var answered := c.(hopTrace := [made.value]);
          SignAnswerExactly(p, answered, keys);
          ChildOfIgnoresTrace(c, answered, base, m.packet);
          assert AnswerHolds(p, answered, base, packetType, node, payload, status, m);
          if SignAnswer(p, answered, keys).Ok? {
            SignedAnswerHolds(p, answered, SignAnswer(p, answered, keys).value, base, packetType, node, payload,
                              status, m);
          }
        }
      }
    }
  }

  lemma BlankNodeFails(p: Platform, c: Packet, node: string, status: string, code: Option<string>,
                       message: Option<string>, m: Moments)
    requires node == ""
    ensures MakeHop(p, c, m.responseHop, m.finished, PlainHop(node, c.header.action, "response", status, code,
                                                              message)).Err?
  {
    hide ComputeHopHash, NormOpt;
    NormIdempotent(node);
  }

  lemma ActionPresent(h: Header)
    requires NormHeader(h) == h && HeaderOk(h)
    ensures h.action != "" && Norm(h.action) == h.action
  {
  }

  lemma ChildOfIgnoresTrace(a: Packet, b: Packet, parent: Packet, id: Uuid)
    requires b == a.(hopTrace := b.hopTrace) && ChildOf(a, parent, id)
    ensures ChildOf(b, parent, id)
  {
  }

  // Building the execution hop never fails on a request that names this node.
  lemma ProcessingExists(p: Platform, k: Packet, node: string, m: Moments)
    requires Answerable(p, k) && Norm(node) == node && node != ""
    ensures var r := ProcessingPacket(p, k, node, m);
            && r.Ok? && r.value == k.(hopTrace := r.value.hopTrace) && Answerable(p, r.value)
  {
    hide MakeHop, Norm, HeaderOk, NormHeader, NormAddress, NormSecurity, SecurityOk, ComputePayloadHash,
         ComputeTransportHash;
    WordsAreNormal();
    ActionPresent(k.header);
    PlainHopBuilds(p, k, m.executionHop, m.started, node, k.header.action, "execution", "processing", None, None);
    var hop := MakeHop(p, k, m.executionHop, m.started,
                       PlainHop(node, k.header.action, "execution", "processing", None, None)).value;
    HashIgnoresTrace(p, k, k.(hopTrace := k.hopTrace + [hop]));
  }

  // The handler's dict, when the request is valid and a handler is there to return one.
  function HandlerResult(p: Platform, k: Packet, node: string, c: Config, handlers: string -> Option<Packet -> Outcome>,
                         now: Time, m: Moments): Result<seq<Field>> {
    var _ :- Verdict(p, k, c.(localNode := Some(node)), now);
    match handlers(k.header.action)
    case None => Err(ValueError)
    case Some(handler) =>
      var processing :- ProcessingPacket(p, k, node, m);
      match handler(processing)
      case NotADict => Err(TypeError)
      case Raised(error) => Err(error)
      case Returned(payload) => Ok(payload)
  }

  lemma AnsweredForRequest(p: Platform, r: Packet, base: Packet, k: Packet, packetType: string, node: string,
                           payload: seq<Field>, status: string, m: Moments)
    requires AnswerHolds(p, r, base, packetType, node, payload, status, m)
    requires base == k.(hopTrace := base.hopTrace)
    ensures AnswerHolds(p, r, k, packetType, node, payload, status, m)
  {
    hide Sound, TraceOk;
  }

  lemma VerdictNamesNode(p: Platform, k: Packet, c: Config, node: string, now: Time)
    requires Verdict(p, k, c.(localNode := Some(node)), now).Ok? && Norm(node) == node
    ensures k.address.destinationNode == node
  {
    hide PacketSizeBytes, AttachmentChecks, TimeChecks, RuleChecks, ChainChecks, SignatureCheck, TraceChecks,
         FirstError, Norm;
  }

  // A response exists exactly when the request is valid, its handler returns a
  // dict whose status is not "failed", the request's own times still admit a
  // packet made now, and the node can sign; then the response holds.
  lemma ExecuteExactly(p: Platform, k: Packet, nodeName: string, keys: SigningKeys, c: Config,
                       handlers: string -> Option<Packet -> Outcome>, now: Time, m: Moments)
    requires Answerable(p, k)
    ensures var r := ExecutePacket(p, k, nodeName, keys, c, handlers, now, m);
            var result := HandlerResult(p, k, Norm(nodeName), c, handlers, now, m);
            && (r.Ok? <==> result.Ok? && PayloadStatus(result.value) != "failed"
                           && WindowAdmits(k.header, m.made) && CanSign(p, keys))
            && (r.Ok? ==> AnswerHolds(p, r.value, k, "response", Norm(nodeName), result.value,
                                      PayloadStatus(result.value), m))
  {
    hide Verdict, ProcessingPacket, Answer, AnswerHolds, PayloadStatus, Norm, CanSign, WindowAdmits, Sound, NormHeader,
         HeaderOk, NormAddress;
    var node := Norm(nodeName);
    NormIdempotent(nodeName);
    var result := HandlerResult(p, k, node, c, handlers, now, m);
    if result.Ok? {
      VerdictNamesNode(p, k, c, node, now);
      ProcessingExists(p, k, node, m);
      var processing := ProcessingPacket(p, k, node, m).value;
      PayloadStatusNormal(result.value);
      AnswerExactly(p, processing, "response", node, result.value, PayloadStatus(result.value), None, None, keys, m);
      var r := ExecutePacket(p, k, nodeName, keys, c, handlers, now, m);
      if r.Ok? {
        AnsweredForRequest(p, r.value, processing, k, "response", node, result.value, PayloadStatus(result.value), m);
      }
    }
  }

  // An error packet exists exactly when the node has a name, the request's times
  // admit it, neither the class name nor an exposed text is blank, and the node
  // can sign; then it holds.
  lemma ErrorExactly(p: Platform, k: Packet, className: string, text: string, nodeName: string, keys: SigningKeys,
                     expose: bool, m: Moments)
    requires Answerable(p, k)
    ensures var r := ErrorPacket(p, k, className, text, nodeName, keys, expose, m);
            var message := if expose then text else className;
            && (r.Ok? <==> Norm(nodeName) != "" && WindowAdmits(k.header, m.made) && CanSign(p, keys)
                           && Strip(className) != "" && (expose ==> Strip(text) != ""))
            && (r.Ok? ==> AnswerHolds(p, r.value, k, "failure", Norm(nodeName), FailurePayload(k, className, message),
                                      "failed", m))
  {
    hide Answer, AnswerHolds, Norm, CanSign, WindowAdmits, FailurePayload, Answerable, Strip;
    var message := if expose then text else className;
    NormIdempotent(nodeName);
    WordsAreNormal();
    AnswerExactly(p, k, "failure", Norm(nodeName), FailurePayload(k, className, message), "failed", Some(className),
                  Some(message), keys, m);
  }

  // not_before is inherited, so a request that carries one can be answered at
  // one instant only, if at all: a valid request is already past it.
  lemma NotBeforeLeavesOneInstant(p: Platform, k: Packet, nodeName: string, keys: SigningKeys, c: Config,
                                  handlers: string -> Option<Packet -> Outcome>, now: Time, m: Moments)
    requires Answerable(p, k) && k.header.notBefore.Some? && now <= m.made
    ensures ExecutePacket(p, k, nodeName, keys, c, handlers, now, m).Ok?
            ==> now == m.made == k.header.notBefore.value
  {
    hide ExecutePacket, ProcessingPacket, AnswerHolds, PayloadStatus, Norm, CanSign, Answerable, EarlyChecks,
         AttachmentChecks, RuleChecks, ChainChecks, SignatureCheck, TraceChecks, FirstError;
    ExecuteExactly(p, k, nodeName, keys, c, handlers, now, m);
  }
}
