// gate_authority/dispatch.py: Gate sends an authored packet to a worker and
// accepts only an answer to it. The worker side is runtime/app.py's request handler.
module Dispatch {
  import opened Wrappers
  import opened Strings
  import opened Json
  import opened Models
  import opened Platforms
  import opened Hashing
  import opened Packets
  import opened Signatures
  import opened HopTraces
  import opened Runs
  import opened Codec
  import opened RoundTrip
  import opened Deliveries
  import opened Validation
  import opened Execution

  datatype GateConfig = GateConfig(
    gateNode: string,                    // already stripped and lowered by the config model
    requireSignature: bool,
    signingKey: Option<string>,
    signingKeyId: Option<string>,
    signingAlgorithm: Option<string>,
    verifyResponses: bool,
    verifyingKeys: map<string, string>,
    verifyHops: bool,
    checkUri: string -> Result<()>)

  // resolve_verifying_key
  function ResolveVerifyingKey(g: GateConfig, keyId: Option<string>): Option<string> {
    if keyId.None? then None
    else if keyId.value in g.verifyingKeys then Some(g.verifyingKeys[keyId.value])
    else if g.signingKeyId == keyId then g.signingKey
    else None
  }

  // _transport_key_resolver
  function GateResolver(g: GateConfig): KeyResolver {
    if g.verifyingKeys == map[] && g.signingKey.None? then NoResolver
    else KeyFunction(keyId => ResolveVerifyingKey(g, keyId))
  }

  // The defaults of validate_transport_packet. No resolver is passed for hops.
  function GateChecks(g: GateConfig, requireSignature: bool): Config {
    Config(GateResolver(g), requireSignature, 262_144, 64, 8, 32, 10_485_760, g.checkUri, 30, None, None, None, {},
           true, !requireSignature, TracePolicy(g.verifyHops, NoResolver, true))
  }

  // _assert_gate_authored
  function AssertGateAuthored(g: GateConfig, k: Packet, target: string): Result<()> {
    if ValidateExecuteIngress(k, target, g.gateNode, true).Err? then Err(DispatchAuthority)
    else Check(Norm(k.address.replyTo) == g.gateNode, DispatchAuthority)
  }

  // _maybe_sign. Only a TransportError is renamed; a blank key id stays a ValueError,
  // and so does a malformed key.
  function MaybeSign(p: Platform, g: GateConfig, k: Packet): Result<Packet> {
    if g.signingKey.None? then Ok(k)
    else if g.signingKeyId.None? || g.signingAlgorithm.None? then Err(DispatchConfiguration)
    else
      match SignPacket(p, k, g.signingKey.value, g.signingKeyId.value, g.signingAlgorithm.value)
      case Ok(signed) => Ok(signed)
      case Err(error) => Err(if error in {ValueError, TypeError} then error else DispatchSecurity)
  }

  // The errors of validate_transport_packet that are TransportErrors, renamed.
  function AsSecurity(r: Result<()>): Result<()> {
    match r
    case Ok(_) => Ok(())
    case Err(error) => Err(if error in {ValueError, TypeError} then error else DispatchSecurity)
  }

  // _decode_response_packet
  function DecodeResponse(p: Platform, fill: Fill, body: Json): Result<Packet> {
    match Decode(p, fill, body)
    case Ok(k) => Ok(k)
    case Err(error) => Err(if error == IntegrityError then DispatchSecurity else WorkerResponse)
  }

  // ---------------------------------------------------------------------
  // _assert_response_answers_dispatch
  // ---------------------------------------------------------------------

  datatype Problem =
    | WrongSource
    | WrongDestination
    | WrongAction
    | WrongRoot
    | WrongCausation
    | TenantMutated
    | WrongCorrelation
    | WrongIdempotencyKey

  predicate Wrong(q: Problem, response: Packet, request: Packet, target: string, gateNode: string) {
    match q
    case WrongSource => response.address.sourceNode != target
    case WrongDestination => response.address.destinationNode != gateNode
    case WrongAction => response.header.action != request.header.action
    case WrongRoot => response.lineage.rootId != request.lineage.rootId
    case WrongCausation => response.header.causationId != Some(request.header.packetId)
    case TenantMutated => response.tenant != request.tenant
    case WrongCorrelation => response.header.correlationId != request.header.correlationId
    case WrongIdempotencyKey => response.header.idempotencyKey != request.header.idempotencyKey
  }

  // The response comes from the target, goes to Gate, and belongs to the request.
  predicate Answers(response: Packet, request: Packet, target: string, gateNode: string) {
    forall q: Problem :: !Wrong(q, response, request, target, gateNode)
  }

  // The problem that is looked for in step `n`.
  function Sought(n: nat): Problem {
    match n
    case 0 => WrongSource
    case 1 => WrongDestination
    case 2 => WrongAction
    case 3 => WrongRoot
    case 4 => WrongCausation
    case 5 => TenantMutated
    case 6 => WrongCorrelation
    case _ => WrongIdempotencyKey
  }

  // What the first `n` steps report.
  function Reports(n: nat, response: Packet, request: Packet, target: string, gateNode: string): seq<Problem> {
    if n == 0 then []
    else
      Reports(n - 1, response, request, target, gateNode)
      + (if Wrong(Sought(n - 1), response, request, target, gateNode) then [Sought(n - 1)] else [])
  }

  lemma {:induction false} ReportsExactly(n: nat, response: Packet, request: Packet, target: string, gateNode: string,
                                          q: Problem)
    ensures q in Reports(n, response, request, target, gateNode)
            <==> Wrong(q, response, request, target, gateNode) && exists i :: 0 <= i < n && q == Sought(i)
  {
    hide Wrong, Sought;
    if n > 0 {
      ReportsExactly(n - 1, response, request, target, gateNode, q);
    }
  }

  ghost predicate Found(problems: seq<Problem>, n: nat, response: Packet, request: Packet, target: string,
                        gateNode: string) {
    problems == Reports(n, response, request, target, gateNode)
  }

  lemma FoundNext(before: seq<Problem>, n: nat, response: Packet, request: Packet, target: string, gateNode: string)
    requires Found(before, n, response, request, target, gateNode)
    ensures Wrong(Sought(n), response, request, target, gateNode)
            ==> Found(before + [Sought(n)], n + 1, response, request, target, gateNode)
    ensures !Wrong(Sought(n), response, request, target, gateNode)
            ==> Found(before, n + 1, response, request, target, gateNode)
  {
    hide Wrong, Sought;
  }

  lemma NothingFoundYet(response: Packet, request: Packet, target: string, gateNode: string)
    ensures Found([], 0, response, request, target, gateNode)
  {
  }

  lemma {:induction false} FoundAll(problems: seq<Problem>, response: Packet, request: Packet, target: string,
                                    gateNode: string)
    requires Found(problems, 8, response, request, target, gateNode)
    ensures problems == Reports(8, response, request, target, gateNode)
  {
    hide Reports;
  }

  lemma SoughtSomewhere(q: Problem)
    ensures exists i :: 0 <= i < 8 && q == Sought(i)
  {
    match q
    case WrongSource => assert q == Sought(0);
    case WrongDestination => assert q == Sought(1);
    case WrongAction => assert q == Sought(2);
    case WrongRoot => assert q == Sought(3);
    case WrongCausation => assert q == Sought(4);
    case TenantMutated => assert q == Sought(5);
    case WrongCorrelation => assert q == Sought(6);
    case WrongIdempotencyKey => assert q == Sought(7);
  }

  // Every problem there is gets reported, and nothing else: no problems means an answer.
  lemma {:induction false} NoProblemsMeansAnswer(response: Packet, request: Packet, target: string, gateNode: string)
    ensures forall q: Problem :: q in Reports(8, response, request, target, gateNode)
                                 <==> Wrong(q, response, request, target, gateNode)
    ensures Reports(8, response, request, target, gateNode) == [] <==> Answers(response, request, target, gateNode)
  {
    hide Wrong, Sought;
    var problems := Reports(8, response, request, target, gateNode);
    forall q: Problem ensures q in problems <==> Wrong(q, response, request, target, gateNode) {
      ReportsExactly(8, response, request, target, gateNode, q);
      SoughtSomewhere(q);
    }
    if problems != [] {
      assert problems[0] in problems;
    }
  }

  method ResponseProblems(response: Packet, request: Packet, target: string, gateNode: string)
    returns (problems: seq<Problem>)
    ensures problems == Reports(8, response, request, target, gateNode)
    ensures problems == [] <==> Answers(response, request, target, gateNode)
  {
    hide Answers, Found;
    problems := [];
    assert Found(problems, 0, response, request, target, gateNode)
        by { NothingFoundYet(response, request, target, gateNode); }
    FoundNext(problems, 0, response, request, target, gateNode);
    if response.address.sourceNode != target {
      problems := problems + [WrongSource];
    }
    FoundNext(problems, 1, response, request, target, gateNode);
    if response.address.destinationNode != gateNode {
      problems := problems + [WrongDestination];
    }
    FoundNext(problems, 2, response, request, target, gateNode);
    if response.header.action != request.header.action {
      problems := problems + [WrongAction];
    }
    FoundNext(problems, 3, response, request, target, gateNode);
    if response.lineage.rootId != request.lineage.rootId {
      problems := problems + [WrongRoot];
    }
    FoundNext(problems, 4, response, request, target, gateNode);
    if response.header.causationId != Some(request.header.packetId) {
      problems := problems + [WrongCausation];
    }
    FoundNext(problems, 5, response, request, target, gateNode);
    if response.tenant != request.tenant {
      problems := problems + [TenantMutated];
    }
    FoundNext(problems, 6, response, request, target, gateNode);
    if response.header.correlationId != request.header.correlationId {
      problems := problems + [WrongCorrelation];
    }
    FoundNext(problems, 7, response, request, target, gateNode);
    if response.header.idempotencyKey != request.header.idempotencyKey {
      problems := problems + [WrongIdempotencyKey];
    }
    FoundAll(problems, response, request, target, gateNode);
    NoProblemsMeansAnswer(response, request, target, gateNode);
  }

  // ---------------------------------------------------------------------
  // send_gate_authored_packet
  // ---------------------------------------------------------------------

  // _validate_inbound_response
  function Received(p: Platform, g: GateConfig, response: Packet, now: Time): Result<Packet> {
    var _ :- AsSecurity(Verdict(p, response, GateChecks(g, g.verifyResponses), now));
    Ok(response)
  }

  // What a dispatch comes to: its result, and the bodies it has posted.
  datatype Exchange = Exchange(result: Result<Packet>, posted: seq<Json>)

  function NotSent(error: Error): Exchange {
    Exchange(Err(error), [])
  }

  // From the body of the worker's response to the packet that is returned
  function ReadAnswer(p: Platform, fill: Fill, g: GateConfig, signed: Packet, target: string, body: Json,
                      received: Time): Result<Packet> {
    var decoded :- DecodeResponse(p, fill, body);
    var response :- Received(p, g, decoded, received);
    if Answers(response, signed, target, g.gateNode) then Ok(response) else Err(WorkerResponse)
  }

  // `url` is what building the endpoint yields, `worker` what posting a body
  // yields, and the two times are those of the two validations.
  function Send(p: Platform, fill: Fill, g: GateConfig, k: Packet, targetNode: string, url: Result<()>,
                worker: Json -> Result<Json>, sent: Time, received: Time): Exchange {
    var target := Norm(targetNode);
    if target == "" then NotSent(DispatchConfiguration)
    else if url.Err? then NotSent(url.error)
    else if AssertGateAuthored(g, k, target).Err? then NotSent(AssertGateAuthored(g, k, target).error)
    else
      match MaybeSign(p, g, k)
      case Err(error) => NotSent(error)
      case Ok(signed) =>
        var checked := AsSecurity(Verdict(p, signed, GateChecks(g, g.requireSignature), sent));
        if checked.Err? then NotSent(checked.error)
        else if signed.header.timeoutMs <= 0 then NotSent(DispatchConfiguration)
        else
          var body := Encode(p, signed);
          match worker(body)
          case Err(error) => Exchange(Err(error), [body])
          case Ok(answer) => Exchange(ReadAnswer(p, fill, g, signed, target, answer, received), [body])
  }

  // ---------------------------------------------------------------------
  // The worker
  // ---------------------------------------------------------------------

  datatype Worker = Worker(
    node: string,
    gateNode: string,
    enforceIngress: bool,
    requireRouteKind: bool,
    keys: SigningKeys,
    config: Config,
    returnErrors: bool,
    exposeErrors: bool,
    handlers: string -> Option<Packet -> Outcome>,
    describe: Error -> (string, string))          // class name and text of an exception

  function Attempt(p: Platform, w: Worker, k: Packet, now: Time, m: Moments): Result<Packet> {
    var _ :- if w.enforceIngress then ValidateExecuteIngress(k, w.node, w.gateNode, w.requireRouteKind) else Ok(());
    ExecutePacket(p, k, w.node, w.keys, w.config, w.handlers, now, m)
  }

  // The packet a worker answers a decoded request with.
  function AnswerTo(p: Platform, w: Worker, k: Packet, now: Time, m: Moments, onError: Moments): Result<Packet> {
    match Attempt(p, w, k, now, m)
    case Ok(r) => Ok(r)
    case Err(error) =>
      if !w.returnErrors then Err(error)
      else ErrorPacket(p, k, w.describe(error).0, w.describe(error).1, w.node, w.keys, w.exposeErrors, onError)
  }

  // _handle_transport_request, from one JSON body to another
  function Serve(p: Platform, fill: Fill, w: Worker, body: Json, now: Time, m: Moments,
                 onError: Moments): Result<Json> {
    var k :- Decode(p, fill, body);
    var answer :- AnswerTo(p, w, k, now, m, onError);
    Ok(Encode(p, answer))
  }

  // ---------------------------------------------------------------------
  // Gate accepts only an answer
  // ---------------------------------------------------------------------

  // Everything that must hold before the one request is made.
  predicate MayPost(p: Platform, g: GateConfig, k: Packet, targetNode: string, url: Result<()>, sent: Time) {
    && Norm(targetNode) != "" && url.Ok? && AssertGateAuthored(g, k, Norm(targetNode)).Ok?
    && MaybeSign(p, g, k).Ok?
    && Verdict(p, MaybeSign(p, g, k).value, GateChecks(g, g.requireSignature), sent).Ok?
    && MaybeSign(p, g, k).value.header.timeoutMs > 0
  }

  // Whatever a worker does: one body is posted, that of the signed packet, when
  // the packet is authored, signed and validated, and otherwise none at all.
  lemma PostsExactly(p: Platform, fill: Fill, g: GateConfig, k: Packet, targetNode: string, url: Result<()>,
                     worker: Json -> Result<Json>, sent: Time, received: Time)
    ensures var x := Send(p, fill, g, k, targetNode, url, worker, sent, received);
            && x.posted == (if MayPost(p, g, k, targetNode, url, sent) then [Encode(p, MaybeSign(p, g, k).value)]
                            else [])
            && (x.posted == [] ==> x.result.Err?)
            && (Norm(targetNode) != "" && url.Ok? && AssertGateAuthored(g, k, Norm(targetNode)).Err?
                ==> x == NotSent(DispatchAuthority))
  {
    hide Verdict, Encode, SignPacket, ReadAnswer, Norm, ValidateExecuteIngress;
  }

  // What the authority check means for a packet with normal sections.
  lemma AuthorityMeans(g: GateConfig, k: Packet, target: string)
    requires NormAddress(k.address) == k.address && Norm(g.gateNode) == g.gateNode && Norm(target) == target
    requires NormProvenance(k.provenance) == k.provenance && ProvenanceOk(k.provenance)
    ensures AssertGateAuthored(g, k, target).Ok?
            <==> && k.address == Address(g.gateNode, target, g.gateNode)
                 && k.provenance.resolvedByGate && k.provenance.routeKind == Some("external_ingress")
  {
    hide Norm;
    RouteKindIsNormal();
    var kinds := ["external_ingress"];
    if k.provenance.routeKind.Some? {
      assert Norm(kinds[0]) == "external_ingress";
      assert Norm(k.provenance.routeKind.value) == k.provenance.routeKind.value;
    }
  }

  lemma RouteKindIsNormal()
    ensures Norm("external_ingress") == "external_ingress"
  {
    WordIsNormal("external_ingress");
  }

  // Whatever a worker sends back, what Gate returns is an intact packet that
  // passed validation and answers the very packet that was sent.
  lemma AcceptedIsAnswer(p: Platform, fill: Fill, g: GateConfig, k: Packet, targetNode: string, url: Result<()>,
                         worker: Json -> Result<Json>, sent: Time, received: Time)
    requires Send(p, fill, g, k, targetNode, url, worker, sent, received).result.Ok?
    ensures var r := Send(p, fill, g, k, targetNode, url, worker, sent, received).result.value;
            var signed := MaybeSign(p, g, k);
            && AssertGateAuthored(g, k, Norm(targetNode)).Ok? && signed.Ok?
            && Verdict(p, signed.value, GateChecks(g, g.requireSignature), sent).Ok?
            && ValidPacket(p, r) && Answers(r, signed.value, Norm(targetNode), g.gateNode)
            && Verdict(p, r, GateChecks(g, g.verifyResponses), received).Ok?
            && TraceOk(p, r, TracePolicy(g.verifyHops, NoResolver, true))
  {
    hide Verdict, Encode, Decode, Answers, Norm, MaybeSign, AssertGateAuthored, ValidPacket;
    var signed := MaybeSign(p, g, k).value;
    var body := worker(Encode(p, signed)).value;
    DecodedIsValid(p, fill, body);
    var r := Decode(p, fill, body).value;
    AcceptedInOneInterval(p, r, GateChecks(g, g.verifyResponses), received);
  }

  function Trusting(c: Config): Config {
    c.(trace := c.trace.(verifySignatures := false))
  }

  // Gate gives the hop check no keys. With hop verification on, it accepts
  // exactly the packets it would accept with it off and that carry no signed hop.
  lemma SignedHopsExactly(p: Platform, g: GateConfig, k: Packet, required: bool, now: Time)
    requires g.verifyHops
    ensures var c := GateChecks(g, required);
            Verdict(p, k, c, now).Ok?
            <==> && Verdict(p, k, Trusting(c), now).Ok?
                 && forall i :: 0 <= i < |k.hopTrace| ==> k.hopTrace[i].hopSignature.None?
  {
    hide Verdict, PacketSizeBytes, ChainHolds, VerifyPacket, TraceOk, GateResolver;
    var c := GateChecks(g, required);
    AcceptedInOneInterval(p, k, c, now);
    AcceptedInOneInterval(p, k, Trusting(c), now);
    KeylessTrace(p, k, c.trace);
  }

  lemma NoKeyNoVerdict(p: Platform, h: Hop)
    ensures VerifyHop(p, h, NoResolver) != Ok(true)
  {
  }

  // Without keys, a trace passes signature checks exactly when nothing in it is signed.
  lemma KeylessTrace(p: Platform, k: Packet, policy: TracePolicy)
    requires policy.verifySignatures && policy.resolver == NoResolver
    ensures TraceOk(p, k, policy)
            <==> && TraceOk(p, k, policy.(verifySignatures := false))
                 && forall i :: 0 <= i < |k.hopTrace| ==> k.hopTrace[i].hopSignature.None?
  {
    hide CheckHopAt, ComputeHopHash, VerifyHop;
    var lax := policy.(verifySignatures := false);
    forall i | 0 <= i < |k.hopTrace|
      ensures CheckHopAt(p, k, i, policy).Ok?
              <==> CheckHopAt(p, k, i, lax).Ok? && k.hopTrace[i].hopSignature.None?
    {
      CheckedHopMeans(p, k, policy, i);
      CheckedHopMeans(p, k, lax, i);
      NoKeyNoVerdict(p, k.hopTrace[i]);
    }
    if TraceOk(p, k, policy) {
      forall i | 0 <= i < |k.hopTrace|
        ensures CheckHopAt(p, k, i, lax).Ok? && k.hopTrace[i].hopSignature.None?
      {
        assert CheckHopAt(p, k, i, policy).Ok?;
      }
    }
  }

  // So with hop verification on, a signed hop anywhere in a packet gets it refused.
  lemma SignedHopsRefused(p: Platform, g: GateConfig, k: Packet, required: bool, now: Time, i: nat)
    requires g.verifyHops && i < |k.hopTrace|
    requires k.hopTrace[i].hopSignature.Some?
    ensures Verdict(p, k, GateChecks(g, required), now).Err?
  {
    hide Verdict;
    SignedHopsExactly(p, g, k, required, now);
  }

  // ---------------------------------------------------------------------
  // A worker's answer is accepted
  // ---------------------------------------------------------------------

  lemma ValidIsAnswerable(p: Platform, k: Packet)
    requires ValidPacket(p, k)
    ensures Answerable(p, k)
  {
    hide IntegrityOk, NormHeader, HeaderOk, NormAddress, AddressOk, NormSecurity, SecurityOk;
  }

  lemma AnswerIsValid(p: Platform, base: Packet, packetType: string, node: string, payload: seq<Field>, status: string,
                      code: Option<string>, message: Option<string>, keys: SigningKeys, m: Moments)
    requires ValidPacket(p, base)
    requires Answer(p, base, packetType, node, payload, status, code, message, keys, m).Ok?
    ensures ValidPacket(p, Answer(p, base, packetType, node, payload, status, code, message, keys, m).value)
  {
    hide ValidPacket, Derive, MakeHop, WithHop, SignPacket, Norm, KeyIdNamed, ResolveSigning;
    var a := AnswerArgs(packetType, node, base.address.replyTo, payload);
    var child := Derive(p, base, m.packet, m.made, a).value;
    DerivedIsValid(p, base, m.packet, m.made, a, 0);
    var h := PlainHop(node, child.header.action, "response", status, code, message);
    assert KeyIdNamed(h) by { PlainHopNamed(node, child.header.action, "response", status, code, message); }
    ActedIsValid(p, child, Append(m.responseHop, m.finished, h));
    var answered := Act(p, child, Append(m.responseHop, m.finished, h)).value;
    var key := ResolveSigning(keys);
    if key.value.Some? {
      ActedIsValid(p, answered, Sign(key.value.value, keys.keyId.value, keys.algorithm.value));
    }
  }

  lemma PlainHopNamed(node: string, action: string, direction: string, status: string, code: Option<string>,
                      message: Option<string>)
    ensures KeyIdNamed(PlainHop(node, action, direction, status, code, message))
  {
  }

  lemma ProcessingIsValid(p: Platform, k: Packet, node: string, m: Moments)
    requires ValidPacket(p, k) && ProcessingPacket(p, k, node, m).Ok?
    ensures ValidPacket(p, ProcessingPacket(p, k, node, m).value)
  {
    hide ValidPacket, MakeHop, WithHop, KeyIdNamed;
    var h := PlainHop(node, k.header.action, "execution", "processing", None, None);
    assert KeyIdNamed(h) by { PlainHopNamed(node, k.header.action, "execution", "processing", None, None); }
    ActedIsValid(p, k, Append(m.executionHop, m.started, h));
  }

  lemma ExecutedIsValid(p: Platform, k: Packet, nodeName: string, keys: SigningKeys, c: Config,
                        handlers: string -> Option<Packet -> Outcome>, now: Time, m: Moments)
    requires ValidPacket(p, k) && ExecutePacket(p, k, nodeName, keys, c, handlers, now, m).Ok?
    ensures ValidPacket(p, ExecutePacket(p, k, nodeName, keys, c, handlers, now, m).value)
  {
    hide Verdict, ProcessingPacket, Answer, Norm, ValidPacket, PayloadStatus;
    var node := Norm(nodeName);
    ProcessingIsValid(p, k, node, m);
    var processing := ProcessingPacket(p, k, node, m).value;
    var payload := handlers(k.header.action).value(processing).payload;
    AnswerIsValid(p, processing, "response", node, payload, PayloadStatus(payload), None, None, keys, m);
  }

  // What the answer check reads is what every answer has.
  lemma HeldAnswers(p: Platform, g: GateConfig, r: Packet, k: Packet, packetType: string, target: string,
                    payload: seq<Field>, status: string, m: Moments)
    requires AnswerHolds(p, r, k, packetType, target, payload, status, m) && k.address.replyTo == g.gateNode
    ensures Answers(r, k, target, g.gateNode)
  {
    hide Sound, TraceOk;
  }

  // What a worker owes: a packet that is valid, answers the request, takes over
  // what it must, and has a trace of one hop that every policy accepts.
  ghost predicate Delivers(p: Platform, r: Packet, k: Packet, target: string, gateNode: string) {
    && ValidPacket(p, r) && Answers(r, k, target, gateNode) && (forall policy: TracePolicy :: TraceOk(p, r, policy))
    && r.header.packetType in {"response", "failure"} && r.header.schemaVersion == k.header.schemaVersion
    && Inherited(r, k, r.header.createdAt) && |r.hopTrace| == 1
  }

  lemma HeldDelivers(p: Platform, g: GateConfig, r: Packet, k: Packet, packetType: string, target: string,
                     payload: seq<Field>, status: string, m: Moments)
    requires AnswerHolds(p, r, k, packetType, target, payload, status, m) && k.address.replyTo == g.gateNode
    requires ValidPacket(p, r) && packetType in {"response", "failure"}
    ensures Delivers(p, r, k, target, g.gateNode)
  {
    hide Sound, TraceOk, ValidPacket, Answers;
    HeldAnswers(p, g, r, k, packetType, target, payload, status, m);
  }

  // Response or error packet, whatever a node answers an authored request with
  // passes Gate's answer check.
  lemma EveryAnswerDelivers(p: Platform, g: GateConfig, w: Worker, k: Packet, target: string, now: Time, m: Moments,
                            onError: Moments)
    requires ValidPacket(p, k) && Norm(w.node) == target
    requires k.address.replyTo == g.gateNode
    requires AnswerTo(p, w, k, now, m, onError).Ok?
    ensures Delivers(p, AnswerTo(p, w, k, now, m, onError).value, k, target, g.gateNode)
  {
    hide ValidPacket, Norm, Delivers, ExecutePacket, ErrorPacket, ValidateExecuteIngress, AnswerHolds, Answerable,
         HandlerResult, FailurePayload, PayloadStatus, WindowAdmits, CanSign;
    ValidIsAnswerable(p, k);
    match Attempt(p, w, k, now, m) {
      case Ok(r) =>
        ExecuteExactly(p, k, w.node, w.keys, w.config, w.handlers, now, m);
        ExecutedIsValid(p, k, w.node, w.keys, w.config, w.handlers, now, m);
        var payload := HandlerResult(p, k, Norm(w.node), w.config, w.handlers, now, m).value;
        HeldDelivers(p, g, r, k, "response", target, payload, PayloadStatus(payload), m);
      case Err(error) =>
        var name, text := w.describe(error).0, w.describe(error).1;
        var message := if w.exposeErrors then text else name;
        ErrorExactly(p, k, name, text, w.node, w.keys, w.exposeErrors, onError);
        ErrorIsValid(p, k, name, text, w.node, w.keys, w.exposeErrors, onError);
        HeldDelivers(p, g, ErrorPacket(p, k, name, text, w.node, w.keys, w.exposeErrors, onError).value, k, "failure",
                     target, FailurePayload(k, name, message), "failed", onError);
    }
  }

  lemma ErrorIsValid(p: Platform, k: Packet, className: string, text: string, nodeName: string, keys: SigningKeys,
                     expose: bool, m: Moments)
    requires ValidPacket(p, k) && ErrorPacket(p, k, className, text, nodeName, keys, expose, m).Ok?
    ensures ValidPacket(p, ErrorPacket(p, k, className, text, nodeName, keys, expose, m).value)
  {
    hide ValidPacket, Answer, Norm, FailurePayload;
    var message := if expose then text else className;
    AnswerIsValid(p, k, "failure", Norm(nodeName), FailurePayload(k, className, message), "failed", Some(className),
                  Some(message), keys, m);
  }

  // The packet Gate signs is still the valid, authored packet it was given.
  lemma SignedIsValid(p: Platform, g: GateConfig, k: Packet)
    requires ValidPacket(p, k) && MaybeSign(p, g, k).Ok?
    ensures var s := MaybeSign(p, g, k).value;
            ValidPacket(p, s) && s == k.(security := s.security)
  {
    hide ValidPacket, SignPacket;
    if g.signingKey.Some? {
      ActedIsValid(p, k, Sign(g.signingKey.value, g.signingKeyId.value, g.signingAlgorithm.value));
      assert Sound(p, k) by { ValidIsSound(p, k); }
      SignedIsSound(p, k, g.signingKey.value, g.signingKeyId.value, g.signingAlgorithm.value);
    }
  }

  lemma ValidIsSound(p: Platform, k: Packet)
    requires ValidPacket(p, k)
    ensures Sound(p, k) && NormAddress(k.address) == k.address
  {
    hide IntegrityOk, NormHeader, HeaderOk, NormAddress, AddressOk, NormSecurity, SecurityOk;
  }

  // The whole exchange, over the wire both ways. If the worker at the target
  // answers, Gate decodes the very packet the worker built, and the only thing
  // that can still refuse it is transport validation.
  lemma ExchangeCompletes(p: Platform, fill: Fill, g: GateConfig, w: Worker, k: Packet, targetNode: string, sent: Time,
                          received: Time, now: Time, m: Moments, onError: Moments)
    requires Lawful(p) && ValidPacket(p, k) && Norm(w.node) == Norm(targetNode) != ""
    requires AssertGateAuthored(g, k, Norm(targetNode)).Ok? && MaybeSign(p, g, k).Ok?
    requires Verdict(p, MaybeSign(p, g, k).value, GateChecks(g, g.requireSignature), sent).Ok?
    ensures var answer := AnswerTo(p, w, MaybeSign(p, g, k).value, now, m, onError);
            Send(p, fill, g, k, targetNode, Ok(()), body => Serve(p, fill, w, body, now, m, onError), sent, received)
            == Exchange(if answer.Err? then answer else Received(p, g, answer.value, received),
                        [Encode(p, MaybeSign(p, g, k).value)])
  {
    hide ValidPacket, Verdict, Encode, Decode, AnswerTo, MaybeSign, AssertGateAuthored, Answers, Norm, Delivers;
    var signed := MaybeSign(p, g, k).value;
    SignedIsValid(p, g, k);
    DecodeEncode(p, fill, signed);
    assert signed.header.timeoutMs > 0 by { ValidTimeout(p, signed); }
    assert Serve(p, fill, w, Encode(p, signed), now, m, onError)
        == if AnswerTo(p, w, signed, now, m, onError).Err? then Err(AnswerTo(p, w, signed, now, m, onError).error)
           else Ok(Encode(p, AnswerTo(p, w, signed, now, m, onError).value));
    if AnswerTo(p, w, signed, now, m, onError).Ok? {
      var answer := AnswerTo(p, w, signed, now, m, onError).value;
      AuthoredReplyTo(p, g, k, Norm(targetNode));
      EveryAnswerDelivers(p, g, w, signed, Norm(targetNode), now, m, onError);
      DeliveredParts(p, answer, signed, Norm(targetNode), g.gateNode);
      DecodeEncode(p, fill, answer);
    }
  }

  lemma ValidTimeout(p: Platform, k: Packet)
    requires ValidPacket(p, k)
    ensures k.header.timeoutMs > 0
  {
    hide IntegrityOk, NormHeader, NormAddress, AddressOk, NormSecurity, SecurityOk, ActionName;
  }

  lemma AuthoredReplyTo(p: Platform, g: GateConfig, k: Packet, target: string)
    requires ValidPacket(p, k) && AssertGateAuthored(g, k, target).Ok?
    ensures k.address.replyTo == g.gateNode
  {
    hide ValidPacket, ValidateExecuteIngress, Norm;
    ValidIsSound(p, k);
  }

  lemma DeliveredParts(p: Platform, r: Packet, k: Packet, target: string, gateNode: string)
    requires Delivers(p, r, k, target, gateNode)
    ensures ValidPacket(p, r) && Answers(r, k, target, gateNode)
  {
    hide ValidPacket, Answers, TraceOk;
  }

  // ---------------------------------------------------------------------
  // What reaches a worker, and what comes back
  // ---------------------------------------------------------------------

  // Anything posted decodes to the packet Gate was given, up to its signature,
  // and that packet is authored for the target and was valid when it was sent.
  lemma NothingSentUnauthored(p: Platform, fill: Fill, g: GateConfig, k: Packet, targetNode: string, url: Result<()>,
                              worker: Json -> Result<Json>, sent: Time, received: Time, i: nat)
    requires Lawful(p) && ValidPacket(p, k) && Norm(g.gateNode) == g.gateNode
    requires i < |Send(p, fill, g, k, targetNode, url, worker, sent, received).posted|
    ensures var d := Decode(p, fill, Send(p, fill, g, k, targetNode, url, worker, sent, received).posted[i]);
            && i == 0 && d.Ok? && d.value == k.(security := d.value.security)
            && d.value.address == Address(g.gateNode, Norm(targetNode), g.gateNode)
            && d.value.provenance.resolvedByGate && d.value.provenance.routeKind == Some("external_ingress")
            && Verdict(p, d.value, GateChecks(g, g.requireSignature), sent).Ok?
  {
    hide ValidPacket, Verdict, Encode, Decode, Send, MaybeSign, AssertGateAuthored, Norm;
    PostsExactly(p, fill, g, k, targetNode, url, worker, sent, received);
    SignedIsValid(p, g, k);
    DecodeEncode(p, fill, MaybeSign(p, g, k).value);
    ValidSections(p, k);
    NormIdempotent(targetNode);
    AuthorityMeans(g, k, Norm(targetNode));
  }

  lemma ValidSections(p: Platform, k: Packet)
    requires ValidPacket(p, k)
    ensures NormAddress(k.address) == k.address && NormProvenance(k.provenance) == k.provenance
            && ProvenanceOk(k.provenance)
  {
    hide IntegrityOk, NormHeader, HeaderOk, NormAddress, AddressOk, NormTenant, TenantOk, NormSecurity, SecurityOk,
         NormGovernance, GovernanceOk, NormProvenance, ProvenanceOk;
  }

  // What still decides about an answer that is delivered: its size, the request's
  // replay mode, its signature, and the time.
  predicate Receivable(p: Platform, g: GateConfig, r: Packet, request: Packet, now: Time) {
    var c := GateChecks(g, g.verifyResponses);
    && PacketSizeBytes(p, r) <= 262_144 && !request.header.replayMode && SignatureHolds(p, r, c)
    && Opens(r, c) <= now && Before(now, Closes(r))
  }

  // Of an answer to a request that Gate itself accepted, everything else has
  // been checked already: transport validation accepts it exactly when it is receivable.
  lemma AnswerReceived(p: Platform, g: GateConfig, r: Packet, k: Packet, target: string, sent: Time, now: Time)
    requires Delivers(p, r, k, target, g.gateNode) && Verdict(p, k, GateChecks(g, g.requireSignature), sent).Ok?
    ensures Received(p, g, r, now).Ok? <==> Receivable(p, g, r, k, now)
    ensures Received(p, g, r, now).Ok? ==> Received(p, g, r, now) == Ok(r)
  {
    hide ValidPacket, Answers, Verdict, PacketSizeBytes, SignatureHolds, ChainHolds, TraceOk, Opens, Closes,
         GateResolver;
    AcceptedInOneInterval(p, k, GateChecks(g, g.requireSignature), sent);
    AcceptedInOneInterval(p, r, GateChecks(g, g.verifyResponses), now);
    AnswerChainHolds(r, k);
  }

  // An answer is no delegation, so of the chain it takes over only the scopes matter.
  lemma AnswerChainHolds(r: Packet, k: Packet)
    requires r.delegationChain == k.delegationChain && r.header.packetType in {"response", "failure"}
    requires ChainHolds(k.(delegationChain := Undated(k.delegationChain)), 0)
    ensures ChainHolds(r.(delegationChain := Undated(r.delegationChain)), 0)
  {
    hide Members;
  }

  // The exchange succeeds exactly when the worker has an answer and it is
  // receivable, and then Gate returns that answer.
  lemma ExchangeSucceedsExactly(p: Platform, fill: Fill, g: GateConfig, w: Worker, k: Packet, targetNode: string,
                                sent: Time, received: Time, now: Time, m: Moments, onError: Moments)
    requires Lawful(p) && ValidPacket(p, k) && Norm(w.node) == Norm(targetNode) != ""
    requires MayPost(p, g, k, targetNode, Ok(()), sent)
    ensures var signed := MaybeSign(p, g, k).value;
            var answer := AnswerTo(p, w, signed, now, m, onError);
            var x := Send(p, fill, g, k, targetNode, Ok(()), body => Serve(p, fill, w, body, now, m, onError), sent,
                          received);
            && (x.result.Ok? <==> answer.Ok? && Receivable(p, g, answer.value, signed, received))
            && (x.result.Ok? ==> x.result == answer)
  {
    hide ValidPacket, Verdict, Encode, AnswerTo, MaybeSign, AssertGateAuthored, Norm, Delivers, Received, Send, Serve,
         Receivable;
    var signed := MaybeSign(p, g, k).value;
    ExchangeCompletes(p, fill, g, w, k, targetNode, sent, received, now, m, onError);
    if AnswerTo(p, w, signed, now, m, onError).Ok? {
      SignedIsValid(p, g, k);
      AuthoredReplyTo(p, g, k, Norm(targetNode));
      EveryAnswerDelivers(p, g, w, signed, Norm(targetNode), now, m, onError);
      AnswerReceived(p, g, AnswerTo(p, w, signed, now, m, onError).value, signed, Norm(targetNode), sent, received);
    }
  }

  // A replay request sent to a worker built with the SDK, under whatever name and
  // configuration, never succeeds: its answer inherits replay_mode and is refused.
  lemma ReplayNeverAnswered(p: Platform, fill: Fill, g: GateConfig, w: Worker, k: Packet, targetNode: string,
                            url: Result<()>, sent: Time, received: Time, now: Time, m: Moments, onError: Moments)
    requires Lawful(p) && ValidPacket(p, k) && k.header.replayMode
    ensures Send(p, fill, g, k, targetNode, url, body => Serve(p, fill, w, body, now, m, onError), sent,
                 received).result.Err?
  {
    hide ValidPacket, Verdict, Encode, Decode, AnswerTo, MaybeSign, AssertGateAuthored, Norm, Delivers, Answers;
    var serve := body => Serve(p, fill, w, body, now, m, onError);
    PostsExactly(p, fill, g, k, targetNode, url, serve, sent, received);
    if MayPost(p, g, k, targetNode, url, sent) {
      var signed := MaybeSign(p, g, k).value;
      SignedIsValid(p, g, k);
      DecodeEncode(p, fill, signed);
      var answer := AnswerTo(p, w, signed, now, m, onError);
      if answer.Ok? {
        AuthoredReplyTo(p, g, k, Norm(targetNode));
        EveryAnswerDelivers(p, g, w, signed, Norm(w.node), now, m, onError);
        DeliveredParts(p, answer.value, signed, Norm(w.node), g.gateNode);
        DecodeEncode(p, fill, answer.value);
        DeliveredReplayRefused(p, g, answer.value, signed, Norm(w.node), received);
      }
    }
  }

  lemma DeliveredReplayRefused(p: Platform, g: GateConfig, r: Packet, k: Packet, target: string, now: Time)
    requires Delivers(p, r, k, target, g.gateNode) && k.header.replayMode
    ensures Received(p, g, r, now).Err?
  {
    hide ValidPacket, Answers, Verdict, TimelessRest, TraceOk, Opens, Closes, GateChecks;
    AcceptedInOneInterval(p, r, GateChecks(g, g.verifyResponses), now);
  }
}
