// Requests on which a promise of the runtime or the orchestrator is seen to fail.
module Refusals {
  import opened Wrappers
  import opened Strings
  import opened Json
  import opened Models
  import opened Platforms
  import opened Packets
  import opened HopTraces
  import opened Signatures
  import opened Lineages
  import opened Deliveries
  import opened Validation
  import opened Execution
  import opened Dispatch
  import opened Orchestration
  import opened Witnesses

  const NO_KEYS := SigningKeys(None, None, None, None)

  // A node's validation settings: the defaults, with nothing required.
  function Lenient(maxPacketBytes: int): Config {
    Config(NoResolver, false, maxPacketBytes, 64, 8, 32, 10_485_760, _ => Ok(()), 30, None, None, None, {}, true, true,
           TracePolicy(false, NoResolver, true))
  }

  // A node whose every handler returns one payload.
  function Replying(payload: seq<Field>): string -> Option<Packet -> Outcome> {
    _ => Some((_: Packet) => Returned(payload))
  }

  // ---------------------------------------------------------------------
  // Roots that no validator accepts
  // ---------------------------------------------------------------------

  lemma TagIsKept()
    ensures Cleaned(Shout, ["GDPR"]) == ["GDPR"]
  {
    StripTrims("GDPR", IsSpace);
    assert Upper("GDPR") == "GDPR";
  }

  lemma RestrictedIsNormal()
    ensures Norm("restricted") == "restricted"
  {
    WordIsNormal("restricted");
  }

  // A root classified as restricted and one tagged GDPR are made, are valid, and
  // are refused at every time under every configuration.
  lemma SensitiveRootsRefused(p: Platform, id: Uuid, made: Time, a: CreateArgs)
    requires a in {PingArgs().(classification := "restricted"), PingArgs().(complianceTags := ["GDPR"])}
    ensures Create(p, id, made, a).Ok? && ValidPacket(p, Create(p, id, made, a).value)
    ensures forall c: Config, now: Time :: Verdict(p, Create(p, id, made, a).value, c, now).Err?
  {
    hide Create, ValidPacket, Verdict, RootSays, Norm, Cleaned;
    RestrictedIsNormal();
    RootNames();
    TagIsKept();
    NoTagsKept();
    LikePingIsValid(p, id, made, a);
    forall c: Config, now: Time ensures Verdict(p, Create(p, id, made, a).value, c, now).Err? {
      CreatedAccepted(p, id, made, a, c, now);
    }
  }

  // ---------------------------------------------------------------------
  // Requests that get no answer
  // ---------------------------------------------------------------------

  lemma NoKeysSign(p: Platform)
    ensures CanSign(p, NO_KEYS)
  {
  }

  // An exception without a text: no error packet while internal errors are
  // exposed, whenever it is made, and one while they are not.
  lemma BlankErrorUnanswered(p: Platform, id: Uuid, now: Time, m: Moments)
    ensures Ping(p, id, now).Ok?
    ensures var k := Ping(p, id, now).value;
            && ErrorPacket(p, k, "t", "", "node", NO_KEYS, true, m).Err?
            && ErrorPacket(p, k, "t", "", "node", NO_KEYS, false, m).Ok?
  {
    hide Ping, ValidPacket, ErrorPacket, Answerable, AnswerHolds, FailurePayload, Norm, Strip, CanSign, WindowAdmits;
    ValidRootExists(p, id, now);
    var k := Ping(p, id, now).value;
    ValidIsAnswerable(p, k);
    NoWindow(k.header, m.made);
    NoKeysSign(p);
    HopWords();
    OneLetter();
    NothingStrips();
    ErrorExactly(p, k, "t", "", "node", NO_KEYS, true, m);
    ErrorExactly(p, k, "t", "", "node", NO_KEYS, false, m);
  }

  lemma StatusWords()
    ensures PayloadStatus([Field("status", Str("failed"))]) == "failed" && PayloadStatus([]) == "completed"
  {
    hide Norm;
    WordsAreNormal();
  }

  // A valid request that its node accepts: the handler's dict alone decides
  // whether there is a response, and one that says failed gets none.
  lemma FailedStatusUnanswered(p: Platform, id: Uuid, now: Time, m: Moments)
    ensures Ping(p, id, now).Ok?
    ensures var k := Ping(p, id, now).value;
            var c := Lenient(PacketSizeBytes(p, k));
            && ValidPacket(p, k) && Verdict(p, k, c.(localNode := Some("gate")), now).Ok?
            && ExecutePacket(p, k, "gate", NO_KEYS, c, Replying([Field("status", Str("failed"))]), now, m).Err?
            && ExecutePacket(p, k, "gate", NO_KEYS, c, Replying([]), now, m).Ok?
  {
    hide Create, ValidPacket, Verdict, ExecutePacket, ProcessingPacket, Answerable, AnswerHolds, PayloadStatus, Norm,
         CanSign, WindowAdmits, PacketSizeBytes, Cleaned;
    ValidRootExists(p, id, now);
    var k := Ping(p, id, now).value;
    var c := Lenient(PacketSizeBytes(p, k));
    RootNames();
    PingIsAction();
    NoTagsKept();
    ValidIsAnswerable(p, k);
    NoWindow(k.header, m.made);
    NoKeysSign(p);
    StatusWords();
    CreatedAccepted(p, id, now, PingArgs(), c.(localNode := Some("gate")), now);
    ProcessingExists(p, k, "gate", m);
    ExecuteExactly(p, k, "gate", NO_KEYS, c, Replying([Field("status", Str("failed"))]), now, m);
    ExecuteExactly(p, k, "gate", NO_KEYS, c, Replying([]), now, m);
  }

  // A validator that requires nothing beyond the rules.
  predicate Permissive(c: Config) {
    && !c.requireSignature && c.maxHopDepth >= 0 && c.maxDelegationDepth >= 0 && c.maxAttachments >= 0
    && c.allowedActions.None? && c.allowedTypes.None? && c.idempotencyActions == {} && c.replayEnabled
  }

  // A packet that carries nothing the rules look at.
  predicate Unmarked(k: Packet) {
    && k.header.schemaVersion == "1.0" && k.delegationChain == [] && k.attachments == [] && k.hopTrace == []
    && (k.header.replayMode <==> k.header.packetType == "replay_request")
    && k.governance.complianceTags == [] && k.security.classification == "internal" && k.security.signature.None?
  }

  lemma UnmarkedAccepted(p: Platform, k: Packet, c: Config, now: Time)
    requires Permissive(c) && Unmarked(k) && PacketSizeBytes(p, k) <= c.maxPacketBytes
    requires c.localNode.Some? ==> k.address.destinationNode == Norm(c.localNode.value)
    requires Opens(k, c) <= now && Before(now, k.header.expiresAt)
    ensures Verdict(p, k, c, now).Ok?
  {
    hide Verdict, PacketSizeBytes, Norm;
    AcceptedInOneInterval(p, k, c, now);
    assert ChainCloses(k.delegationChain) == None;
    assert ChainHolds(k.(delegationChain := Undated(k.delegationChain)), 0);
    assert "internal" != "restricted" by { assert |"internal"| == 8; }
  }

  // A child of the request that is not to be handled before a given moment.
  const AWAITED := INHERIT.(notBefore := Some(5))

  // Such a request is answered at that very moment, and at no other.
  lemma WaitingRequestUnanswered(p: Platform, rootId: Uuid, id: Uuid)
    ensures Ping(p, rootId, 0).Ok? && Derive(p, Ping(p, rootId, 0).value, id, 0, AWAITED).Ok?
    ensures var k := Derive(p, Ping(p, rootId, 0).value, id, 0, AWAITED).value;
            var c := Lenient(PacketSizeBytes(p, k));
            && ValidPacket(p, k)
            && (forall m: Moments :: m.made == 5
                 ==> ExecutePacket(p, k, "gate", NO_KEYS, c, Replying([]), 5, m).Ok?)
            && (forall now: Time, m: Moments :: 5 < now <= m.made
                 ==> && Verdict(p, k, c.(localNode := Some("gate")), now).Ok?
                     && ExecutePacket(p, k, "gate", NO_KEYS, c, Replying([]), now, m).Err?)
  {
    hide Ping, Derive, ValidPacket, Verdict, ExecutePacket, ProcessingPacket, Answerable, AnswerHolds, PayloadStatus,
         Norm, CanSign, PacketSizeBytes;
    ValidRootExists(p, rootId, 0);
    var parent := Ping(p, rootId, 0).value;
    PlainDerives(p, parent, id, 0, AWAITED);
    var k := Derive(p, parent, id, 0, AWAITED).value;
    var c := Lenient(PacketSizeBytes(p, k));
    RootNames();
    NoKeysSign(p);
    StatusWords();
    ValidIsAnswerable(p, k);
    assert "request" != "replay_request" by { assert |"request"| == 7; }
    forall now: Time | 5 <= now ensures Verdict(p, k, c.(localNode := Some("gate")), now).Ok? {
      UnmarkedAccepted(p, k, c.(localNode := Some("gate")), now);
    }
    forall m: Moments | m.made == 5 ensures ExecutePacket(p, k, "gate", NO_KEYS, c, Replying([]), 5, m).Ok? {
      ProcessingExists(p, k, "gate", m);
      ExecuteExactly(p, k, "gate", NO_KEYS, c, Replying([]), 5, m);
    }
    forall now: Time, m: Moments | 5 < now <= m.made
      ensures ExecutePacket(p, k, "gate", NO_KEYS, c, Replying([]), now, m).Err?
    {
      NotBeforeLeavesOneInstant(p, k, "gate", NO_KEYS, c, Replying([]), now, m);
    }
  }

  // A request that expires gets neither response nor error packet from then on.
  lemma ExpiredRequestUnanswered(p: Platform, id: Uuid, now: Time, m: Moments)
    requires 1 <= m.made
    ensures var a := PingArgs().(expiresAt := Some(1));
            && Create(p, id, 0, a).Ok?
            && var k := Create(p, id, 0, a).value;
               && ValidPacket(p, k)
               && ExecutePacket(p, k, "gate", NO_KEYS, Lenient(PacketSizeBytes(p, k)), Replying([]), now, m).Err?
               && ErrorPacket(p, k, "t", "t", "gate", NO_KEYS, true, m).Err?
  {
    hide Create, ValidPacket, ExecutePacket, ErrorPacket, Answerable, AnswerHolds, FailurePayload, HandlerResult,
         PayloadStatus, Norm, Strip, CanSign, PacketSizeBytes, Cleaned;
    var a := PingArgs().(expiresAt := Some(1));
    RootNames();
    NoTagsKept();
    LikePingIsValid(p, id, 0, a);
    var k := Create(p, id, 0, a).value;
    ValidIsAnswerable(p, k);
    ExecuteExactly(p, k, "gate", NO_KEYS, Lenient(PacketSizeBytes(p, k)), Replying([]), now, m);
    ErrorExactly(p, k, "t", "t", "gate", NO_KEYS, true, m);
  }

  // ---------------------------------------------------------------------
  // A step whose delay overflows
  // ---------------------------------------------------------------------

  // Gate's client raises its own error for every packet.
  function Refusing(ids: nat -> Uuid, limit: real): Outside {
    Outside((_, _) => Threw({"GateClientError", "Exception", "BaseException", "object"}), ids, _ => 0, limit)
  }

  // Four attempts, a second between them, and the cap at a second too.
  function Steep(multiplier: real): RetryPolicy {
    RetryPolicy(4, 1.0, multiplier, 1.0, {"GateClientError"})
  }

  lemma StepIsBuilt(p: Platform, parent: Packet, id: Uuid)
    requires ValidPacket(p, parent) && parent.header.expiresAt.None? && parent.header.notBefore.None?
    ensures BuildStepPacket(p, parent, "ping", [], "node", "node", id, 0).Ok?
  {
    hide Derive, ValidPacket, NewProvenance, Norm, ActionName;
    HopWords();
    RootNames();
    PingIsAction();
    WordIsNormal("request");
    StepProvenance("ping", "node");
    var v := Provenance("node", "ping", false, None, Some("node"));
    var a := StepArgs("ping", "node", "node", [], v);
    assert ProvenanceGiven(a.provenance) by { GivenProvenance(v); }
    PlainDerives(p, parent, id, 0, a);
  }

  // Every attempt of the step is built, and fails in a way that is retried.
  lemma RefusedAgain(p: Platform, parent: Packet, ids: nat -> Uuid, limit: real, i: nat)
    requires ValidPacket(p, parent) && parent.header.expiresAt.None? && parent.header.notBefore.None?
    ensures FailsAgain(p, Refusing(ids, limit), parent, "ping", [], "node", Steep(limit), i)
  {
    hide BuildStepPacket, ValidPacket;
    StepIsBuilt(p, parent, ids(i));
    assert "GateClientError" in {"GateClientError", "Exception", "BaseException", "object"} * Steep(limit).retryable;
  }

  lemma GivenProvenance(v: Provenance)
    requires NewProvenance(v) == Ok(v)
    ensures ProvenanceGiven(Some(v))
  {
  }

  lemma {:induction false} SteepPowers(limit: real)
    requires limit > 1.0
    ensures Power(limit, 0) == 1.0 && Power(limit, 1) == limit && Power(limit, 2) > limit
    ensures Sleeps(Steep(limit), 2) == [1.0, 1.0]
  {
    assert Power(limit, 1) == limit && Power(limit, 2) == limit * limit;
    assert limit * (limit - 1.0) > 0.0;
    assert DelayFor(Steep(limit), 1) == 1.0 && DelayFor(Steep(limit), 2) == 1.0;
    assert Sleeps(Steep(limit), 1) == [1.0];
  }

  // Every attempt fails in a way that is retried. However the step goes, it ends
  // with an overflow, and it can go so: three packets and two sleeps of a second.
  lemma OverflowHappens(p: Platform, rootId: Uuid, ids: nat -> Uuid, limit: real)
    returns (sent: seq<Packet>, slept: seq<real>)
    requires limit > 1.0
    ensures Ping(p, rootId, 0).Ok?
    ensures var parent, o, policy := Ping(p, rootId, 0).value, Refusing(ids, limit), Steep(limit);
            && policy.Valid() && |sent| == 3 && slept == [1.0, 1.0]
            && Ends(p, o, parent, "ping", [], "node", policy, sent, slept, Err(FloatOverflow))
            && forall ss: seq<Packet>, ds: seq<real>, r: Result<Packet> ::
                 Ends(p, o, parent, "ping", [], "node", policy, ss, ds, r) ==> r == Err(FloatOverflow)
  {
    hide Ping, ValidPacket, StepPacket, Power, Sleeps, FailureOf;
    ValidRootExists(p, rootId, 0);
    var parent, o, policy := Ping(p, rootId, 0).value, Refusing(ids, limit), Steep(limit);
    SteepPowers(limit);
    forall i: nat ensures FailsAgain(p, o, parent, "ping", [], "node", policy, i) {
      RefusedAgain(p, parent, ids, limit, i);
    }
    sent := OverflowReached(p, o, parent, "ping", [], "node", policy, 3);
    slept := Sleeps(policy, 2);
    forall ss: seq<Packet>, ds: seq<real>, r: Result<Packet> | Ends(p, o, parent, "ping", [], "node", policy, ss, ds, r)
      ensures r == Err(FloatOverflow)
    {
      FailingStepOverflows(p, o, parent, "ping", [], "node", policy, ss, ds, r);
    }
  }
}
