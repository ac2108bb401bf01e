// orchestrator/: one workflow step, sent to Gate with retries; gate/policy.py.
module Orchestration {
  import opened Wrappers
  import opened Strings
  import opened Json
  import opened Models
  import opened Platforms
  import opened Hashing
  import opened Packets
  import opened Codec
  import opened ModelRules
  import opened Makers

  // ---------------------------------------------------------------------
  // gate/policy.py
  // ---------------------------------------------------------------------

  function AssertNodeOrigin(k: Packet): Result<()> {
    var _ :- Check(Norm(k.address.sourceNode) !in {"", "client"}, PolicyError);
    Check(Norm(k.provenance.originKind) == "node", PolicyError)
  }

  function AssertLocalIdentity(k: Packet, localNode: string): Result<()> {
    var _ :- Check(k.address.sourceNode == Norm(localNode), PolicyError);
    Check(k.provenance.originalSourceNode.Some? ==> k.provenance.originalSourceNode.value == Norm(localNode),
          PolicyError)
  }

  function AssertGateOnly(k: Packet, gateNode: string): Result<()> {
    var _ :- Check(Norm(k.address.destinationNode) == Norm(gateNode), PolicyError);
    Check(Norm(k.provenance.requestedAction) == k.header.action, PolicyError)
  }

  // validate_outbound_gate_packet
  function OutboundPolicy(k: Packet, localNode: string, gateNode: string): Result<()> {
    var _ :- AssertNodeOrigin(k);
    var _ :- AssertLocalIdentity(k, localNode);
    AssertGateOnly(k, gateNode)
  }

  // ---------------------------------------------------------------------
  // orchestrator/packet_builder.py
  // ---------------------------------------------------------------------

  function StepArgs(action: string, source: string, replyTo: string, payload: seq<Field>, v: Provenance): DeriveArgs {
    INHERIT.(packetType := Some("request"), action := Some(action), sourceNode := Some(source),
             destinationNode := Some("gate"), replyTo := Some(replyTo), payload := Some(payload), provenance := Some(v))
  }

  // build_step_packet
  function BuildStepPacket(p: Platform, parent: Packet, action: string, payload: seq<Field>, sourceNode: string,
                           replyTo: string, id: Uuid, now: Time): Result<Packet> {
    var _ :- Check(Norm(action) != "", ValueError);
    var _ :- Check(Norm(sourceNode) != "", ValueError);
    var _ :- Check(Norm(replyTo) != "", ValueError);
    var v :- NewProvenance(Provenance("node", Norm(action), false, None, Some(Norm(sourceNode))));
    Derive(p, parent, id, now, StepArgs(Norm(action), Norm(sourceNode), Norm(replyTo), payload, v))
  }

  // ---------------------------------------------------------------------
  // orchestrator/retry.py
  // ---------------------------------------------------------------------

  datatype RetryPolicy = RetryPolicy(maxAttempts: int, initialDelay: real, multiplier: real, maxDelay: real,
                                     retryable: set<string>)
  {
    // The bounds its fields are declared with.
    predicate Valid() {
      maxAttempts >= 1 && initialDelay >= 0.0 && multiplier >= 1.0 && maxDelay >= 0.0
    }
  }

  function Power(m: real, n: nat): real {
    if n == 0 then 1.0 else m * Power(m, n - 1)
  }

  // delay_for_attempt, where it does not overflow
  function DelayFor(policy: RetryPolicy, attempt: int): real
    requires attempt >= 1
  {
    if policy.maxAttempts <= 1 then 0.0
    else
      var delay := policy.initialDelay * Power(policy.multiplier, attempt - 1);
      if delay <= policy.maxDelay then delay else policy.maxDelay
  }

  // `multiplier ** (attempt - 1)` raises OverflowError above the largest float,
  // before the cap is looked at. A product that overflows is infinite and is capped.
  predicate Overflows(limit: real, policy: RetryPolicy, attempt: int)
    requires attempt >= 1
  {
    policy.maxAttempts > 1 && Power(policy.multiplier, attempt - 1) > limit
  }

  // should_retry, given the names of the error's class and its bases
  predicate ShouldRetry(policy: RetryPolicy, attempt: int, names: set<string>)
    requires attempt >= 1
  {
    attempt < policy.maxAttempts && names * policy.retryable != {}
  }

  // ---------------------------------------------------------------------
  // orchestrator/step_executor.py
  // ---------------------------------------------------------------------

  // What comes of sending a packet: an answer, or an exception with its class names.
  datatype Reply = Answered(packet: Packet) | Threw(names: set<string>)

  const STEP_ERROR_NAMES := {"StepExecutionError", "RuntimeError", "Exception", "BaseException", "object"}

  // _ensure_success_response
  predicate IsSuccess(k: Packet) {
    && k.header.packetType != "failure"
    && Norm(AsStr(Read(k.payload, "status"), "completed")) !in {"failed", "failure", "error"}
  }

  // The class names of the error an attempt ends with, if it fails.
  function FailureOf(r: Reply): Option<set<string>> {
    match r
    case Threw(names) => Some(names)
    case Answered(k) => if IsSuccess(k) then None else Some(STEP_ERROR_NAMES)
  }

  // Everything outside the executor: Gate's replies to what is sent, the fresh id
  // and clock reading of each attempt, counted from 1, and the largest float.
  datatype Outside = Outside(reply: (nat, Packet) -> Reply, id: nat -> Uuid, clock: nat -> Time, floatLimit: real)

  function StepPacket(p: Platform, o: Outside, parent: Packet, action: string, payload: seq<Field>, source: string,
                      attempt: nat): Result<Packet> {
    BuildStepPacket(p, parent, action, payload, source, source, o.id(attempt), o.clock(attempt))
  }

  // The sleeps after the first `n` attempts; a delay of zero is not slept.
  function Sleeps(policy: RetryPolicy, n: nat): seq<real> {
    if n == 0 then []
    else Sleeps(policy, n - 1) + (if DelayFor(policy, n) > 0.0 then [DelayFor(policy, n)] else [])
  }

  // Attempt `n` sent a packet, failed, and was to be retried after a delay.
  ghost predicate Retried(p: Platform, o: Outside, parent: Packet, action: string, payload: seq<Field>, source: string,
                          policy: RetryPolicy, n: nat, sent: Packet)
    requires n >= 1
  {
    && StepPacket(p, o, parent, action, payload, source, n) == Ok(sent)
    && FailureOf(o.reply(n, sent)).Some?
    && ShouldRetry(policy, n, FailureOf(o.reply(n, sent)).value)
    && !Overflows(o.floatLimit, policy, n)
  }

  // Attempts 1 to |sent| did.
  ghost predicate AllRetried(p: Platform, o: Outside, parent: Packet, action: string, payload: seq<Field>,
                             source: string, policy: RetryPolicy, sent: seq<Packet>) {
    forall i :: 0 <= i < |sent| ==> Retried(p, o, parent, action, payload, source, policy, i + 1, sent[i])
  }

  // One more.
  lemma RetriedNext(p: Platform, o: Outside, parent: Packet, action: string, payload: seq<Field>, source: string,
                    policy: RetryPolicy, sent: seq<Packet>, packet: Packet)
    requires AllRetried(p, o, parent, action, payload, source, policy, sent)
    requires Retried(p, o, parent, action, payload, source, policy, |sent| + 1, packet)
    ensures AllRetried(p, o, parent, action, payload, source, policy, sent + [packet])
  {
    hide Retried;
  }

  // How a step ends after `sent`: the packet for the next attempt cannot be
  // built, or the last packet sent decided it, or its delay overflows.
  ghost predicate Ends(p: Platform, o: Outside, parent: Packet, action: string, payload: seq<Field>, source: string,
                       policy: RetryPolicy, sent: seq<Packet>, slept: seq<real>, r: Result<Packet>) {
    || (&& AllRetried(p, o, parent, action, payload, source, policy, sent) && |sent| < policy.maxAttempts
        && StepPacket(p, o, parent, action, payload, source, |sent| + 1).Err?
        && r == StepPacket(p, o, parent, action, payload, source, |sent| + 1)
        && slept == Sleeps(policy, |sent|))
    || (&& sent != [] && |sent| <= policy.maxAttempts
        && var n, last := |sent| - 1, sent[|sent| - 1];
        && AllRetried(p, o, parent, action, payload, source, policy, sent[..n])
        && StepPacket(p, o, parent, action, payload, source, n + 1) == Ok(last)
        && slept == Sleeps(policy, n)
        && var reply := o.reply(n + 1, last);
           match FailureOf(reply)
           case None => r == Ok(reply.packet)
           case Some(names) =>
             if ShouldRetry(policy, n + 1, names) then Overflows(o.floatLimit, policy, n + 1) && r == Err(FloatOverflow)
             else r == Err(StepExecution))
  }

  class StepExecutor {
    const sourceNode: string

    constructor (sourceNode: string)
      requires Norm(sourceNode) != ""
      ensures this.sourceNode == Norm(sourceNode)
    {
      this.sourceNode := Norm(sourceNode);
    }

    // The loop of execute_step. Building a packet happens outside the `try`, and
    // computing a delay inside the `except`, so their errors end the step at once.
    method ExecuteStep(p: Platform, o: Outside, parent: Packet, action: string, payload: seq<Field>,
                       policy: RetryPolicy)
      returns (r: Result<Packet>, sent: seq<Packet>, slept: seq<real>)
      requires policy.Valid()
      ensures Ends(p, o, parent, action, payload, sourceNode, policy, sent, slept, r)
    {
      hide StepPacket, IsSuccess, DelayFor, Overflows;
      sent, slept := [], [];
      var attempt := 1;
      while attempt <= policy.maxAttempts
        invariant 1 <= attempt <= policy.maxAttempts && |sent| == attempt - 1
        invariant AllRetried(p, o, parent, action, payload, sourceNode, policy, sent)
        invariant slept == Sleeps(policy, attempt - 1)
        decreases policy.maxAttempts - attempt
      {
        var packet := StepPacket(p, o, parent, action, payload, sourceNode, attempt);
        if packet.Err? {
          return packet, sent, slept;
        }
        ghost var before := sent;
        sent := sent + [packet.value];
        assert sent[..|sent| - 1] == before;
        var reply := o.reply(attempt, packet.value);
        var failure := FailureOf(reply);
        if failure.None? {
          return Ok(reply.packet), sent, slept;
        }
        if !ShouldRetry(policy, attempt, failure.value) {
          return Err(StepExecution), sent, slept;
        }
        if Overflows(o.floatLimit, policy, attempt) {
          return Err(FloatOverflow), sent, slept;
        }
        RetriedNext(p, o, parent, action, payload, sourceNode, policy, before, packet.value);
        var delay := DelayFor(policy, attempt);
        if delay > 0.0 {
          slept := slept + [delay];
        }
        attempt := attempt + 1;
      }
      assert false;
      r := Err(StepExecution);
    }
  }

  // ---------------------------------------------------------------------
  // Properties
  // ---------------------------------------------------------------------

  lemma {:induction false} PowerGrows(m: real, n: nat)
    requires m >= 1.0
    ensures 1.0 <= Power(m, n) <= Power(m, n + 1)
  {
    if n > 0 {
      PowerGrows(m, n - 1);
      assert (m - 1.0) * Power(m, n) >= 0.0;
    }
  }

  // Delays never decrease, never exceed the cap, and never exceed the uncapped one.
  lemma DelaysGrow(policy: RetryPolicy, attempt: int)
    requires policy.Valid() && attempt >= 1
    ensures 0.0 <= DelayFor(policy, attempt) <= DelayFor(policy, attempt + 1) <= policy.maxDelay
    ensures DelayFor(policy, attempt) <= policy.initialDelay * Power(policy.multiplier, attempt - 1)
  {
    PowerGrows(policy.multiplier, attempt - 1);
    var a, b := Power(policy.multiplier, attempt - 1), Power(policy.multiplier, attempt);
    assert policy.initialDelay * (b - a) >= 0.0;
    assert policy.initialDelay * a >= 0.0;
  }

  // The uncapped delays start with the initial one and grow by the multiplier.
  ghost predicate Uncapped(policy: RetryPolicy, u: int -> real) {
    u(1) == policy.initialDelay && forall n :: n >= 1 ==> u(n + 1) == policy.multiplier * u(n)
  }

  lemma {:induction false} UncappedPower(policy: RetryPolicy, u: int -> real, n: int)
    requires Uncapped(policy, u) && n >= 1
    ensures u(n) == policy.initialDelay * Power(policy.multiplier, n - 1)
  {
    if n > 1 {
      UncappedPower(policy, u, n - 1);
      var m, i, q := policy.multiplier, policy.initialDelay, Power(policy.multiplier, n - 2);
      assert u(n - 1 + 1) == m * u(n - 1);
      assert m * (i * q) == i * (m * q);
    }
  }

  // The delay after an attempt is the uncapped one or the cap, whichever is
  // smaller; a policy with a single attempt has no delays.
  lemma DelayExactly(policy: RetryPolicy, u: int -> real, attempt: int)
    requires Uncapped(policy, u) && attempt >= 1
    ensures DelayFor(policy, attempt)
            == if policy.maxAttempts <= 1 then 0.0
               else if u(attempt) < policy.maxDelay then u(attempt) else policy.maxDelay
  {
    hide Power;
    UncappedPower(policy, u, attempt);
  }

  lemma {:induction false} PowerMonotone(m: real, i: nat, j: nat)
    requires m >= 1.0 && i <= j
    ensures Power(m, i) <= Power(m, j)
    decreases j
  {
    if i < j {
      PowerMonotone(m, i, j - 1);
      PowerGrows(m, j - 1);
    }
  }

  // Some delay that a step may have to compute overflows exactly when the one
  // after the last attempt but one does.
  lemma OverflowExactly(policy: RetryPolicy, limit: real)
    requires policy.Valid()
    ensures (exists n :: 1 <= n < policy.maxAttempts && Overflows(limit, policy, n))
            <==> policy.maxAttempts >= 2 && Power(policy.multiplier, policy.maxAttempts - 2) > limit
  {
    hide Power;
    if n :| 1 <= n < policy.maxAttempts && Overflows(limit, policy, n) {
      PowerMonotone(policy.multiplier, n - 1, policy.maxAttempts - 2);
    }
    if policy.maxAttempts >= 2 && Power(policy.multiplier, policy.maxAttempts - 2) > limit {
      assert Overflows(limit, policy, policy.maxAttempts - 1);
    }
  }

  function Total(delays: seq<real>): real {
    if delays == [] then 0.0 else Total(delays[..|delays| - 1]) + delays[|delays| - 1]
  }

  // The geometric sum initial * (1 + m + ... + m^(n-1))
  function Geometric(policy: RetryPolicy, n: nat): real {
    if n == 0 then 0.0 else Geometric(policy, n - 1) + policy.initialDelay * Power(policy.multiplier, n - 1)
  }

  // n times the cap
  function Capped(policy: RetryPolicy, n: int): real {
    n as real * policy.maxDelay
  }

  lemma CappedNext(policy: RetryPolicy, n: int)
    ensures Capped(policy, n + 1) == Capped(policy, n) + policy.maxDelay
    ensures Capped(policy, 0) == 0.0
  {
  }

  lemma {:induction false} TotalNext(delays: seq<real>, delay: real)
    ensures Total(delays + [delay]) == Total(delays) + delay
    ensures delays + [] == delays
  {
    assert (delays + [delay])[..|delays|] == delays;
  }

  // Total sleep after n retries is at most n times the cap, and at most the
  // uncapped geometric sum.
  lemma {:induction false} SleepIsBounded(policy: RetryPolicy, n: nat)
    requires policy.Valid()
    ensures |Sleeps(policy, n)| <= n
    ensures 0.0 <= Total(Sleeps(policy, n)) <= Capped(policy, n)
    ensures Total(Sleeps(policy, n)) <= Geometric(policy, n)
  {
    if n > 0 {
      hide DelayFor, Capped, Power, Total;
      SleepIsBounded(policy, n - 1);
      DelaysGrow(policy, n);
      CappedNext(policy, n - 1);
      TotalNext(Sleeps(policy, n - 1), DelayFor(policy, n));
    } else {
      hide Capped;
      CappedNext(policy, 0);
    }
  }

  // The slept delays never decrease.
  lemma {:induction false} SleepsAscend(policy: RetryPolicy, n: nat)
    requires policy.Valid()
    ensures forall i, j :: 0 <= i <= j < |Sleeps(policy, n)| ==> Sleeps(policy, n)[i] <= Sleeps(policy, n)[j]
    ensures forall i :: 0 <= i < |Sleeps(policy, n)| ==>
      Sleeps(policy, n)[i] <= DelayFor(policy, if n == 0 then 1 else n)
  {
    if n > 0 {
      SleepsAscend(policy, n - 1);
      if n > 1 {
        DelaysGrow(policy, n - 1);
      }
    }
  }

  // Waiting more often raises both bounds.
  lemma {:induction false} BoundsGrow(policy: RetryPolicy, n: nat, m: nat)
    requires policy.Valid() && n <= m
    ensures Capped(policy, n) <= Capped(policy, m) && Geometric(policy, n) <= Geometric(policy, m)
    decreases m
  {
    hide Capped;
    if n < m {
      BoundsGrow(policy, n, m - 1);
      CappedNext(policy, m - 1);
      PowerGrows(policy.multiplier, m - 1);
      assert policy.initialDelay * Power(policy.multiplier, m - 1) >= 0.0;
    }
  }

  // Building a packet never fails the way a sent one does.
  lemma BuildErrors(p: Platform, parent: Packet, action: string, payload: seq<Field>, source: string, id: Uuid,
                    now: Time)
    ensures var r := BuildStepPacket(p, parent, action, payload, source, source, id, now);
            r != Err(FloatOverflow) && r != Err(StepExecution)
  {
    hide Norm, NormHeader, HeaderOk, NormAddress, AddressOk, NormSecurity, SecurityOk, NormProvenance, ProvenanceOk,
         ComputePayloadHash, ComputeTransportHash, DeriveHeader, DeriveAddress, ChildBody;
  }

  lemma StepErrors(p: Platform, o: Outside, parent: Packet, action: string, payload: seq<Field>, source: string,
                   attempt: nat)
    ensures StepPacket(p, o, parent, action, payload, source, attempt) != Err(FloatOverflow)
    ensures StepPacket(p, o, parent, action, payload, source, attempt) != Err(StepExecution)
  {
    hide BuildStepPacket;
    BuildErrors(p, parent, action, payload, source, o.id(attempt), o.clock(attempt));
  }

  // After how many of its packets a step waits: after all but the last, and after
  // the last too when no packet for the next attempt can be built.
  function Waits(sent: seq<Packet>, r: Result<Packet>): int {
    if r.Ok? || r.error == StepExecution || r.error == FloatOverflow then |sent| - 1 else |sent|
  }

  // A step sends at most max_attempts packets. What it sleeps is decided by how
  // many it sent, and is within both bounds for that many.
  lemma {:induction false} StepIsBounded(p: Platform, o: Outside, parent: Packet, action: string, payload: seq<Field>,
                                         source: string, policy: RetryPolicy, sent: seq<Packet>, slept: seq<real>,
                                         r: Result<Packet>)
    requires policy.Valid() && Ends(p, o, parent, action, payload, source, policy, sent, slept, r)
    ensures |sent| <= policy.maxAttempts
    ensures 0 <= Waits(sent, r) < policy.maxAttempts && slept == Sleeps(policy, Waits(sent, r))
    ensures |slept| <= Waits(sent, r)
    ensures Total(slept) <= Capped(policy, Waits(sent, r))
    ensures Total(slept) <= Geometric(policy, Waits(sent, r))
    ensures Total(slept) <= Capped(policy, policy.maxAttempts - 1)
    ensures Total(slept) <= Geometric(policy, policy.maxAttempts - 1)
    ensures forall i, j :: 0 <= i <= j < |slept| ==> slept[i] <= slept[j]
  {
    hide AllRetried, StepPacket, FailureOf, DelayFor, Capped, Geometric, Total, Sleeps, Overflows;
    StepErrors(p, o, parent, action, payload, source, |sent| + 1);
    SleepIsBounded(policy, Waits(sent, r));
    SleepsAscend(policy, Waits(sent, r));
    BoundsGrow(policy, Waits(sent, r), policy.maxAttempts - 1);
  }

  lemma StepProvenance(action: string, source: string)
    requires Norm(action) == action && action != "" && Norm(source) == source && source != ""
    ensures NewProvenance(Provenance("node", action, false, None, Some(source)))
            == Ok(Provenance("node", action, false, None, Some(source)))
  {
    hide Norm;
    WordIsNormal("node");
  }

  // A step packet is a direct child of the parent, addressed to Gate and nobody
  // else. It passes the outbound policy exactly when the client's Gate is named
  // "gate" and the node is not called "client".
  lemma StepPacketPasses(p: Platform, parent: Packet, action: string, payload: seq<Field>, source: string,
                         gateNode: string, id: Uuid, now: Time)
    requires Derivable(parent) && Norm(source) == source
    requires BuildStepPacket(p, parent, action, payload, source, source, id, now).Ok?
    ensures var c := BuildStepPacket(p, parent, action, payload, source, source, id, now).value;
            && ChildOf(c, parent, id) && IntegrityOk(p, c)
            && c.header.packetType == "request" && c.header.action == Norm(action) && c.payload == payload
            && c.address == Address(source, "gate", source)
            && (OutboundPolicy(c, source, gateNode).Ok? <==> source != "client" && Norm(gateNode) == "gate")
  {
    hide Norm, Derive, ChildOf, IntegrityOk, HeaderOk, AddressOk, NormSecurity, SecurityOk, Unsigned, NewProvenance,
         Strip;
    var act := Norm(action);
    NormIdempotent(action);
    WordIsNormal("gate");
    WordIsNormal("request");
    WordIsNormal("node");
    StepProvenance(act, source);
    var v := Provenance("node", act, false, None, Some(source));
    DeriveMakesChild(p, parent, id, now, StepArgs(act, source, source, payload, v));
  }

  // The header of a step packet: the parent's, for a new request.
  function StepHeader(h: Header, action: string, id: Uuid, now: Time): Header {
    h.(packetId := id, packetType := "request", action := Norm(action), createdAt := now,
       causationId := Some(h.packetId), retryCount := 0)
  }

  // A step packet is built exactly from names that are not blank, and is the child
  // with this header, address, payload and provenance.
  lemma StepPacketExactly(p: Platform, parent: Packet, action: string, payload: seq<Field>, source: string,
                          replyTo: string, id: Uuid, now: Time, c: Packet)
    requires Derivable(parent)
    ensures BuildStepPacket(p, parent, action, payload, source, replyTo, id, now) == Ok(c)
            <==> && Norm(action) != "" && Norm(source) != "" && Norm(replyTo) != ""
                 && HeaderMade(StepHeader(parent.header, action, id, now), c.header)
                 && c.address == Address(Norm(source), "gate", Norm(replyTo))
                 && var v := Provenance("node", Norm(action), false, None, Some(Norm(source)));
                    ChildSays(p, parent, INHERIT.(payload := Some(payload), provenance := Some(v)), c)
    ensures BuildStepPacket(p, parent, action, payload, source, replyTo, id, now).Err? ==>
      BuildStepPacket(p, parent, action, payload, source, replyTo, id, now) == Err(ValueError)
  {
    hide Norm, Derive, Derivable, HeaderMade, ComputePayloadHash, ComputeTransportHash, NewProvenance;
    NormIdempotent(action);
    NormIdempotent(source);
    NormIdempotent(replyTo);
    WordIsNormal("gate");
    if Norm(action) != "" && Norm(source) != "" && Norm(replyTo) != "" {
      StepProvenance(Norm(action), Norm(source));
      var v := Provenance("node", Norm(action), false, None, Some(Norm(source)));
      DeriveExactly(p, parent, id, now, StepArgs(Norm(action), Norm(source), Norm(replyTo), payload, v), c);
    }
  }

  // What the network sees of a step.
  ghost predicate AllChildren(p: Platform, o: Outside, parent: Packet, source: string, gateNode: string,
                              sent: seq<Packet>) {
    && (forall i :: 0 <= i < |sent| ==>
         && ChildOf(sent[i], parent, o.id(i + 1)) && IntegrityOk(p, sent[i])
         && sent[i].address == Address(source, "gate", source)
         && (OutboundPolicy(sent[i], source, gateNode).Ok? <==> source != "client" && Norm(gateNode) == "gate"))
    && (forall i, j :: 0 <= i < j < |sent| ==> sent[i].header.packetId != sent[j].header.packetId)
  }

  // Every packet but the last was followed by another attempt.
  lemma EarlierRetried(p: Platform, o: Outside, parent: Packet, action: string, payload: seq<Field>, source: string,
                       policy: RetryPolicy, sent: seq<Packet>, slept: seq<real>, r: Result<Packet>, i: nat)
    requires Ends(p, o, parent, action, payload, source, policy, sent, slept, r) && i < |sent| - 1
    ensures Retried(p, o, parent, action, payload, source, policy, i + 1, sent[i])
  {
    hide StepPacket, Retried, FailureOf, Sleeps, ShouldRetry, Overflows;
    assert sent[..|sent| - 1][i] == sent[i];
  }

  lemma SentIsBuilt(p: Platform, o: Outside, parent: Packet, action: string, payload: seq<Field>, source: string,
                    policy: RetryPolicy, sent: seq<Packet>, slept: seq<real>, r: Result<Packet>, i: nat)
    requires Ends(p, o, parent, action, payload, source, policy, sent, slept, r) && i < |sent|
    ensures StepPacket(p, o, parent, action, payload, source, i + 1) == Ok(sent[i])
  {
    hide StepPacket, FailureOf, ShouldRetry, Sleeps, Overflows;
    if i < |sent| - 1 {
      EarlierRetried(p, o, parent, action, payload, source, policy, sent, slept, r, i);
    }
  }

  // Every packet a step sends is its own direct child of the one parent, with
  // the parent's idempotency key, and passes the client's outbound policy.
  lemma StepSendsChildren(p: Platform, o: Outside, parent: Packet, action: string, payload: seq<Field>, source: string,
                          gateNode: string, policy: RetryPolicy, sent: seq<Packet>, slept: seq<real>, r: Result<Packet>)
    requires Derivable(parent) && Norm(source) == source
    requires Ends(p, o, parent, action, payload, source, policy, sent, slept, r)
    requires forall i, j :: 1 <= i < j <= |sent| ==> o.id(i) != o.id(j)
    ensures AllChildren(p, o, parent, source, gateNode, sent)
  {
    hide Ends, Derivable, ChildOf, IntegrityOk, OutboundPolicy, BuildStepPacket, Norm;
    forall i | 0 <= i < |sent|
      ensures ChildOf(sent[i], parent, o.id(i + 1)) && IntegrityOk(p, sent[i])
      ensures sent[i].address == Address(source, "gate", source)
      ensures OutboundPolicy(sent[i], source, gateNode).Ok? <==> source != "client" && Norm(gateNode) == "gate"
    {
      SentIsBuilt(p, o, parent, action, payload, source, policy, sent, slept, r, i);
      StepPacketPasses(p, parent, action, payload, source, gateNode, o.id(i + 1), o.clock(i + 1));
    }
    forall i, j | 0 <= i < j < |sent| ensures sent[i].header.packetId != sent[j].header.packetId {
      ChildKeepsKey(sent[i], parent, o.id(i + 1));
      ChildKeepsKey(sent[j], parent, o.id(j + 1));
    }
  }

  lemma ChildKeepsKey(c: Packet, parent: Packet, id: Uuid)
    requires ChildOf(c, parent, id)
    ensures c.header.packetId == id && c.header.idempotencyKey == parent.header.idempotencyKey
  {
  }

  // The result is the first successful answer: every earlier one was a failure to be retried.
  lemma ResultIsFirstSuccess(p: Platform, o: Outside, parent: Packet, action: string, payload: seq<Field>,
                             source: string,
                             policy: RetryPolicy, sent: seq<Packet>, slept: seq<real>, r: Result<Packet>)
    requires Ends(p, o, parent, action, payload, source, policy, sent, slept, r)
    ensures r.Ok? <==> exists n :: 0 <= n < |sent| && FailureOf(o.reply(n + 1, sent[n])).None?
    ensures r.Ok? ==>
      && sent != [] && o.reply(|sent|, sent[|sent| - 1]) == Answered(r.value) && IsSuccess(r.value)
      && forall i :: 0 <= i < |sent| - 1 ==> FailureOf(o.reply(i + 1, sent[i])).Some?
  {
    hide StepPacket, ShouldRetry, Sleeps, IsSuccess, Overflows;
    forall i | 0 <= i < |sent| - 1 ensures FailureOf(o.reply(i + 1, sent[i])).Some? {
      EarlierRetried(p, o, parent, action, payload, source, policy, sent, slept, r, i);
    }
    if sent != [] {
      var n := |sent| - 1;
      assert r.Ok? <==> FailureOf(o.reply(n + 1, sent[n])).None?;
    }
  }

  // A reply is a success exactly when it is a packet that is no failure packet and
  // whose payload names no failed status; otherwise the step has an error.
  lemma SuccessExactly(reply: Reply)
    ensures FailureOf(reply).None?
            <==> && reply.Answered? && reply.packet.header.packetType != "failure"
                 && forall s :: Read(reply.packet.payload, "status") == Some(Str(s))
                                ==> Norm(s) !in {"failed", "failure", "error"}
    ensures reply.Threw? ==> FailureOf(reply) == Some(reply.names)
    ensures reply.Answered? && FailureOf(reply).Some? ==>
      FailureOf(reply).value == {"StepExecutionError", "RuntimeError", "Exception", "BaseException", "object"}
  {
    hide Norm, Read;
    assert Norm("completed") == "completed" by { WordIsNormal("completed"); }
    assert |"completed"| == 9;
  }

  // Every attempt but the last failed in a way the policy retries, and a step that
  // fails as such has a last attempt that is out of turn or not to be retried.
  lemma RetriesExactly(p: Platform, o: Outside, parent: Packet, action: string, payload: seq<Field>, source: string,
                       policy: RetryPolicy, sent: seq<Packet>, slept: seq<real>, r: Result<Packet>, i: nat)
    requires Ends(p, o, parent, action, payload, source, policy, sent, slept, r) && i < |sent|
    ensures i < |sent| - 1 ==>
      && FailureOf(o.reply(i + 1, sent[i])).Some?
      && FailureOf(o.reply(i + 1, sent[i])).value * policy.retryable != {}
    ensures r == Err(StepExecution) && i == |sent| - 1 ==>
      && FailureOf(o.reply(i + 1, sent[i])).Some?
      && (|sent| == policy.maxAttempts || FailureOf(o.reply(i + 1, sent[i])).value * policy.retryable == {})
  {
    hide StepPacket, FailureOf, Sleeps, Overflows;
    StepErrors(p, o, parent, action, payload, source, |sent| + 1);
    if i < |sent| - 1 {
      EarlierRetried(p, o, parent, action, payload, source, policy, sent, slept, r, i);
    }
  }

  // The outbound policy, as a whole.
  lemma OutboundExactly(k: Packet, localNode: string, gateNode: string)
    ensures var r := OutboundPolicy(k, localNode, gateNode);
            && (r.Err? ==> r == Err(PolicyError))
            && (r.Ok? <==> && Norm(k.address.sourceNode) != "" && Norm(k.address.sourceNode) != "client"
                           && Norm(k.provenance.originKind) == "node" && k.address.sourceNode == Norm(localNode)
                           && (k.provenance.originalSourceNode.None?
                               || k.provenance.originalSourceNode == Some(Norm(localNode)))
                           && Norm(k.address.destinationNode) == Norm(gateNode)
                           && Norm(k.provenance.requestedAction) == k.header.action)
  {
    hide Norm;
  }

  // The packet of attempt `i` is built, and fails in a way the policy retries.
  ghost predicate FailsAgain(p: Platform, o: Outside, parent: Packet, action: string, payload: seq<Field>,
                             source: string, policy: RetryPolicy, i: nat) {
    && StepPacket(p, o, parent, action, payload, source, i).Ok?
    && var failure := FailureOf(o.reply(i, StepPacket(p, o, parent, action, payload, source, i).value));
       failure.Some? && failure.value * policy.retryable != {}
  }

  // A step ends with an overflow exactly when the last packet it sent failed in a
  // way that was to be retried, and the delay before the next one overflows.
  lemma {:induction false} StepOverflowsExactly(p: Platform, o: Outside, parent: Packet, action: string,
                                                payload: seq<Field>, source: string, policy: RetryPolicy,
                                                sent: seq<Packet>, slept: seq<real>, r: Result<Packet>)
    requires Ends(p, o, parent, action, payload, source, policy, sent, slept, r)
    ensures r == Err(FloatOverflow)
            <==> && 0 < |sent| < policy.maxAttempts
                 && FailsAgain(p, o, parent, action, payload, source, policy, |sent|)
                 && Power(policy.multiplier, |sent| - 1) > o.floatLimit
  {
    hide StepPacket, Power, FailureOf, Sleeps;
    StepErrors(p, o, parent, action, payload, source, |sent| + 1);
    if sent != [] {
      SentIsBuilt(p, o, parent, action, payload, source, policy, sent, slept, r, |sent| - 1);
    }
  }

  // Whenever that can happen it does: if `n` attempts fail and are to be retried,
  // and delay `n` is the first to overflow, the step has such a run.
  lemma OverflowReached(p: Platform, o: Outside, parent: Packet, action: string, payload: seq<Field>, source: string,
                        policy: RetryPolicy, n: nat) returns (sent: seq<Packet>)
    requires 1 <= n < policy.maxAttempts && Overflows(o.floatLimit, policy, n)
    requires forall i :: 1 <= i <= n ==> FailsAgain(p, o, parent, action, payload, source, policy, i)
    requires forall i :: 1 <= i < n ==> !Overflows(o.floatLimit, policy, i)
    ensures |sent| == n
    ensures Ends(p, o, parent, action, payload, source, policy, sent, Sleeps(policy, n - 1), Err(FloatOverflow))
  {
    hide StepPacket, FailureOf, Sleeps, Overflows;
    sent := [];
    for i := 0 to n
      invariant |sent| == i
      invariant forall j :: 0 <= j < i ==> StepPacket(p, o, parent, action, payload, source, j + 1) == Ok(sent[j])
    {
      assert FailsAgain(p, o, parent, action, payload, source, policy, i + 1);
      sent := sent + [StepPacket(p, o, parent, action, payload, source, i + 1).value];
    }
    forall i | 0 <= i < n
      ensures FailureOf(o.reply(i + 1, sent[i])).Some?
      ensures ShouldRetry(policy, i + 1, FailureOf(o.reply(i + 1, sent[i])).value)
    {
      assert FailsAgain(p, o, parent, action, payload, source, policy, i + 1);
    }
    assert AllRetried(p, o, parent, action, payload, source, policy, sent[..n - 1]);
  }

  // A step whose every attempt would fail and be retried ends with an overflow
  // exactly when the last power its policy reaches is out of range.
  lemma FailingStepOverflows(p: Platform, o: Outside, parent: Packet, action: string, payload: seq<Field>,
                             source: string, policy: RetryPolicy, sent: seq<Packet>, slept: seq<real>,
                             r: Result<Packet>)
    requires policy.Valid() && Ends(p, o, parent, action, payload, source, policy, sent, slept, r)
    requires forall i :: 1 <= i <= policy.maxAttempts ==> FailsAgain(p, o, parent, action, payload, source, policy, i)
    ensures r == Err(FloatOverflow)
            <==> policy.maxAttempts >= 2 && Power(policy.multiplier, policy.maxAttempts - 2) > o.floatLimit
    ensures r != Err(FloatOverflow) ==> r == Err(StepExecution) && |sent| == policy.maxAttempts
  {
    hide StepPacket, Power, FailureOf, Sleeps, Overflows;
    OverflowExactly(policy, o.floatLimit);
    StepErrors(p, o, parent, action, payload, source, |sent| + 1);
    assert |sent| < policy.maxAttempts ==> FailsAgain(p, o, parent, action, payload, source, policy, |sent| + 1);
    assert sent != [] ==> FailsAgain(p, o, parent, action, payload, source, policy, |sent|);
    if r != Err(FloatOverflow) {
      assert |sent| == policy.maxAttempts;
      forall n | 1 <= n < policy.maxAttempts ensures !Overflows(o.floatLimit, policy, n) {
        EarlierRetried(p, o, parent, action, payload, source, policy, sent, slept, r, n - 1);
      }
    }
  }

  // A step can end with an overflow only if its policy and the failures allow one;
  // a policy whose last power is within range never does.
  lemma NoStepOverflows(p: Platform, o: Outside, parent: Packet, action: string, payload: seq<Field>, source: string,
                        policy: RetryPolicy, sent: seq<Packet>, slept: seq<real>, r: Result<Packet>)
    requires policy.Valid() && Ends(p, o, parent, action, payload, source, policy, sent, slept, r)
    requires policy.maxAttempts >= 2 ==> Power(policy.multiplier, policy.maxAttempts - 2) <= o.floatLimit
    ensures r != Err(FloatOverflow)
  {
    hide Power, Overflows, AllRetried, FailureOf, Sleeps, StepPacket;
    OverflowExactly(policy, o.floatLimit);
    StepErrors(p, o, parent, action, payload, source, |sent| + 1);
  }
}
