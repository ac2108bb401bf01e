// security/validation.py as a table of rules: what each forbids, what it raises,
// and which comes first.
module RefusalRules {
  import opened Wrappers
  import opened Strings
  import opened Models
  import opened Platforms
  import opened Hashing
  import opened Signatures
  import opened HopTraces
  import opened Validation

  datatype Rule =
    | UnknownSchema
    | TypeNotAllowed
    | ActionNotAllowed
    | ForAnotherNode
    | FromTheFuture
    | TooLarge
    | TooManyHops
    | TooManyLinks
    | TooManyAttachments
    | BadAttachment
    | TooEarly
    | Expired
    | ReplayUnmarked
    | ReplayDisabled
    | ReplayElsewhere
    | KeyMissing
    | SubjectMissing
    | AuditMissing
    | BadChain
    | BadSignature
    | BadTrace

  // The order of the rules.
  function Rank(rule: Rule): nat {
    match rule
    case UnknownSchema => 0
    case TypeNotAllowed => 1
    case ActionNotAllowed => 2
    case ForAnotherNode => 3
    case FromTheFuture => 4
    case TooLarge => 5
    case TooManyHops => 6
    case TooManyLinks => 7
    case TooManyAttachments => 8
    case BadAttachment => 9
    case TooEarly => 10
    case Expired => 11
    case ReplayUnmarked => 12
    case ReplayDisabled => 13
    case ReplayElsewhere => 14
    case KeyMissing => 15
    case SubjectMissing => 16
    case AuditMissing => 17
    case BadChain => 18
    case BadSignature => 19
    case BadTrace => 20
  }

  predicate AttachmentBad(a: Attachment, c: Config) {
    a.sizeBytes > c.maxAttachmentBytes || c.checkUri(a.uri).Err?
  }

  predicate Missing(s: Option<string>) {
    s == None || s == Some("")
  }

  ghost predicate Broken(rule: Rule, p: Platform, k: Packet, c: Config, now: Time) {
    match rule
    case UnknownSchema => k.header.schemaVersion != "1.0"
    case TypeNotAllowed => c.allowedTypes.Some? && k.header.packetType !in c.allowedTypes.value
    case ActionNotAllowed => c.allowedActions.Some? && k.header.action !in c.allowedActions.value
    case ForAnotherNode => c.localNode.Some? && k.address.destinationNode != Norm(c.localNode.value)
    case FromTheFuture => k.header.createdAt - now > 1_000_000 * c.clockSkewSeconds
    case TooLarge => PacketSizeBytes(p, k) > c.maxPacketBytes
    case TooManyHops => |k.hopTrace| > c.maxHopDepth
    case TooManyLinks => |k.delegationChain| > c.maxDelegationDepth
    case TooManyAttachments => |k.attachments| > c.maxAttachments
    case BadAttachment => exists i :: 0 <= i < |k.attachments| && AttachmentBad(k.attachments[i], c)
    case TooEarly => k.header.notBefore.Some? && now < k.header.notBefore.value
    case Expired => k.header.expiresAt.Some? && k.header.expiresAt.value < now
    case ReplayUnmarked => k.header.packetType == "replay_request" && !k.header.replayMode
    case ReplayDisabled => k.header.packetType == "replay_request" && !c.replayEnabled
    case ReplayElsewhere => k.header.packetType != "replay_request" && k.header.replayMode
    case KeyMissing => k.header.action in c.idempotencyActions && Missing(k.header.idempotencyKey)
    case SubjectMissing => "GDPR" in k.governance.complianceTags && Missing(k.governance.dataSubjectId)
    case AuditMissing => k.security.classification == "restricted" && !k.governance.auditRequired
    case BadChain => !ChainHolds(k, now)
    case BadSignature =>
      if k.security.signature.None? then (c.requireSignature || k.security.classification == "restricted") && !c.devMode
      else !(c.devMode && c.resolver == NoResolver) && VerifyPacket(p, k, c.resolver) != Ok(true)
    case BadTrace => !TraceOk(p, k, c.trace)
  }

  // What a rule raises. Rules on attachments, signatures and hops may pass on what
  // their own checks raise.
  ghost predicate Raises(rule: Rule, p: Platform, k: Packet, c: Config, e: Error) {
    match rule
    case UnknownSchema => e == SchemaVersion
    case TypeNotAllowed => e == AuthorizationError
    case ActionNotAllowed => e == AuthorizationError
    case ForAnotherNode => e == AuthorizationError
    case TooLarge => e == PacketSize
    case BadAttachment =>
      exists i :: && 0 <= i < |k.attachments| && AttachmentBad(k.attachments[i], c)
                  && (forall j :: 0 <= j < i ==> !AttachmentBad(k.attachments[j], c))
                  && e == if k.attachments[i].sizeBytes > c.maxAttachmentBytes then TransportValidation
                          else c.checkUri(k.attachments[i].uri).error
    case TooEarly => e == NotYetValid
    case Expired => e == ExpiredError
    case ReplayDisabled => e == AuthorizationError
    case BadChain => e == AuthorizationError
    case BadSignature =>
      e == if k.security.signature.Some? && VerifyPacket(p, k, c.resolver).Err?
           then VerifyPacket(p, k, c.resolver).error else AuthenticationError
    case BadTrace =>
      exists i :: && 0 <= i < |k.hopTrace| && HopRaises(p, k, c.trace, i, e)
                  && forall j :: 0 <= j < i ==> CheckHopAt(p, k, j, c.trace).Ok?
    case _ => e == TransportValidation
  }

  // What is wrong with hop `i`, in the order it is looked at.
  ghost predicate HopRaises(p: Platform, k: Packet, policy: TracePolicy, i: nat, e: Error)
    requires i < |k.hopTrace|
  {
    var h := k.hopTrace[i];
    if h.packetId != k.header.packetId then e == TransportValidation
    else if h.previousHopHash != (if i == 0 then None else Some(k.hopTrace[i - 1].hopHash)) then e == IntegrityError
    else if h.hopHash != ComputeHopHash(p, k.security.transportHash, h) then e == IntegrityError
    else if policy.monotonic && i > 0 && h.timestamp < k.hopTrace[i - 1].timestamp then e == TransportValidation
    else
      && policy.verifySignatures && h.hopSignature.Some? && VerifyHop(p, h, policy.resolver) != Ok(true)
      && e == if VerifyHop(p, h, policy.resolver).Err? then VerifyHop(p, h, policy.resolver).error
              else AuthenticationError
  }

  lemma HopRefused(p: Platform, k: Packet, policy: TracePolicy, i: nat)
    requires i < |k.hopTrace| && CheckHopAt(p, k, i, policy).Err?
    ensures HopRaises(p, k, policy, i, CheckHopAt(p, k, i, policy).error)
  {
    hide ComputeHopHash, VerifyHop;
  }

  // The first check that fails is the one that is reported.
  lemma {:induction false} FirstFails(checks: seq<Result<()>>) returns (i: nat)
    requires FirstError(checks).Err?
    ensures i < |checks| && checks[i] == FirstError(checks) && forall j :: 0 <= j < i ==> checks[j].Ok?
  {
    if checks[0].Err? {
      i := 0;
    } else {
      var n := FirstFails(checks[1..]);
      i := n + 1;
      forall j | 0 <= j < i ensures checks[j].Ok? {
        assert j > 0 ==> checks[j] == checks[1..][j - 1];
      }
    }
  }

  lemma TraceRefused(p: Platform, k: Packet, c: Config, now: Time)
    ensures Broken(BadTrace, p, k, c, now) <==> FirstError(TraceChecks(p, k, c.trace)).Err?
    ensures FirstError(TraceChecks(p, k, c.trace)).Err? ==>
      Raises(BadTrace, p, k, c, FirstError(TraceChecks(p, k, c.trace)).error)
  {
    hide CheckHopAt, HopRaises;
    TraceChecked(p, k, c.trace);
    var checks := TraceChecks(p, k, c.trace);
    if FirstError(checks).Err? {
      var i := FirstFails(checks);
      HopRefused(p, k, c.trace, i);
      assert forall j :: 0 <= j < i ==> checks[j] == CheckHopAt(p, k, j, c.trace);
    }
  }

  lemma AttachmentRefused(p: Platform, k: Packet, c: Config, now: Time)
    ensures Broken(BadAttachment, p, k, c, now) <==> FirstError(AttachmentChecks(k, c)).Err?
    ensures FirstError(AttachmentChecks(k, c)).Err? ==>
      Raises(BadAttachment, p, k, c, FirstError(AttachmentChecks(k, c)).error)
  {
    AttachmentsChecked(k, c);
    var checks := AttachmentChecks(k, c);
    if FirstError(checks).Err? {
      var i := FirstFails(checks);
      assert forall j :: 0 <= j < i ==> checks[j] == CheckAttachment(k.attachments[j], c);
      assert AttachmentBad(k.attachments[i], c);
    }
  }

  lemma EarlyRefused(p: Platform, k: Packet, c: Config, now: Time)
    ensures EarlyChecks(p, k, c, now)
            == if Broken(UnknownSchema, p, k, c, now) then Err(SchemaVersion)
               else if Broken(TypeNotAllowed, p, k, c, now) || Broken(ActionNotAllowed, p, k, c, now)
                       || Broken(ForAnotherNode, p, k, c, now) then Err(AuthorizationError)
               else if Broken(FromTheFuture, p, k, c, now) then Err(TransportValidation)
               else if Broken(TooLarge, p, k, c, now) then Err(PacketSize)
               else if Broken(TooManyHops, p, k, c, now) || Broken(TooManyLinks, p, k, c, now)
                       || Broken(TooManyAttachments, p, k, c, now) then Err(TransportValidation)
               else Ok(())
  {
    hide PacketSizeBytes, Norm, ChainHolds, VerifyPacket, TraceOk;
  }

  lemma TimesRefused(p: Platform, k: Packet, c: Config, now: Time)
    ensures TimeChecks(k, now)
            == if Broken(TooEarly, p, k, c, now) then Err(NotYetValid)
               else if Broken(Expired, p, k, c, now) then Err(ExpiredError)
               else Ok(())
  {
    hide PacketSizeBytes, Norm, ChainHolds, VerifyPacket, TraceOk;
  }

  lemma RulesRefused(p: Platform, k: Packet, c: Config, now: Time)
    ensures RuleChecks(k, c)
            == if Broken(ReplayUnmarked, p, k, c, now) then Err(TransportValidation)
               else if Broken(ReplayDisabled, p, k, c, now) then Err(AuthorizationError)
               else if Broken(ReplayElsewhere, p, k, c, now) || Broken(KeyMissing, p, k, c, now)
                       || Broken(SubjectMissing, p, k, c, now) || Broken(AuditMissing, p, k, c, now)
               then Err(TransportValidation)
               else Ok(())
  {
    hide PacketSizeBytes, Norm, ChainHolds, VerifyPacket, TraceOk;
  }

  lemma ChainRefused(p: Platform, k: Packet, c: Config, now: Time)
    ensures FirstError(ChainChecks(k, now))
            == if Broken(BadChain, p, k, c, now) then Err(AuthorizationError) else Ok(())
  {
    hide ChainChecks, FirstError, ChainHolds;
    ChainAccepted(k, now);
    assert FirstError(ChainChecks(k, now)).Ok? ==> FirstError(ChainChecks(k, now)).value == ();
  }

  lemma SignatureRefused(p: Platform, k: Packet, c: Config, now: Time)
    ensures Broken(BadSignature, p, k, c, now) <==> SignatureCheck(p, k, c).Err?
    ensures SignatureCheck(p, k, c).Err? ==> Raises(BadSignature, p, k, c, SignatureCheck(p, k, c).error)
  {
    hide VerifyPacket;
  }

  // A rule that is broken while no earlier one is.
  ghost predicate BrokenFirst(rule: Rule, p: Platform, k: Packet, c: Config, now: Time) {
    && Broken(rule, p, k, c, now)
    && forall other: Rule :: Broken(other, p, k, c, now) ==> Rank(rule) <= Rank(other)
  }

  // A group of checks, with ranks from `low` to `high`: it raises what the first
  // broken rule raises if that is one of its own, and passes if it comes later.
  ghost predicate Decides(r: Result<()>, low: nat, high: nat, rule: Rule, p: Platform, k: Packet, c: Config) {
    && (low <= Rank(rule) <= high ==> r.Err? && Raises(rule, p, k, c, r.error))
    && (Rank(rule) > high ==> r == Ok(()))
  }

  lemma EarlyDecides(p: Platform, k: Packet, c: Config, now: Time, rule: Rule)
    requires BrokenFirst(rule, p, k, c, now)
    ensures Decides(EarlyChecks(p, k, c, now), 0, 8, rule, p, k, c)
  {
    hide EarlyChecks, Broken;
    EarlyRefused(p, k, c, now);
  }

  lemma TimesDecide(p: Platform, k: Packet, c: Config, now: Time, rule: Rule)
    requires BrokenFirst(rule, p, k, c, now)
    ensures Decides(TimeChecks(k, now), 10, 11, rule, p, k, c)
  {
    hide TimeChecks, Broken;
    TimesRefused(p, k, c, now);
  }

  lemma RulesDecide(p: Platform, k: Packet, c: Config, now: Time, rule: Rule)
    requires BrokenFirst(rule, p, k, c, now)
    ensures Decides(RuleChecks(k, c), 12, 17, rule, p, k, c)
  {
    hide RuleChecks, Broken;
    RulesRefused(p, k, c, now);
  }

  // A group with a single rule.
  lemma OneDecides(p: Platform, k: Packet, c: Config, now: Time, rule: Rule, own: Rule, r: Result<()>)
    requires BrokenFirst(rule, p, k, c, now)
    requires Broken(own, p, k, c, now) <==> r.Err?
    requires r.Err? ==> Raises(own, p, k, c, r.error)
    ensures Decides(r, Rank(own), Rank(own), rule, p, k, c)
  {
    hide Broken, Raises;
    assert r.Ok? ==> r.value == ();
    SameRank(rule, own);
  }

  lemma SameRank(a: Rule, b: Rule)
    ensures Rank(a) == Rank(b) ==> a == b
  {
  }

  lemma VerdictRaises(p: Platform, k: Packet, c: Config, now: Time, rule: Rule)
    requires BrokenFirst(rule, p, k, c, now)
    ensures Verdict(p, k, c, now).Err? && Raises(rule, p, k, c, Verdict(p, k, c, now).error)
  {
    hide Broken, Raises, EarlyChecks, AttachmentChecks, TimeChecks, RuleChecks, ChainChecks, SignatureCheck,
         TraceChecks, FirstError, BrokenFirst;
    EarlyDecides(p, k, c, now, rule);
    AttachmentRefused(p, k, c, now);
    OneDecides(p, k, c, now, rule, BadAttachment, FirstError(AttachmentChecks(k, c)));
    TimesDecide(p, k, c, now, rule);
    RulesDecide(p, k, c, now, rule);
    ChainRefused(p, k, c, now);
    assert Raises(BadChain, p, k, c, AuthorizationError) by { ChainError(p, k, c); }
    OneDecides(p, k, c, now, rule, BadChain, FirstError(ChainChecks(k, now)));
    SignatureRefused(p, k, c, now);
    OneDecides(p, k, c, now, rule, BadSignature, SignatureCheck(p, k, c));
    TraceRefused(p, k, c, now);
    OneDecides(p, k, c, now, rule, BadTrace, FirstError(TraceChecks(p, k, c.trace)));
  }

  lemma ChainError(p: Platform, k: Packet, c: Config)
    ensures Raises(BadChain, p, k, c, AuthorizationError)
  {
  }

  // Validation accepts exactly the packets that break no rule, and otherwise raises
  // what the first broken rule raises.
  lemma VerdictExactly(p: Platform, k: Packet, c: Config, now: Time)
    ensures Verdict(p, k, c, now).Ok? <==> forall rule: Rule :: !Broken(rule, p, k, c, now)
    ensures Verdict(p, k, c, now).Err? ==>
      exists rule: Rule :: && Broken(rule, p, k, c, now) && Raises(rule, p, k, c, Verdict(p, k, c, now).error)
                           && forall other: Rule :: Broken(other, p, k, c, now) ==> Rank(rule) <= Rank(other)
  {
    hide Broken, Raises, EarlyChecks, AttachmentChecks, TimeChecks, RuleChecks, ChainChecks, SignatureCheck,
         TraceChecks, FirstError;
    EarlyRefused(p, k, c, now);
    AttachmentRefused(p, k, c, now);
    TimesRefused(p, k, c, now);
    RulesRefused(p, k, c, now);
    ChainRefused(p, k, c, now);
    SignatureRefused(p, k, c, now);
    TraceRefused(p, k, c, now);
    if rule: Rule :| Broken(rule, p, k, c, now) {
      var first := FirstBroken(p, k, c, now, rule);
      VerdictRaises(p, k, c, now, first);
    }
  }

  lemma FirstBroken(p: Platform, k: Packet, c: Config, now: Time, rule: Rule) returns (first: Rule)
    requires Broken(rule, p, k, c, now)
    ensures BrokenFirst(first, p, k, c, now)
    decreases Rank(rule)
  {
    hide Broken;
    first := rule;
    if other: Rule :| Broken(other, p, k, c, now) && Rank(other) < Rank(rule) {
      first := FirstBroken(p, k, c, now, other);
    }
  }

  // The rules one by one.
  ghost predicate NoneBroken(p: Platform, k: Packet, c: Config, now: Time) {
    && !Broken(UnknownSchema, p, k, c, now) && !Broken(TypeNotAllowed, p, k, c, now)
    && !Broken(ActionNotAllowed, p, k, c, now) && !Broken(ForAnotherNode, p, k, c, now)
    && !Broken(FromTheFuture, p, k, c, now) && !Broken(TooLarge, p, k, c, now) && !Broken(TooManyHops, p, k, c, now)
    && !Broken(TooManyLinks, p, k, c, now) && !Broken(TooManyAttachments, p, k, c, now)
    && !Broken(BadAttachment, p, k, c, now) && !Broken(TooEarly, p, k, c, now) && !Broken(Expired, p, k, c, now)
    && !Broken(ReplayUnmarked, p, k, c, now) && !Broken(ReplayDisabled, p, k, c, now)
    && !Broken(ReplayElsewhere, p, k, c, now) && !Broken(KeyMissing, p, k, c, now)
    && !Broken(SubjectMissing, p, k, c, now) && !Broken(AuditMissing, p, k, c, now) && !Broken(BadChain, p, k, c, now)
    && !Broken(BadSignature, p, k, c, now) && !Broken(BadTrace, p, k, c, now)
  }

  lemma AllRules(p: Platform, k: Packet, c: Config, now: Time, rule: Rule)
    requires NoneBroken(p, k, c, now)
    ensures !Broken(rule, p, k, c, now)
  {
    hide Broken;
  }

  lemma AcceptedRuleByRule(p: Platform, k: Packet, c: Config, now: Time)
    ensures Verdict(p, k, c, now).Ok? <==> NoneBroken(p, k, c, now)
  {
    hide Verdict, Broken;
    VerdictExactly(p, k, c, now);
    if NoneBroken(p, k, c, now) {
      forall rule: Rule ensures !Broken(rule, p, k, c, now) {
        AllRules(p, k, c, now, rule);
      }
    }
  }
}
