// security/validation.py.
module Validation {
  import opened Wrappers
  import opened Strings
  import opened Json
  import opened Models
  import opened Platforms
  import opened Packets
  import opened Signatures
  import opened HopTraces
  import opened Lineages
  import opened Codec

  datatype Config = Config(
    resolver: KeyResolver,
    requireSignature: bool,
    maxPacketBytes: int,
    maxHopDepth: int,
    maxDelegationDepth: int,
    maxAttachments: int,
    maxAttachmentBytes: int,
    checkUri: string -> Result<()>,         // _validate_attachment_uri with its two settings
    clockSkewSeconds: int,
    localNode: Option<string>,
    allowedActions: Option<set<string>>,
    allowedTypes: Option<set<string>>,
    idempotencyActions: set<string>,
    replayEnabled: bool,
    devMode: bool,
    trace: TracePolicy)

  function Seconds(n: int): int {
    n * 1_000_000
  }

  // transport_packet_size_bytes
  function PacketSizeBytes(p: Platform, k: Packet): nat {
    |Utf8(Write(Canonicalize(Encode(p, k)), ""))|
  }

  predicate Allows(allowed: Option<set<string>>, s: string) {
    allowed.Some? ==> s in allowed.value
  }

  predicate Blank(s: Option<string>) {
    s.None? || s.value == ""
  }

  function Members(ss: seq<string>): set<string> {
    set s | s in ss
  }

  // ---------------------------------------------------------------------
  // _validate_delegation_chain
  // ---------------------------------------------------------------------

  function CheckLink(k: Packet, i: nat, previousScope: Option<set<string>>, now: Time): Result<()>
    requires i < |k.delegationChain|
  {
    var link := k.delegationChain[i];
    var scope := Members(link.scope);
    var _ :- Check(previousScope.Some? ==> scope <= previousScope.value, AuthorizationError);
    var _ :- Check(link.expiresAt.Some? ==> now <= link.expiresAt.value, AuthorizationError);
    if i == |k.delegationChain| - 1 && k.header.packetType == "delegation" then
      var _ :- Check(k.header.action in scope, AuthorizationError);
      Check(k.address.destinationNode == link.delegatee, AuthorizationError)
    else Ok(())
  }

  function ScopeBefore(chain: seq<Link>, i: nat): Option<set<string>>
    requires i <= |chain|
  {
    if i == 0 then None else Some(Members(chain[i - 1].scope))
  }

  function ChainChecks(k: Packet, now: Time): seq<Result<()>> {
    seq(|k.delegationChain|,
        i requires 0 <= i < |k.delegationChain| => CheckLink(k, i, ScopeBefore(k.delegationChain, i), now))
  }

  // What an accepted chain means: every later scope lies inside every earlier
  // one, no link has expired, and a delegation packet goes to the last delegatee
  // with an action that every link grants.
  ghost predicate ChainHolds(k: Packet, now: Time) {
    var chain := k.delegationChain;
    && (forall i, j :: 0 <= i < j < |chain| ==> Members(chain[j].scope) <= Members(chain[i].scope))
    && (forall i :: 0 <= i < |chain| && chain[i].expiresAt.Some? ==> now <= chain[i].expiresAt.value)
    && (k.header.packetType == "delegation" && chain != [] ==>
      && k.address.destinationNode == chain[|chain| - 1].delegatee
      && forall i :: 0 <= i < |chain| ==> k.header.action in chain[i].scope)
  }

  lemma {:induction false} ScopesShrink(k: Packet, now: Time, i: nat, j: nat)
    requires i <= j < |k.delegationChain|
    requires forall m :: 0 <= m < |k.delegationChain| ==> ChainChecks(k, now)[m].Ok?
    ensures Members(k.delegationChain[j].scope) <= Members(k.delegationChain[i].scope)
    decreases j
  {
    if i < j {
      assert ChainChecks(k, now)[j].Ok?;
      ScopesShrink(k, now, i, j - 1);
    }
  }

  lemma PassedChainHolds(k: Packet, now: Time)
    requires forall m :: 0 <= m < |k.delegationChain| ==> ChainChecks(k, now)[m].Ok?
    ensures ChainHolds(k, now)
  {
    var chain, checks := k.delegationChain, ChainChecks(k, now);
    forall i, j | 0 <= i < j < |chain| ensures Members(chain[j].scope) <= Members(chain[i].scope) {
      ScopesShrink(k, now, i, j);
    }
    forall i | 0 <= i < |chain| && chain[i].expiresAt.Some? ensures now <= chain[i].expiresAt.value {
      assert checks[i].Ok?;
    }
    if k.header.packetType == "delegation" && chain != [] {
      assert checks[|chain| - 1].Ok?;
      forall i | 0 <= i < |chain| ensures k.header.action in chain[i].scope {
        ScopesShrink(k, now, i, |chain| - 1);
        assert k.header.action in Members(chain[i].scope);
      }
    }
  }

  lemma HeldLinkPasses(k: Packet, now: Time, m: nat)
    requires ChainHolds(k, now) && m < |k.delegationChain|
    ensures ChainChecks(k, now)[m].Ok?
  {
    var chain := k.delegationChain;
    if m > 0 {
      assert Members(chain[m].scope) <= Members(chain[m - 1].scope);
    }
    assert k.header.action in Members(chain[m].scope) <==> k.header.action in chain[m].scope;
  }

  // Comparing neighbours is enough: the loop accepts exactly the chains in which
  // no link anywhere widens an earlier one.
  lemma ChainAccepted(k: Packet, now: Time)
    ensures FirstError(ChainChecks(k, now)).Ok? <==> ChainHolds(k, now)
    ensures FirstError(ChainChecks(k, now)).Err? ==> FirstError(ChainChecks(k, now)) == Err(AuthorizationError)
  {
    hide FirstError, ChainHolds;
    var checks := ChainChecks(k, now);
    FirstErrorOk(checks);
    if FirstError(checks).Ok? {
      PassedChainHolds(k, now);
    }
    if ChainHolds(k, now) {
      forall m | 0 <= m < |checks| ensures checks[m].Ok? {
        HeldLinkPasses(k, now, m);
      }
    }
  }

  method ValidateDelegationChain(k: Packet, now: Time) returns (r: Result<()>)
    ensures r == FirstError(ChainChecks(k, now))
    ensures r.Ok? <==> ChainHolds(k, now)
  {
    ghost var checks := ChainChecks(k, now);
    ChainAccepted(k, now);
    var previousScope: Option<set<string>> := None;
    for i := 0 to |k.delegationChain|
      invariant previousScope == ScopeBefore(k.delegationChain, i)
      invariant forall j :: 0 <= j < i ==> checks[j].Ok?
    {
      var checked := CheckLink(k, i, previousScope, now);
      assert checked == checks[i];
      if checked.Err? {
        FirstErrorAt(checks, i);
        return checked;
      }
      previousScope := Some(Members(k.delegationChain[i].scope));
    }
    FirstErrorAt(checks, |checks|);
    return Ok(());
  }

  // ---------------------------------------------------------------------
  // validate_transport_packet
  // ---------------------------------------------------------------------

  // The guards before the attachment loop.
  function EarlyChecks(p: Platform, k: Packet, c: Config, now: Time): Result<()> {
    var _ :- Check(k.header.schemaVersion == "1.0", SchemaVersion);
    var _ :- Check(Allows(c.allowedTypes, k.header.packetType), AuthorizationError);
    var _ :- Check(Allows(c.allowedActions, k.header.action), AuthorizationError);
    var _ :- Check(c.localNode.Some? ==> k.address.destinationNode == Norm(c.localNode.value), AuthorizationError);
    var _ :- Check(k.header.createdAt <= now + Seconds(c.clockSkewSeconds), TransportValidation);
    var _ :- Check(PacketSizeBytes(p, k) <= c.maxPacketBytes, PacketSize);
    var _ :- Check(|k.hopTrace| <= c.maxHopDepth, TransportValidation);
    var _ :- Check(|k.delegationChain| <= c.maxDelegationDepth, TransportValidation);
    Check(|k.attachments| <= c.maxAttachments, TransportValidation)
  }

  function CheckAttachment(a: Attachment, c: Config): Result<()> {
    var _ :- Check(a.sizeBytes <= c.maxAttachmentBytes, TransportValidation);
    c.checkUri(a.uri)
  }

  function AttachmentChecks(k: Packet, c: Config): seq<Result<()>> {
    seq(|k.attachments|, i requires 0 <= i < |k.attachments| => CheckAttachment(k.attachments[i], c))
  }

  // Times, replay, idempotency and governance. Digests are never empty, so the
  // guard for missing hashes has no case here.
  function TimeChecks(k: Packet, now: Time): Result<()> {
    var _ :- Check(k.header.notBefore.Some? ==> now >= k.header.notBefore.value, NotYetValid);
    Check(k.header.expiresAt.Some? ==> now <= k.header.expiresAt.value, ExpiredError)
  }

  function RuleChecks(k: Packet, c: Config): Result<()> {
    var replay := k.header.packetType == "replay_request";
    var _ :- Check(replay ==> k.header.replayMode, TransportValidation);
    var _ :- Check(replay ==> c.replayEnabled, AuthorizationError);
    var _ :- Check(k.header.replayMode ==> replay, TransportValidation);
    var _ :- Check(k.header.action in c.idempotencyActions ==> !Blank(k.header.idempotencyKey), TransportValidation);
    var _ :- Check("GDPR" in k.governance.complianceTags ==> !Blank(k.governance.dataSubjectId), TransportValidation);
    Check(k.security.classification == "restricted" ==> k.governance.auditRequired, TransportValidation)
  }

  function SignatureCheck(p: Platform, k: Packet, c: Config): Result<()> {
    if k.security.signature.None? then
      Check((c.requireSignature || k.security.classification == "restricted") ==> c.devMode, AuthenticationError)
    else if c.devMode && c.resolver.NoResolver? then Ok(())
    else
      var verified :- VerifyPacket(p, k, c.resolver);
      Check(verified, AuthenticationError)
  }

  // The whole validation, in the order of its checks.
  function Verdict(p: Platform, k: Packet, c: Config, now: Time): Result<()> {
    var _ :- EarlyChecks(p, k, c, now);
    var _ :- FirstError(AttachmentChecks(k, c));
    var _ :- TimeChecks(k, now);
    var _ :- RuleChecks(k, c);
    var _ :- FirstError(ChainChecks(k, now));
    var _ :- SignatureCheck(p, k, c);
    FirstError(TraceChecks(p, k, c.trace))
  }

  method ValidateTransportPacket(p: Platform, k: Packet, c: Config, now: Time) returns (r: Result<()>)
    ensures r == Verdict(p, k, c, now)
  {
    hide EarlyChecks, TimeChecks, RuleChecks, SignatureCheck, CheckAttachment, ChainChecks, TraceChecks, ChainHolds,
         TraceOk;
    var early := EarlyChecks(p, k, c, now);
    if early.Err? { return early; }
    ghost var checks := AttachmentChecks(k, c);
    for i := 0 to |k.attachments|
      invariant forall j :: 0 <= j < i ==> checks[j].Ok?
    {
      var checked := CheckAttachment(k.attachments[i], c);
      assert checked == checks[i];
      if checked.Err? {
        FirstErrorAt(checks, i);
        return checked;
      }
    }
    FirstErrorAt(checks, |checks|);
    var timed := TimeChecks(k, now);
    if timed.Err? { return timed; }
    var ruled := RuleChecks(k, c);
    if ruled.Err? { return ruled; }
    var chained := ValidateDelegationChain(k, now);
    if chained.Err? { return chained; }
    var signed := SignatureCheck(p, k, c);
    if signed.Err? { return signed; }
    r := ValidateHopTrace(p, k, c.trace);
  }

  // ---------------------------------------------------------------------
  // When a packet is accepted
  // ---------------------------------------------------------------------

  // Everything validation asks that does not depend on the time.
  ghost predicate Timeless(p: Platform, k: Packet, c: Config) {
    ReplayHolds(k.header.replayMode, k.header.packetType, c.replayEnabled) && TimelessRest(p, k, c)
  }

  // replay_mode marks replay requests and nothing else, and only where replay is enabled.
  predicate ReplayHolds(replayMode: bool, packetType: string, enabled: bool) {
    (replayMode <==> packetType == "replay_request") && (replayMode ==> enabled)
  }

  // The same without the replay rule.
  ghost predicate TimelessRest(p: Platform, k: Packet, c: Config) {
    && k.header.schemaVersion == "1.0"
    && Allows(c.allowedTypes, k.header.packetType) && Allows(c.allowedActions, k.header.action)
    && (c.localNode.Some? ==> k.address.destinationNode == Norm(c.localNode.value))
    && PacketSizeBytes(p, k) <= c.maxPacketBytes
    && |k.hopTrace| <= c.maxHopDepth && |k.delegationChain| <= c.maxDelegationDepth
    && |k.attachments| <= c.maxAttachments
    && (forall i :: 0 <= i < |k.attachments| ==>
         k.attachments[i].sizeBytes <= c.maxAttachmentBytes && c.checkUri(k.attachments[i].uri).Ok?)
    && GovernanceHolds(k, c) && SignatureHolds(p, k, c)
    && ChainHolds(k.(delegationChain := Undated(k.delegationChain)), 0) && TraceOk(p, k, c.trace)
  }

  predicate GovernanceHolds(k: Packet, c: Config) {
    && (k.header.action in c.idempotencyActions ==> !Blank(k.header.idempotencyKey))
    && ("GDPR" in k.governance.complianceTags ==> !Blank(k.governance.dataSubjectId))
    && (k.security.classification == "restricted" ==> k.governance.auditRequired)
  }

  // Development mode excuses a missing signature, and a present one only when there is no key at all.
  predicate SignatureHolds(p: Platform, k: Packet, c: Config) {
    if k.security.signature.None? then c.requireSignature || k.security.classification == "restricted" ==> c.devMode
    else (c.devMode && c.resolver == NoResolver) || VerifyPacket(p, k, c.resolver) == Ok(true)
  }

  // The chain without its expiry dates.
  function Undated(chain: seq<Link>): (r: seq<Link>)
    ensures |r| == |chain|
  {
    seq(|chain|, i requires 0 <= i < |chain| => chain[i].(expiresAt := None))
  }

  function Later(a: Time, b: Option<Time>): Time {
    if b.Some? && b.value > a then b.value else a
  }

  function Sooner(a: Option<Time>, b: Option<Time>): Option<Time> {
    if a.None? then b else if b.None? || a.value <= b.value then a else b
  }

  // The first moment a packet may be accepted.
  function Opens(k: Packet, c: Config): Time {
    Later(k.header.createdAt - Seconds(c.clockSkewSeconds), k.header.notBefore)
  }

  function ChainCloses(chain: seq<Link>): Option<Time> {
    if chain == [] then None else Sooner(chain[0].expiresAt, ChainCloses(chain[1..]))
  }

  // The last moment, if there is one.
  function Closes(k: Packet): Option<Time> {
    Sooner(k.header.expiresAt, ChainCloses(k.delegationChain))
  }

  predicate Before(now: Time, limit: Option<Time>) {
    limit.Some? ==> now <= limit.value
  }

  lemma {:induction false} ChainClosesFirst(chain: seq<Link>, now: Time)
    ensures Before(now, ChainCloses(chain)) <==> forall i :: 0 <= i < |chain| ==> Before(now, chain[i].expiresAt)
  {
    if chain != [] {
      ChainClosesFirst(chain[1..], now);
      assert Before(now, ChainCloses(chain))
        <==> Before(now, chain[0].expiresAt) && Before(now, ChainCloses(chain[1..]));
      if forall i :: 0 <= i < |chain[1..]| ==> Before(now, chain[1..][i].expiresAt) {
        assert forall i :: 0 < i < |chain| ==> chain[i] == chain[1..][i - 1];
      }
    }
  }

  // No link has expired, and everything else the chain must satisfy.
  lemma ChainAtTime(k: Packet, now: Time)
    ensures ChainHolds(k, now)
            <==> && ChainHolds(k.(delegationChain := Undated(k.delegationChain)), 0)
                 && Before(now, ChainCloses(k.delegationChain))
  {
    hide ChainCloses;
    ChainClosesFirst(k.delegationChain, now);
    var chain, bare := k.delegationChain, Undated(k.delegationChain);
    assert forall i :: 0 <= i < |chain| ==>
      bare[i].scope == chain[i].scope && bare[i].delegatee == chain[i].delegatee && bare[i].expiresAt.None?;
    UndatedHolds(k, k.(delegationChain := bare), now);
  }

  // Two packets whose chains differ in expiry only, the second without any.
  lemma UndatedHolds(k: Packet, u: Packet, now: Time)
    requires u == k.(delegationChain := u.delegationChain) && |u.delegationChain| == |k.delegationChain|
    requires forall i :: 0 <= i < |k.delegationChain| ==>
      && u.delegationChain[i].scope == k.delegationChain[i].scope
      && u.delegationChain[i].delegatee == k.delegationChain[i].delegatee && u.delegationChain[i].expiresAt.None?
    ensures ChainHolds(k, now)
            <==> && ChainHolds(u, 0)
                 && forall i :: 0 <= i < |k.delegationChain| ==> Before(now, k.delegationChain[i].expiresAt)
  {
    hide Members;
    if ChainHolds(k, now) {
      forall i | 0 <= i < |k.delegationChain| ensures Before(now, k.delegationChain[i].expiresAt) {
      }
    }
  }

  // With everything but the time fixed, a packet is accepted at exactly the
  // times of one interval: from `Opens` to `Closes`, both included.
  lemma AcceptedInOneInterval(p: Platform, k: Packet, c: Config, now: Time)
    ensures Verdict(p, k, c, now).Ok? <==> Timeless(p, k, c) && Opens(k, c) <= now && Before(now, Closes(k))
  {
    hide PacketSizeBytes, CheckAttachment, AttachmentChecks, ChainHolds, ChainChecks, RuleChecks, SignatureCheck,
         ReplayHolds, GovernanceHolds, SignatureHolds, TraceOk, TraceChecks, Norm, ChainCloses, FirstError;
    AttachmentsChecked(k, c);
    RulesChecked(p, k, c);
    TraceChecked(p, k, c.trace);
    ChainAccepted(k, now);
    ChainAtTime(k, now);
  }

  // A signed packet that is accepted outside development mode is signed well, and
  // so is every signed hop of it, if hops are verified.
  lemma AcceptedIsSignedWell(p: Platform, k: Packet, c: Config, now: Time, i: nat)
    requires Verdict(p, k, c, now).Ok?
    ensures k.security.signature.Some? && (!c.devMode || c.resolver != NoResolver) ==>
      SignedWell(p, c.resolver, k.security.signature, k.security.signatureAlgorithm, k.security.signingKeyId,
                 k.security.transportHash)
    ensures i < |k.hopTrace| && k.hopTrace[i].hopSignature.Some? && c.trace.verifySignatures ==>
      var h := k.hopTrace[i];
      SignedWell(p, c.trace.resolver, h.hopSignature, h.hopSignatureAlgorithm, h.hopSigningKeyId, h.hopHash)
  {
    hide Verdict, SignedWell, RefusedAs, ChainHolds, PacketSizeBytes, Norm, Opens, Closes, GovernanceHolds, CheckHopAt;
    AcceptedInOneInterval(p, k, c, now);
    VerifyPacketExactly(p, k, c.resolver);
    if i < |k.hopTrace| {
      CheckedHopMeans(p, k, c.trace, i);
      VerifyHopExactly(p, k.hopTrace[i], c.trace.resolver);
    }
  }

  lemma AttachmentsChecked(k: Packet, c: Config)
    ensures FirstError(AttachmentChecks(k, c)).Ok?
            <==> forall i :: 0 <= i < |k.attachments| ==>
                   k.attachments[i].sizeBytes <= c.maxAttachmentBytes && c.checkUri(k.attachments[i].uri).Ok?
  {
    var checks := AttachmentChecks(k, c);
    FirstErrorOk(checks);
    if FirstError(checks).Ok? {
      forall i | 0 <= i < |k.attachments|
        ensures k.attachments[i].sizeBytes <= c.maxAttachmentBytes && c.checkUri(k.attachments[i].uri).Ok?
      {
        assert checks[i].Ok?;
      }
    }
  }

  lemma RulesChecked(p: Platform, k: Packet, c: Config)
    ensures RuleChecks(k, c).Ok?
            <==> ReplayHolds(k.header.replayMode, k.header.packetType, c.replayEnabled) && GovernanceHolds(k, c)
    ensures SignatureCheck(p, k, c).Ok? <==> SignatureHolds(p, k, c)
  {
    hide VerifyPacket;
  }

  lemma TraceChecked(p: Platform, k: Packet, policy: TracePolicy)
    ensures FirstError(TraceChecks(p, k, policy)).Ok? <==> TraceOk(p, k, policy)
  {
    hide CheckHopAt;
    FirstErrorOk(TraceChecks(p, k, policy));
    assert forall i :: 0 <= i < |k.hopTrace| ==> TraceChecks(p, k, policy)[i] == CheckHopAt(p, k, i, policy);
  }

  // Accepted at one time, a packet is answered at every other time by what time
  // alone decides: too far ahead, not yet valid, expired, or a link expired.
  lemma TimeProfile(p: Platform, k: Packet, c: Config, accepted: Time, now: Time)
    requires Verdict(p, k, c, accepted).Ok?
    ensures Verdict(p, k, c, now) ==
      if k.header.createdAt > now + Seconds(c.clockSkewSeconds) then Err(TransportValidation)
      else if k.header.notBefore.Some? && now < k.header.notBefore.value then Err(NotYetValid)
      else if !Before(now, k.header.expiresAt) then Err(ExpiredError)
      else if !Before(now, ChainCloses(k.delegationChain)) then Err(AuthorizationError)
      else Ok(())
  {
    hide PacketSizeBytes, AttachmentChecks, ChainHolds, ChainChecks, RuleChecks, SignatureCheck, TraceChecks, Norm,
         ChainCloses, FirstError;
    ChainAccepted(k, accepted);
    ChainAccepted(k, now);
    ChainAtTime(k, accepted);
    ChainAtTime(k, now);
    assert FirstError(TraceChecks(p, k, c.trace)).value == ();
  }

  // Of a derived packet: the replay rule is met exactly when the caller's two
  // arguments, or what they default to, agree, and replay is enabled. Nothing
  // else in validation looks at replay_mode.
  lemma DerivedReplayExactly(p: Platform, parent: Packet, id: Uuid, made: Time, a: DeriveArgs, c: Config, now: Time)
    requires Derivable(parent) && Derive(p, parent, id, made, a).Ok?
    ensures var k := Derive(p, parent, id, made, a).value;
            Verdict(p, k, c, now).Ok?
            <==> && ReplayHolds(Given(a.replayMode, parent.header.replayMode),
                                Norm(Or(a.packetType, parent.header.packetType)), c.replayEnabled)
                 && TimelessRest(p, k, c) && Opens(k, c) <= now && Before(now, Closes(k))
  {
    hide Derive, Derivable, ChildOf, IntegrityOk, NormAddress, HeaderOk, AddressOk, Verdict, TimelessRest, ReplayHolds,
         Norm, Or, ValidateParentChildLineage, Unsigned, Opens, Closes;
    DeriveMakesChild(p, parent, id, made, a);
    AcceptedInOneInterval(p, Derive(p, parent, id, made, a).value, c, now);
  }

  // replay_mode is inherited, so whatever is derived from a replay request
  // without clearing it, and is not itself one, is never accepted.
  lemma ReplayAnswerRefused(p: Platform, parent: Packet, id: Uuid, made: Time, a: DeriveArgs, c: Config, now: Time)
    requires Derivable(parent) && parent.header.replayMode && a.replayMode.None?
    requires Norm(Or(a.packetType, parent.header.packetType)) != "replay_request"
    requires Derive(p, parent, id, made, a).Ok?
    ensures Verdict(p, Derive(p, parent, id, made, a).value, c, now).Err?
  {
    hide Derive, Derivable, Verdict, TimelessRest, Norm, Or, Opens, Closes;
    DerivedReplayExactly(p, parent, id, made, a, c, now);
  }

  // ---------------------------------------------------------------------
  // validate_derived_transport_packet
  // ---------------------------------------------------------------------

  function ValidateDerived(parent: Packet, child: Packet): Result<()> {
    var _ :- Check(parent.tenant == child.tenant, TenantMutation);
    ValidateParentChildLineage(parent, child)
  }

  // The receiving side's check accepts every edge that derive makes.
  lemma DerivedAccepted(parent: Packet, child: Packet, id: Uuid)
    requires ChildOf(child, parent, id)
    ensures ValidateDerived(parent, child).Ok? && ValidateParentChildLineage(parent, child).Ok?
  {
  }

  // A pair is accepted exactly when the tenants agree and the child's lineage is
  // the next one; a changed tenant is reported first.
  lemma DerivedExactly(parent: Packet, child: Packet)
    ensures ValidateDerived(parent, child)
            == if parent.tenant != child.tenant then Err(TenantMutation)
               else if child.lineage == Lineage(Some(parent.header.packetId), parent.lineage.rootId,
                                                parent.lineage.generation + 1)
               then Ok(())
               else Err(TransportValidation)
  {
    LineageCheckedExactly(parent, child);
  }

  // In every world a history reaches, the parent of a packet that is not a root
  // is there, and both lineage validators accept the pair.
  lemma EveryEdgeAccepted(p: Platform, w: World, k: Packet, policy: TracePolicy)
    requires Inv(p, w, policy) && k in w.packets && k.lineage.generation > 0
    ensures k.lineage.parentId.Some?
    ensures var parent := Find(w.packets, k.lineage.parentId.value);
            && parent.Some?
            && ValidateDerived(parent.value, k).Ok? && ValidateParentChildLineage(parent.value, k).Ok?
  {
    hide Inv, Find, ChildOf;
    ParentExists(p, w, k, policy);
    DerivedAccepted(Find(w.packets, k.lineage.parentId.value).value, k, k.header.packetId);
  }

  lemma SameLineage(a: Packet, b: Packet)
    requires SameIdentity(a, b)
    ensures a.lineage == b.lineage && a.tenant == b.tenant && a.header == b.header
  {
  }

  // In every world a history reaches, only versions of one packet pass as the
  // parent of a given packet: those with the id that its parent_id is looked up by.
  lemma OnlyParentAccepted(p: Platform, w: World, a: Packet, k: Packet, policy: TracePolicy)
    requires Inv(p, w, policy) && a in w.packets && k in w.packets
    ensures ValidateDerived(a, k).Ok? || ValidateParentChildLineage(a, k).Ok? ==>
      && k.lineage.parentId == Some(a.header.packetId) && k.lineage.generation > 0
      && var parent := Find(w.packets, a.header.packetId);
         parent.Some? && SameIdentity(a, parent.value)
    ensures k.lineage.generation > 0 ==>
      (ValidateDerived(a, k).Ok? <==> k.lineage.parentId == Some(a.header.packetId))
  {
    hide Healthy, Linked, SameIdentity, ValidateDerived, ValidateParentChildLineage;
    DerivedExactly(a, k);
    LineageCheckedExactly(a, k);
    RootAtZero(p, w, a, policy);
    if k.lineage.parentId == Some(a.header.packetId) {
      FindFinds(w.packets, a);
      var found := Find(w.packets, a.header.packetId).value;
      var i :| 0 <= i < |w.packets| && w.packets[i] == a;
      var j :| 0 <= j < |w.packets| && w.packets[j] == found;
      assert SameIdentity(w.packets[i], w.packets[j]);
      if k.lineage.generation > 0 {
        EveryEdgeAccepted(p, w, k, policy);
        DerivedExactly(found, k);
        SameLineage(a, found);
      }
    }
  }

  // ---------------------------------------------------------------------
  // Root packets
  // ---------------------------------------------------------------------

  // What a validator must allow for the root packet made from `a` at `made`.
  // A root has no audit flag and no data subject, so one classified restricted
  // or tagged GDPR is refused under every configuration.
  predicate RootAllowed(size: nat, made: Time, a: CreateArgs, c: Config, now: Time) {
    && Allows(c.allowedTypes, "request") && Allows(c.allowedActions, Norm(a.action))
    && (c.localNode.Some? ==> Norm(a.destinationNode) == Norm(c.localNode.value))
    && size <= c.maxPacketBytes && c.maxHopDepth >= 0 && c.maxDelegationDepth >= 0 && c.maxAttachments >= 0
    && (Norm(a.action) in c.idempotencyActions ==> a.idempotencyKey.Some?)
    && "GDPR" !in Cleaned(Shout, a.complianceTags) && Norm(a.classification) != "restricted"
    && (c.requireSignature ==> c.devMode)
    && made <= now + Seconds(c.clockSkewSeconds) && (a.expiresAt.Some? ==> now <= a.expiresAt.value)
  }

  // Whether a root packet is accepted is decided by the arguments it was made
  // from, its size, the configuration and the time.
  lemma CreatedAccepted(p: Platform, id: Uuid, made: Time, a: CreateArgs, c: Config, now: Time)
    requires Create(p, id, made, a).Ok?
    ensures var k := Create(p, id, made, a).value;
            Verdict(p, k, c, now).Ok? <==> RootAllowed(PacketSizeBytes(p, k), made, a, c, now)
  {
    hide Create, CreateAdmits, Verdict, PacketSizeBytes, IntegrityOk, Norm, Cleaned;
    CreateExactly(p, id, made, a);
    RootGoverned(p, id, made, a);
    var k := Create(p, id, made, a).value;
    AcceptedInOneInterval(p, k, c, now);
    assert ChainCloses(k.delegationChain) == None;
    assert "request" != "replay_request" && "request" != "delegation" by { assert |"request"| == 7; }
    assert ChainHolds(k.(delegationChain := Undated(k.delegationChain)), 0);
    assert TraceOk(p, k, c.trace);
  }

  lemma RootGoverned(p: Platform, id: Uuid, made: Time, a: CreateArgs)
    requires Create(p, id, made, a).Ok?
    ensures var k := Create(p, id, made, a).value;
            && k.governance.complianceTags == Cleaned(Shout, a.complianceTags)
            && !k.governance.auditRequired && k.governance.dataSubjectId.None?
            && k.header.idempotencyKey == StripOpt(a.idempotencyKey)
            && (k.header.idempotencyKey.Some? ==> k.header.idempotencyKey.value != "")
  {
    hide IntegrityOk, Norm, Strip, Or, ActionName, Distinct, DefaultProvenance, Finalize, Cleaned, Shout;
    FinalizeSound(p, CreateUnhashed(id, made, a).value, false);
  }
}
