// Packets and platforms that meet the assumptions of the theorems, and runs in
// which the promises that do not hold are seen to fail.
module Witnesses {
  import opened Wrappers
  import opened Strings
  import opened Json
  import opened Models
  import opened Platforms
  import opened Hashing
  import opened Packets
  import opened Signatures
  import opened HopTraces
  import opened Runs
  import opened Lineages
  import opened Codec
  import opened Deliveries
  import opened Validation
  import opened Execution
  import opened Dispatch
  import opened Sizes

  // ---------------------------------------------------------------------
  // A lawful platform
  // ---------------------------------------------------------------------

  // Times in decimal, one digest, one MAC.
  ghost function DecimalPlatform(): Platform {
    Platform(_ => ZEROS, Decimal, Decimal, s => if exists t: int :: Decimal(t) == s then Some(TimeOf(s)) else None,
             (_, _) => "0", _ => Ok(()), _ => Ok(()), (_, _) => "0", (_, _, _) => true)
  }

  ghost function TimeOf(s: string): (t: int)
    requires exists t: int :: Decimal(t) == s
    ensures Decimal(t) == s
  {
    var t: int :| Decimal(t) == s; t
  }

  // Times written in decimal read back, so lawful platforms exist.
  lemma LawfulExists()
    ensures Lawful(DecimalPlatform())
  {
    var p := DecimalPlatform();
    forall t ensures p.readTime(p.isoformat(t)) == Some(t) {
      var u := TimeOf(Decimal(t));
      assert Decimal(u) + "" == Decimal(t) + "";
      DecimalSplit(u, "", t, "");
    }
  }

  // ---------------------------------------------------------------------
  // A valid root
  // ---------------------------------------------------------------------

  function PingArgs(): CreateArgs {
    CreateArgs("ping", [], Tenant("t", "t", "t", "t", None), "gate", "client", "client", 2, 1, "internal", [], 0, None,
               None, None, None, None)
  }

  function Ping(p: Platform, id: Uuid, now: Time): Result<Packet> {
    Create(p, id, now, PingArgs())
  }

  // What the root says, with every name in normal form.
  predicate PingSays(k: Packet, id: Uuid, now: Time) {
    && k.header == Header(id, "request", "ping", 2, now, None, 1, "1.0", None, Some(id), Some(id), None, 0, false, None)
    && k.address == Address("client", "gate", "client") && k.tenant == Tenant("t", "t", "t", "t", None)
    && k.payload == [] && k.governance == Governance("ping", [], 0, false, false, None)
    && k.provenance == Provenance("client", "ping", false, None, None)
    && k.delegationChain == [] && k.hopTrace == [] && k.attachments == [] && k.lineage == Lineage(None, id, 0)
    && k.security == Security(k.security.payloadHash, k.security.transportHash, None, None, None, "internal",
                              "plaintext", [])
  }

  lemma IdsAreTrimmed(id: Uuid)
    ensures Strip(id) == id && id != ""
  {
    StripTrims(id, IsSpace);
  }

  lemma PingIsAction()
    ensures Norm("ping") == "ping" && ActionName("ping") && Norm("ping") != ""
  {
    WordIsNormal("ping");
  }

  lemma RootNames()
    ensures Norm("gate") == "gate" && Norm("client") == "client" && Norm("internal") == "internal"
    ensures "internal" in CLASSIFICATIONS
  {
    WordIsNormal("gate");
    WordIsNormal("client");
    WordIsNormal("internal");
  }

  // The same request with another classification, other tags or an expiry.
  predicate LikePing(a: CreateArgs, now: Time) {
    && a == PingArgs().(classification := a.classification, complianceTags := a.complianceTags,
                        expiresAt := a.expiresAt)
    && Norm(a.classification) in CLASSIFICATIONS && Distinct(Cleaned(Shout, a.complianceTags))
    && (a.expiresAt.Some? ==> a.expiresAt.value > now)
  }

  lemma PingAdmits(id: Uuid, now: Time, a: CreateArgs)
    requires LikePing(a, now)
    ensures CreateAdmits(id, now, a)
  {
    hide Norm, Strip, ActionName, Cleaned, Distinct;
    IdsAreTrimmed(id);
    PingIsAction();
    RootNames();
  }

  lemma NoTagsKept()
    ensures Cleaned(Shout, []) == [] && Distinct([])
  {
  }

  lemma OneLetter()
    ensures Strip("t") == "t"
  {
    StripTrims("t", IsSpace);
  }

  lemma PingConstructed(id: Uuid, now: Time, a: CreateArgs)
    requires a.tenant == Tenant("t", "t", "t", "t", None) && a.provenance.None?
    ensures Constructed(Created(id, now, a))
  {
    hide Strip;
    OneLetter();
  }

  // On every platform such a request makes a valid root packet.
  lemma LikePingIsValid(p: Platform, id: Uuid, now: Time, a: CreateArgs)
    requires LikePing(a, now)
    ensures Create(p, id, now, a).Ok?
    ensures ValidPacket(p, Create(p, id, now, a).value) && RootSays(Create(p, id, now, a).value, id, now, a)
  {
    hide Create, CreateAdmits, Finalize, IntegrityOk, SectionsOk, Norm, Strip, Constructed, RootSays;
    PingAdmits(id, now, a);
    PingConstructed(id, now, a);
    CreateExactly(p, id, now, a);
    CreatedIsValid(p, id, now, a);
  }

  lemma PingIsLikePing(now: Time)
    ensures LikePing(PingArgs(), now)
  {
    hide Norm;
    RootNames();
    assert Cleaned(Shout, []) == [] && Distinct([]) by { NoTagsKept(); }
  }

  // In particular there is one for every id and time.
  lemma ValidRootExists(p: Platform, id: Uuid, now: Time)
    ensures Ping(p, id, now).Ok?
    ensures ValidPacket(p, Ping(p, id, now).value) && PingSays(Ping(p, id, now).value, id, now)
  {
    hide Create, ValidPacket, Norm, Strip, ActionName, LikePing;
    PingIsLikePing(now);
    LikePingIsValid(p, id, now, PingArgs());
    IdsAreTrimmed(id);
    PingIsAction();
    RootNames();
    assert Cleaned(Shout, []) == [] by { NoTagsKept(); }
  }

  // ---------------------------------------------------------------------
  // A valid child
  // ---------------------------------------------------------------------

  predicate Named(s: Option<string>) {
    s.Some? ==> Norm(s.value) == s.value && s.value != ""
  }

  // Arguments for derive that are in normal form, and keep the parent's window.
  predicate PlainArgs(a: DeriveArgs, now: Time) {
    && ProvenanceGiven(a.provenance)
    && a.governance.None? && a.link.None? && a.hop.None? && a.priority.None? && a.expiresAt.None? && a.timeoutMs.None?
    && Named(a.action) && (a.action.Some? ==> ActionName(a.action.value))
    && Named(a.packetType) && (a.packetType.Some? ==> a.packetType.value in PACKET_TYPES)
    && Named(a.sourceNode) && Named(a.destinationNode) && Named(a.replyTo)
    && (a.notBefore.Some? ==> a.notBefore.value >= now)
  }

  // The child that such arguments make, but for its hashes.
  function PlainChild(parent: Packet, id: Uuid, now: Time, a: DeriveArgs, security: Security): Packet {
    Packet(
      parent.header.(packetId := id, packetType := Given(a.packetType, parent.header.packetType),
                     action := Given(a.action, parent.header.action), createdAt := now,
                     causationId := Some(parent.header.packetId), retryCount := 0,
                     replayMode := Given(a.replayMode, parent.header.replayMode),
                     notBefore := GivenOpt(a.notBefore, parent.header.notBefore)),
      Address(Given(a.sourceNode, parent.address.sourceNode), Given(a.destinationNode, parent.address.destinationNode),
              Given(a.replyTo, parent.address.replyTo)),
      parent.tenant, Given(a.payload, parent.payload), security, parent.governance,
      Given(a.provenance, parent.provenance), parent.delegationChain, [], DeriveLineage(parent), parent.attachments)
  }

  lemma PlainHeader(h: Header, id: Uuid, now: Time, a: DeriveArgs)
    requires NormHeader(h) == h && HeaderOk(h) && PlainArgs(a, now) && h.expiresAt.None? && h.notBefore.None?
    ensures var c := h.(packetId := id, packetType := Given(a.packetType, h.packetType),
                        action := Given(a.action, h.action), createdAt := now, causationId := Some(h.packetId),
                        retryCount := 0, replayMode := Given(a.replayMode, h.replayMode),
                        notBefore := GivenOpt(a.notBefore, h.notBefore));
            NormHeader(DeriveHeader(h, id, now, a)) == c && HeaderOk(c)
  {
    hide Norm, Strip, ActionName;
  }

  lemma PlainAddress(b: Address, a: DeriveArgs, now: Time)
    requires NormAddress(b) == b && AddressOk(b) && PlainArgs(a, now)
    ensures var c := Address(Given(a.sourceNode, b.sourceNode), Given(a.destinationNode, b.destinationNode),
                             Given(a.replyTo, b.replyTo));
            NormAddress(DeriveAddress(b, a)) == c && AddressOk(c)
  {
    hide Norm;
  }

  // A valid packet without a window has a valid child for all such arguments.
  lemma PlainDerives(p: Platform, parent: Packet, id: Uuid, now: Time, a: DeriveArgs)
    requires ValidPacket(p, parent) && PlainArgs(a, now)
    requires parent.header.expiresAt.None? && parent.header.notBefore.None?
    ensures var r := Derive(p, parent, id, now, a);
            && r.Ok? && ValidPacket(p, r.value) && r.value == PlainChild(parent, id, now, a, r.value.security)
            && r.value.security == Unsigned(parent.security).(payloadHash := r.value.security.payloadHash,
                                                              transportHash := r.value.security.transportHash)
  {
    hide Derive, ValidPacket, NormHeader, HeaderOk, NormAddress, AddressOk, IntegrityOk, NormSecurity, SecurityOk,
         DeriveHeader, DeriveAddress, ChildOf, Norm;
    ValidIsAnswerable(p, parent);
    PlainHeader(parent.header, id, now, a);
    PlainAddress(parent.address, a, now);
    DeriveMakesChild(p, parent, id, now, a);
    DerivedIsValid(p, parent, id, now, a, 0);
    DerivedSecurity(p, parent, id, now, a);
  }

  lemma DerivedSecurity(p: Platform, parent: Packet, id: Uuid, now: Time, a: DeriveArgs)
    requires Derivable(parent) && Derive(p, parent, id, now, a).Ok?
    ensures var s := Derive(p, parent, id, now, a).value.security;
            s == Unsigned(parent.security).(payloadHash := s.payloadHash, transportHash := s.transportHash)
  {
    hide IntegrityOk, NormHeader, HeaderOk, NormAddress, NormSecurity, SecurityOk, DeriveUnhashed, DeriveHeader,
         DeriveAddress, Finalize;
    DeriveUnhashedIsChild(parent, id, now, a);
    FinalizeSound(p, Child(parent, id, now, a), false);
  }

  // ---------------------------------------------------------------------
  // A hop handed to derive
  // ---------------------------------------------------------------------

  function WorkHop(signing: Option<SigningMaterial>): HopArgs {
    PlainHop("node", "ping", "execution", "processing", None, None).(signing := signing)
  }

  lemma HopWords()
    ensures Norm("node") == "node" && Norm("ping") == "ping" && Norm("execution") == "execution"
    ensures Norm("processing") == "processing" && Norm("hmac-sha256") == "hmac-sha256" && Norm("response") == "response"
  {
    hide Norm;
    WordIsNormal("node");
    WordIsNormal("ping");
    WordIsNormal("execution");
    WordIsNormal("processing");
    WordIsNormal("hmac-sha256");
    WordIsNormal("response");
  }

  // On every platform: a hop built from the parent, given to derive, leaves a
  // child whose trace every policy refuses.
  lemma EarlyHopRefused(p: Platform, parentId: Uuid, id: Uuid, hopId: Uuid, now: Time)
    requires parentId != id
    ensures Ping(p, parentId, now).Ok?
    ensures var parent := Ping(p, parentId, now).value;
            var hop := MakeHop(p, parent, hopId, now, WorkHop(None));
            && hop.Ok?
            && var a := AnswerArgs("response", "node", "client", []).(hop := Some(hop.value));
            && Derive(p, parent, id, now, a).Ok?
            && forall policy: TracePolicy :: !TraceOk(p, Derive(p, parent, id, now, a).value, policy)
  {
    hide Ping, MakeHop, Derive, ValidPacket, TraceOk, Norm, NormHeader, HeaderOk, NormAddress, AddressOk, WindowAdmits,
         IntegrityOk, NormSecurity, SecurityOk;
    ValidRootExists(p, parentId, now);
    var parent := Ping(p, parentId, now).value;
    ValidIsAnswerable(p, parent);
    HopWords();
    PlainHopBuilds(p, parent, hopId, now, "node", "ping", "execution", "processing", None, None);
    var hop := MakeHop(p, parent, hopId, now, WorkHop(None)).value;
    var a := AnswerArgs("response", "node", "client", []);
    var b := a.(hop := Some(hop));
    assert WindowAdmits(parent.header, now) by { NoWindow(parent.header, now); }
    AnswerHeader(parent.header, "response", id, now, "node", "client", []);
    AnswerAddress(parent.address, "response", "node", []);
    assert AddressOk(Address("node", "client", "node")) by { NodeAddress(); }
    assert DeriveHeader(parent.header, id, now, b) == DeriveHeader(parent.header, id, now, a);
    assert DeriveAddress(parent.address, b) == DeriveAddress(parent.address, a);
    DeriveMakesChild(p, parent, id, now, b);
    forall policy: TracePolicy ensures !TraceOk(p, Derive(p, parent, id, now, b).value, policy) {
      DeriveHopRefused(p, parent, id, now, b, policy, parent, hopId, now, WorkHop(None));
    }
  }

  lemma NoWindow(h: Header, now: Time)
    requires h.expiresAt.None? && h.notBefore.None?
    ensures WindowAdmits(h, now)
  {
  }

  lemma NodeAddress()
    ensures AddressOk(Address("node", "client", "node"))
  {
  }

  // ---------------------------------------------------------------------
  // Signed hops
  // ---------------------------------------------------------------------

  function SignedWork(keyId: string): HopArgs {
    WorkHop(Some(SigningMaterial("key", Some(keyId), Some("hmac-sha256"))))
  }

  lemma SignedHopBuilds(p: Platform, k: Packet, hopId: Uuid, now: Time, keyId: string)
    ensures var r := MakeHop(p, k, hopId, now, SignedWork(keyId));
            && r.Ok? && r.value.hopSignature == Some(p.mac("key", r.value.hopHash))
            && r.value.hopSignatureAlgorithm == Some("hmac-sha256") && r.value.hopSigningKeyId == Some(Strip(keyId))
            && Unkeyed(r.value, k, hopId, now)
  {
    hide Norm, ComputeHopHash, Strip;
    HopWords();
  }

  // Everything but hash and signature.
  predicate Unkeyed(h: Hop, k: Packet, hopId: Uuid, now: Time) {
    && h.hopId == hopId && h.packetId == k.header.packetId && h.node == "node" && h.action == "ping"
    && h.direction == "execution" && h.status == "processing" && h.timestamp == now
       && h.previousHopHash == LastHopHash(k)
    && h.attempt.None? && h.targetNode.None? && h.durationMs.None? && h.queueMs.None? && h.networkMs.None?
    && h.errorCode.None? && h.errorMessage.None?
  }

  const KEYED := TracePolicy(true, SingleKey("key"), true)

  lemma WorkIsTrusted(p: Platform, keyId: string)
    ensures Trusted(p, KEYED, SignedWork(keyId))
  {
    hide Norm, Strip;
    HopWords();
    assert ResolveKey(KEYED.resolver, Some(Strip(keyId))) == Some("key");
    assert KeyPair(p, Norm("hmac-sha256"), "key", "key");
  }

  // On every lawful platform: a hop signed under an empty key id is appended, the
  // trace is accepted by whoever has the key, and the packet does not decode.
  lemma BlankKeyIdHappens(p: Platform, fill: Fill, id: Uuid, hopId: Uuid, now: Time)
    requires Lawful(p)
    ensures Ping(p, id, now).Ok?
    ensures var r := Act(p, Ping(p, id, now).value, Append(hopId, now, SignedWork("")));
            r.Ok? && TraceOk(p, r.value, KEYED) && Decode(p, fill, Encode(p, r.value)).Err?
  {
    hide Ping, MakeHop, Act, ValidPacket, Norm, Decode, Encode, Trusted, Strip;
    ValidRootExists(p, id, now);
    var k := Ping(p, id, now).value;
    SignedHopBuilds(p, k, hopId, now, "");
    WorkIsTrusted(p, "");
    assert Strip("") == "" by { NothingStrips(); }
    BlankKeyIdRefused(p, fill, k, hopId, now, SignedWork(""), KEYED);
  }

  lemma NothingStrips()
    ensures Strip("") == ""
  {
    StripTrims("", IsSpace);
  }

  // ---------------------------------------------------------------------
  // Hop verification at Gate
  // ---------------------------------------------------------------------

  function PlainGate(verifyHops: bool): GateConfig {
    GateConfig("gate", false, None, None, None, false, map[], verifyHops, _ => Ok(()))
  }

  // The root with one hop, signed under the key id "k".
  ghost function SignedPing(id: Uuid, hopId: Uuid): Result<Packet> {
    var root :- Ping(DecimalPlatform(), id, 0);
    Act(DecimalPlatform(), root, Append(hopId, 0, SignedWork("k")))
  }

  lemma KeyIdStrips()
    ensures Strip("k") == "k" && KeyIdNamed(SignedWork("k"))
  {
    StripTrims("k", IsSpace);
  }

  lemma ZeroIsWritten()
    ensures DecimalPlatform().wireTime(0) == "0"
  {
    assert Digits(0) == "0";
  }

  // What the signed root is made of.
  lemma SignedPingSays(id: Uuid, hopId: Uuid)
    ensures SignedPing(id, hopId).Ok?
    ensures var k, root := SignedPing(id, hopId).value, Ping(DecimalPlatform(), id, 0).value;
            && PingSays(root, id, 0) && |k.hopTrace| == 1 && k == root.(hopTrace := k.hopTrace)
            && Unkeyed(k.hopTrace[0], root, hopId, 0)
            && k.hopTrace[0].hopSignature == Some("0") && k.hopTrace[0].hopSignatureAlgorithm == Some("hmac-sha256")
            && k.hopTrace[0].hopSigningKeyId == Some("k")
            && ValidPacket(DecimalPlatform(), k)
            && (forall policy: TracePolicy ::
                 Trusted(DecimalPlatform(), policy, SignedWork("k")) ==> TraceOk(DecimalPlatform(), k, policy))
  {
    hide Ping, MakeHop, ValidPacket, Norm, Trusted, Strip, TraceOk, PingSays, Unkeyed, KeyIdNamed;
    var p := DecimalPlatform();
    ValidRootExists(p, id, 0);
    var root := Ping(p, id, 0).value;
    assert root.hopTrace == [] by { PingHasNoHops(root, id, 0); }
    SignedHopBuilds(p, root, hopId, 0, "k");
    KeyIdStrips();
    assert IntegrityOk(p, root) by { ValidIsIntact(p, root); }
    SignedAppend(p, root, hopId);
    ActedIsValid(p, root, Append(hopId, 0, SignedWork("k")));
  }

  lemma PingHasNoHops(k: Packet, id: Uuid, now: Time)
    requires PingSays(k, id, now)
    ensures k.hopTrace == []
  {
  }

  lemma SignedAppend(p: Platform, root: Packet, hopId: Uuid)
    requires IntegrityOk(p, root) && root.hopTrace == [] && MakeHop(p, root, hopId, 0, SignedWork("k")).Ok?
    ensures var r := Act(p, root, Append(hopId, 0, SignedWork("k")));
            && r == Ok(root.(hopTrace := [MakeHop(p, root, hopId, 0, SignedWork("k")).value]))
            && forall policy: TracePolicy :: Trusted(p, policy, SignedWork("k")) ==> TraceOk(p, r.value, policy)
  {
    hide MakeHop, Trusted, CheckHopAt, ComputePayloadHash, ComputeTransportHash, ComputeHopHash;
    var hop := MakeHop(p, root, hopId, 0, SignedWork("k")).value;
    assert root.hopTrace + [hop] == [hop];
    MadeHopFits(p, root, hopId, 0, SignedWork("k"));
    HashIgnoresTrace(p, root, root.(hopTrace := [hop]));
    forall policy: TracePolicy | Trusted(p, policy, SignedWork("k"))
      ensures TraceOk(p, root.(hopTrace := [hop]), policy)
    {
      AppendKeeps(p, root, hopId, 0, SignedWork("k"), policy);
    }
  }

  lemma SignedPingIsShort(id: Uuid, hopId: Uuid)
    ensures SignedPing(id, hopId).Ok? && ShortPacket(DecimalPlatform(), SignedPing(id, hopId).value)
  {
    hide SignedPing, Ping, ValidPacket, TraceOk, Trusted, IsUuid;
    SignedPingSays(id, hopId);
    ZeroIsWritten();
    assert |id| == 36 by { IdIsShort(id); }
  }

  lemma IdIsShort(id: Uuid)
    ensures |id| == 36
  {
  }

  // A valid packet whose one hop is correctly signed is accepted by Gate with hop
  // verification off, and refused with it on.
  lemma SignedHopDividesGate(id: Uuid, hopId: Uuid)
    ensures SignedPing(id, hopId).Ok?
    ensures var p, k := DecimalPlatform(), SignedPing(id, hopId).value;
            && Lawful(p) && ValidPacket(p, k) && |k.hopTrace| == 1
            && VerifyHop(p, k.hopTrace[0], SingleKey("key")) == Ok(true)
            && TraceOk(p, k, KEYED)
            && Verdict(p, k, GateChecks(PlainGate(false), false), 0).Ok?
            && Verdict(p, k, GateChecks(PlainGate(true), false), 0).Err?
  {
    hide SignedPing, Ping, ValidPacket, Verdict, TraceOk, PacketSizeBytes, Unkeyed, ShortPacket, Norm;
    var p := DecimalPlatform();
    LawfulExists();
    SignedPingSays(id, hopId);
    SignedPingIsShort(id, hopId);
    var k := SignedPing(id, hopId).value;
    ShortPacketFits(p, k);
    WorkIsTrusted(p, "k");
    var c := GateChecks(PlainGate(false), false);
    AcceptedInOneInterval(p, k, c, 0);
    assert TraceOk(p, k, c.trace);
    SignedHopsRefused(p, PlainGate(true), k, false, 0, 0);
    assert ChainCloses(k.delegationChain) == None;
  }
}
