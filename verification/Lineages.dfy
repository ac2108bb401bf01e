// The derivation tree: every run of creating, deriving, hopping and signing,
// from any packet that exists, in any order.
module Lineages {
  import opened Wrappers
  import opened Strings
  import opened Models
  import opened Platforms
  import opened Packets
  import opened Signatures
  import opened HopTraces
  import opened Runs

  datatype Event =
    | Created(id: Uuid, now: Time, create: CreateArgs)
    | Derived(parent: nat, id: Uuid, now: Time, derive: DeriveArgs)
    | Acted(on: nat, act: Action)

  // Packets are immutable: a world is every packet value made so far, and the clock.
  datatype World = World(packets: seq<Packet>, clock: Time)

  predicate Fresh(w: World, id: Uuid) {
    forall i :: 0 <= i < |w.packets| ==> w.packets[i].header.packetId != id
  }

  ghost predicate Next(p: Platform, w: World, e: Event, w': World) {
    && w'.packets != [] && w'.packets[..|w'.packets| - 1] == w.packets
    && var made := w'.packets[|w'.packets| - 1];
    match e
    case Created(id, now, args) =>
      Fresh(w, id) && now >= w.clock && w'.clock == now && Create(p, id, now, args) == Ok(made)
    case Derived(parent, id, now, args) =>
      && parent < |w.packets| && Fresh(w, id) && now >= w.clock && w'.clock == now && args.hop.None?
      && Derive(p, w.packets[parent], id, now, args) == Ok(made)
    case Acted(on, act) =>
      && on < |w.packets| && Act(p, w.packets[on], act) == Ok(made)
      && (if act.Append? then act.now >= w.clock && w'.clock == act.now else w'.clock == w.clock)
  }

  // A run from nothing; policies trust the keys hops are signed with.
  ghost predicate IsHistory(p: Platform, worlds: seq<World>, events: seq<Event>, policy: TracePolicy) {
    && |worlds| == |events| + 1 && worlds[0].packets == []
    && (forall i :: 0 <= i < |events| ==> Next(p, worlds[i], events[i], worlds[i + 1]))
    && (forall i :: 0 <= i < |events| && events[i].Acted? && events[i].act.Append? ==>
         Trusted(p, policy, events[i].act.args))
  }

  // ---------------------------------------------------------------------
  // The invariant
  // ---------------------------------------------------------------------

  // Every version of a packet is intact, has an accepted trace, and can be derived from.
  ghost predicate Healthy(p: Platform, k: Packet, clock: Time, policy: TracePolicy) {
    Sound(p, k) && NormHeader(k.header) == k.header && k.lineage.generation >= 0
    && TraceOk(p, k, policy) && NotAfter(k, clock)
  }

  // Versions of one packet differ in trace and security only.
  ghost predicate SameIdentity(a: Packet, b: Packet) {
    a == b.(hopTrace := a.hopTrace, security := a.security)
  }

  predicate IsRoot(k: Packet) {
    && k.lineage.parentId.None? && k.lineage.generation == 0 && k.lineage.rootId == k.header.packetId
    && k.header.causationId.None?
  }

  ghost predicate Linked(w: World, k: Packet) {
    IsRoot(k) || exists j :: 0 <= j < |w.packets| && ChildOf(k, w.packets[j], k.header.packetId)
  }

  ghost predicate Inv(p: Platform, w: World, policy: TracePolicy) {
    && (forall i :: 0 <= i < |w.packets| ==> Healthy(p, w.packets[i], w.clock, policy) && Linked(w, w.packets[i]))
    && (forall i, j :: 0 <= i < |w.packets| && 0 <= j < |w.packets|
                       && w.packets[i].header.packetId == w.packets[j].header.packetId
                       ==> SameIdentity(w.packets[i], w.packets[j]))
  }

  // ---------------------------------------------------------------------
  // Each event keeps it
  // ---------------------------------------------------------------------

  lemma UnhashedRoot(id: Uuid, now: Time, a: CreateArgs)
    requires CreateUnhashed(id, now, a).Ok?
    ensures var k := CreateUnhashed(id, now, a).value;
            && NewHeader(RootHeader(id, now, a)) == Ok(k.header)
            && UnsignedSecurity(a.classification, "plaintext", []) == Ok(k.security)
            && k.tenant == a.tenant && k.hopTrace == [] && k.lineage == Lineage(None, id, 0)
  {
    hide NewHeader, NewGovernance, NewAddress, NewSecurity, UnsignedSecurity, DefaultProvenance, Norm;
  }

  // What a caller must get right for a root packet to be made.
  predicate CreateAdmits(id: Uuid, now: Time, a: CreateArgs) {
    && ActionName(Norm(a.action)) && a.timeoutMs >= 1 && 0 <= a.priority <= 3
    && (a.expiresAt.Some? ==> a.expiresAt.value > now)
    && (a.idempotencyKey.Some? ==> Strip(a.idempotencyKey.value) != "")
    && Strip(Or(a.traceId, id)) != "" && Strip(Or(a.correlationId, id)) != ""
    && Norm(a.sourceNode) != "" && Norm(a.destinationNode) != "" && Norm(a.replyTo) != ""
    && Norm(a.classification) in CLASSIFICATIONS
    && a.retentionDays >= 0 && Distinct(Cleaned(Shout, a.complianceTags))
  }

  // What a root says about itself.
  predicate RootSays(k: Packet, id: Uuid, now: Time, a: CreateArgs) {
    && IsRoot(k) && k.header.packetId == id && k.header.packetType == "request" && k.header.action == Norm(a.action)
    && k.header.createdAt == now && k.header.expiresAt == a.expiresAt && k.header.timeoutMs == a.timeoutMs
    && k.header.notBefore.None? && !k.header.replayMode && k.header.schemaVersion == "1.0"
    && k.header.priority == a.priority && k.header.retryCount == 0
    && k.header.idempotencyKey == StripOpt(a.idempotencyKey) && k.header.traceId == Some(Strip(Or(a.traceId, id)))
    && k.header.correlationId == Some(Strip(Or(a.correlationId, id)))
    && k.address == Address(Norm(a.sourceNode), Norm(a.destinationNode), Norm(a.replyTo))
    && k.tenant == a.tenant && k.payload == a.payload
    && k.governance == Governance(Norm(a.action), Cleaned(Shout, a.complianceTags), a.retentionDays, false, false, None)
    && k.delegationChain == [] && k.hopTrace == [] && k.attachments == []
    && k.security.signature.None? && k.security.signatureAlgorithm.None? && k.security.signingKeyId.None?
    && k.security.classification == Norm(a.classification) && k.security.encryptionStatus == "plaintext"
    && k.security.piiFields == []
    && (a.provenance.None? ==>
      k.provenance == Provenance(if Norm(a.sourceNode) in {"client", "gate"} then Norm(a.sourceNode) else "node",
                                 Norm(a.action), false, None,
                                 if Norm(a.sourceNode) == "client" then None else Some(Norm(a.sourceNode))))
    && (a.provenance.Some? ==> k.provenance == a.provenance.value)
  }

  lemma DefaultProvenanceMeans(source: string, action: string)
    requires Norm(source) == source && source != "" && Norm(action) == action && action != ""
    ensures var r := DefaultProvenance(source, action);
            r == Ok(Provenance(if source in {"client", "gate"} then source else "node", action, false, None,
                               if source == "client" then None else Some(source)))
  {
    hide Norm;
    WordIsNormal("client");
    WordIsNormal("gate");
    WordIsNormal("node");
  }

  lemma RootWords(a: CreateArgs)
    ensures Norm("request") == "request" && Norm("plaintext") == "plaintext" && Strip("1.0") == "1.0"
    ensures Norm(Norm(a.action)) == Norm(a.action) && Norm(Norm(a.sourceNode)) == Norm(a.sourceNode)
    ensures Norm(Norm(a.destinationNode)) == Norm(a.destinationNode) && Norm(Norm(a.replyTo)) == Norm(a.replyTo)
  {
    hide Norm;
    WordIsNormal("request");
    WordIsNormal("plaintext");
    StripTrims("1.0", IsSpace);
    NormIdempotent(a.action);
    NormIdempotent(a.sourceNode);
    NormIdempotent(a.destinationNode);
    NormIdempotent(a.replyTo);
  }

  lemma RootUnhashed(id: Uuid, now: Time, a: CreateArgs)
    ensures CreateUnhashed(id, now, a).Ok? <==> CreateAdmits(id, now, a)
    ensures CreateUnhashed(id, now, a).Ok? ==> RootSays(CreateUnhashed(id, now, a).value, id, now, a)
  {
    hide Norm, Strip, Or, ActionName, Distinct, DefaultProvenance;
    RootWords(a);
    if Norm(a.sourceNode) != "" && Norm(a.action) != "" {
      DefaultProvenanceMeans(Norm(a.sourceNode), Norm(a.action));
    }
    assert ActionName(Norm(a.action)) ==> Norm(a.action) != "" by { NamedAction(Norm(a.action)); }
    assert Cleaned(Strip, []) == [] && Distinct([]) by { NoTags(); }
  }

  lemma NamedAction(s: string)
    ensures ActionName(s) ==> s != ""
  {
  }

  lemma NoTags()
    ensures Cleaned(Strip, []) == [] && Distinct([])
  {
  }

  // A root packet is made exactly from admissible arguments, and says what it was told.
  lemma CreateExactly(p: Platform, id: Uuid, now: Time, a: CreateArgs)
    ensures Create(p, id, now, a).Ok? <==> CreateAdmits(id, now, a)
    ensures Create(p, id, now, a).Ok? ==>
      IntegrityOk(p, Create(p, id, now, a).value) && RootSays(Create(p, id, now, a).value, id, now, a)
  {
    hide CreateUnhashed, CreateAdmits, Finalize, IntegrityOk, Norm, Strip, Or;
    RootUnhashed(id, now, a);
    if CreateUnhashed(id, now, a).Ok? {
      FinalizeSound(p, CreateUnhashed(id, now, a).value, false);
    }
  }

  lemma CreatedIsHealthy(p: Platform, id: Uuid, now: Time, a: CreateArgs, policy: TracePolicy)
    requires Create(p, id, now, a).Ok?
    ensures var k := Create(p, id, now, a).value;
            Healthy(p, k, now, policy) && IsRoot(k) && k.header.packetId == id && k.tenant == a.tenant
  {
    hide Finalize, IntegrityOk, CreateUnhashed, HeaderOk, SecurityOk, TraceOk, Cleaned;
    UnhashedRoot(id, now, a);
    HeaderFixed(RootHeader(id, now, a));
    SecurityFixed(Security(ZEROS, ZEROS, None, None, None, a.classification, "plaintext", []));
    FinalizeHealthy(p, CreateUnhashed(id, now, a).value, now, policy);
  }

  // Finalising a packet with normal sections and no hops makes a healthy packet.
  lemma FinalizeHealthy(p: Platform, k: Packet, now: Time, policy: TracePolicy)
    requires NormHeader(k.header) == k.header && NormSecurity(k.security) == k.security && SecurityOk(k.security)
    requires k.hopTrace == [] && k.lineage.generation >= 0
    ensures Finalize(p, k, false).Ok? && Healthy(p, Finalize(p, k, false).value, now, policy)
    ensures Finalize(p, k, false).value == k.(security := Finalize(p, k, false).value.security)
  {
    hide Finalize, IntegrityOk, CheckHopAt;
    FinalizeSound(p, k, false);
    var r := Finalize(p, k, false).value;
    RehashedNormal(k.security, r.security);
  }

  lemma RehashedNormal(s: Security, t: Security)
    requires NormSecurity(s) == s && SecurityOk(s)
    requires t.classification == s.classification && t.encryptionStatus == s.encryptionStatus
             && t.piiFields == s.piiFields
    requires t.signature.None? && t.signatureAlgorithm.None? && t.signingKeyId.None?
    ensures NormSecurity(t) == t && SecurityOk(t)
  {
    assert Norm(s.classification) == s.classification && Norm(s.encryptionStatus) == s.encryptionStatus;
    assert Cleaned(Strip, s.piiFields) == s.piiFields;
  }

  lemma DerivedIsHealthy(p: Platform, parent: Packet, id: Uuid, now: Time, a: DeriveArgs, clock: Time,
                         policy: TracePolicy)
    requires Healthy(p, parent, clock, policy) && a.hop.None? && Derive(p, parent, id, now, a).Ok?
    ensures var k := Derive(p, parent, id, now, a).value;
            Healthy(p, k, now, policy) && ChildOf(k, parent, id)
  {
    hide Finalize, IntegrityOk, CheckHopAt, HeaderOk, SecurityOk, DeriveUnhashed, NormSecurity;
    DeriveMakesChild(p, parent, id, now, a);
    DeriveUnhashedIsChild(parent, id, now, a);
    var child := Child(parent, id, now, a);
    NormHeaderIdempotent(DeriveHeader(parent.header, id, now, a));
    UnsignedNormal(parent.security);
    FinalizeHealthy(p, child, now, policy);
  }

  lemma HealthyLater(p: Platform, k: Packet, clock: Time, later: Time, policy: TracePolicy)
    requires Healthy(p, k, clock, policy) && clock <= later
    ensures Healthy(p, k, later, policy)
  {
    hide Sound, TraceOk, NormHeader;
  }

  lemma ActedIsHealthy(p: Platform, k: Packet, act: Action, next: Packet, clock: Time, policy: TracePolicy)
    requires Healthy(p, k, clock, policy) && Act(p, k, act) == Ok(next)
    requires act.Append? ==> act.now >= clock && Trusted(p, policy, act.args)
    ensures Healthy(p, next, if act.Append? then act.now else clock, policy) && SameIdentity(next, k)
  {
    hide Act, Sound, TraceOk, NormHeader, Trusted, Bare, NotAfter;
    ActKeeps(p, k, act, next, clock, policy);
  }

  // A healthy, linked packet that agrees with every version of itself may be added.
  lemma ExtendKeeps(p: Platform, w: World, made: Packet, w': World, policy: TracePolicy)
    requires Inv(p, w, policy) && w'.packets == w.packets + [made] && w.clock <= w'.clock
    requires Healthy(p, made, w'.clock, policy) && Linked(w, made)
    requires forall i :: 0 <= i < |w.packets| && w.packets[i].header.packetId == made.header.packetId
                         ==> SameIdentity(w.packets[i], made)
    ensures Inv(p, w', policy)
  {
    hide Healthy, ChildOf;
    forall i | 0 <= i < |w'.packets| ensures Healthy(p, w'.packets[i], w'.clock, policy) && Linked(w', w'.packets[i]) {
      var k := w'.packets[i];
      if i < |w.packets| {
        HealthyLater(p, k, w.clock, w'.clock, policy);
      }
      assert Linked(w, k);
      if !IsRoot(k) {
        var j :| 0 <= j < |w.packets| && ChildOf(k, w.packets[j], k.header.packetId);
        assert w'.packets[j] == w.packets[j];
      }
    }
  }

  lemma SameIdentityLinked(w: World, a: Packet, b: Packet)
    requires SameIdentity(a, b) && Linked(w, b)
    ensures Linked(w, a)
  {
    if !IsRoot(b) {
      var j :| 0 <= j < |w.packets| && ChildOf(b, w.packets[j], b.header.packetId);
      assert ChildOf(a, w.packets[j], a.header.packetId);
    }
  }

  lemma NextKeeps(p: Platform, w: World, e: Event, w': World, policy: TracePolicy)
    requires Inv(p, w, policy) && Next(p, w, e, w')
    requires e.Acted? && e.act.Append? ==> Trusted(p, policy, e.act.args)
    ensures Inv(p, w', policy)
  {
    hide Healthy, ChildOf, Create, Derive, Act, Trusted;
    var made := w'.packets[|w'.packets| - 1];
    assert w'.packets == w.packets + [made];
    match e {
      case Created(id, now, args) =>
        CreatedIsHealthy(p, id, now, args, policy);
      case Derived(parent, id, now, args) =>
        DerivedIsHealthy(p, w.packets[parent], id, now, args, w.clock, policy);
        ChildHasId(made, w.packets[parent], id);
      case Acted(on, act) =>
        ActedIsHealthy(p, w.packets[on], act, made, w.clock, policy);
        SameIdentityLinked(w, made, w.packets[on]);
    }
    ExtendKeeps(p, w, made, w', policy);
  }

  lemma ChildHasId(c: Packet, parent: Packet, id: Uuid)
    requires ChildOf(c, parent, id)
    ensures c.header.packetId == id
  {
  }

  // Every packet of every history is intact, carries a trace that validation
  // accepts, and is a root or a child of a packet of the history.
  lemma {:induction false} HistoryKeeps(p: Platform, worlds: seq<World>, events: seq<Event>, policy: TracePolicy,
                                        n: nat)
    requires IsHistory(p, worlds, events, policy) && n <= |events|
    ensures Inv(p, worlds[n], policy)
    decreases n
  {
    hide Healthy, ChildOf, Next, Trusted;
    if n > 0 {
      HistoryKeeps(p, worlds, events, policy, n - 1);
      NextKeeps(p, worlds[n - 1], events[n - 1], worlds[n], policy);
    }
  }

  // ---------------------------------------------------------------------
  // Walking parent_id
  // ---------------------------------------------------------------------

  // The first packet value with an id: lookup in whatever store holds the packets.
  function Find(ks: seq<Packet>, id: Uuid): Option<Packet> {
    if ks == [] then None
    else if ks[0].header.packetId == id then Some(ks[0])
    else Find(ks[1..], id)
  }

  lemma {:induction false} FindFinds(ks: seq<Packet>, k: Packet)
    requires k in ks
    ensures var f := Find(ks, k.header.packetId);
            f.Some? && f.value in ks && f.value.header.packetId == k.header.packetId
  {
    if ks[0].header.packetId != k.header.packetId {
      assert k in ks[1..];
      FindFinds(ks[1..], k);
    }
  }

  // The packet reached from `k` by following parent_id `n` times.
  function Ancestor(ks: seq<Packet>, k: Packet, n: nat): Option<Packet>
    decreases n
  {
    if n == 0 then Some(k)
    else if k.lineage.parentId.None? then None
    else
      match Find(ks, k.lineage.parentId.value)
      case None => None
      case Some(parent) => Ancestor(ks, parent, n - 1)
  }

  // What an ancestor shares with its descendant `n` generations down.
  predicate Inherits(k: Packet, a: Packet, n: nat) {
    && a.lineage.generation == k.lineage.generation - n
    && a.lineage.rootId == k.lineage.rootId
    && a.tenant == k.tenant
    && a.header.correlationId == k.header.correlationId
    && a.header.traceId == k.header.traceId
    && a.header.idempotencyKey == k.header.idempotencyKey
    && a.header.schemaVersion == k.header.schemaVersion
    && a.attachments == k.attachments
    && a.delegationChain <= k.delegationChain
  }

  // A packet that is not a root has its parent among the packets, and both
  // lineage validators accept the pair.
  lemma ParentExists(p: Platform, w: World, k: Packet, policy: TracePolicy)
    requires Inv(p, w, policy) && k in w.packets && k.lineage.generation > 0
    ensures k.lineage.parentId.Some? && k.header.causationId == k.lineage.parentId
    ensures var f := Find(w.packets, k.lineage.parentId.value);
            && f.Some? && f.value in w.packets
            && ChildOf(k, f.value, k.header.packetId) && ValidateParentChildLineage(f.value, k).Ok?
  {
    hide Sound, TraceOk, NotAfter, NormHeader;
    var i :| 0 <= i < |w.packets| && w.packets[i] == k;
    assert Linked(w, w.packets[i]);
    var j :| 0 <= j < |w.packets| && ChildOf(k, w.packets[j], k.header.packetId);
    var parent := w.packets[j];
    FindFinds(w.packets, parent);
    var found := Find(w.packets, parent.header.packetId).value;
    var m :| 0 <= m < |w.packets| && w.packets[m] == found;
    assert SameIdentity(w.packets[m], w.packets[j]);
  }

  lemma RootAtZero(p: Platform, w: World, k: Packet, policy: TracePolicy)
    requires Inv(p, w, policy) && k in w.packets
    ensures k.lineage.generation >= 0
    ensures k.lineage.generation == 0 <==> IsRoot(k)
  {
    hide Sound, TraceOk, NotAfter, NormHeader;
    var i :| 0 <= i < |w.packets| && w.packets[i] == k;
    assert Healthy(p, w.packets[i], w.clock, policy) && Linked(w, w.packets[i]);
    if !IsRoot(k) {
      var j :| 0 <= j < |w.packets| && ChildOf(k, w.packets[j], k.header.packetId);
      assert Healthy(p, w.packets[j], w.clock, policy);
    }
  }

  // Walking parent_id from any packet meets an ancestor at every step up to its
  // generation, and reaches the root after exactly that many.
  lemma {:induction false} WalkReachesRoot(p: Platform, w: World, k: Packet, policy: TracePolicy, n: nat)
    requires Inv(p, w, policy) && k in w.packets
    ensures 0 <= k.lineage.generation
    ensures n <= k.lineage.generation ==>
      var a := Ancestor(w.packets, k, n);
      && a.Some? && a.value in w.packets && Inherits(k, a.value, n)
      && (IsRoot(a.value) <==> n == k.lineage.generation)
      && (n == k.lineage.generation ==> a.value.header.packetId == k.lineage.rootId)
    ensures n > k.lineage.generation ==> Ancestor(w.packets, k, n).None?
    decreases n
  {
    hide Healthy, Inv, ChildOf;
    RootAtZero(p, w, k, policy);
    if n > 0 && k.lineage.generation > 0 {
      ParentExists(p, w, k, policy);
      var parent := Find(w.packets, k.lineage.parentId.value).value;
      ChildInherits(k, parent);
      WalkReachesRoot(p, w, parent, policy, n - 1);
    }
  }

  lemma ChildInherits(k: Packet, parent: Packet)
    requires ChildOf(k, parent, k.header.packetId)
    ensures Inherits(k, parent, 1)
  {
  }
}
