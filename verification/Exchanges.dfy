// Exchanges between Gate and a worker that meet the assumptions of the theorems
// about them: one that succeeds, and one whose answer is lost.
module Exchanges {
  import opened Wrappers
  import opened Strings
  import opened Models
  import opened Platforms
  import opened Packets
  import opened Hashing
  import opened HopTraces
  import opened Runs
  import opened Deliveries
  import opened Codec
  import opened Validation
  import opened Execution
  import opened Dispatch
  import opened Sizes
  import opened Witnesses
  import opened Refusals

  // ---------------------------------------------------------------------
  // A packet that Gate may post
  // ---------------------------------------------------------------------

  const ROUTED := Provenance("client", "ping", true, Some("external_ingress"), None)

  function Routing(packetType: string): DeriveArgs {
    INHERIT.(packetType := Some(packetType), replayMode := Some(packetType == "replay_request"),
             sourceNode := Some("gate"), destinationNode := Some("node"), replyTo := Some("gate"),
             provenance := Some(ROUTED))
  }

  // The root, routed by Gate to a worker.
  ghost function Routed(rootId: Uuid, id: Uuid, packetType: string): Result<Packet> {
    var root :- Ping(DecimalPlatform(), rootId, 0);
    Derive(DecimalPlatform(), root, id, 0, Routing(packetType))
  }

  lemma RoutedWords()
    ensures Norm("request") == "request" && Norm("replay_request") == "replay_request"
    ensures Norm("external_ingress") == "external_ingress"
    ensures ProvenanceGiven(Some(ROUTED))
  {
    hide Norm;
    WordIsNormal("request");
    WordIsNormal("replay_request");
    WordIsNormal("external_ingress");
    RootNames();
    PingIsAction();
  }

  lemma RoutingIsPlain(packetType: string)
    requires packetType in {"request", "replay_request"}
    ensures PlainArgs(Routing(packetType), 0)
  {
    hide Norm, ProvenanceGiven;
    RoutedWords();
    RootNames();
    HopWords();
  }

  // What the routed packet is made of.
  predicate RoutedSays(k: Packet, root: Packet, id: Uuid, packetType: string) {
    && k.header == root.header.(packetId := id, packetType := packetType, createdAt := 0,
                                causationId := Some(root.header.packetId), replayMode := packetType == "replay_request")
    && k.address == Address("gate", "node", "gate") && k.tenant == root.tenant && k.payload == []
    && k.governance == root.governance && k.provenance == ROUTED && k.delegationChain == [] && k.hopTrace == []
    && k.attachments == [] && k.lineage == DeriveLineage(root)
    && k.security == Unsigned(root.security).(payloadHash := k.security.payloadHash,
                                              transportHash := k.security.transportHash)
  }

  // What matters of it to those who pass it on.
  ghost predicate Passable(k: Packet) {
    && ShortPacket(DecimalPlatform(), k) && Unmarked(k) && k.lineage.generation == 1
    && k.header.action == "ping" && k.header.createdAt == 0 && k.header.expiresAt.None? && k.header.notBefore.None?
    && k.header.timeoutMs == 1 && k.address == Address("gate", "node", "gate") && k.provenance == ROUTED
  }

  lemma RoutedIsPassable(k: Packet, root: Packet, rootId: Uuid, id: Uuid, packetType: string)
    requires PingSays(root, rootId, 0) && RoutedSays(k, root, id, packetType)
    requires packetType in {"request", "replay_request"}
    ensures Passable(k) && k.header.replayMode == (packetType == "replay_request")
  {
    hide IsUuid;
    ZeroIsWritten();
    IdIsShort(rootId);
  }

  lemma RoutedIsValid(rootId: Uuid, id: Uuid, packetType: string)
    requires packetType in {"request", "replay_request"}
    ensures Routed(rootId, id, packetType).Ok?
    ensures var k := Routed(rootId, id, packetType).value;
            && ValidPacket(DecimalPlatform(), k) && Passable(k)
            && k.header.replayMode == (packetType == "replay_request")
  {
    hide Ping, Derive, ValidPacket, PlainArgs, Passable, PingSays, Unsigned;
    ValidRootExists(DecimalPlatform(), rootId, 0);
    RoutingIsPlain(packetType);
    var root := Ping(DecimalPlatform(), rootId, 0).value;
    assert root.header.expiresAt.None? && root.header.notBefore.None? && root.header.retryCount == 0
           && root.payload == [] && root.delegationChain == [] && root.attachments == []
        by { PingIsBare(root, rootId); }
    PlainDerives(DecimalPlatform(), root, id, 0, Routing(packetType));
    RoutedIsPassable(Routed(rootId, id, packetType).value, root, rootId, id, packetType);
  }

  lemma PingIsBare(k: Packet, id: Uuid)
    requires PingSays(k, id, 0)
    ensures k.header.expiresAt.None? && k.header.notBefore.None? && k.header.retryCount == 0 && k.payload == []
            && k.delegationChain == [] && k.attachments == []
  {
  }

  // A passable packet gets through whatever requires nothing more.
  lemma PassableAccepted(k: Packet, c: Config)
    requires Passable(k) && Permissive(c) && c.maxPacketBytes >= 262_144 && c.clockSkewSeconds >= 0
    requires c.localNode.Some? ==> Norm(c.localNode.value) == "node"
    ensures Verdict(DecimalPlatform(), k, c, 0).Ok?
  {
    hide ShortPacket, Verdict, PacketSizeBytes, Unmarked, Norm;
    ShortPacketFits(DecimalPlatform(), k);
    UnmarkedAccepted(DecimalPlatform(), k, c, 0);
  }

  // Gate may post it, as a request and as a replay request.
  lemma RoutedMayBePosted(rootId: Uuid, id: Uuid, packetType: string)
    requires packetType in {"request", "replay_request"}
    ensures Routed(rootId, id, packetType).Ok?
    ensures var k := Routed(rootId, id, packetType).value;
            && ValidPacket(DecimalPlatform(), k) && k.header.replayMode == (packetType == "replay_request")
            && MaybeSign(DecimalPlatform(), PlainGate(false), k) == Ok(k)
            && MayPost(DecimalPlatform(), PlainGate(false), k, "node", Ok(()), 0)
  {
    hide Routed, ValidPacket, Verdict, ShortPacket, Unmarked, Norm, AssertGateAuthored;
    RoutedIsValid(rootId, id, packetType);
    var k := Routed(rootId, id, packetType).value;
    HopWords();
    RootNames();
    ValidSections(DecimalPlatform(), k);
    AuthorityMeans(PlainGate(false), k, "node");
    PassableAccepted(k, GateChecks(PlainGate(false), false));
  }

  // A replay request that Gate posts, and no worker's answer to it comes through.
  lemma ReplayIsLost(rootId: Uuid, id: Uuid, fill: Fill, w: Worker, received: Time, now: Time, m: Moments,
                     onError: Moments)
    ensures Routed(rootId, id, "replay_request").Ok?
    ensures var p, k := DecimalPlatform(), Routed(rootId, id, "replay_request").value;
            var x := Send(p, fill, PlainGate(false), k, "node", Ok(()),
                          body => Serve(p, fill, w, body, now, m, onError), 0, received);
            x.posted == [Encode(p, k)] && x.result.Err?
  {
    hide Routed, ValidPacket, MayPost, MaybeSign, Send, Serve, Encode;
    var p := DecimalPlatform();
    LawfulExists();
    RoutedMayBePosted(rootId, id, "replay_request");
    var k := Routed(rootId, id, "replay_request").value;
    PostsExactly(p, fill, PlainGate(false), k, "node", Ok(()), body => Serve(p, fill, w, body, now, m, onError), 0,
                 received);
    ReplayNeverAnswered(p, fill, PlainGate(false), w, k, "node", Ok(()), 0, received, now, m, onError);
  }

  // ---------------------------------------------------------------------
  // An exchange that succeeds
  // ---------------------------------------------------------------------

  // A worker that checks its ingress and returns an empty dict.
  const OBLIGING := Worker("node", "gate", true, true, NO_KEYS, Lenient(262_144), false, false, Replying([]),
                           _ => ("", ""))

  lemma ResponseHop(p: Platform, k: Packet, hopId: Uuid, now: Time)
    requires k.header.action == "ping" && k.hopTrace == []
    ensures var r := MakeHop(p, k, hopId, now, PlainHop("node", "ping", "response", "completed", None, None));
            r.Ok? && r.value == Hop(hopId, k.header.packetId, "node", "ping", "response", "completed", now, None, None,
                                    None, None, None, None, None, None, r.value.hopHash, None, None, None)
  {
    hide Norm, ComputeHopHash;
    HopWords();
    WordsAreNormal();
  }

  // What the worker's answer is made of.
  predicate AnswerSays(r: Packet, k: Packet, m: Moments) {
    && r.header == k.header.(packetId := m.packet, packetType := "response", createdAt := 0,
                             causationId := Some(k.header.packetId), retryCount := 0)
    && r.address == Address("node", "gate", "node") && r.payload == [] && r.lineage == DeriveLineage(k)
    && r.tenant == k.tenant && r.governance == k.governance && r.provenance == k.provenance
    && r.delegationChain == k.delegationChain && r.attachments == k.attachments
    && r.security == Unsigned(k.security).(payloadHash := r.security.payloadHash,
                                           transportHash := r.security.transportHash)
    && |r.hopTrace| == 1 && r.hopTrace[0].hopId == m.responseHop
    && r.hopTrace[0] == Hop(m.responseHop, m.packet, "node", "ping", "response", "completed", 0, None, None, None, None,
                            None, None, None, None, r.hopTrace[0].hopHash, None, None, None)
  }

  lemma AnswerIsReceivable(r: Packet, k: Packet, m: Moments)
    requires Passable(k) && !k.header.replayMode && AnswerSays(r, k, m)
    ensures Receivable(DecimalPlatform(), PlainGate(false), r, k, 0)
  {
    hide PacketSizeBytes;
    assert ShortPacket(DecimalPlatform(), r) by { AnswerIsShort(r, k, m); }
    ShortPacketFits(DecimalPlatform(), r);
    assert ChainCloses(r.delegationChain) == None;
  }

  lemma AnswerIsShort(r: Packet, k: Packet, m: Moments)
    requires Passable(k) && AnswerSays(r, k, m)
    ensures ShortPacket(DecimalPlatform(), r)
  {
    hide IsUuid;
    ZeroIsWritten();
  }

  // The answer a base packet gets, hop and all.
  lemma AnswerIsMade(p: Platform, base: Packet, m: Moments)
    requires ValidPacket(p, base) && base.header.action == "ping" && base.address.replyTo == "gate"
    requires base.header.expiresAt.None? && base.header.notBefore.None? && m.made == m.finished == 0
    ensures var r := Answer(p, base, "response", "node", [], "completed", None, None, NO_KEYS, m);
            r.Ok? && AnswerSays(r.value, base, m)
  {
    hide Derive, ValidPacket, MakeHop, WithHop, ChildOf, Norm, Unsigned, ComputeHopHash, Answerable;
    var a := AnswerArgs("response", "node", "gate", []);
    assert PlainArgs(a, 0) by { AnswerIsPlain(); }
    PlainDerives(p, base, m.packet, 0, a);
    var c := Derive(p, base, m.packet, 0, a).value;
    ResponseHop(p, c, m.responseHop, 0);
    var hop := MakeHop(p, c, m.responseHop, 0, PlainHop("node", "ping", "response", "completed", None, None)).value;
    assert Sound(p, c) by { ValidIsSound(p, c); }
    AppendedAnswers(p, c, hop, m.responseHop, 0, PlainHop("node", "ping", "response", "completed", None, None));
  }

  lemma AnswerIsPlain()
    ensures PlainArgs(AnswerArgs("response", "node", "gate", []), 0)
  {
    hide Norm;
    HopWords();
    RootNames();
  }

  // The worker answers the routed request.
  lemma ObligingAnswers(rootId: Uuid, id: Uuid, m: Moments, onError: Moments)
    requires m.made == m.finished == 0
    ensures Routed(rootId, id, "request").Ok?
    ensures var p, k := DecimalPlatform(), Routed(rootId, id, "request").value;
            var r := AnswerTo(p, OBLIGING, k, 0, m, onError);
            r.Ok? && AnswerSays(r.value, k, m)
  {
    hide Routed, ValidPacket, Verdict, ShortPacket, Unmarked, Norm, Answer, Answerable, ProcessingPacket, PayloadStatus,
         ValidateExecuteIngress, AnswerSays;
    var p := DecimalPlatform();
    RoutedIsValid(rootId, id, "request");
    var k := Routed(rootId, id, "request").value;
    assert ValidateExecuteIngress(k, "node", "gate", true).Ok? by { RoutedIngress(k); }
    HopWords();
    StatusWords();
    ValidIsAnswerable(p, k);
    PassableAccepted(k, OBLIGING.config.(localNode := Some("node")));
    ProcessingExists(p, k, "node", m);
    ProcessingIsValid(p, k, "node", m);
    var base := ProcessingPacket(p, k, "node", m).value;
    AnswerIsMade(p, base, m);
    AnswerSaysOfRequest(Answer(p, base, "response", "node", [], "completed", None, None, NO_KEYS, m).value, base, k, m);
  }

  lemma RoutedIngress(k: Packet)
    requires Passable(k)
    ensures ValidateExecuteIngress(k, "node", "gate", true).Ok?
  {
    hide ShortPacket, Unmarked, Norm;
    HopWords();
    RootNames();
    RoutedWords();
    var kinds := ["external_ingress"];
    assert Norm(kinds[0]) == Norm(ROUTED.routeKind.value);
  }

  lemma AnswerSaysOfRequest(r: Packet, base: Packet, k: Packet, m: Moments)
    requires AnswerSays(r, base, m) && base == k.(hopTrace := base.hopTrace)
    ensures AnswerSays(r, k, m)
  {
  }

  // The whole exchange succeeds: Gate posts the request and returns the answer
  // that the worker built.
  lemma ExchangeHappens(rootId: Uuid, id: Uuid, fill: Fill, m: Moments, onError: Moments)
    requires m.made == m.finished == 0
    ensures Routed(rootId, id, "request").Ok?
    ensures var p, k := DecimalPlatform(), Routed(rootId, id, "request").value;
            var x := Send(p, fill, PlainGate(false), k, "node", Ok(()),
                          body => Serve(p, fill, OBLIGING, body, 0, m, onError), 0, 0);
            && x.posted == [Encode(p, k)] && x.result.Ok? && x.result == AnswerTo(p, OBLIGING, k, 0, m, onError)
            && AnswerSays(x.result.value, k, m)
  {
    hide Routed, ValidPacket, MayPost, MaybeSign, Send, Serve, Encode, AnswerTo, Passable, Norm, Receivable, AnswerSays;
    var p := DecimalPlatform();
    LawfulExists();
    HopWords();
    RoutedIsValid(rootId, id, "request");
    RoutedMayBePosted(rootId, id, "request");
    var k := Routed(rootId, id, "request").value;
    ObligingAnswers(rootId, id, m, onError);
    var r := AnswerTo(p, OBLIGING, k, 0, m, onError).value;
    AnswerIsReceivable(r, k, m);
    PostsExactly(p, fill, PlainGate(false), k, "node", Ok(()), body => Serve(p, fill, OBLIGING, body, 0, m, onError), 0,
                 0);
    ExchangeSucceedsExactly(p, fill, PlainGate(false), OBLIGING, k, "node", 0, 0, 0, m, onError);
  }
}
