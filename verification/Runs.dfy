// Runs of hop appends and signatures on one packet.
module Runs {
  import opened Wrappers
  import opened Strings
  import opened Models
  import opened Platforms
  import opened Hashing
  import opened Packets
  import opened Signatures
  import opened HopTraces

  datatype Action =
    | Append(hopId: Uuid, now: Time, args: HopArgs)
    | Sign(key: string, keyId: string, algorithm: string)

  // packet.with_hop(make_..._hop(packet=packet, ...)), or sign_transport_packet(packet, ...)
  function Act(p: Platform, k: Packet, act: Action): Result<Packet> {
    match act
    case Append(id, now, args) =>
      var hop :- MakeHop(p, k, id, now, args);
      WithHop(p, k, hop)
    case Sign(key, keyId, algorithm) => SignPacket(p, k, key, keyId, algorithm)
  }

  // `states` is a run of `acts`: each action succeeds and leads from one state to the next.
  ghost predicate IsRun(p: Platform, states: seq<Packet>, acts: seq<Action>) {
    && |states| == |acts| + 1
    && forall i :: 0 <= i < |acts| ==> Act(p, states[i], acts[i]) == Ok(states[i + 1])
  }

  // The time of the last append among the first `n` actions, or `start`.
  function ClockAfter(acts: seq<Action>, n: nat, start: Time): Time
    requires n <= |acts|
  {
    if n == 0 then start
    else if acts[n - 1].Append? then acts[n - 1].now
    else ClockAfter(acts, n - 1, start)
  }

  // The clock never runs backwards.
  predicate Clocked(acts: seq<Action>, start: Time) {
    forall i :: 0 <= i < |acts| && acts[i].Append? ==> acts[i].now >= ClockAfter(acts, i, start)
  }

  function Appends(acts: seq<Action>, n: nat): nat
    requires n <= |acts|
  {
    if n == 0 then 0 else Appends(acts, n - 1) + (if acts[n - 1].Append? then 1 else 0)
  }

  // The policy's resolver knows the key that matches the one a hop is signed with.
  ghost predicate Trusted(p: Platform, policy: TracePolicy, a: HopArgs) {
    policy.verifySignatures && a.signing.Some? && a.signing.value.keyId.Some? && a.signing.value.algorithm.Some? ==>
      var m := a.signing.value;
      exists k :: && ResolveKey(policy.resolver, Some(Strip(m.keyId.value))) == Some(k)
                  && KeyPair(p, Norm(m.algorithm.value), m.key, k)
  }

  ghost predicate AllTrusted(p: Platform, policy: TracePolicy, acts: seq<Action>) {
    forall i :: 0 <= i < |acts| && acts[i].Append? ==> Trusted(p, policy, acts[i].args)
  }

  // What signing and appending rely on.
  predicate Sound(p: Platform, k: Packet) {
    IntegrityOk(p, k) && NormSecurity(k.security) == k.security && SecurityOk(k.security)
  }

  predicate NotAfter(k: Packet, now: Time) {
    k.hopTrace != [] ==> k.hopTrace[|k.hopTrace| - 1].timestamp <= now
  }

  lemma UnsignedHopBytes(p: Platform, th: Digest, a: Hop, b: Hop)
    requires Hashed(a) == Hashed(b)
    ensures ComputeHopHash(p, th, a) == ComputeHopHash(p, th, b)
  {
    assert HopHashValues(p, th, Hashed(a)) == HopHashValues(p, th, a);
    assert HopHashValues(p, th, Hashed(b)) == HopHashValues(p, th, b);
  }

  // A built hop carries the right packet id, link, time and hash.
  lemma MadeHopFits(p: Platform, k: Packet, id: Uuid, now: Time, a: HopArgs)
    requires MakeHop(p, k, id, now, a).Ok?
    ensures var h := MakeHop(p, k, id, now, a).value;
            && h.packetId == k.header.packetId && h.previousHopHash == LastHopHash(k) && h.timestamp == now
            && h.hopId == id
            && h.hopHash == ComputeHopHash(p, k.security.transportHash, h)
  {
    hide ComputeHopHash, HopOk, Norm, NormOpt;
    var h := MakeHop(p, k, id, now, a).value;
    var provisional := NewHop(ProvisionalHop(k, id, now, a)).value;
    assert Hashed(h) == Hashed(provisional);
    UnsignedHopBytes(p, k.security.transportHash, h, provisional);
  }

  lemma MadeHopVerifies(p: Platform, k: Packet, id: Uuid, now: Time, a: HopArgs, policy: TracePolicy)
    requires MakeHop(p, k, id, now, a).Ok? && Trusted(p, policy, a)
    ensures var h := MakeHop(p, k, id, now, a).value;
            policy.verifySignatures && h.hopSignature.Some? ==> VerifyHop(p, h, policy.resolver) == Ok(true)
  {
    hide ComputeHopHash, HopOk, Norm;
    if policy.verifySignatures && a.signing.Some? {
      var m := a.signing.value;
      var key :| && ResolveKey(policy.resolver, Some(Strip(m.keyId.value))) == Some(key)
                 && KeyPair(p, Norm(m.algorithm.value), m.key, key);
      var hash := MakeHop(p, k, id, now, a).value.hopHash;
      SignedTextVerifies(p, Norm(m.algorithm.value), m.key, key, hash);
    }
  }

  // Appending a hop built from the packet itself always succeeds, touches
  // nothing but the trace, and leaves an accepted trace accepted.
  lemma AppendKeeps(p: Platform, k: Packet, id: Uuid, now: Time, a: HopArgs, policy: TracePolicy)
    requires IntegrityOk(p, k) && TraceOk(p, k, policy) && NotAfter(k, now)
    requires MakeHop(p, k, id, now, a).Ok? && Trusted(p, policy, a)
    ensures var h := MakeHop(p, k, id, now, a).value;
            var r := WithHop(p, k, h);
            && r == Ok(k.(hopTrace := k.hopTrace + [h]))
            && IntegrityOk(p, r.value) && TraceOk(p, r.value, policy) && NotAfter(r.value, now)
  {
    hide MakeHop, ComputeTransportHash, ComputePayloadHash, ComputeHopHash, VerifyHop;
    var h := MakeHop(p, k, id, now, a).value;
    var r := k.(hopTrace := k.hopTrace + [h]);
    MadeHopFits(p, k, id, now, a);
    MadeHopVerifies(p, k, id, now, a, policy);
    HashIgnoresTrace(p, k, r);
    var n := |k.hopTrace|;
    forall i | 0 <= i < |r.hopTrace| ensures CheckHopAt(p, r, i, policy).Ok? {
      if i < n {
        assert CheckHopAt(p, k, i, policy).Ok?;
        assert r.hopTrace[i] == k.hopTrace[i];
        assert HashBefore(r.hopTrace, i) == HashBefore(k.hopTrace, i);
        assert TimeBefore(r.hopTrace, i) == TimeBefore(k.hopTrace, i);
      } else {
        assert r.hopTrace[n] == h;
        assert HashBefore(r.hopTrace, n) == LastHopHash(k);
      }
    }
  }

  // with_hop takes any hop with the right packet id, chained or not. What it
  // makes of an accepted trace is accepted exactly when the hop continues it.
  lemma AppendAccepted(p: Platform, k: Packet, hop: Hop, policy: TracePolicy)
    requires IntegrityOk(p, k) && TraceOk(p, k, policy)
    ensures WithHop(p, k, hop)
            == if hop.packetId == k.header.packetId then Ok(k.(hopTrace := k.hopTrace + [hop])) else Err(ValueError)
    ensures TraceOk(p, k.(hopTrace := k.hopTrace + [hop]), policy)
            <==> && hop.packetId == k.header.packetId && hop.previousHopHash == LastHopHash(k)
                 && hop.hopHash == ComputeHopHash(p, k.security.transportHash, hop)
                 && (policy.monotonic ==> NotAfter(k, hop.timestamp))
                 && (policy.verifySignatures && hop.hopSignature.Some?
                     ==> VerifyHop(p, hop, policy.resolver) == Ok(true))
  {
    hide ComputeTransportHash, ComputePayloadHash, ComputeHopHash, VerifyHop;
    var r, n := k.(hopTrace := k.hopTrace + [hop]), |k.hopTrace|;
    HashIgnoresTrace(p, k, r);
    assert r.hopTrace[n] == hop && HashBefore(r.hopTrace, n) == LastHopHash(k);
    CheckedHopMeans(p, r, policy, n);
    forall i | 0 <= i < n ensures CheckHopAt(p, r, i, policy) == CheckHopAt(p, k, i, policy) {
      assert r.hopTrace[i] == k.hopTrace[i];
      assert HashBefore(r.hopTrace, i) == HashBefore(k.hopTrace, i);
      assert TimeBefore(r.hopTrace, i) == TimeBefore(k.hopTrace, i);
    }
    if CheckHopAt(p, r, n, policy).Ok? {
      forall i | 0 <= i < |r.hopTrace| ensures CheckHopAt(p, r, i, policy).Ok? {
        assert i < n ==> CheckHopAt(p, k, i, policy).Ok?;
      }
    } else {
      assert !TraceOk(p, r, policy);
    }
  }

  lemma TraceReadsCore(p: Platform, a: Packet, b: Packet, policy: TracePolicy)
    requires a.hopTrace == b.hopTrace && a.header == b.header && a.security.transportHash == b.security.transportHash
    requires TraceOk(p, a, policy)
    ensures TraceOk(p, b, policy)
  {
    hide VerifyHop, ComputeHopHash;
    forall i | 0 <= i < |b.hopTrace| ensures CheckHopAt(p, b, i, policy).Ok? {
      assert CheckHopAt(p, a, i, policy).Ok?;
    }
  }

  lemma ResignedSound(p: Platform, k: Packet, signature: HexText, algorithm: string, keyId: string)
    requires Sound(p, k) && Norm(algorithm) in ALGORITHMS && Strip(keyId) != ""
    ensures Sound(p, k.(security := SignedSecurity(k.security, signature, Norm(algorithm), Strip(keyId))))
  {
    hide ComputeTransportHash, ComputePayloadHash;
    var r := k.(security := SignedSecurity(k.security, signature, Norm(algorithm), Strip(keyId)));
    HashIgnoresTrace(p, r, k);
    NormIdempotent(algorithm);
    NormIdempotent(keyId);
    SignedSecurityNormal(k.security, signature, Norm(algorithm), Strip(keyId));
  }

  // Signing leaves hashes, trace and everything outside the signature as it was.
  lemma SignKeeps(p: Platform, k: Packet, key: string, keyId: string, algorithm: string, policy: TracePolicy)
    requires Sound(p, k) && TraceOk(p, k, policy) && SignPacket(p, k, key, keyId, algorithm).Ok?
    ensures var r := SignPacket(p, k, key, keyId, algorithm).value;
            && r == k.(security := r.security)
            && Bare(r.security) == Bare(k.security)
            && Sound(p, r) && TraceOk(p, r, policy)
  {
    hide SignPacket, IntegrityOk, TraceOk;
    SignTouchesSignatureOnly(p, k, key, keyId, algorithm);
    var signed := SignText(p, Norm(algorithm), key, k.security.transportHash).value;
    ResignedSound(p, k, signed, algorithm, keyId);
    TraceReadsCore(p, k, SignPacket(p, k, key, keyId, algorithm).value, policy);
  }

  // One action keeps everything a run relies on.
  lemma ActKeeps(p: Platform, k: Packet, act: Action, next: Packet, last: Time, policy: TracePolicy)
    requires Sound(p, k) && TraceOk(p, k, policy) && NotAfter(k, last)
    requires Act(p, k, act) == Ok(next)
    requires act.Append? ==> act.now >= last && Trusted(p, policy, act.args)
    ensures Sound(p, next) && TraceOk(p, next, policy) && NotAfter(next, if act.Append? then act.now else last)
    ensures next == k.(hopTrace := next.hopTrace, security := next.security)
    ensures Bare(next.security) == Bare(k.security)
    ensures act.Append? ==>
      next.security == k.security && |next.hopTrace| == |k.hopTrace| + 1 && k.hopTrace <= next.hopTrace
    ensures act.Sign? ==> next.hopTrace == k.hopTrace
  {
    hide MakeHop, SignPacket, ComputeTransportHash, ComputePayloadHash, CheckHopAt, VerifyHop;
    match act
    case Append(id, now, args) => AppendKeeps(p, k, id, now, args, policy);
    case Sign(key, keyId, algorithm) => SignKeeps(p, k, key, keyId, algorithm, policy);
  }

  // After `n` steps of a run: what the packet still is.
  ghost predicate RunHolds(p: Platform, first: Packet, r: Packet, acts: seq<Action>, n: nat, start: Time,
                           policy: TracePolicy)
    requires n <= |acts|
  {
    && Sound(p, r) && TraceOk(p, r, policy) && NotAfter(r, ClockAfter(acts, n, start))
    && r == first.(hopTrace := r.hopTrace, security := r.security)
    && Bare(r.security) == Bare(first.security)
    && first.hopTrace <= r.hopTrace
    && |r.hopTrace| == |first.hopTrace| + Appends(acts, n)
    && (Appends(acts, n) == n ==> r.security == first.security)
  }

  // Every run of appends and signatures under a clock that does not go back
  // leaves a trace that validation accepts, only ever longer, and both hashes as they were.
  lemma {:induction false} RunKeeps(p: Platform, states: seq<Packet>, acts: seq<Action>, n: nat, start: Time,
                                    policy: TracePolicy)
    requires IsRun(p, states, acts) && Clocked(acts, start) && AllTrusted(p, policy, acts)
    requires Sound(p, states[0]) && TraceOk(p, states[0], policy) && NotAfter(states[0], start)
    requires n <= |acts|
    ensures RunHolds(p, states[0], states[n], acts, n, start, policy)
  {
    hide Act, Sound, TraceOk, Trusted, Bare, NotAfter;
    if n > 0 {
      RunKeeps(p, states, acts, n - 1, start, policy);
      ActKeeps(p, states[n - 1], acts[n - 1], states[n], ClockAfter(acts, n - 1, start), policy);
      AppendsAtMost(acts, n - 1);
    }
  }

  lemma {:induction false} AppendsAtMost(acts: seq<Action>, n: nat)
    requires n <= |acts|
    ensures Appends(acts, n) <= n
  {
    if n > 0 { AppendsAtMost(acts, n - 1); }
  }

  // Signing and appending a given hop commute, errors included in the signing.
  lemma SignAppendCommute(p: Platform, k: Packet, hop: Hop, key: string, keyId: string, algorithm: string)
    requires Sound(p, k) && hop.packetId == k.header.packetId
    ensures WithHop(p, k, hop).Ok?
    ensures var signFirst := SignPacket(p, k, key, keyId, algorithm);
            var appendFirst := SignPacket(p, WithHop(p, k, hop).value, key, keyId, algorithm);
            && signFirst.Ok? == appendFirst.Ok?
            && (signFirst.Ok? ==> WithHop(p, signFirst.value, hop) == appendFirst)
            && (signFirst.Err? ==> signFirst == appendFirst)
  {
    var longer := k.(hopTrace := k.hopTrace + [hop]);
    HashIgnoresTrace(p, k, longer);
    SignTouchesSignatureOnly(p, k, key, keyId, algorithm);
    SignTouchesSignatureOnly(p, longer, key, keyId, algorithm);
    var signFirst := SignPacket(p, k, key, keyId, algorithm);
    if signFirst.Ok? {
      HashIgnoresTrace(p, longer, signFirst.value.(hopTrace := k.hopTrace + [hop]));
    }
  }

  lemma VerifyReadsSecurity(p: Platform, a: Packet, b: Packet, r: KeyResolver)
    requires a.security == b.security
    ensures VerifyPacket(p, a, r) == VerifyPacket(p, b, r)
  {
  }

  // A signed packet still verifies under its signer's key after any number of hops.
  lemma {:induction false} SignatureSurvivesHops(p: Platform, k: Packet, key: string, keyId: string, algorithm: string,
                              states: seq<Packet>, acts: seq<Action>, start: Time, policy: TracePolicy,
                              r: KeyResolver, verifyKey: string)
    requires Sound(p, k) && TraceOk(p, k, policy) && NotAfter(k, start)
    requires IsRun(p, states, acts) && Act(p, k, Sign(key, keyId, algorithm)) == Ok(states[0])
    requires Clocked(acts, start) && AllTrusted(p, policy, acts) && Appends(acts, |acts|) == |acts|
    requires KeyPair(p, Norm(algorithm), key, verifyKey) && ResolveKey(r, Some(Strip(keyId))) == Some(verifyKey)
    ensures VerifyPacket(p, states[|acts|], r) == Ok(true)
    ensures |states[|acts|].hopTrace| == |k.hopTrace| + |acts|
  {
    hide Sound, TraceOk, Trusted, Bare, NotAfter, SignPacket, VerifyPacket, MakeHop, WithHop;
    SignKeeps(p, k, key, keyId, algorithm, policy);
    SignVerifiesSound(p, k, key, keyId, algorithm, r, verifyKey);
    SignNotAfter(k, states[0], start);
    RunKeeps(p, states, acts, |acts|, start, policy);
    VerifyReadsSecurity(p, states[|acts|], states[0], r);
  }

  lemma SignNotAfter(a: Packet, b: Packet, now: Time)
    requires a.hopTrace == b.hopTrace && NotAfter(a, now)
    ensures NotAfter(b, now)
  {
  }

  lemma SignVerifiesSound(p: Platform, k: Packet, key: string, keyId: string, algorithm: string, r: KeyResolver,
                          verifyKey: string)
    requires Sound(p, k) && SignPacket(p, k, key, keyId, algorithm).Ok?
    requires KeyPair(p, Norm(algorithm), key, verifyKey) && ResolveKey(r, Some(Strip(keyId))) == Some(verifyKey)
    ensures VerifyPacket(p, SignPacket(p, k, key, keyId, algorithm).value, r) == Ok(true)
  {
    SignVerifies(p, k, key, keyId, algorithm, r, verifyKey);
  }

  // derive(hop=...) takes a hop as it is. The child's trace is accepted exactly
  // when the hop belongs to the child, opens a chain, carries the hash made with
  // the child's own transport hash, and has a good signature if one is looked at.
  lemma DeriveHopExactly(p: Platform, parent: Packet, id: Uuid, now: Time, a: DeriveArgs, policy: TracePolicy)
    requires Derivable(parent) && a.hop.Some? && Derive(p, parent, id, now, a).Ok?
    ensures var c, h := Derive(p, parent, id, now, a).value, a.hop.value;
            TraceOk(p, c, policy)
            <==> && h.packetId == id && h.previousHopHash.None?
                 && h.hopHash == ComputeHopHash(p, c.security.transportHash, h)
                 && (policy.verifySignatures && h.hopSignature.Some? ==> VerifyHop(p, h, policy.resolver) == Ok(true))
  {
    hide Derive, Derivable, IntegrityOk, NormHeader, NormAddress, HeaderOk, AddressOk, VerifyHop, ComputeHopHash;
    DeriveMakesChild(p, parent, id, now, a);
    var c := Derive(p, parent, id, now, a).value;
    assert c.hopTrace == [a.hop.value];
    CheckedHopMeans(p, c, policy, 0);
    assert TraceOk(p, c, policy) <==> CheckHopAt(p, c, 0, policy).Ok?;
  }

  // A hop built before the derivation belongs to another packet: whatever packet
  // it was built from, with an id that is not the fresh one, the child's trace is refused.
  lemma DeriveHopRefused(p: Platform, parent: Packet, id: Uuid, now: Time, a: DeriveArgs, policy: TracePolicy,
                         from: Packet, hopId: Uuid, built: Time, h: HopArgs)
    requires Derivable(parent) && from.header.packetId != id
    requires MakeHop(p, from, hopId, built, h).Ok? && a.hop == Some(MakeHop(p, from, hopId, built, h).value)
    requires Derive(p, parent, id, now, a).Ok?
    ensures !TraceOk(p, Derive(p, parent, id, now, a).value, policy)
  {
    hide Derive, Derivable, MakeHop, TraceOk, VerifyHop, ComputeHopHash;
    MadeHopFits(p, from, hopId, built, h);
    DeriveHopExactly(p, parent, id, now, a, policy);
  }

  // The condition can be met only by knowing the child first: a hop built from
  // the child itself, as derived without one, is accepted.
  lemma DeriveHopAccepted(p: Platform, parent: Packet, id: Uuid, now: Time, a: DeriveArgs, policy: TracePolicy,
                          hopId: Uuid, built: Time, h: HopArgs)
    requires Derivable(parent) && a.hop.None? && Derive(p, parent, id, now, a).Ok? && Trusted(p, policy, h)
    requires MakeHop(p, Derive(p, parent, id, now, a).value, hopId, built, h).Ok?
    ensures var b := a.(hop := Some(MakeHop(p, Derive(p, parent, id, now, a).value, hopId, built, h).value));
            Derive(p, parent, id, now, b).Ok? && TraceOk(p, Derive(p, parent, id, now, b).value, policy)
  {
    hide Derive, Derivable, IntegrityOk, MakeHop, TraceOk, VerifyHop, ComputeHopHash, ComputeTransportHash,
         ComputePayloadHash, Trusted, NormHeader, NormAddress, HeaderOk, AddressOk;
    var c := Derive(p, parent, id, now, a).value;
    var b := a.(hop := Some(MakeHop(p, c, hopId, built, h).value));
    DeriveMakesChild(p, parent, id, now, a);
    DeriveMakesChild(p, parent, id, now, b);
    assert DeriveAdmits(parent, id, now, b);
    var d := Derive(p, parent, id, now, b).value;
    SameHashes(p, c, d);
    MadeHopFits(p, c, hopId, built, h);
    MadeHopVerifies(p, c, hopId, built, h, policy);
    DeriveHopExactly(p, parent, id, now, b, policy);
  }

  // Two intact packets that differ in trace and security only have the same hashes.
  lemma SameHashes(p: Platform, a: Packet, b: Packet)
    requires IntegrityOk(p, a) && IntegrityOk(p, b) && a == b.(hopTrace := a.hopTrace, security := a.security)
    ensures a.security.payloadHash == b.security.payloadHash && a.security.transportHash == b.security.transportHash
  {
    hide ComputePayloadHash, ComputeTransportHash;
    HashIgnoresTrace(p, a, b);
  }
}
