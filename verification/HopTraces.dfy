// transport/hop_trace.py: the append-only, hash-chained hop trace.
module HopTraces {
  import opened Wrappers
  import opened Strings
  import opened Models
  import opened Platforms
  import opened Hashing
  import opened Signatures

  function LastHopHash(k: Packet): Option<Digest> {
    if k.hopTrace == [] then None else Some(k.hopTrace[|k.hopTrace| - 1].hopHash)
  }

  datatype SigningMaterial = SigningMaterial(key: string, keyId: Option<string>, algorithm: Option<string>)

  // The arguments of make_ingress_hop, make_dispatch_hop, make_execution_hop and make_response_hop.
  datatype HopArgs = HopArgs(
    node: string,
    action: string,
    direction: string,
    status: string,
    attempt: Option<int>,
    targetNode: Option<string>,
    durationMs: Option<int>,
    queueMs: Option<int>,
    networkMs: Option<int>,
    errorCode: Option<string>,
    errorMessage: Option<string>,
    signing: Option<SigningMaterial>)

  function ProvisionalHop(k: Packet, id: Uuid, now: Time, a: HopArgs): Hop {
    Hop(id, k.header.packetId, Norm(a.node), Norm(a.action), Norm(a.direction), Norm(a.status), now, a.attempt,
        NormOpt(a.targetNode), a.durationMs, a.queueMs, a.networkMs, a.errorCode, a.errorMessage, LastHopHash(k),
        ZEROS, None, None, None)
  }

  // _finalize_hop, with the fresh hop id and the clock reading as inputs
  function MakeHop(p: Platform, k: Packet, id: Uuid, now: Time, a: HopArgs): Result<Hop> {
    var provisional :- NewHop(ProvisionalHop(k, id, now, a));
    var hop := provisional.(hopHash := ComputeHopHash(p, k.security.transportHash, provisional));
    match a.signing
    case None => Ok(hop)
    case Some(m) =>
      if m.keyId.None? || m.algorithm.None? then Err(TransportValidation)
      else SignHop(p, hop, m.key, m.keyId.value, m.algorithm.value)
  }

  // ---------------------------------------------------------------------
  // validate_hop_trace
  // ---------------------------------------------------------------------

  datatype TracePolicy = TracePolicy(verifySignatures: bool, resolver: KeyResolver, monotonic: bool)

  // The checks on one hop, given the hash and the time of the hop before it.
  function CheckHop(p: Platform, k: Packet, hop: Hop, previousHash: Option<Digest>, previousTime: Option<Time>,
                    policy: TracePolicy): Result<()> {
    var _ :- Check(hop.packetId == k.header.packetId, TransportValidation);
    var _ :- Check(hop.previousHopHash == previousHash, IntegrityError);
    var _ :- Check(hop.hopHash == ComputeHopHash(p, k.security.transportHash, hop), IntegrityError);
    var _ :- Check(policy.monotonic && previousTime.Some? ==> hop.timestamp >= previousTime.value, TransportValidation);
    if policy.verifySignatures && hop.hopSignature.Some? then
      var verified :- VerifyHop(p, hop, policy.resolver);
      Check(verified, AuthenticationError)
    else Ok(())
  }

  function HashBefore(hops: seq<Hop>, i: nat): Option<Digest>
    requires i <= |hops|
  {
    if i == 0 then None else Some(hops[i - 1].hopHash)
  }

  function TimeBefore(hops: seq<Hop>, i: nat): Option<Time>
    requires i <= |hops|
  {
    if i == 0 then None else Some(hops[i - 1].timestamp)
  }

  function CheckHopAt(p: Platform, k: Packet, i: nat, policy: TracePolicy): Result<()>
    requires i < |k.hopTrace|
  {
    CheckHop(p, k, k.hopTrace[i], HashBefore(k.hopTrace, i), TimeBefore(k.hopTrace, i), policy)
  }

  // A trace is accepted when every hop passes its checks.
  ghost predicate TraceOk(p: Platform, k: Packet, policy: TracePolicy) {
    forall i :: 0 <= i < |k.hopTrace| ==> CheckHopAt(p, k, i, policy).Ok?
  }

  function TraceChecks(p: Platform, k: Packet, policy: TracePolicy): seq<Result<()>> {
    seq(|k.hopTrace|, i requires 0 <= i < |k.hopTrace| => CheckHopAt(p, k, i, policy))
  }

  // The loop of validate_hop_trace: Ok exactly on an accepted trace, and
  // otherwise the error of the first hop that fails.
  method ValidateHopTrace(p: Platform, k: Packet, policy: TracePolicy) returns (r: Result<()>)
    ensures r.Ok? <==> TraceOk(p, k, policy)
    ensures r == FirstError(TraceChecks(p, k, policy))
  {
    hide ComputeHopHash, VerifyHop;
    ghost var checks := TraceChecks(p, k, policy);
    var previousHash: Option<Digest> := None;
    var previousTime: Option<Time> := None;
    for i := 0 to |k.hopTrace|
      invariant previousHash == HashBefore(k.hopTrace, i)
      invariant previousTime == TimeBefore(k.hopTrace, i)
      invariant forall j :: 0 <= j < i ==> CheckHopAt(p, k, j, policy).Ok?
    {
      var hop := k.hopTrace[i];
      var checked := CheckHop(p, k, hop, previousHash, previousTime, policy);
      assert checked == CheckHopAt(p, k, i, policy) == checks[i];
      if checked.Err? {
        FirstErrorAt(checks, i);
        return checked;
      }
      previousHash := Some(hop.hopHash);
      previousTime := Some(hop.timestamp);
    }
    FirstErrorAt(checks, |checks|);
    return Ok(());
  }

  // What an accepted trace is: every hop belongs to the packet, names the hash
  // of the hop before it and carries its own; no hop anywhere is older than an
  // earlier one, if that is asked; and every signature is good, if that is asked.
  ghost predicate TraceMeans(p: Platform, k: Packet, policy: TracePolicy) {
    var hops := k.hopTrace;
    && (forall i :: 0 <= i < |hops| ==>
         && hops[i].packetId == k.header.packetId
         && hops[i].hopHash == ComputeHopHash(p, k.security.transportHash, hops[i])
         && (policy.verifySignatures && hops[i].hopSignature.Some?
             ==> VerifyHop(p, hops[i], policy.resolver) == Ok(true)))
    && (hops != [] ==> hops[0].previousHopHash.None?)
    && (forall i :: 0 < i < |hops| ==> hops[i].previousHopHash == Some(hops[i - 1].hopHash))
    && (policy.monotonic ==> forall i, j :: 0 <= i < j < |hops| ==> hops[i].timestamp <= hops[j].timestamp)
  }

  lemma {:induction false} TimesAscend(p: Platform, k: Packet, policy: TracePolicy, i: nat, j: nat)
    requires TraceOk(p, k, policy) && policy.monotonic && i <= j < |k.hopTrace|
    ensures k.hopTrace[i].timestamp <= k.hopTrace[j].timestamp
    decreases j
  {
    hide ComputeHopHash, VerifyHop;
    if i < j {
      assert CheckHopAt(p, k, j, policy).Ok?;
      TimesAscend(p, k, policy, i, j - 1);
    }
  }

  lemma CheckedHopMeans(p: Platform, k: Packet, policy: TracePolicy, i: nat)
    requires i < |k.hopTrace|
    ensures var h := k.hopTrace[i];
            CheckHopAt(p, k, i, policy).Ok?
            <==> && h.packetId == k.header.packetId && h.hopHash == ComputeHopHash(p, k.security.transportHash, h)
                 && h.previousHopHash == HashBefore(k.hopTrace, i)
                 && (policy.monotonic && i > 0 ==> k.hopTrace[i - 1].timestamp <= h.timestamp)
                 && (policy.verifySignatures && h.hopSignature.Some? ==> VerifyHop(p, h, policy.resolver) == Ok(true))
  {
    hide ComputeHopHash, VerifyHop;
  }

  // Checking each hop against the one before it is checking the whole trace.
  lemma AcceptedTraceMeans(p: Platform, k: Packet, policy: TracePolicy)
    ensures TraceOk(p, k, policy) <==> TraceMeans(p, k, policy)
  {
    hide CheckHopAt, ComputeHopHash, VerifyHop;
    var hops := k.hopTrace;
    if TraceOk(p, k, policy) {
      forall i | 0 <= i < |hops|
        ensures hops[i].packetId == k.header.packetId && hops[i].previousHopHash == HashBefore(hops, i)
        ensures hops[i].hopHash == ComputeHopHash(p, k.security.transportHash, hops[i])
        ensures policy.verifySignatures && hops[i].hopSignature.Some?
                ==> VerifyHop(p, hops[i], policy.resolver) == Ok(true)
      {
        CheckedHopMeans(p, k, policy, i);
      }
      if policy.monotonic {
        forall i, j | 0 <= i < j < |hops| ensures hops[i].timestamp <= hops[j].timestamp {
          TimesAscend(p, k, policy, i, j);
        }
      }
    }
    if TraceMeans(p, k, policy) {
      forall i | 0 <= i < |hops| ensures CheckHopAt(p, k, i, policy).Ok? {
        CheckedHopMeans(p, k, policy, i);
        assert i > 0 ==> hops[i].previousHopHash == Some(hops[i - 1].hopHash);
      }
    }
  }

  // ---------------------------------------------------------------------
  // The last hop hash commits to the whole history
  // ---------------------------------------------------------------------

  function HopPreimage(p: Platform, k: Packet, i: nat): seq<Byte>
    requires i < |k.hopTrace|
  {
    HopBytes(p, k.security.transportHash, k.hopTrace[i])
  }

  // Two of the traces' own hop preimages differ and have one digest.
  ghost predicate HopCollision(p: Platform, a: Packet, b: Packet) {
    exists i, j :: 0 <= i < |a.hopTrace| && 0 <= j < |b.hopTrace|
        && Collides(p, HopPreimage(p, a, i), HopPreimage(p, b, j))
  }

  // The first `n` hops agree on everything that is hashed, and on the hashes.
  ghost predicate SameHistory(a: Packet, b: Packet, n: nat)
    requires n <= |a.hopTrace| && n <= |b.hopTrace|
  {
    && (n > 0 ==> a.security.transportHash == b.security.transportHash)
    && forall i :: 0 <= i < n ==> Hashed(a.hopTrace[i]) == Hashed(b.hopTrace[i])
                                  && a.hopTrace[i].hopHash == b.hopTrace[i].hopHash
  }

  lemma {:induction false} HashesMeet(p: Platform, a: Packet, b: Packet, pa: TracePolicy, pb: TracePolicy, i: nat,
                                      j: nat)
    requires Lawful(p) && TraceOk(p, a, pa) && TraceOk(p, b, pb)
    requires i < |a.hopTrace| && j < |b.hopTrace| && a.hopTrace[i].hopHash == b.hopTrace[j].hopHash
    ensures HopCollision(p, a, b) || (i == j && SameHistory(a, b, i + 1))
    decreases i
  {
    hide HopBytes, VerifyHop;
    assert CheckHopAt(p, a, i, pa).Ok? && CheckHopAt(p, b, j, pb).Ok?;
    if HopPreimage(p, a, i) != HopPreimage(p, b, j) {
      assert Collides(p, HopPreimage(p, a, i), HopPreimage(p, b, j));
    } else {
      HopBytesInjective(p, a.security.transportHash, a.hopTrace[i], b.security.transportHash, b.hopTrace[j]);
      assert Hashed(a.hopTrace[i]).previousHopHash == Hashed(b.hopTrace[j]).previousHopHash;
      assert HashBefore(a.hopTrace, i) == HashBefore(b.hopTrace, j);
      if i > 0 {
        HashesMeet(p, a, b, pa, pb, i - 1, j - 1);
      }
    }
  }

  // If the hash that ends one accepted trace appears in another, then the first
  // trace is the beginning of the second, or a collision is exhibited.
  lemma LastHashCommits(p: Platform, a: Packet, b: Packet, pa: TracePolicy, pb: TracePolicy, j: nat)
    requires Lawful(p) && TraceOk(p, a, pa) && TraceOk(p, b, pb)
    requires j < |b.hopTrace| && LastHopHash(a) == Some(b.hopTrace[j].hopHash)
    ensures HopCollision(p, a, b) || (|a.hopTrace| == j + 1 && SameHistory(a, b, j + 1))
  {
    HashesMeet(p, a, b, pa, pb, |a.hopTrace| - 1, j);
  }
}
