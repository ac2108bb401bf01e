// Every packet that any history makes survives the wire.
module Deliveries {
  import opened Wrappers
  import opened Strings
  import opened Models
  import opened Platforms
  import opened Hashing
  import opened Packets
  import opened Signatures
  import opened HopTraces
  import opened Runs
  import opened Lineages
  import opened Codec
  import opened RoundTrip

  // sign_hop copies the hop without validating it, so a blank key id gets through.
  predicate KeyIdNamed(a: HopArgs) {
    a.signing.Some? && a.signing.value.keyId.Some? ==> Strip(a.signing.value.keyId.value) != ""
  }

  // A built hop passes its own validator exactly when its signing key id, if any, is not blank.
  lemma MadeHopNormal(p: Platform, k: Packet, id: Uuid, now: Time, a: HopArgs)
    requires MakeHop(p, k, id, now, a).Ok?
    ensures HopNormal(MakeHop(p, k, id, now, a).value) <==> KeyIdNamed(a)
  {
    hide ComputeHopHash, Norm, NormOpt;
    HopFixed(ProvisionalHop(k, id, now, a));
    var provisional := NewHop(ProvisionalHop(k, id, now, a)).value;
    var h := MakeHop(p, k, id, now, a).value;
    assert provisional.hopSignature.None?;
    if a.signing.Some? {
      var m := a.signing.value;
      SignedHopNormal(provisional, h, m.keyId.value, m.algorithm.value);
    }
  }

  lemma SignedHopNormal(bare: Hop, h: Hop, keyId: string, algorithm: string)
    requires HopNormal(bare) && bare.hopSignature.None?
    requires h == bare.(hopHash := h.hopHash, hopSignature := h.hopSignature,
                        hopSignatureAlgorithm := Some(Norm(algorithm)), hopSigningKeyId := Some(Strip(keyId)))
    requires h.hopSignature.Some? && IsHexText(h.hopSignature.value) && Norm(algorithm) in ALGORITHMS
    ensures HopNormal(h) <==> Strip(keyId) != ""
  {
    hide Norm, Strip;
    HexTextTrimmed(h.hopSignature.value);
    NormIdempotent(algorithm);
    NormIdempotent(keyId);
  }

  // What Python's types guarantee of the sections a caller passes in.
  predicate Constructed(e: Event) {
    match e
    case Created(_, _, a) =>
      NormTenant(a.tenant) == a.tenant && TenantOk(a.tenant) && ProvenanceGiven(a.provenance)
    case Derived(_, _, _, a) =>
      && ProvenanceGiven(a.provenance)
      && (a.governance.Some? ==>
           NormGovernance(a.governance.value) == a.governance.value && GovernanceOk(a.governance.value))
      && (a.link.Some? ==> LinkNormal(a.link.value))
    case Acted(_, act) => act.Append? ==> KeyIdNamed(act.args)
  }

  predicate ProvenanceGiven(v: Option<Provenance>) {
    v.Some? ==> NormProvenance(v.value) == v.value && ProvenanceOk(v.value)
  }

  lemma CreatedSections(id: Uuid, now: Time, a: CreateArgs)
    requires CreateUnhashed(id, now, a).Ok? && Constructed(Created(id, now, a))
    ensures SectionsOk(CreateUnhashed(id, now, a).value)
  {
    hide NormHeader, HeaderOk, NormAddress, AddressOk, NormTenant, TenantOk, NormSecurity, SecurityOk, NormGovernance,
         GovernanceOk, NormProvenance, ProvenanceOk, Norm;
    var action, source := Norm(a.action), Norm(a.sourceNode);
    var kind := if source == "client" then "client" else if source == "gate" then "gate" else "node";
    NormHeaderIdempotent(RootHeader(id, now, a));
    NormAddressIdempotent(Address(source, Norm(a.destinationNode), Norm(a.replyTo)));
    NormGovernanceIdempotent(Governance(action, a.complianceTags, a.retentionDays, false, false, None));
    NormSecurityIdempotent(Security(ZEROS, ZEROS, None, None, None, a.classification, "plaintext", []));
    NormProvenanceIdempotent(Provenance(kind, action, false, None, if kind == "client" then None else Some(source)));
  }

  lemma FinalizedIsValid(p: Platform, k: Packet)
    requires SectionsOk(k)
    ensures Finalize(p, k, false).Ok? && ValidPacket(p, Finalize(p, k, false).value)
  {
    hide Finalize, IntegrityOk, NormSecurity, SecurityOk, NormHeader, HeaderOk, NormAddress, AddressOk, NormTenant,
         TenantOk, NormGovernance, GovernanceOk, NormProvenance, ProvenanceOk;
    FinalizeSound(p, k, false);
    RehashedNormal(k.security, Finalize(p, k, false).value.security);
  }

  lemma DerivedSections(parent: Packet, id: Uuid, now: Time, a: DeriveArgs, n: nat)
    requires SectionsOk(parent) && DeriveAdmits(parent, id, now, a) && a.hop.None?
    requires Constructed(Derived(n, id, now, a))
    ensures SectionsOk(Child(parent, id, now, a))
  {
    hide NormHeader, HeaderOk, NormAddress, AddressOk, NormTenant, TenantOk, NormSecurity, SecurityOk, NormGovernance,
         GovernanceOk, NormProvenance, ProvenanceOk, LinkNormal, AttachmentNormal, DeriveHeader, DeriveAddress,
         Unsigned;
    NormHeaderIdempotent(DeriveHeader(parent.header, id, now, a));
    NormAddressIdempotent(DeriveAddress(parent.address, a));
    UnsignedNormal(parent.security);
  }

  lemma DerivedIsValid(p: Platform, parent: Packet, id: Uuid, now: Time, a: DeriveArgs, n: nat)
    requires ValidPacket(p, parent) && a.hop.None? && Constructed(Derived(n, id, now, a))
    requires Derive(p, parent, id, now, a).Ok?
    ensures ValidPacket(p, Derive(p, parent, id, now, a).value)
  {
    hide Child, IntegrityOk, Finalize, Constructed, DeriveUnhashed, DeriveAdmits, HeaderOk, AddressOk, TenantOk,
         GovernanceOk, ProvenanceOk, NormSecurity, SecurityOk, NormHeader;
    DeriveUnhashedIsChild(parent, id, now, a);
    DerivedSections(parent, id, now, a, n);
    FinalizedIsValid(p, Child(parent, id, now, a));
  }

  lemma ActedIsValid(p: Platform, k: Packet, act: Action)
    requires ValidPacket(p, k) && Act(p, k, act).Ok?
    requires act.Append? ==> KeyIdNamed(act.args)
    ensures ValidPacket(p, Act(p, k, act).value)
  {
    hide MakeHop, HopNormal, NormHeader, HeaderOk, NormAddress, AddressOk, NormTenant, TenantOk, NormSecurity,
         SecurityOk, NormGovernance, GovernanceOk, NormProvenance, ProvenanceOk, SignPacket, Bare, TraceOk;
    hide ComputePayloadHash, ComputeTransportHash;
    match act
    case Append(id, now, a) =>
      MadeHopNormal(p, k, id, now, a);
    case Sign(key, keyId, algorithm) =>
      SignedIsSound(p, k, key, keyId, algorithm);
  }

  lemma SignedIsSound(p: Platform, k: Packet, key: string, keyId: string, algorithm: string)
    requires Sound(p, k) && SignPacket(p, k, key, keyId, algorithm).Ok?
    ensures var r := SignPacket(p, k, key, keyId, algorithm).value;
            Sound(p, r) && r == k.(security := r.security)
  {
    hide SignPacket, IntegrityOk;
    SignTouchesSignatureOnly(p, k, key, keyId, algorithm);
    ResignedSound(p, k, SignText(p, Norm(algorithm), key, k.security.transportHash).value, algorithm, keyId);
  }

  ghost predicate AllValid(p: Platform, ks: seq<Packet>) {
    forall i :: 0 <= i < |ks| ==> ValidPacket(p, ks[i])
  }

  lemma NextIsValid(p: Platform, w: World, e: Event, w': World)
    requires AllValid(p, w.packets) && Next(p, w, e, w') && Constructed(e)
    ensures AllValid(p, w'.packets)
  {
    hide ValidPacket, Create, Derive, Act, Constructed, KeyIdNamed;
    var made := w'.packets[|w'.packets| - 1];
    assert w'.packets == w.packets + [made];
    match e
    case Created(id, now, a) => CreatedIsValid(p, id, now, a);
    case Derived(n, id, now, a) => DerivedIsValid(p, w.packets[n], id, now, a, n);
    case Acted(on, act) =>
      assert act.Append? ==> KeyIdNamed(act.args) by { ActedConstructed(e); }
      ActedIsValid(p, w.packets[on], act);
  }

  lemma ActedConstructed(e: Event)
    requires e.Acted? && Constructed(e)
    ensures e.act.Append? ==> KeyIdNamed(e.act.args)
  {
  }

  lemma CreatedIsValid(p: Platform, id: Uuid, now: Time, a: CreateArgs)
    requires Create(p, id, now, a).Ok? && Constructed(Created(id, now, a))
    ensures ValidPacket(p, Create(p, id, now, a).value)
  {
    hide CreateUnhashed, Finalize, Constructed, ValidPacket, SectionsOk;
    CreatedSections(id, now, a);
    FinalizedIsValid(p, CreateUnhashed(id, now, a).value);
  }

  lemma {:induction false} HistoryIsValid(p: Platform, worlds: seq<World>, events: seq<Event>, policy: TracePolicy,
                                          n: nat)
    requires IsHistory(p, worlds, events, policy) && n <= |events|
    requires forall i :: 0 <= i < |events| ==> Constructed(events[i])
    ensures AllValid(p, worlds[n].packets)
    decreases n
  {
    hide Next, Trusted, Constructed, ValidPacket;
    if n > 0 {
      HistoryIsValid(p, worlds, events, policy, n - 1);
      NextIsValid(p, worlds[n - 1], events[n - 1], worlds[n]);
    }
  }

  // Sending the packet delivers that very packet, with an accepted trace.
  ghost predicate Arrives(p: Platform, fill: Fill, k: Packet, policy: TracePolicy) {
    Decode(p, fill, Encode(p, k)) == Ok(k) && TraceOk(p, k, policy)
  }

  // Every packet of every run of create, derive, append and sign comes back from
  // its encoding unchanged, hop chain and signature included.
  lemma HistoryRoundTrips(p: Platform, fill: Fill, worlds: seq<World>, events: seq<Event>, policy: TracePolicy,
                          n: nat, i: nat)
    requires Lawful(p) && IsHistory(p, worlds, events, policy) && n <= |events| && i < |worlds[n].packets|
    requires forall j :: 0 <= j < |events| ==> Constructed(events[j])
    ensures Arrives(p, fill, worlds[n].packets[i], policy)
  {
    hide Next, Trusted, Constructed, ValidPacket, Decode, Encode, TraceOk, Linked, Sound;
    HistoryIsValid(p, worlds, events, policy, n);
    HistoryKeeps(p, worlds, events, policy, n);
    DecodeEncode(p, fill, worlds[n].packets[i]);
    assert Healthy(p, worlds[n].packets[i], worlds[n].clock, policy);
  }

  lemma BlankHopNotNew(p: Platform, k: Packet, id: Uuid, now: Time, a: HopArgs)
    requires MakeHop(p, k, id, now, a).Ok? && !KeyIdNamed(a)
    ensures NewHop(MakeHop(p, k, id, now, a).value).Err?
  {
    hide ComputeHopHash, Norm, NormOpt;
    NormIdempotent(a.signing.value.keyId.value);
    assert MakeHop(p, k, id, now, a).value.hopSigningKeyId == Some("");
    assert Strip("") == "" by { StripTrims("", IsSpace); }
  }

  // A hop signed under a blank key id is built, appended and accepted by trace
  // validation wherever its signature can be looked up, and is refused on arrival.
  lemma BlankKeyIdRefused(p: Platform, fill: Fill, k: Packet, id: Uuid, now: Time, a: HopArgs, policy: TracePolicy)
    requires Lawful(p) && ValidPacket(p, k) && MakeHop(p, k, id, now, a).Ok? && !KeyIdNamed(a)
    requires TraceOk(p, k, policy) && NotAfter(k, now) && Trusted(p, policy, a)
    ensures var r := Act(p, k, Append(id, now, a));
            r.Ok? && TraceOk(p, r.value, policy) && Decode(p, fill, Encode(p, r.value)).Err?
  {
    hide Decode, Encode, MakeHop, KeyIdNamed, ValidPacket, TraceOk, Trusted, NewHop;
    assert IntegrityOk(p, k) by { ValidIsIntact(p, k); }
    AppendKeeps(p, k, id, now, a, policy);
    BlankHopNotNew(p, k, id, now, a);
    var r := k.(hopTrace := k.hopTrace + [MakeHop(p, k, id, now, a).value]);
    BadHopRefused(p, fill, r, |k.hopTrace|);
  }

  lemma ValidIsIntact(p: Platform, k: Packet)
    requires ValidPacket(p, k)
    ensures IntegrityOk(p, k)
  {
    hide SectionsOk, IntegrityOk;
  }
}
