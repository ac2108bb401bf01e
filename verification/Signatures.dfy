// security/signing.py, security/verification.py and the signing half of
// transport/hop_trace.py. Keys are the bytes that _coerce_bytes would give.
module Signatures {
  import opened Wrappers
  import opened Strings
  import opened Models
  import opened Platforms
  import opened Hashing
  import opened Packets

  datatype KeyResolver =
    | NoResolver
    | SingleKey(key: string)
    | KeyFunction(resolve: Option<string> -> Option<string>)
    | KeyTable(keys: map<string, string>)

  // _resolve_key
  function ResolveKey(r: KeyResolver, keyId: Option<string>): Option<string> {
    match r
    case NoResolver => None
    case SingleKey(key) => Some(key)
    case KeyFunction(f) => f(keyId)
    case KeyTable(keys) => if keyId.Some? && keyId.value in keys then Some(keys[keyId.value]) else None
  }

  // The signature of a digest under a normalised algorithm name.
  function SignText(p: Platform, algorithm: string, key: string, message: string): Result<HexText> {
    if algorithm == "hmac-sha256" then Ok(p.mac(key, message))
    else if algorithm == "ed25519" then
      var _ :- p.edLoads(key);
      Ok(p.edSign(key, message))
    else Err(AuthenticationError)
  }

  // hmac.compare_digest raises TypeError on text that is not ASCII.
  function VerifyText(p: Platform, algorithm: string, key: string, signature: string, message: string): Result<bool> {
    if algorithm == "hmac-sha256" then
      if IsAscii(signature) then Ok(signature == p.mac(key, message)) else Err(TypeError)
    else if algorithm == "ed25519" then
      var _ :- p.edReads(key);
      if p.edVerify(key, signature, message) then Ok(true) else Err(AuthenticationError)
    else Err(AuthenticationError)
  }

  function SignHop(p: Platform, hop: Hop, key: string, keyId: string, algorithm: string): Result<Hop> {
    var signature :- SignText(p, Norm(algorithm), key, hop.hopHash);
    Ok(hop.(hopSignature := Some(signature), hopSignatureAlgorithm := Some(Norm(algorithm)),
            hopSigningKeyId := Some(Strip(keyId))))
  }

  function VerifyHop(p: Platform, hop: Hop, r: KeyResolver): Result<bool> {
    if hop.hopSignature.None? || hop.hopSignatureAlgorithm.None? then Ok(false)
    else
      match ResolveKey(r, hop.hopSigningKeyId)
      case None => Err(AuthenticationError)
      case Some(key) => VerifyText(p, hop.hopSignatureAlgorithm.value, key, hop.hopSignature.value, hop.hopHash)
  }

  // recompute_transport_core
  function RecomputeCore(p: Platform, k: Packet): Packet {
    var bare := k.(security := k.security.(
      payloadHash := ComputePayloadHash(p, k.payload),
      signature := None, signatureAlgorithm := None, signingKeyId := None));
    bare.(security := bare.security.(transportHash := ComputeTransportHash(p, bare)))
  }

  // sign_transport_packet
  function SignPacket(p: Platform, k: Packet, key: string, keyId: string, algorithm: string): Result<Packet> {
    var core := RecomputeCore(p, k);
    var signature :- SignText(p, Norm(algorithm), key, core.security.transportHash);
    var security :- NewSecurity(core.security.(
      signature := Some(signature), signatureAlgorithm := Some(Norm(algorithm)), signingKeyId := Some(Strip(keyId))));
    Ok(core.(security := security))
  }

  // verify_transport_packet_signature
  function VerifyPacket(p: Platform, k: Packet, r: KeyResolver): Result<bool> {
    var s := k.security;
    if s.signature.None? || s.signatureAlgorithm.None? then Ok(false)
    else
      match ResolveKey(r, s.signingKeyId)
      case None => Err(AuthenticationError)
      case Some(key) => VerifyText(p, s.signatureAlgorithm.value, key, s.signature.value, s.transportHash)
  }

  // ---------------------------------------------------------------------

  lemma HexTextTrimmed(s: HexText)
    ensures Strip(s) == s
  {
    StripTrims(s, IsSpace);
  }

  lemma SignedTextVerifies(p: Platform, algorithm: string, key: string, verifyKey: string, message: string)
    requires KeyPair(p, algorithm, key, verifyKey)
    requires SignText(p, algorithm, key, message).Ok?
    ensures VerifyText(p, algorithm, verifyKey, SignText(p, algorithm, key, message).value, message) == Ok(true)
  {
  }

  // ---------------------------------------------------------------------
  // What a verified signature is
  // ---------------------------------------------------------------------

  // What each kind of resolver gives for a key id.
  ghost predicate KeyFor(r: KeyResolver, keyId: Option<string>, key: string) {
    match r
    case NoResolver => false
    case SingleKey(single) => key == single
    case KeyFunction(f) => f(keyId) == Some(key)
    case KeyTable(keys) => keyId.Some? && keyId.value in keys && keys[keyId.value] == key
  }

  // A signature that this key accepts for this digest.
  ghost predicate GoodSignature(p: Platform, algorithm: string, key: string, signature: string, digest: Digest) {
    || (algorithm == "hmac-sha256" && IsAscii(signature) && signature == p.mac(key, digest))
    || (algorithm == "ed25519" && p.edReads(key).Ok? && p.edVerify(key, signature, digest))
  }

  // Signed, and good under the key that the resolver gives.
  ghost predicate SignedWell(p: Platform, r: KeyResolver, signature: Option<string>, algorithm: Option<string>,
                             keyId: Option<string>, digest: Digest) {
    && signature.Some? && algorithm.Some?
    && exists key :: KeyFor(r, keyId, key) && GoodSignature(p, algorithm.value, key, signature.value, digest)
  }

  // What verification answers for anything that is not a good signature.
  ghost predicate RefusedAs(p: Platform, r: KeyResolver, signature: Option<string>, algorithm: Option<string>,
                            keyId: Option<string>, digest: Digest, answer: Result<bool>) {
    if signature.None? || algorithm.None? then answer == Ok(false)
    else if forall key :: !KeyFor(r, keyId, key) then answer == Err(AuthenticationError)
    else
      forall key :: KeyFor(r, keyId, key) ==>
        && (algorithm.value == "hmac-sha256" ==>
             answer == if IsAscii(signature.value) then Ok(false) else Err(TypeError))
        && (algorithm.value == "ed25519" ==>
             answer == Err(if p.edReads(key).Err? then p.edReads(key).error else AuthenticationError))
        && (algorithm.value !in ALGORITHMS ==> answer == Err(AuthenticationError))
  }

  lemma ResolvedKey(r: KeyResolver, keyId: Option<string>, key: string)
    ensures KeyFor(r, keyId, key) <==> ResolveKey(r, keyId) == Some(key)
  {
  }

  lemma AlgorithmsApart()
    ensures "hmac-sha256" != "ed25519"
  {
    assert |"ed25519"| == 7;
  }

  lemma VerifyTextMeans(p: Platform, algorithm: string, key: string, signature: string, digest: Digest)
    ensures var r := VerifyText(p, algorithm, key, signature, digest);
            && (r == Ok(true) <==> GoodSignature(p, algorithm, key, signature, digest))
            && (algorithm == "hmac-sha256" && r != Ok(true)
                ==> r == if IsAscii(signature) then Ok(false) else Err(TypeError))
            && (algorithm == "ed25519" && r != Ok(true)
                ==> r == Err(if p.edReads(key).Err? then p.edReads(key).error else AuthenticationError))
            && (algorithm !in ALGORITHMS ==> r == Err(AuthenticationError))
  {
    AlgorithmsApart();
  }

  // A packet verifies exactly when its signature is good under the resolved key.
  lemma VerifyPacketExactly(p: Platform, k: Packet, r: KeyResolver)
    ensures var s := k.security;
            if SignedWell(p, r, s.signature, s.signatureAlgorithm, s.signingKeyId, s.transportHash)
            then VerifyPacket(p, k, r) == Ok(true)
            else RefusedAs(p, r, s.signature, s.signatureAlgorithm, s.signingKeyId, s.transportHash,
                           VerifyPacket(p, k, r)) && VerifyPacket(p, k, r) != Ok(true)
  {
    hide VerifyText, KeyFor, GoodSignature, ResolveKey;
    var s := k.security;
    forall key ensures KeyFor(r, s.signingKeyId, key) <==> ResolveKey(r, s.signingKeyId) == Some(key) {
      ResolvedKey(r, s.signingKeyId, key);
    }
    if s.signature.Some? && s.signatureAlgorithm.Some? && ResolveKey(r, s.signingKeyId).Some? {
      VerifyTextMeans(p, s.signatureAlgorithm.value, ResolveKey(r, s.signingKeyId).value, s.signature.value,
                      s.transportHash);
    }
  }

  // So does a hop, over its own hash.
  lemma VerifyHopExactly(p: Platform, h: Hop, r: KeyResolver)
    ensures if SignedWell(p, r, h.hopSignature, h.hopSignatureAlgorithm, h.hopSigningKeyId, h.hopHash)
            then VerifyHop(p, h, r) == Ok(true)
            else RefusedAs(p, r, h.hopSignature, h.hopSignatureAlgorithm, h.hopSigningKeyId, h.hopHash,
                           VerifyHop(p, h, r)) && VerifyHop(p, h, r) != Ok(true)
  {
    hide VerifyText, KeyFor, GoodSignature, ResolveKey;
    forall key ensures KeyFor(r, h.hopSigningKeyId, key) <==> ResolveKey(r, h.hopSigningKeyId) == Some(key) {
      ResolvedKey(r, h.hopSigningKeyId, key);
    }
    if h.hopSignature.Some? && h.hopSignatureAlgorithm.Some? && ResolveKey(r, h.hopSigningKeyId).Some? {
      VerifyTextMeans(p, h.hopSignatureAlgorithm.value, ResolveKey(r, h.hopSigningKeyId).value, h.hopSignature.value,
                      h.hopHash);
    }
  }

  // ---------------------------------------------------------------------

  // The security section that signing an intact packet stores.
  function SignedSecurity(s: Security, signature: HexText, algorithm: string, keyId: string): Security {
    s.(signature := Some(signature), signatureAlgorithm := Some(algorithm), signingKeyId := Some(keyId))
  }

  lemma SignedSecurityNormal(s: Security, signature: HexText, algorithm: string, keyId: string)
    requires NormSecurity(s) == s && SecurityOk(s)
    requires algorithm in ALGORITHMS && Norm(algorithm) == algorithm && Strip(keyId) == keyId
    ensures NormSecurity(SignedSecurity(s, signature, algorithm, keyId))
            == SignedSecurity(s, signature, algorithm, keyId)
    ensures SecurityOk(SignedSecurity(s, signature, algorithm, keyId)) <==> keyId != ""
  {
    HexTextTrimmed(signature);
    assert Norm(s.classification) == s.classification && Norm(s.encryptionStatus) == s.encryptionStatus;
    assert Cleaned(Strip, s.piiFields) == s.piiFields;
  }

  lemma RecomputeIntact(p: Platform, k: Packet)
    requires IntegrityOk(p, k)
    ensures RecomputeCore(p, k)
            == k.(security := k.security.(signature := None, signatureAlgorithm := None, signingKeyId := None))
  {
    var bare := k.(security := k.security.(
      payloadHash := ComputePayloadHash(p, k.payload),
      signature := None, signatureAlgorithm := None, signingKeyId := None));
    HashIgnoresTrace(p, bare, k);
  }

  function Bare(s: Security): Security {
    s.(signature := None, signatureAlgorithm := None, signingKeyId := None)
  }

  lemma BareNormal(s: Security)
    requires NormSecurity(s) == s && SecurityOk(s)
    ensures NormSecurity(Bare(s)) == Bare(s) && SecurityOk(Bare(s))
  {
    assert Norm(s.classification) == s.classification && Norm(s.encryptionStatus) == s.encryptionStatus;
    assert Cleaned(Strip, s.piiFields) == s.piiFields;
  }

  lemma ResignedSecurity(s: Security, signature: HexText, algorithm: string, keyId: string)
    requires NormSecurity(s) == s && SecurityOk(s)
    requires algorithm in ALGORITHMS && Norm(algorithm) == algorithm && Strip(keyId) == keyId
    ensures var t := SignedSecurity(Bare(s), signature, algorithm, keyId);
            && t == SignedSecurity(s, signature, algorithm, keyId)
            && NewSecurity(t) == if keyId != "" then Ok(t) else Err(ValueError)
  {
    BareNormal(s);
    SignedSecurityNormal(Bare(s), signature, algorithm, keyId);
  }

  // Signing an intact packet changes the three signature fields and nothing
  // else; it succeeds exactly when the key signs and the key id is not blank.
  lemma SignTouchesSignatureOnly(p: Platform, k: Packet, key: string, keyId: string, algorithm: string)
    requires IntegrityOk(p, k) && NormSecurity(k.security) == k.security && SecurityOk(k.security)
    ensures var signed := SignText(p, Norm(algorithm), key, k.security.transportHash);
            SignPacket(p, k, key, keyId, algorithm)
            == if signed.Err? then Err(signed.error)
               else if Strip(keyId) == "" then Err(ValueError)
               else Ok(k.(security := SignedSecurity(k.security, signed.value, Norm(algorithm), Strip(keyId))))
  {
    RecomputeIntact(p, k);
    var core := RecomputeCore(p, k);
    assert core == k.(security := Bare(k.security));
    var signed := SignText(p, Norm(algorithm), key, k.security.transportHash);
    if signed.Ok? {
      NormIdempotent(algorithm);
      NormIdempotent(keyId);
      ResignedSecurity(k.security, signed.value, Norm(algorithm), Strip(keyId));
      assert core.security.(signature := Some(signed.value), signatureAlgorithm := Some(Norm(algorithm)),
                            signingKeyId := Some(Strip(keyId)))
          == SignedSecurity(Bare(k.security), signed.value, Norm(algorithm), Strip(keyId));
    }
  }

  // A freshly signed packet is intact and verifies under the matching key.
  lemma SignVerifies(p: Platform, k: Packet, key: string, keyId: string, algorithm: string, r: KeyResolver,
                     verifyKey: string)
    requires IntegrityOk(p, k) && NormSecurity(k.security) == k.security && SecurityOk(k.security)
    requires SignPacket(p, k, key, keyId, algorithm).Ok?
    requires KeyPair(p, Norm(algorithm), key, verifyKey) && ResolveKey(r, Some(Strip(keyId))) == Some(verifyKey)
    ensures var s := SignPacket(p, k, key, keyId, algorithm).value;
            IntegrityOk(p, s) && VerifyPacket(p, s, r) == Ok(true)
  {
    SignTouchesSignatureOnly(p, k, key, keyId, algorithm);
    var s := SignPacket(p, k, key, keyId, algorithm).value;
    HashIgnoresTrace(p, s, k);
    SignedTextVerifies(p, Norm(algorithm), key, verifyKey, k.security.transportHash);
  }

  // Two different messages with one MAC under one key.
  ghost predicate MacCollides(p: Platform, key: string, a: string, b: string) {
    a != b && p.mac(key, a) == p.mac(key, b)
  }

  // An HMAC signature commits to the content: if a signature made for one intact
  // packet verifies on another, both hold the same content, or two messages with
  // one MAC or two byte strings with one digest are exhibited.
  lemma SignatureCommits(p: Platform, a: Packet, b: Packet, key: string, r: KeyResolver)
    requires Lawful(p) && IntegrityOk(p, a) && IntegrityOk(p, b)
    requires a.security.signature == Some(p.mac(key, a.security.transportHash))
    requires b.security.signature == a.security.signature && b.security.signatureAlgorithm == Some("hmac-sha256")
    requires ResolveKey(r, b.security.signingKeyId) == Some(key) && VerifyPacket(p, b, r) == Ok(true)
    ensures SameContent(a, b) || Collides(p, EnvelopeBytes(p, a), EnvelopeBytes(p, b))
            || MacCollides(p, key, a.security.transportHash, b.security.transportHash)
  {
    hide IntegrityOk, SameContent, EnvelopeBytes;
    assert p.mac(key, a.security.transportHash) == p.mac(key, b.security.transportHash);
    if a.security.transportHash == b.security.transportHash {
      TransportHashCommits(p, a, b);
    }
  }
}
