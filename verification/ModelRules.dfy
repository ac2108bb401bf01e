// What each model's constructor takes and what it returns, field by field:
// transport/models.py, transport/tenant.py and transport/provenance.py.
module ModelRules {
  import opened Wrappers
  import opened Strings
  import opened Models

  // ---------------------------------------------------------------------
  // Texts
  // ---------------------------------------------------------------------

  predicate AllOf(s: string, drop: char -> bool) {
    forall i :: 0 <= i < |s| ==> drop(s[i])
  }

  // Stripping takes the characters to drop off both ends, and nothing else.
  lemma StripExactly(s: string, drop: char -> bool, t: string)
    ensures StripChars(s, drop) == t
            <==> Trimmed(t, drop) && exists a, b :: AllOf(a, drop) && AllOf(b, drop) && s == a + t + b
  {
    hide StripChars, Trimmed, AllOf;
    if StripChars(s, drop) == t {
      var a, b := StripLeaves(s, drop);
      assert AllOf(a, drop) && AllOf(b, drop) && s == a + t + b;
    }
    if a, b :| Trimmed(t, drop) && AllOf(a, drop) && AllOf(b, drop) && s == a + t + b {
      StripOf(a, t, b, drop);
    }
  }

  lemma {:induction false} LeftTaken(s: string, drop: char -> bool)
    ensures exists a :: AllOf(a, drop) && s == a + StripLeft(s, drop)
  {
    hide StripLeft;
    StripLeftSpec(s, drop);
    var n := |s| - |StripLeft(s, drop)|;
    assert AllOf(s[..n], drop) && s == s[..n] + s[n..];
  }

  lemma {:induction false} RightTaken(s: string, drop: char -> bool)
    ensures exists b :: AllOf(b, drop) && s == StripRight(s, drop) + b
  {
    hide StripRight;
    StripRightSpec(s, drop);
    var n := |StripRight(s, drop)|;
    assert AllOf(s[n..], drop) && s == s[..n] + s[n..];
  }

  lemma StripLeaves(s: string, drop: char -> bool) returns (a: string, b: string)
    ensures Trimmed(StripChars(s, drop), drop) && AllOf(a, drop) && AllOf(b, drop) && s == a + StripChars(s, drop) + b
  {
    hide AllOf, StripLeft, StripRight, Trimmed;
    StripTrims(s, drop);
    LeftTaken(s, drop);
    a :| AllOf(a, drop) && s == a + StripLeft(s, drop);
    RightTaken(StripLeft(s, drop), drop);
    b :| AllOf(b, drop) && StripLeft(s, drop) == StripChars(s, drop) + b;
  }

  lemma StripOf(a: string, t: string, b: string, drop: char -> bool)
    requires Trimmed(t, drop) && AllOf(a, drop) && AllOf(b, drop)
    ensures StripChars(a + t + b, drop) == t
  {
    assert a + t + b == a + (t + b);
    StripLeftStops(a, t + b, drop);
    if t == "" {
      StripLeftStops(b, "", drop);
      assert t + b == b && b + "" == b;
    } else {
      assert StripLeft(t + b, drop) == t + b;
      StripRightStops(t, b, drop);
    }
  }

  lemma {:induction false} StripLeftStops(a: string, t: string, drop: char -> bool)
    requires AllOf(a, drop)
    ensures StripLeft(a + t, drop) == StripLeft(t, drop)
  {
    if a != "" {
      assert (a + t)[1..] == a[1..] + t;
      StripLeftStops(a[1..], t, drop);
    } else {
      assert a + t == t;
    }
  }

  lemma {:induction false} StripRightStops(t: string, b: string, drop: char -> bool)
    requires AllOf(b, drop)
    ensures StripRight(t + b, drop) == StripRight(t, drop)
  {
    if b != "" {
      assert (t + b)[..|t + b| - 1] == t + b[..|b| - 1];
      StripRightStops(t, b[..|b| - 1], drop);
    } else {
      assert t + b == t;
    }
  }

  // What str.strip() takes off: the whitespace characters of Unicode and the four
  // information separators.
  lemma SpacesExactly(c: char)
    ensures IsSpace(c) <==> c in "\t\n\U{b}\U{c}\r\U{1c}\U{1d}\U{1e}\U{1f} \U{85}\U{a0}\U{1680}"
                            || c in "\U{2000}\U{2001}\U{2002}\U{2003}\U{2004}\U{2005}\U{2006}\U{2007}\U{2008}"
                            || c in "\U{2009}\U{200a}\U{2028}\U{2029}\U{202f}\U{205f}\U{3000}"
    ensures forall s :: Strip(s) == StripChars(s, IsSpace)
  {
  }

  const CAPITALS := "ABCDEFGHIJKLMNOPQRSTUVWXYZ"
  const LETTERS := "abcdefghijklmnopqrstuvwxyz"
  const DIGITS := "0123456789"

  // Case maps one alphabet onto the other and leaves every other character alone.
  lemma CaseExactly(s: string, i: nat)
    requires i < |s|
    ensures |CAPITALS| == |LETTERS| && |Lower(s)| == |Upper(s)| == |s|
    ensures s[i] !in CAPITALS ==> Lower(s)[i] == s[i]
    ensures s[i] !in LETTERS ==> Upper(s)[i] == s[i]
    ensures forall j :: 0 <= j < |LETTERS| ==>
      (s[i] == CAPITALS[j] ==> Lower(s)[i] == LETTERS[j]) && (s[i] == LETTERS[j] ==> Upper(s)[i] == CAPITALS[j])
  {
    AlphabetsMeet();
    CaseMaps(s, i, CAPITALS, LETTERS);
  }

  lemma CaseMaps(s: string, i: nat, capitals: string, letters: string)
    requires i < |s| && |capitals| == |letters| == 26
    requires forall j :: 0 <= j < 26 ==> capitals[j] as int == 'A' as int + j && letters[j] as int == 'a' as int + j
    ensures s[i] !in capitals ==> Lower(s)[i] == s[i]
    ensures s[i] !in letters ==> Upper(s)[i] == s[i]
    ensures forall j :: 0 <= j < 26 ==>
      (s[i] == capitals[j] ==> Lower(s)[i] == letters[j]) && (s[i] == letters[j] ==> Upper(s)[i] == capitals[j])
  {
    if 'A' <= s[i] <= 'Z' {
      assert capitals[s[i] as int - 'A' as int] == s[i];
    }
    if 'a' <= s[i] <= 'z' {
      assert letters[s[i] as int - 'a' as int] == s[i];
    }
  }

  lemma AlphabetsMeet()
    ensures |CAPITALS| == |LETTERS| == 26
    ensures forall j :: 0 <= j < 26 ==> CAPITALS[j] as int == 'A' as int + j && LETTERS[j] as int == 'a' as int + j
  {
  }

  // Names of actions are made of lower-case letters, digits, dots, underscores and
  // hyphens, start with a letter or a digit, and have at most 64 characters.
  lemma ActionNameExactly(s: string)
    ensures ActionName(s)
            <==> && 1 <= |s| <= 64 && s[0] in LETTERS + DIGITS
                 && forall i :: 0 <= i < |s| ==> s[i] in LETTERS + DIGITS + "._-"
  {
    AlphabetsMeet();
    DigitsMeet();
    forall i | 0 <= i < |s|
      ensures s[i] in LETTERS <==> 'a' <= s[i] <= 'z'
      ensures s[i] in DIGITS <==> '0' <= s[i] <= '9'
    {
      if 'a' <= s[i] <= 'z' { assert LETTERS[s[i] as int - 'a' as int] == s[i]; }
      if '0' <= s[i] <= '9' { assert DIGITS[s[i] as int - '0' as int] == s[i]; }
    }
  }

  lemma DigitsMeet()
    ensures |DIGITS| == 10 && forall j :: 0 <= j < 10 ==> DIGITS[j] as int == '0' as int + j
  {
  }

  // Names are trimmed and put in lower case, compliance tags in upper case.
  lemma NormsExactly(a: string, t: string, b: string)
    requires AllOf(a, IsSpace) && AllOf(b, IsSpace) && Trimmed(t, IsSpace)
    ensures Strip(a + t + b) == t && Norm(a + t + b) == Lower(t) && Shout(a + t + b) == Upper(t)
  {
    StripOf(a, t, b, IsSpace);
  }

  // A text of `n` lower-case hexadecimal digits.
  predicate HexDigits(s: string, n: nat) {
    |s| == n && forall i :: 0 <= i < n ==> s[i] in "0123456789abcdef"
  }

  lemma HexExactly(c: char)
    ensures IsHex(c) <==> c in "0123456789abcdef"
  {
    var digits := "0123456789abcdef";
    assert forall i :: 0 <= i < 16 ==> digits[i] as int == if i < 10 then '0' as int + i else 'a' as int + i - 10;
    if '0' <= c <= '9' { assert digits[c as int - '0' as int] == c; }
    if 'a' <= c <= 'f' { assert digits[c as int - 'a' as int + 10] == c; }
  }

  lemma HexDigitsAre(s: string)
    ensures HexDigits(s, |s|) <==> forall i :: 0 <= i < |s| ==> IsHex(s[i])
  {
    hide IsHex;
    forall i | 0 <= i < |s| ensures IsHex(s[i]) <==> s[i] in "0123456789abcdef" {
      HexExactly(s[i]);
    }
  }

  lemma DigestExactly(s: string)
    ensures IsDigest(s) <==> HexDigits(s, 64)
  {
    hide IsHex;
    HexDigitsAre(s);
  }

  lemma UuidGroups(s: string)
    requires IsUuid(s)
    ensures s == s[..8] + "-" + s[9..13] + "-" + s[14..18] + "-" + s[19..23] + "-" + s[24..]
    ensures HexDigits(s[..8], 8) && HexDigits(s[9..13], 4) && HexDigits(s[14..18], 4) && HexDigits(s[19..23], 4)
    ensures HexDigits(s[24..], 12)
  {
    hide IsHex, HexDigits;
    HexDigitsAre(s[..8]);
    HexDigitsAre(s[9..13]);
    HexDigitsAre(s[14..18]);
    HexDigitsAre(s[19..23]);
    HexDigitsAre(s[24..]);
  }

  // The five groups of an id.
  predicate Grouped(s: string, a: string, b: string, c: string, d: string, e: string) {
    && s == a + "-" + b + "-" + c + "-" + d + "-" + e
    && HexDigits(a, 8) && HexDigits(b, 4) && HexDigits(c, 4) && HexDigits(d, 4) && HexDigits(e, 12)
  }

  lemma GroupedIsUuid(s: string, a: string, b: string, c: string, d: string, e: string)
    requires Grouped(s, a, b, c, d, e)
    ensures IsUuid(s)
  {
    HexDigitsAre(a);
    HexDigitsAre(b);
    HexDigitsAre(c);
    HexDigitsAre(d);
    HexDigitsAre(e);
    hide IsHex;
    assert |a| == 8 && |b| == 4 && |c| == 4 && |d| == 4 && |e| == 12;
  }

  lemma UuidExactly(s: string)
    ensures IsUuid(s) <==> exists a, b, c, d, e :: Grouped(s, a, b, c, d, e)
  {
    hide HexDigits;
    if IsUuid(s) {
      UuidGroups(s);
      assert Grouped(s, s[..8], s[9..13], s[14..18], s[19..23], s[24..]);
    }
    hide Grouped, IsUuid;
    if a, b, c, d, e :| Grouped(s, a, b, c, d, e) {
      GroupedIsUuid(s, a, b, c, d, e);
    }
  }

  // What stays of an optional text: its trimmed form, which must not be blank.
  predicate Stays(given: Option<string>, kept: Option<string>, normal: string -> string) {
    match given
    case None => kept.None?
    case Some(s) => Strip(s) != "" && kept == Some(normal(s))
  }

  // Blank items are dropped and the others put in normal form, in order.
  lemma {:induction false} CleanedMeans(f: string -> string, items: seq<string>, item: string)
    ensures Cleaned(f, []) == []
    ensures Cleaned(f, items + [item]) == Cleaned(f, items) + (if Strip(item) == "" then [] else [f(item)])
  {
    hide Strip;
    var last := if Strip(item) == "" then [] else [f(item)];
    if items == [] {
      assert items + [item] == [item] && [item][1..] == [];
      assert Cleaned(f, [item]) == last + Cleaned(f, []) == last;
      assert Cleaned(f, items) + last == last;
    } else {
      CleanedMeans(f, items[1..], item);
      assert (items + [item])[0] == items[0] && (items + [item])[1..] == items[1..] + [item];
    }
  }

  // ---------------------------------------------------------------------
  // The models
  // ---------------------------------------------------------------------

  // The header that a constructor returns for `h`, if it returns one.
  predicate HeaderMade(h: Header, r: Header) {
    && Norm(h.packetType) in {"request", "response", "event", "command", "delegation", "failure", "replay_request",
                              "replay_response", "compensation"}
    && ActionName(Norm(h.action)) && 0 <= h.priority <= 3 && h.timeoutMs >= 1 && h.retryCount >= 0
    && Strip(h.schemaVersion) != ""
    && (h.expiresAt.Some? ==> h.createdAt < h.expiresAt.value)
    && (h.notBefore.Some? ==> h.createdAt <= h.notBefore.value)
    && Stays(h.idempotencyKey, r.idempotencyKey, Strip) && Stays(h.traceId, r.traceId, Strip)
    && Stays(h.correlationId, r.correlationId, Strip)
    && r.packetType == Norm(h.packetType) && r.action == Norm(h.action) && r.schemaVersion == Strip(h.schemaVersion)
    && r.packetId == h.packetId && r.priority == h.priority && r.createdAt == h.createdAt && r.expiresAt == h.expiresAt
    && r.timeoutMs == h.timeoutMs && r.causationId == h.causationId && r.retryCount == h.retryCount
    && r.replayMode == h.replayMode && r.notBefore == h.notBefore
  }

  lemma HeaderExactly(h: Header, r: Header)
    ensures NewHeader(h) == Ok(r) <==> HeaderMade(h, r)
    ensures (forall x :: !HeaderMade(h, x)) ==> NewHeader(h) == Err(ValueError)
  {
    hide Norm, Strip, ActionName;
    assert NewHeader(h).Ok? ==> HeaderMade(h, NewHeader(h).value);
  }

  predicate AddressMade(a: Address, r: Address) {
    && Norm(a.sourceNode) != "" && Norm(a.destinationNode) != "" && Norm(a.replyTo) != ""
    && r.sourceNode == Norm(a.sourceNode) && r.destinationNode == Norm(a.destinationNode)
    && r.replyTo == Norm(a.replyTo)
  }

  lemma AddressExactly(a: Address, r: Address)
    ensures NewAddress(a) == Ok(r) <==> AddressMade(a, r)
    ensures (forall x :: !AddressMade(a, x)) ==> NewAddress(a) == Err(ValueError)
  {
    hide Norm;
    assert NewAddress(a).Ok? ==> AddressMade(a, NewAddress(a).value);
  }

  predicate TenantMade(t: Tenant, r: Tenant) {
    && Strip(t.actor) != "" && Strip(t.onBehalfOf) != "" && Strip(t.originator) != "" && Strip(t.orgId) != ""
    && r.actor == Strip(t.actor) && r.onBehalfOf == Strip(t.onBehalfOf) && r.originator == Strip(t.originator)
    && r.orgId == Strip(t.orgId) && Stays(t.userId, r.userId, Strip)
  }

  lemma TenantExactly(t: Tenant, r: Tenant)
    ensures NewTenant(t) == Ok(r) <==> TenantMade(t, r)
    ensures (forall x :: !TenantMade(t, x)) ==> NewTenant(t) == Err(ValueError)
  {
    hide Strip;
    assert NewTenant(t).Ok? ==> TenantMade(t, NewTenant(t).value);
  }

  predicate NoRepeats(ss: seq<string>) {
    forall i, j :: 0 <= i < |ss| && 0 <= j < |ss| && ss[i] == ss[j] ==> i == j
  }

  predicate SecurityMade(s: Security, r: Security) {
    && Stays(s.signature, r.signature, Strip) && Stays(s.signingKeyId, r.signingKeyId, Strip)
    && (match s.signatureAlgorithm
        case None => r.signatureAlgorithm.None?
        case Some(a) => Norm(a) in {"hmac-sha256", "ed25519"} && r.signatureAlgorithm == Some(Norm(a)))
    && (s.signature.Some? <==> s.signatureAlgorithm.Some?)
    && Norm(s.classification) in {"public", "internal", "confidential", "restricted"}
    && Norm(s.encryptionStatus) in {"plaintext", "encrypted", "envelope_only"}
    && r.classification == Norm(s.classification) && r.encryptionStatus == Norm(s.encryptionStatus)
    && r.piiFields == Cleaned(Strip, s.piiFields) && NoRepeats(r.piiFields)
    && r.payloadHash == s.payloadHash && r.transportHash == s.transportHash
  }

  lemma SecurityExactly(s: Security, r: Security)
    ensures NewSecurity(s) == Ok(r) <==> SecurityMade(s, r)
    ensures (forall x :: !SecurityMade(s, x)) ==> NewSecurity(s) == Err(ValueError)
  {
    hide Norm, Strip, Cleaned;
    assert NewSecurity(s).Ok? ==> SecurityMade(s, NewSecurity(s).value);
  }

  predicate GovernanceMade(g: Governance, r: Governance) {
    && Norm(g.intent) != "" && g.retentionDays >= 0 && Stays(g.dataSubjectId, r.dataSubjectId, Strip)
    && r.intent == Norm(g.intent) && r.complianceTags == Cleaned(Shout, g.complianceTags) && NoRepeats(r.complianceTags)
    && r.retentionDays == g.retentionDays && r.redactionApplied == g.redactionApplied
    && r.auditRequired == g.auditRequired
  }

  lemma GovernanceExactly(g: Governance, r: Governance)
    ensures NewGovernance(g) == Ok(r) <==> GovernanceMade(g, r)
    ensures (forall x :: !GovernanceMade(g, x)) ==> NewGovernance(g) == Err(ValueError)
  {
    hide Norm, Strip, Cleaned;
    assert NewGovernance(g).Ok? ==> GovernanceMade(g, NewGovernance(g).value);
  }

  predicate ProvenanceMade(v: Provenance, r: Provenance) {
    && Norm(v.originKind) in {"client", "node", "gate"} && Norm(v.requestedAction) != ""
    && (v.routeKind.Some? ==> Norm(v.routeKind.value) in {"external_ingress", "gate_relay"})
    && r.originKind == Norm(v.originKind) && r.requestedAction == Norm(v.requestedAction)
    && r.resolvedByGate == v.resolvedByGate
    && r.routeKind == (if v.routeKind.Some? then Some(Norm(v.routeKind.value)) else None)
    && Stays(v.originalSourceNode, r.originalSourceNode, Norm)
  }

  lemma ProvenanceExactly(v: Provenance, r: Provenance)
    ensures NewProvenance(v) == Ok(r) <==> ProvenanceMade(v, r)
    ensures (forall x :: !ProvenanceMade(v, x)) ==> NewProvenance(v) == Err(ValueError)
  {
    hide Norm, Strip;
    if v.originalSourceNode.Some? {
      NormIdempotent(v.originalSourceNode.value);
    }
    assert NewProvenance(v).Ok? ==> ProvenanceMade(v, NewProvenance(v).value);
  }

  predicate AttachmentMade(a: Attachment, r: Attachment) {
    && Strip(a.mediaType) != "" && Strip(a.uri) != "" && a.sizeBytes >= 0
    && r == Attachment(a.attachmentId, Strip(a.mediaType), Strip(a.uri), a.contentHash, a.encrypted, a.sizeBytes)
  }

  lemma AttachmentExactly(a: Attachment, r: Attachment)
    ensures NewAttachment(a) == Ok(r) <==> AttachmentMade(a, r)
    ensures (forall x :: !AttachmentMade(a, x)) ==> NewAttachment(a) == Err(ValueError)
  {
    hide Strip;
    assert NewAttachment(a).Ok? ==> AttachmentMade(a, NewAttachment(a).value);
  }

  predicate LinkMade(l: Link, r: Link) {
    && Norm(l.delegator) != "" && Norm(l.delegatee) != "" && Stays(l.proof, r.proof, Strip)
    && (l.expiresAt.Some? ==> l.grantedAt < l.expiresAt.value)
    && r.delegator == Norm(l.delegator) && r.delegatee == Norm(l.delegatee)
    && r.scope == Cleaned(Norm, l.scope) && r.scope != [] && NoRepeats(r.scope)
    && r.grantedAt == l.grantedAt && r.expiresAt == l.expiresAt && r.constraints == l.constraints
  }

  lemma LinkExactly(l: Link, r: Link)
    ensures NewLink(l) == Ok(r) <==> LinkMade(l, r)
    ensures (forall x :: !LinkMade(l, x)) ==> NewLink(l) == Err(ValueError)
  {
    hide Norm, Strip, Cleaned;
    assert NewLink(l).Ok? ==> LinkMade(l, NewLink(l).value);
  }

  // The rules that relate a hop's fields: a dispatch names its target, a failure
  // its error, and signature, algorithm and key id come together.
  predicate HopRelated(h: Hop) {
    && (Norm(h.direction) == "dispatch" ==> h.targetNode.Some?)
    && (Norm(h.status) == "failed" ==> h.errorCode.Some? || h.errorMessage.Some?)
    && (h.hopSignature.Some? <==> h.hopSignatureAlgorithm.Some?)
    && (h.hopSignature.Some? <==> h.hopSigningKeyId.Some?)
  }

  predicate Counts(h: Hop) {
    && (h.attempt.Some? ==> 1 <= h.attempt.value) && (h.durationMs.Some? ==> 0 <= h.durationMs.value)
    && (h.queueMs.Some? ==> 0 <= h.queueMs.value) && (h.networkMs.Some? ==> 0 <= h.networkMs.value)
  }

  predicate HopMade(h: Hop, r: Hop) {
    && Norm(h.node) != "" && Norm(h.action) != ""
    && Norm(h.direction) in {"ingress", "dispatch", "execution", "response"}
    && Norm(h.status) in {"received", "validated", "processing", "delegated", "completed", "failed"}
    && Counts(h) && HopRelated(h)
    && Stays(h.targetNode, r.targetNode, Strip) && Stays(h.errorCode, r.errorCode, Strip)
    && Stays(h.errorMessage, r.errorMessage, Strip) && Stays(h.hopSignature, r.hopSignature, Strip)
    && Stays(h.hopSigningKeyId, r.hopSigningKeyId, Strip)
    && (match h.hopSignatureAlgorithm
        case None => r.hopSignatureAlgorithm.None?
        case Some(a) => Norm(a) in {"hmac-sha256", "ed25519"} && r.hopSignatureAlgorithm == Some(Norm(a)))
    && r.node == Norm(h.node) && r.action == Norm(h.action) && r.direction == Norm(h.direction)
    && r.status == Norm(h.status) && r.hopId == h.hopId && r.packetId == h.packetId && r.timestamp == h.timestamp
    && r.attempt == h.attempt && r.durationMs == h.durationMs && r.queueMs == h.queueMs && r.networkMs == h.networkMs
    && r.previousHopHash == h.previousHopHash && r.hopHash == h.hopHash
  }

  lemma HopExactly(h: Hop, r: Hop)
    ensures NewHop(h) == Ok(r) <==> HopMade(h, r)
    ensures (forall x :: !HopMade(h, x)) ==> NewHop(h) == Err(ValueError)
  {
    hide Norm, Strip;
    assert NewHop(h).Ok? ==> HopMade(h, NewHop(h).value);
  }
}
