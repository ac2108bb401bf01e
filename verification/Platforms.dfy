// What the transport takes from outside: the digest, keyed signatures and the
// textual form of a time. All are arbitrary functions with the stated laws; no
// function is assumed collision-free.
module Platforms {
  import opened Wrappers
  import opened Strings
  import opened Models

  predicate IsHexText(s: string) {
    s != "" && forall i :: 0 <= i < |s| ==> IsHex(s[i])
  }

  type HexText = s: string | IsHexText(s) witness "0"

  datatype Platform = Platform(
    hash: seq<Byte> -> Digest,                    // hashlib.sha256(data).hexdigest()
    isoformat: Time -> string,                    // the time text that is hashed
    wireTime: Time -> string,                     // the time text that is sent
    readTime: string -> Option<Time>,             // the parser on the receiving side
    mac: (string, string) -> HexText,             // HMAC-SHA256 (key, message)
    edLoads: string -> Result<()>,                // loading an Ed25519 private key, and what that raises
    edReads: string -> Result<()>,                // the same for a public key
    edSign: (string, string) -> HexText,          // Ed25519 (key, message)
    edVerify: (string, string, string) -> bool)   // Ed25519 (key, signature, message)

  // A written time reads back.
  ghost predicate Lawful(p: Platform) {
    forall t :: p.readTime(p.isoformat(t)) == Some(t) && p.readTime(p.wireTime(t)) == Some(t)
  }

  // What `verifyKey` accepts is what `signKey` produced.
  ghost predicate KeyPair(p: Platform, algorithm: string, signKey: string, verifyKey: string) {
    && (algorithm == "hmac-sha256" ==> signKey == verifyKey)
    && (algorithm == "ed25519" ==>
      p.edLoads(signKey).Ok? ==> p.edReads(verifyKey).Ok? && forall m :: p.edVerify(verifyKey, p.edSign(signKey, m), m))
  }

  // Two different byte strings with one digest.
  ghost predicate Collides(p: Platform, a: seq<Byte>, b: seq<Byte>) {
    a != b && p.hash(a) == p.hash(b)
  }
}
