/** Signing and verifying over the shared pre-authentication encoding. */
module Signing {
  import opened Prelude
  import opened Json
  import opened Dsse
  import opened Hashing
  import Base64
  import Canonical
  import JsonText
  import Utf8

  const HMAC_SCHEME := "hmac-sha256"
  const MIN_HMAC_KEY_BYTES := 32
  /** `mig-keyid-v1`. */
  const KEYID_DOMAIN: Bytes := [109, 105, 103, 45, 107, 101, 121, 105, 100, 45, 118, 49]

  datatype Signer = Signer(scheme: string, keyId: string, sign: Bytes -> Bytes)
  datatype Verifier = Verifier(scheme: string, keyId: string, verify: (Bytes, Bytes) -> bool)

  function HmacKeyId(sha: Sha, key: Bytes): string {
    var h := Hex(sha(KEYID_DOMAIN + key));
    if |h| < 16 then h else h[..16]
  }

  function HmacSigner(hmac: (Bytes, Bytes) -> Bytes, sha: Sha, key: Bytes): Result<Signer> {
    if |key| < MIN_HMAC_KEY_BYTES then Raised(OtherError)
    else Ok(Signer(HMAC_SCHEME, HmacKeyId(sha, key), message => hmac(key, message)))
  }

  function HmacVerifier(hmac: (Bytes, Bytes) -> Bytes, sha: Sha, key: Bytes): Result<Verifier> {
    if |key| < MIN_HMAC_KEY_BYTES then Raised(OtherError)
    else Ok(Verifier(HMAC_SCHEME, HmacKeyId(sha, key), (message, signature) => hmac(key, message) == signature))
  }

  /** The verifier accepts what the signer produces, under one scheme name. */
  ghost predicate Matching(s: Signer, v: Verifier) {
    s.scheme == v.scheme && forall m :: v.verify(m, s.sign(m))
  }

  /** One key on both sides: every signature is accepted, and no other bytes are. */
  lemma HmacMatches(hmac: (Bytes, Bytes) -> Bytes, sha: Sha, key: Bytes)
    ensures HmacSigner(hmac, sha, key).Ok? <==> |key| >= 32
    ensures HmacVerifier(hmac, sha, key).Ok? <==> |key| >= 32
    ensures |key| < 32 ==> HmacSigner(hmac, sha, key) == Raised(OtherError) && HmacVerifier(hmac, sha, key) == Raised(OtherError)
    ensures |key| >= 32 ==>
      var s, v := HmacSigner(hmac, sha, key).value, HmacVerifier(hmac, sha, key).value;
      && Matching(s, v) && s.keyId == v.keyId
      && forall m, sig :: v.verify(m, sig) <==> sig == s.sign(m)
  {
  }

  /** A key shows itself by the first eight bytes of a digest over the key behind a fixed prefix. */
  lemma HmacKeyIdIs(sha: Sha, key: Bytes, domain: string)
    requires IsSha256(sha) && domain == "mig-keyid-v1"
    ensures HmacKeyId(sha, key) == Hex(sha(Utf8.Encode(domain) + key)[..8])
  {
    DomainBytes(domain);
    HexStart(sha(KEYID_DOMAIN + key), 8);
  }

  lemma DomainBytes(domain: string)
    requires domain == "mig-keyid-v1"
    ensures Utf8.Encode(domain) == KEYID_DOMAIN
  {
    Utf8.EncodeAscii(domain);
  }

  lemma {:induction false} HexStart(b: Bytes, n: nat)
    requires n <= |b|
    ensures Hex(b[..n]) == Hex(b)[..2 * n]
  {
    if n > 0 {
      HexStart(b[1..], n - 1);
      assert b[..n][0] == b[0] && b[..n][1..] == b[1..][..n - 1];
      assert Hex(b)[2..] == Hex(b[1..]);
    }
  }

  /** `sign_statement`. */
  function SignStatement(statement: Json, s: Signer): Envelope {
    Sealed(Canonical.Encoding(statement), s)
  }

  /** `payload` in an envelope with one signature over its pre-authentication encoding. */
  function Sealed(payload: Bytes, s: Signer): Envelope {
    Envelope(PAYLOAD_TYPE, Base64.Encode(payload),
             [Signature(s.keyId, Base64.Encode(s.sign(Pae(Utf8.Encode(PAYLOAD_TYPE), payload))), s.scheme)])
  }

  /** `sig` is strict base64 of bytes the verifier accepts for `message`. */
  predicate Accepts(v: Verifier, message: Bytes, sig: Signature) {
    sig.scheme == v.scheme && Base64.Decode(sig.sig).Ok? && v.verify(message, Base64.Decode(sig.sig).value)
  }

  /** Some signature of the operator's scheme verifies over the pre-authentication encoding. */
  predicate Authentic(env: Envelope, v: Verifier) {
    SignedBytes(env).Ok? && exists s :: s in env.signatures && Accepts(v, SignedBytes(env).value, s)
  }

  /** `verify_envelope`. A payload that is signed but is not JSON text raises `ValueError`, not `VerificationError`. */
  function VerifyEnvelope(env: Envelope, v: Verifier): Result<Json> {
    if !Authentic(env, v) then Raised(VerificationError)
    else
      var statement :- JsonText.LoadsBytes(ExtractPayload(env).value);
      if statement.Obj? then Ok(statement) else Raised(VerificationError)
  }

  /** Under an HMAC key an envelope opens exactly when one of its signatures of that scheme is the code, under this key, of
      this payload under this payload type, and the payload is a JSON object; and what it opens to is that object. */
  lemma HmacOpensExactly(env: Envelope, hmac: (Bytes, Bytes) -> Bytes, sha: Sha, key: Bytes, statement: Json)
    requires |key| >= 32
    ensures VerifyEnvelope(env, HmacVerifier(hmac, sha, key).value) == Ok(statement) <==>
      ExtractPayload(env).Ok? && statement.Obj? && JsonText.LoadsBytes(ExtractPayload(env).value) == Ok(statement)
      && exists s :: s in env.signatures && s.scheme == "hmac-sha256"
           && Base64.Decode(s.sig) == Ok(hmac(key, Pae(Utf8.Encode(env.payloadType), ExtractPayload(env).value)))
  {
    var v := HmacVerifier(hmac, sha, key).value;
    if ExtractPayload(env).Ok? {
      var message := Pae(Utf8.Encode(env.payloadType), ExtractPayload(env).value);
      forall s ensures Accepts(v, message, s) <==> s.scheme == "hmac-sha256" && Base64.Decode(s.sig) == Ok(hmac(key, message))
      {
      }
    }
  }

  /** The candidate loop of `verify_envelope`: malformed signatures are passed over, the first good one ends it. */
  method CheckSignatures(env: Envelope, v: Verifier) returns (r: Result<Json>)
    ensures r == VerifyEnvelope(env, v)
  {
    var payload := ExtractPayload(env);
    if payload.Raised? {
      return Raised(VerificationError);
    }
    var message := Pae(Utf8.Encode(env.payloadType), payload.value);
    var candidates := Candidates(env.signatures, v.scheme);
    CandidatesAre(env.signatures, v.scheme);
    if candidates == [] {
      return Raised(VerificationError);
    }
    var verified := false;
    var i := 0;
    while i < |candidates| && !verified
      invariant 0 <= i <= |candidates|
      invariant verified ==> exists s :: s in candidates && Accepts(v, message, s)
      invariant !verified ==> forall k :: 0 <= k < i ==> !Accepts(v, message, candidates[k])
    {
      assert candidates[i] in candidates;
      var raw := Base64.Decode(candidates[i].sig);
      if raw.Ok? {
        if v.verify(message, raw.value) {
          verified := true;
        }
      }
      i := i + 1;
    }
    if !verified {
      return Raised(VerificationError);
    }
    var statement := JsonText.LoadsBytes(payload.value);
    if statement.Raised? {
      return statement;
    }
    if !statement.value.Obj? {
      return Raised(VerificationError);
    }
    return statement;
  }

  function Candidates(sigs: seq<Signature>, scheme: string): seq<Signature> {
    if sigs == [] then []
    else (if sigs[0].scheme == scheme then [sigs[0]] else []) + Candidates(sigs[1..], scheme)
  }

  lemma {:induction false} CandidatesAre(sigs: seq<Signature>, scheme: string)
    ensures forall s :: s in Candidates(sigs, scheme) <==> s in sigs && s.scheme == scheme
  {
    if sigs != [] {
      CandidatesAre(sigs[1..], scheme);
      assert sigs == [sigs[0]] + sigs[1..];
    }
  }

  /** What was signed verifies, and reads back as the same statement with its keys in order. */
  lemma VerifySigned(statement: Json, s: Signer, v: Verifier)
    requires Wf(statement) && statement.Obj? && Matching(s, v)
    ensures VerifyEnvelope(SignStatement(statement, s), v) == Ok(Norm(statement))
  {
    Canonical.LoadsOfCanonical(statement);
    VerifySealed(Canonical.Encoding(statement), Norm(statement), s, v);
  }

  lemma VerifySealed(payload: Bytes, statement: Json, s: Signer, v: Verifier)
    requires JsonText.LoadsBytes(payload) == Ok(statement) && statement.Obj? && Matching(s, v)
    ensures VerifyEnvelope(Sealed(payload, s), v) == Ok(statement)
  {
    assert Authentic(Sealed(payload, s), v) by { AcceptsSigned(payload, s, v); }
    SignedBytesOfSigned(payload, s);
  }

  lemma SignedBytesOfSigned(payload: Bytes, s: Signer)
    ensures ExtractPayload(Sealed(payload, s)) == Ok(payload)
    ensures SignedBytes(Sealed(payload, s)) == Ok(Pae(Utf8.Encode(PAYLOAD_TYPE), payload))
  {
    Base64.DecodeInvertsEncode(payload);
  }

  lemma AcceptsSigned(payload: Bytes, s: Signer, v: Verifier)
    requires Matching(s, v)
    ensures Authentic(Sealed(payload, s), v)
  {
    var env := Sealed(payload, s);
    SignedBytesOfSigned(payload, s);
    assert env.signatures[0] in env.signatures;
    Base64.DecodeInvertsEncode(s.sign(Pae(Utf8.Encode(PAYLOAD_TYPE), payload)));
  }
}
