/** The DSSE envelope and its pre-authentication encoding (DSSE v1 protocol, "Signature Definition"). */
module Dsse {
  import opened Prelude
  import opened Json
  import Base64
  import Canonical
  import Utf8
  import opened JsonText

  const PAYLOAD_TYPE := "application/vnd.in-toto+json"

  datatype Signature = Signature(keyid: string, sig: string, scheme: string)
  datatype Envelope = Envelope(payloadType: string, payload: string, signatures: seq<Signature>)

  const SP: byte := 32
  /** `DSSEv1` and the space after it. */
  const HEADER: Bytes := [68, 83, 83, 69, 118, 49, 32]

  /** `str(n).encode("ascii")`. */
  function Decimal(n: nat): (b: Bytes)
    ensures b != []
  {
    if n < 10 then [48 + n] else Decimal(n / 10) + [48 + n % 10]
  }

  function Pae(payloadType: Bytes, payload: Bytes): Bytes {
    HEADER + (Decimal(|payloadType|) + ([SP] + (payloadType + ([SP] + (Decimal(|payload|) + ([SP] + payload))))))
  }

  function ExtractPayload(env: Envelope): Result<Bytes> { Base64.Decode(env.payload) }

  function SignedBytes(env: Envelope): Result<Bytes> {
    match ExtractPayload(env)
    case Raised(e) => Raised(e)
    case Ok(payload) => Ok(Pae(Utf8.Encode(env.payloadType), payload))
  }

  // ---- reading a PAE back --------------------------------------------------

  function ReadDecimal(acc: nat, b: Bytes): (nat, Bytes)
    decreases |b|
  {
    if b != [] && 48 <= b[0] < 58 then ReadDecimal(acc * 10 + (b[0] as int - 48), b[1..]) else (acc, b)
  }

  /** One field: its length, a space, that many bytes. */
  function ReadField(b: Bytes): Option<(Bytes, Bytes)> {
    var (n, rest) := ReadDecimal(0, b);
    if rest == [] || rest[0] != SP || |rest| < 1 + n then None
    else Some((rest[1..1 + n], rest[1 + n..]))
  }

  function ReadPae(b: Bytes): Option<(Bytes, Bytes)> {
    if |b| < 7 || b[..7] != HEADER then None
    else match ReadField(b[7..])
      case None => None
      case Some((payloadType, rest)) =>
        if rest == [] || rest[0] != SP then None
        else match ReadField(rest[1..])
          case None => None
          case Some((payload, rest2)) => if rest2 == [] then Some((payloadType, payload)) else None
  }

  lemma {:induction false} ReadDecimalOfDecimal(n: nat, rest: Bytes)
    ensures ReadDecimal(0, Decimal(n) + rest) == ReadDecimal(n, rest)
  {
    if n < 10 {
      assert (Decimal(n) + rest)[1..] == rest;
    } else {
      var last: byte := 48 + n % 10;
      var more := [last] + rest;
      assert Decimal(n) + rest == Decimal(n / 10) + more;
      ReadDecimalOfDecimal(n / 10, more);
      assert more[1..] == rest;
    }
  }

  lemma TakeField(field: Bytes, rest: Bytes)
    ensures var tail := [SP] + (field + rest); tail[1..1 + |field|] == field && tail[1 + |field|..] == rest
  {
  }

  lemma ReadFieldOfField(field: Bytes, rest: Bytes)
    ensures ReadField(Decimal(|field|) + ([SP] + (field + rest))) == Some((field, rest))
  {
    var tail := [SP] + (field + rest);
    ReadDecimalOfDecimal(|field|, tail);
    assert ReadDecimal(|field|, tail) == (|field|, tail);
    TakeField(field, rest);
  }

  /** The length prefixes can be read back without ambiguity, whatever bytes the fields hold. */
  lemma ReadPaeOfPae(payloadType: Bytes, payload: Bytes)
    ensures ReadPae(Pae(payloadType, payload)) == Some((payloadType, payload))
  {
    var second := Decimal(|payload|) + ([SP] + payload);
    var first := Decimal(|payloadType|) + ([SP] + (payloadType + ([SP] + second)));
    var all := Pae(payloadType, payload);
    assert all == HEADER + first;
    assert all[..7] == HEADER && all[7..] == first;
    ReadFieldOfField(payloadType, [SP] + second);
    assert ([SP] + second)[1..] == second;
    assert payload + [] == payload;
    ReadFieldOfField(payload, []);
  }

  lemma PaeInjective(t1: Bytes, p1: Bytes, t2: Bytes, p2: Bytes)
    ensures Pae(t1, p1) == Pae(t2, p2) <==> t1 == t2 && p1 == p2
  {
    ReadPaeOfPae(t1, p1);
    ReadPaeOfPae(t2, p2);
  }

  /** The encoding, as text around the two fields: `DSSEv1`, then each field behind its length in decimal. */
  lemma PaeIs(t: Bytes, p: Bytes)
    ensures Pae(t, p) ==
      Utf8.Encode("DSSEv1 ") + Utf8.Encode(Digits(|t|)) + [32] + t + [32] + Utf8.Encode(Digits(|p|)) + [32] + p
  {
    HeaderBytes("DSSEv1 ");
    DecimalIsDigits(|t|);
    DecimalIsDigits(|p|);
    Flatten(HEADER, Decimal(|t|), [SP], t, Decimal(|p|), p);
  }

  lemma Flatten(h: Bytes, a: Bytes, s: Bytes, t: Bytes, b: Bytes, p: Bytes)
    ensures h + (a + (s + (t + (s + (b + (s + p)))))) == h + a + s + t + s + b + s + p
  {
    var x := b + (s + p);
    assert h + a + s + t + s + b + s + p == h + a + s + t + s + x;
    var y := t + (s + x);
    assert h + a + s + t + s + x == h + a + s + y;
    assert h + a + s + y == h + (a + (s + y));
  }

  lemma HeaderBytes(s: string)
    requires s == "DSSEv1 "
    ensures Utf8.Encode(s) == HEADER
  {
    Utf8.EncodeAscii(s);
  }

  lemma {:induction false} DecimalIsDigits(n: nat)
    ensures Decimal(n) == Utf8.Encode(Digits(n))
  {
    var d: string := [Digit(n % 10)];
    assert Utf8.Encode(d) == [48 + n % 10] by { assert d[1..] == ""; }
    if n >= 10 {
      DecimalIsDigits(n / 10);
      Utf8.EncodeConcat(Digits(n / 10), d);
    }
  }

  /** The encoding that the repository's own tests fix, for a payload type of 28 bytes and a payload of 7. */
  lemma PaeGolden(t: Bytes, p: Bytes, head: string, middle: string)
    requires |t| == 28 && |p| == 7 && head == "DSSEv1 28 " && middle == " 7 "
    ensures Pae(t, p) == Utf8.Encode(head) + t + Utf8.Encode(middle) + p
  {
    GoldenParts(head, middle);
    PaeParts(t, p, Utf8.Encode(head), Utf8.Encode(middle));
  }

  lemma GoldenParts(head: string, middle: string)
    requires head == "DSSEv1 28 " && middle == " 7 "
    ensures Utf8.Encode(head) == HEADER + (Decimal(28) + [SP]) && Utf8.Encode(middle) == [SP] + (Decimal(7) + [SP])
  {
    Utf8.EncodeAscii(head);
    Utf8.EncodeAscii(middle);
    assert Decimal(28) == [50, 56] by { assert Decimal(28 / 10) == [50]; }
  }

  lemma PaeParts(t: Bytes, p: Bytes, head: Bytes, middle: Bytes)
    requires head == HEADER + (Decimal(|t|) + [SP]) && middle == [SP] + (Decimal(|p|) + [SP])
    ensures Pae(t, p) == head + t + middle + p
  {
  }

  /** Equal signed bytes mean equal payload type and equal payload bytes; the payload texts agree too when
      neither has stray base64 bits or excess padding. */
  lemma SignedBytesBind(a: Envelope, b: Envelope)
    requires SignedBytes(a).Ok? && SignedBytes(b).Ok?
    ensures SignedBytes(a) == SignedBytes(b) <==>
      a.payloadType == b.payloadType && ExtractPayload(a) == ExtractPayload(b)
    ensures SignedBytes(a) == SignedBytes(b) && Base64.Exact(a.payload) && Base64.Exact(b.payload)
      ==> a.payload == b.payload
  {
    PaeInjective(Utf8.Encode(a.payloadType), ExtractPayload(a).value, Utf8.Encode(b.payloadType), ExtractPayload(b).value);
    if a.payloadType != b.payloadType && Utf8.Encode(a.payloadType) == Utf8.Encode(b.payloadType) {
      Utf8.EncodeInjective(a.payloadType, b.payloadType);
    }
    Base64.EncodeInvertsDecode(a.payload);
    Base64.EncodeInvertsDecode(b.payload);
  }

  // ---- the envelope on disk ------------------------------------------------

  function EncodeSignature(s: Signature): Json {
    Obj([Member("keyid", Str(s.keyid)), Member("sig", Str(s.sig)), Member("scheme", Str(s.scheme))])
  }

  function EncodeSignatures(sigs: seq<Signature>): (r: seq<Json>)
    ensures |r| == |sigs|
  {
    if sigs == [] then [] else [EncodeSignature(sigs[0])] + EncodeSignatures(sigs[1..])
  }

  /** `encode_envelope`. */
  function EncodeEnvelope(env: Envelope): Json {
    Obj([Member("payloadType", Str(env.payloadType)), Member("payload", Str(env.payload)),
         Member("signatures", Arr(EncodeSignatures(env.signatures)))])
  }

  /** The bytes the store keeps. */
  function EnvelopeBytes(env: Envelope): Bytes { Canonical.Encoding(EncodeEnvelope(env)) }

  predicate IsText(v: Option<Json>) { v.Some? && v.value.Str? }

  function DecodeSignature(j: Json): Result<Signature> {
    if j.Obj? && IsText(Get(j, "keyid")) && IsText(Get(j, "sig")) && IsText(Get(j, "scheme"))
    then Ok(Signature(Get(j, "keyid").value.s, Get(j, "sig").value.s, Get(j, "scheme").value.s))
    else Raised(ValueError)
  }

  function DecodeSignatures(items: seq<Json>): Result<seq<Signature>> {
    if items == [] then Ok([])
    else match DecodeSignature(items[0])
      case Raised(e) => Raised(e)
      case Ok(s) =>
        match DecodeSignatures(items[1..])
        case Raised(e) => Raised(e)
        case Ok(rest) => Ok([s] + rest)
  }

  /** `dsse_envelope_from_dict`. */
  function DecodeEnvelope(data: Json): Result<Envelope> {
    if !IsText(Get(data, "payloadType")) || !IsText(Get(data, "payload")) then Raised(ValueError)
    else match Get(data, "signatures")
      case Some(Arr(items)) =>
        if items == [] then Raised(ValueError)
        else (match DecodeSignatures(items)
          case Raised(e) => Raised(e)
          case Ok(sigs) => Ok(Envelope(Get(data, "payloadType").value.s, Get(data, "payload").value.s, sigs)))
      case _ => Raised(ValueError)
  }

  /** The validating loop of `dsse_envelope_from_dict`: one malformed entry fails the whole envelope. */
  method CollectSignatures(items: seq<Json>) returns (r: Result<seq<Signature>>)
    ensures r == DecodeSignatures(items)
    ensures r.Ok? <==> forall i :: 0 <= i < |items| ==> DecodeSignature(items[i]).Ok?
    ensures r.Ok? ==> |r.value| == |items| && forall i :: 0 <= i < |items| ==> Ok(r.value[i]) == DecodeSignature(items[i])
  {
    var signatures: seq<Signature> := [];
    for i := 0 to |items|
      invariant |signatures| == i
      invariant forall k :: 0 <= k < i ==> Ok(signatures[k]) == DecodeSignature(items[k])
    {
      var sig := DecodeSignature(items[i]);
      if sig.Raised? {
        DecodeSignaturesFails(items, i);
        return Raised(ValueError);
      }
      signatures := signatures + [sig.value];
    }
    DecodeSignaturesOk(items, signatures);
    return Ok(signatures);
  }

  lemma {:induction false} DecodeSignaturesFails(items: seq<Json>, i: nat)
    requires i < |items| && DecodeSignature(items[i]).Raised?
    ensures DecodeSignatures(items) == Raised(ValueError)
  {
    if i > 0 { DecodeSignaturesFails(items[1..], i - 1); }
  }

  lemma {:induction false} DecodeSignaturesOk(items: seq<Json>, sigs: seq<Signature>)
    requires |items| == |sigs| && forall k :: 0 <= k < |items| ==> Ok(sigs[k]) == DecodeSignature(items[k])
    ensures DecodeSignatures(items) == Ok(sigs)
  {
    if items != [] {
      assert forall k :: 0 <= k < |items| - 1 ==> Ok(sigs[1..][k]) == DecodeSignature(items[1..][k]);
      DecodeSignaturesOk(items[1..], sigs[1..]);
      assert sigs == [sigs[0]] + sigs[1..];
    }
  }

  /** A file holds an envelope exactly when both texts are there and a non-empty list of signatures, each with its three
      texts; of anything else decoding says so with a `ValueError`. */
  lemma DecodeEnvelopeExactly(data: Json, env: Envelope)
    ensures DecodeEnvelope(data) == Ok(env) <==>
      && Get(data, "payloadType") == Some(Str(env.payloadType)) && Get(data, "payload") == Some(Str(env.payload))
      && Get(data, "signatures").Some? && Get(data, "signatures").value.Arr? && env.signatures != []
      && ReadsAs(Get(data, "signatures").value.items, env.signatures)
    ensures DecodeEnvelope(data).Raised? ==> DecodeEnvelope(data) == Raised(ValueError)
  {
    match Get(data, "signatures")
    case Some(Arr(items)) => DecodeSignaturesAre(items, env.signatures);
    case _ =>
  }

  predicate ReadsAs(items: seq<Json>, sigs: seq<Signature>) {
    |items| == |sigs|
    && forall i :: 0 <= i < |items| ==>
         Get(items[i], "keyid") == Some(Str(sigs[i].keyid)) && Get(items[i], "sig") == Some(Str(sigs[i].sig))
         && Get(items[i], "scheme") == Some(Str(sigs[i].scheme))
  }

  lemma {:induction false} DecodeSignaturesAre(items: seq<Json>, sigs: seq<Signature>)
    ensures DecodeSignatures(items) == Ok(sigs) <==> ReadsAs(items, sigs)
    ensures DecodeSignatures(items).Raised? ==> DecodeSignatures(items) == Raised(ValueError)
  {
    if items != [] {
      DecodeSignaturesAre(items[1..], if sigs == [] then [] else sigs[1..]);
      if sigs != [] {
        assert sigs == [sigs[0]] + sigs[1..];
        ReadsAsCons(items, sigs);
      }
    }
  }

  lemma ReadsAsCons(items: seq<Json>, sigs: seq<Signature>)
    requires items != [] && sigs != []
    ensures ReadsAs(items, sigs) <==> DecodeSignature(items[0]) == Ok(sigs[0]) && ReadsAs(items[1..], sigs[1..])
  {
    if DecodeSignature(items[0]) == Ok(sigs[0]) && ReadsAs(items[1..], sigs[1..]) {
      forall i | 1 <= i < |items|
        ensures Get(items[i], "keyid") == Some(Str(sigs[i].keyid)) && Get(items[i], "sig") == Some(Str(sigs[i].sig))
        ensures Get(items[i], "scheme") == Some(Str(sigs[i].scheme))
      {
        assert items[i] == items[1..][i - 1] && sigs[i] == sigs[1..][i - 1];
      }
    }
  }

  lemma {:induction false} EncodeSignaturesAt(sigs: seq<Signature>, i: nat)
    requires i < |sigs|
    ensures EncodeSignatures(sigs)[i] == EncodeSignature(sigs[i])
  {
    if i > 0 { EncodeSignaturesAt(sigs[1..], i - 1); }
  }

  lemma EncodeSignatureWf(s: Signature)
    ensures Wf(EncodeSignature(s))
    ensures DecodeSignature(Norm(EncodeSignature(s))) == Ok(s)
  {
    var j := EncodeSignature(s);
    assert j.members[0].key == "keyid" && j.members[1].key == "sig" && j.members[2].key == "scheme";
    GetNorm(j, "keyid");
    GetNorm(j, "sig");
    GetNorm(j, "scheme");
    LookupAt(j.members, 0);
    LookupAt(j.members, 1);
    LookupAt(j.members, 2);
  }

  lemma EncodeEnvelopeWf(env: Envelope)
    ensures Wf(EncodeEnvelope(env))
    ensures Get(EncodeEnvelope(env), "payloadType") == Some(Str(env.payloadType))
    ensures Get(EncodeEnvelope(env), "payload") == Some(Str(env.payload))
    ensures Get(EncodeEnvelope(env), "signatures") == Some(Arr(EncodeSignatures(env.signatures)))
  {
    var j := EncodeEnvelope(env);
    forall x | x in EncodeSignatures(env.signatures) ensures Wf(x) {
      var i :| 0 <= i < |env.signatures| && EncodeSignatures(env.signatures)[i] == x;
      EncodeSignaturesAt(env.signatures, i);
      EncodeSignatureWf(env.signatures[i]);
    }
    assert j.members[0].key == "payloadType" && j.members[1].key == "payload" && j.members[2].key == "signatures";
    LookupAt(j.members, 0);
    LookupAt(j.members, 1);
    LookupAt(j.members, 2);
  }

  /** An envelope with a signature survives the trip through its file. */
  lemma DecodeEncodedEnvelope(env: Envelope)
    requires env.signatures != []
    ensures DecodeEnvelope(Norm(EncodeEnvelope(env))) == Ok(env)
  {
    var j := EncodeEnvelope(env);
    EncodeEnvelopeWf(env);
    GetNorm(j, "payloadType");
    GetNorm(j, "payload");
    GetNorm(j, "signatures");
    var items := NormItems(EncodeSignatures(env.signatures));
    forall k | 0 <= k < |items| ensures Ok(env.signatures[k]) == DecodeSignature(items[k]) {
      NormItemsAt(EncodeSignatures(env.signatures), k);
      EncodeSignaturesAt(env.signatures, k);
      EncodeSignatureWf(env.signatures[k]);
    }
    DecodeSignaturesOk(items, env.signatures);
  }

  /** The stored bytes belong to one envelope only. */
  lemma EnvelopeBytesInjective(a: Envelope, b: Envelope)
    requires a.signatures != [] && b.signatures != []
    ensures EnvelopeBytes(a) == EnvelopeBytes(b) <==> a == b
  {
    if EnvelopeBytes(a) == EnvelopeBytes(b) {
      EncodeEnvelopeWf(a);
      EncodeEnvelopeWf(b);
      Canonical.CanonicalBytesDecideSame(EncodeEnvelope(a), EncodeEnvelope(b));
      SameImpliesNorm(EncodeEnvelope(a), EncodeEnvelope(b));
      DecodeEncodedEnvelope(a);
      DecodeEncodedEnvelope(b);
    }
  }
}
