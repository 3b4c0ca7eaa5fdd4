/** `verify_attestation`: the checks over signed bytes, and what they do and do not depend on. */
module Verify {
  import opened Prelude
  import opened Json
  import opened Dsse
  import opened Signing
  import opened Hashing
  import opened Verdict
  import opened Attestation
  import opened AttestationRoundTrip
  import JsonText
  import Statement
  import Canonical
  import Encodings
  import Order
  import Utf8

  datatype Checks = Checks(signature: bool, digestRebind: bool, attribution: bool, keyid: bool)

  datatype Problem =
    | KeyidMismatch
    | SignatureProblem
    | Unattributed(problem: AttributionProblem)
    | DigestMismatch
    | StatementProblem(error: PyError)

  datatype VerifyResult = VerifyResult(
    ok: bool, scheme: string, keyid: string, decision: Option<Decision>, checks: Checks, problems: seq<Problem>)

  /** `_envelope_dict`: a bundle yields its envelope, anything else is taken as the envelope. */
  function EnvelopeView(data: Json): Json {
    match Get(data, "envelope") case Some(Obj(ms)) => Obj(ms) case _ => data
  }

  /** The keyid shown for the envelope. */
  function ShownKeyid(env: Envelope, scheme: string): string
    requires env.signatures != []
  {
    var matching := Candidates(env.signatures, scheme);
    if matching != [] then matching[0].keyid else env.signatures[0].keyid
  }

  predicate KeyidOk(env: Envelope, scheme: string, expected: Option<string>) {
    expected.None? || exists s :: s in env.signatures && s.scheme == scheme && s.keyid == expected.value
  }

  /** The exceptions the guard around the signed statement turns into a failed result. */
  predicate Caught(e: PyError) { e.ValueError? || e.KeyError? || e.TypeError? || e.OSError? }

  function Labelled(ps: seq<AttributionProblem>): seq<Problem> {
    if ps == [] then [] else [Unattributed(ps[0])] + Labelled(ps[1..])
  }

  /** What the guarded part found before it ended or raised. */
  datatype Inspection = Inspection(
    decision: Option<Decision>, attribution: bool, rebind: bool, problems: seq<Problem>, raised: Option<PyError>)

  function Inspect(statement: Json, live: Result<string>): Inspection {
    match Statement.ToAttestation(statement)
    case Raised(e) => Inspection(None, false, false, [], Some(e))
    case Ok(att) =>
      var found := Labelled(AllProblems(att.gateSummary));
      var part := Inspection(Some(att.decision), found == [], false, found, None);
      match Statement.SubjectDigest(statement)
      case Raised(e) => part.(raised := Some(e))
      case Ok(subject) =>
        if !att.digest.Str? || !DigestsMatch(att.digest.s, subject) then part.(raised := Some(ValueError))
        else match live
          case Raised(e) => part.(raised := Some(e))
          case Ok(l) =>
            if DigestsMatch(l, subject) then part.(rebind := true)
            else part.(problems := found + [DigestMismatch])
  }

  /** The result, from the unsealed envelope on. */
  function Conclude(scheme: string, keyid: string, keyidOk: bool, unsealed: Result<Json>, live: Result<string>)
    : Result<VerifyResult>
  {
    var start := if keyidOk then [] else [KeyidMismatch];
    match unsealed
    case Raised(e) =>
      if e != VerificationError then Raised(e)
      else Ok(VerifyResult(false, scheme, keyid, None, Checks(false, false, false, keyidOk), start + [SignatureProblem]))
    case Ok(statement) =>
      var i := Inspect(statement, live);
      var checks := Checks(true, i.rebind, i.attribution, keyidOk);
      match i.raised
      case None =>
        Ok(VerifyResult(i.rebind && i.attribution && keyidOk, scheme, keyid, i.decision, checks, start + i.problems))
      case Some(e) =>
        if !Caught(e) then Raised(e)
        else Ok(VerifyResult(false, scheme, keyid, i.decision, checks, start + i.problems + [StatementProblem(e)]))
  }

  /** `verify_attestation`; `live` is what re-hashing the fetched artifact gave. */
  function Verify(data: Json, live: Result<string>, v: Verifier, expected: Option<string>): Result<VerifyResult> {
    var env :- DecodeEnvelope(EnvelopeView(data));
    assert env.signatures != [] by { DecodedHasSignature(EnvelopeView(data)); }
    Conclude(v.scheme, ShownKeyid(env, v.scheme), KeyidOk(env, v.scheme, expected), VerifyEnvelope(env, v), live)
  }

  lemma VerifyConcludes(data: Json, live: Result<string>, v: Verifier, expected: Option<string>)
    requires DecodeEnvelope(EnvelopeView(data)).Ok?
    ensures var env := DecodeEnvelope(EnvelopeView(data)).value;
      env.signatures != [] && Verify(data, live, v, expected) ==
        Conclude(v.scheme, ShownKeyid(env, v.scheme), KeyidOk(env, v.scheme, expected), VerifyEnvelope(env, v), live)
  {
    DecodedHasSignature(EnvelopeView(data));
  }

  lemma DecodedHasSignature(data: Json)
    requires DecodeEnvelope(data).Ok?
    ensures DecodeEnvelope(data).value.signatures != []
  {
    var items := Get(data, "signatures").value.items;
    assert DecodeSignatures(items).Ok?;
    DecodeSignaturesLength(items);
  }

  lemma {:induction false} DecodeSignaturesLength(items: seq<Json>)
    requires DecodeSignatures(items).Ok?
    ensures |DecodeSignatures(items).value| == |items|
  {
    if items != [] { DecodeSignaturesLength(items[1..]); }
  }

  /** The checks in the order the code makes them, each updating the running record. */
  method VerifyAttestation(data: Json, live: Result<string>, v: Verifier, expected: Option<string>)
      returns (r: Result<VerifyResult>)
    ensures r == Verify(data, live, v, expected)
  {
    var checks := Checks(false, false, false, true);
    var problems: seq<Problem> := [];
    var decoded := DecodeEnvelope(EnvelopeView(data));
    if decoded.Raised? {
      return Raised(decoded.error);
    }
    var env := decoded.value;
    DecodedHasSignature(EnvelopeView(data));
    var keyid := ShownKeyid(env, v.scheme);
    if expected.Some? {
      checks := checks.(keyid := KeyidOk(env, v.scheme, expected));
      if !checks.keyid {
        problems := problems + [KeyidMismatch];
      }
    }
    var statement := CheckSignatures(env, v);
    r := Examine(v.scheme, keyid, checks, problems, statement, live);
  }

  /** The second half: once the signature holds, only the signed statement is consulted. */
  method Examine(scheme: string, keyid: string, checks0: Checks, start: seq<Problem>, statement: Result<Json>,
                 live: Result<string>)
      returns (r: Result<VerifyResult>)
    requires checks0 == Checks(false, false, false, checks0.keyid)
    requires start == if checks0.keyid then [] else [KeyidMismatch]
    ensures r == Conclude(scheme, keyid, checks0.keyid, statement, live)
  {
    var checks, problems := checks0, start;
    if statement.Raised? {
      if statement.error != VerificationError {
        return Raised(statement.error);
      }
      problems := problems + [SignatureProblem];
      return Ok(VerifyResult(false, scheme, keyid, None, checks, problems));
    }
    checks := checks.(signature := true);
    ghost var i := Inspect(statement.value, live);
    var decision: Option<Decision> := None;
    var raised: Option<PyError> := None;
    var att := Statement.ToAttestation(statement.value);
    if att.Raised? {
      raised := Some(att.error);
    } else {
      decision := Some(att.value.decision);
      var found := AttributionProblems(att.value.gateSummary);
      checks := checks.(attribution := found == []);
      LabelledEmpty(found);
      problems := problems + Labelled(found);
      var subject := Statement.SubjectDigest(statement.value);
      if subject.Raised? {
        raised := Some(subject.error);
      } else if !att.value.digest.Str? || !DigestsMatch(att.value.digest.s, subject.value) {
        raised := Some(ValueError);
      } else if live.Raised? {
        raised := Some(live.error);
      } else {
        checks := checks.(digestRebind := DigestsMatch(live.value, subject.value));
        if !checks.digestRebind {
          assert start + Labelled(found) + [DigestMismatch] == start + (Labelled(found) + [DigestMismatch]);
          problems := problems + [DigestMismatch];
        }
      }
    }
    assert start + [] == start;
    assert raised == i.raised && decision == i.decision && problems == start + i.problems;
    assert checks == Checks(true, i.rebind, i.attribution, checks0.keyid);
    if raised.Some? {
      if !Caught(raised.value) {
        return Raised(raised.value);
      }
      problems := problems + [StatementProblem(raised.value)];
      return Ok(VerifyResult(false, scheme, keyid, decision, checks, problems));
    }
    return Ok(VerifyResult(checks.signature && checks.digestRebind && checks.attribution && checks.keyid,
                           scheme, keyid, decision, checks, problems));
  }

  // ---- what is reported ----------------------------------------------------------

  /** `keyid` is that of the first signature of the operator's scheme, or of the first signature if there is none. */
  ghost predicate FirstOfScheme(sigs: seq<Signature>, scheme: string, keyid: string) {
    if exists s :: s in sigs && s.scheme == scheme
    then exists i :: 0 <= i < |sigs| && sigs[i].scheme == scheme && sigs[i].keyid == keyid
                     && forall k :: 0 <= k < i ==> sigs[k].scheme != scheme
    else sigs != [] && sigs[0].keyid == keyid
  }

  lemma {:induction false} CandidatesStart(sigs: seq<Signature>, scheme: string) returns (i: nat)
    requires Candidates(sigs, scheme) != []
    ensures i < |sigs| && sigs[i] == Candidates(sigs, scheme)[0] && sigs[i].scheme == scheme
    ensures forall k :: 0 <= k < i ==> sigs[k].scheme != scheme
  {
    if sigs[0].scheme == scheme {
      i := 0;
    } else {
      var j := CandidatesStart(sigs[1..], scheme);
      i := j + 1;
    }
  }

  lemma ShownKeyidIs(env: Envelope, scheme: string)
    requires env.signatures != []
    ensures FirstOfScheme(env.signatures, scheme, ShownKeyid(env, scheme))
  {
    var c := Candidates(env.signatures, scheme);
    CandidatesAre(env.signatures, scheme);
    if c != [] {
      var i := CandidatesStart(env.signatures, scheme);
      assert c[0] in c;
    }
  }

  /** Of an authentic envelope, the keyid shown is that of one of the signatures of the operator's scheme. */
  lemma ShownOfAuthentic(env: Envelope, v: Verifier, keyid: string)
    requires Authentic(env, v) && FirstOfScheme(env.signatures, v.scheme, keyid)
    ensures exists s :: s in env.signatures && s.scheme == v.scheme && s.keyid == keyid
  {
    var s :| s in env.signatures && Accepts(v, SignedBytes(env).value, s);
    var i :| 0 <= i < |env.signatures| && env.signatures[i].scheme == v.scheme && env.signatures[i].keyid == keyid;
    assert env.signatures[i] in env.signatures;
  }

  /** The signed statement is good enough for the artifact to be hashed again. */
  predicate Rehashes(statement: Json) {
    var att, subject := Statement.ToAttestation(statement), Statement.SubjectDigest(statement);
    att.Ok? && subject.Ok? && att.value.digest.Str? && DigestsMatch(att.value.digest.s, subject.value)
  }

  /** Every field of a result, whatever the outcome. */
  lemma VerifyReports(data: Json, live: Result<string>, v: Verifier, expected: Option<string>)
    requires Verify(data, live, v, expected).Ok?
    ensures DecodeEnvelope(EnvelopeView(data)).Ok?
    ensures var r, env := Verify(data, live, v, expected).value, DecodeEnvelope(EnvelopeView(data)).value;
      && r.scheme == v.scheme && FirstOfScheme(env.signatures, v.scheme, r.keyid)
      && (r.checks.keyid <==>
            (expected.None? || exists s :: s in env.signatures && s.scheme == v.scheme && s.keyid == expected.value))
      && (r.checks.signature <==> VerifyEnvelope(env, v).Ok?)
      && (r.decision.Some? <==> VerifyEnvelope(env, v).Ok? && Statement.ToAttestation(VerifyEnvelope(env, v).value).Ok?)
      && (r.checks.attribution <==>
            (r.decision.Some?
             && forall g :: g in Statement.ToAttestation(VerifyEnvelope(env, v).value).value.gateSummary ==> Attributed(g)))
      && (r.checks.digestRebind <==>
            (r.decision.Some? && Rehashes(VerifyEnvelope(env, v).value) && live.Ok?
             && DigestsMatch(live.value, Statement.SubjectDigest(VerifyEnvelope(env, v).value).value)))
      && (r.decision.Some? ==>
            r.decision.value == Statement.ToAttestation(VerifyEnvelope(env, v).value).value.decision)
      && (r.ok <==> r.checks == Checks(true, true, true, true)) && (r.ok <==> r.problems == [])
  {
    var env := DecodeEnvelope(EnvelopeView(data)).value;
    VerifyConcludes(data, live, v, expected);
    ShownKeyidIs(env, v.scheme);
    ConcludeReports(v.scheme, ShownKeyid(env, v.scheme), KeyidOk(env, v.scheme, expected), VerifyEnvelope(env, v), live);
  }

  lemma ConcludeReports(scheme: string, keyid: string, keyidOk: bool, unsealed: Result<Json>, live: Result<string>)
    requires Conclude(scheme, keyid, keyidOk, unsealed, live).Ok?
    ensures var r := Conclude(scheme, keyid, keyidOk, unsealed, live).value;
      && r.scheme == scheme && r.keyid == keyid && r.checks.keyid == keyidOk && (r.checks.signature <==> unsealed.Ok?)
      && (r.decision.Some? <==> unsealed.Ok? && Statement.ToAttestation(unsealed.value).Ok?)
      && (r.decision.Some? ==> r.decision.value == Statement.ToAttestation(unsealed.value).value.decision)
      && (r.checks.attribution <==>
            (r.decision.Some?
             && forall g :: g in Statement.ToAttestation(unsealed.value).value.gateSummary ==> Attributed(g)))
      && (r.checks.digestRebind <==>
            (r.decision.Some? && Rehashes(unsealed.value) && live.Ok?
             && DigestsMatch(live.value, Statement.SubjectDigest(unsealed.value).value)))
      && (r.ok <==> r.checks == Checks(true, true, true, true)) && (r.ok <==> r.problems == [])
  {
    if unsealed.Ok? { InspectionIs(unsealed.value, live); }
  }

  /** What the guarded part finds, and that it stays silent exactly when all of it is good. */
  lemma InspectionIs(statement: Json, live: Result<string>)
    ensures var i, att := Inspect(statement, live), Statement.ToAttestation(statement);
      && (i.decision.Some? <==> att.Ok?) && (att.Ok? ==> i.decision == Some(att.value.decision))
      && (i.attribution <==> att.Ok? && forall g :: g in att.value.gateSummary ==> Attributed(g))
      && (i.rebind <==> Rehashes(statement) && live.Ok?
                        && DigestsMatch(live.value, Statement.SubjectDigest(statement).value))
      && (i.rebind ==> i.raised.None?) && (i.raised.None? && i.problems == [] <==> i.attribution && i.rebind)
  {
    var att := Statement.ToAttestation(statement);
    if att.Ok? {
      NoProblems(att.value.gateSummary);
      LabelledEmpty(AllProblems(att.value.gateSummary));
    }
  }

  // ---- which problems are named --------------------------------------------------

  /** What stops the checks over the signed statement: no attestation in it, no digest in its subject, two digests in it
      that differ, or an artifact that cannot be hashed. */
  function Fault(statement: Json, live: Result<string>): Option<PyError> {
    match Statement.ToAttestation(statement)
    case Raised(e) => Some(e)
    case Ok(_) =>
      match Statement.SubjectDigest(statement)
      case Raised(e) => Some(e)
      case Ok(_) =>
        if !Rehashes(statement) then Some(ValueError)
        else match live case Raised(e) => Some(e) case Ok(_) => None
  }

  /** Each problem is named exactly for its reason. */
  ghost predicate ProblemsOf(ps: seq<Problem>, keyidOk: bool, unsealed: Result<Json>, live: Result<string>) {
    && (KeyidMismatch in ps <==> !keyidOk) && (SignatureProblem in ps <==> unsealed.Raised?)
    && (forall p :: Unattributed(p) in ps <==>
          unsealed.Ok? && Statement.ToAttestation(unsealed.value).Ok?
          && p in AllProblems(Statement.ToAttestation(unsealed.value).value.gateSummary))
    && (forall e :: StatementProblem(e) in ps <==> unsealed.Ok? && Fault(unsealed.value, live) == Some(e))
    && (DigestMismatch in ps <==>
          unsealed.Ok? && Fault(unsealed.value, live).None?
          && !DigestsMatch(live.value, Statement.SubjectDigest(unsealed.value).value))
  }

  lemma {:induction false} LabelledAre(found: seq<AttributionProblem>)
    ensures forall q :: q in Labelled(found) <==> q.Unattributed? && q.problem in found
  {
    if found != [] {
      LabelledAre(found[1..]);
      assert found == [found[0]] + found[1..];
    }
  }

  lemma InspectionNames(statement: Json, live: Result<string>)
    ensures var i, att := Inspect(statement, live), Statement.ToAttestation(statement);
      && i.raised == Fault(statement, live)
      && forall q :: q in i.problems <==>
           || (q.Unattributed? && att.Ok? && q.problem in AllProblems(att.value.gateSummary))
           || (q.DigestMismatch? && Fault(statement, live).None?
               && !DigestsMatch(live.value, Statement.SubjectDigest(statement).value))
  {
    var att := Statement.ToAttestation(statement);
    if att.Ok? { LabelledAre(AllProblems(att.value.gateSummary)); }
  }

  lemma VerifyNames(data: Json, live: Result<string>, v: Verifier, expected: Option<string>)
    requires Verify(data, live, v, expected).Ok?
    ensures DecodeEnvelope(EnvelopeView(data)).Ok?
    ensures var r, env := Verify(data, live, v, expected).value, DecodeEnvelope(EnvelopeView(data)).value;
      ProblemsOf(r.problems, r.checks.keyid, VerifyEnvelope(env, v), live)
  {
    var env := DecodeEnvelope(EnvelopeView(data)).value;
    VerifyConcludes(data, live, v, expected);
    ConcludeNames(v.scheme, ShownKeyid(env, v.scheme), KeyidOk(env, v.scheme, expected), VerifyEnvelope(env, v), live);
  }

  lemma ConcludeNames(scheme: string, keyid: string, keyidOk: bool, unsealed: Result<Json>, live: Result<string>)
    requires Conclude(scheme, keyid, keyidOk, unsealed, live).Ok?
    ensures var r := Conclude(scheme, keyid, keyidOk, unsealed, live).value;
      r.checks.keyid == keyidOk && ProblemsOf(r.problems, keyidOk, unsealed, live)
  {
    if unsealed.Ok? { InspectionNames(unsealed.value, live); }
  }

  // ---- soundness and completeness ------------------------------------------

  /** Everything a good attestation must satisfy, said without reference to the order of the checks. */
  ghost predicate Genuine(data: Json, live: Result<string>, v: Verifier, expected: Option<string>, att: Attestation) {
    exists env, statement ::
      && DecodeEnvelope(EnvelopeView(data)) == Ok(env) && Authentic(env, v) && KeyidOk(env, v.scheme, expected)
      && ExtractPayload(env).Ok? && JsonText.LoadsBytes(ExtractPayload(env).value) == Ok(statement) && statement.Obj?
      && Sound(statement, att, live)
  }

  /** What a signed statement must satisfy. */
  ghost predicate Sound(statement: Json, att: Attestation, live: Result<string>) {
    && Statement.ToAttestation(statement) == Ok(att)
    && (forall g :: g in att.gateSummary ==> Attributed(g))
    && Statement.SubjectDigest(statement).Ok?
    && att.digest.Str? && DigestsMatch(att.digest.s, Statement.SubjectDigest(statement).value)
    && live.Ok? && DigestsMatch(live.value, Statement.SubjectDigest(statement).value)
  }

  lemma InspectSound(statement: Json, live: Result<string>)
    ensures var i := Inspect(statement, live);
      i.raised.None? && i.rebind && i.attribution <==>
        Statement.ToAttestation(statement).Ok? && Sound(statement, Statement.ToAttestation(statement).value, live)
    ensures var i := Inspect(statement, live);
      i.raised.None? && i.rebind && i.attribution ==>
        i.decision == Some(Statement.ToAttestation(statement).value.decision) && i.problems == []
  {
    var att := Statement.ToAttestation(statement);
    if att.Ok? {
      NoProblems(att.value.gateSummary);
      LabelledEmpty(AllProblems(att.value.gateSummary));
    }
  }

  lemma ConcludeOk(scheme: string, keyid: string, keyidOk: bool, unsealed: Result<Json>, live: Result<string>)
    ensures var r := Conclude(scheme, keyid, keyidOk, unsealed, live);
      r.Ok? && r.value.ok <==>
        (unsealed.Ok? && keyidOk && Statement.ToAttestation(unsealed.value).Ok?
         && Sound(unsealed.value, Statement.ToAttestation(unsealed.value).value, live))
    ensures var r := Conclude(scheme, keyid, keyidOk, unsealed, live);
      r.Ok? && r.value.ok ==> r == Ok(VerifyResult(true, scheme, keyid,
        Some(Statement.ToAttestation(unsealed.value).value.decision), Checks(true, true, true, true), []))
  {
    if unsealed.Ok? {
      InspectSound(unsealed.value, live);
      var none: seq<Problem> := [];
      assert none + none == none;
    }
  }

  lemma LabelledEmpty(ps: seq<AttributionProblem>)
    ensures Labelled(ps) == [] <==> ps == []
  {
  }

  /** `ok` says all of it, and all of it gives `ok`, with the signed decision and a clean report. */
  lemma VerifyDecidesGenuine(data: Json, live: Result<string>, v: Verifier, expected: Option<string>)
    ensures var r := Verify(data, live, v, expected);
      && (r.Ok? && r.value.ok <==> exists att :: Genuine(data, live, v, expected, att))
      && (r.Ok? && r.value.ok ==> r.value.checks == Checks(true, true, true, true) && r.value.problems == [])
      && forall att :: Genuine(data, live, v, expected, att) ==> r.Ok? && r.value.decision == Some(att.decision)
  {
    var r := Verify(data, live, v, expected);
    forall att | Genuine(data, live, v, expected, att)
      ensures r.Ok? && r.value.ok && r.value.decision == Some(att.decision)
    {
      GenuineVerifies(data, live, v, expected, att);
    }
    if r.Ok? && r.value.ok {
      var att := OkIsGenuine(data, live, v, expected);
    }
  }

  lemma GenuineVerifies(data: Json, live: Result<string>, v: Verifier, expected: Option<string>, att: Attestation)
    requires Genuine(data, live, v, expected, att)
    ensures var r := Verify(data, live, v, expected);
      && r.Ok? && r.value.ok && r.value.decision == Some(att.decision)
      && r.value.checks == Checks(true, true, true, true) && r.value.problems == []
  {
    var env, statement :|
      && DecodeEnvelope(EnvelopeView(data)) == Ok(env) && Authentic(env, v) && KeyidOk(env, v.scheme, expected)
      && ExtractPayload(env).Ok? && JsonText.LoadsBytes(ExtractPayload(env).value) == Ok(statement) && statement.Obj?
      && Sound(statement, att, live);
    DecodedHasSignature(EnvelopeView(data));
    ConcludeOk(v.scheme, ShownKeyid(env, v.scheme), true, VerifyEnvelope(env, v), live);
  }

  lemma OkIsGenuine(data: Json, live: Result<string>, v: Verifier, expected: Option<string>) returns (att: Attestation)
    requires Verify(data, live, v, expected).Ok? && Verify(data, live, v, expected).value.ok
    ensures Genuine(data, live, v, expected, att)
    ensures Verify(data, live, v, expected).value.decision == Some(att.decision)
    ensures Verify(data, live, v, expected).value.checks == Checks(true, true, true, true)
    ensures Verify(data, live, v, expected).value.problems == []
  {
    var env := DecodeEnvelope(EnvelopeView(data)).value;
    DecodedHasSignature(EnvelopeView(data));
    var unsealed := VerifyEnvelope(env, v);
    ConcludeOk(v.scheme, ShownKeyid(env, v.scheme), KeyidOk(env, v.scheme, expected), unsealed, live);
    att := Statement.ToAttestation(unsealed.value).value;
    OpenedIsAuthentic(env, v);
  }

  lemma OpenedIsAuthentic(env: Envelope, v: Verifier)
    ensures VerifyEnvelope(env, v).Ok? <==>
      && Authentic(env, v) && ExtractPayload(env).Ok? && JsonText.LoadsBytes(ExtractPayload(env).value).Ok?
      && JsonText.LoadsBytes(ExtractPayload(env).value).value.Obj?
    ensures VerifyEnvelope(env, v).Ok? ==> JsonText.LoadsBytes(ExtractPayload(env).value) == VerifyEnvelope(env, v)
  {
  }

  /** Hashing the artifact again raises what the guard does not expect. */
  predicate Unexpected(live: Result<string>) {
    live.Raised? && live.error !in {ValueError, KeyError, TypeError, OSError}
  }

  /** When the call raises instead of returning a result, which the code's own notes promise never happens for a signed
      payload: exactly for a file that holds no envelope, and for authentic bytes that are no JSON text, that hold an
      attestation with a subject that is not a dict, or that lead on to a re-hash with an unexpected exception. */
  lemma VerifyRaisesExactly(data: Json, live: Result<string>, v: Verifier, expected: Option<string>)
    ensures Verify(data, live, v, expected).Raised? <==>
      var env := DecodeEnvelope(EnvelopeView(data));
      env.Raised? || (Authentic(env.value, v) &&
        var statement := JsonText.LoadsBytes(ExtractPayload(env.value).value);
        statement.Raised? || (statement.value.Obj? && Statement.ToAttestation(statement.value).Ok?
          && (Statement.BadSubject(statement.value) || (Rehashes(statement.value) && Unexpected(live)))))
  {
    var decoded := DecodeEnvelope(EnvelopeView(data));
    if decoded.Ok? {
      var env := decoded.value;
      VerifyConcludes(data, live, v, expected);
      OpenedIsAuthentic(env, v);
      ConcludeRaises(v.scheme, ShownKeyid(env, v.scheme), KeyidOk(env, v.scheme, expected), VerifyEnvelope(env, v), live);
      UnsealRaises(env, v);
    }
  }

  lemma UnsealRaises(env: Envelope, v: Verifier)
    ensures VerifyEnvelope(env, v).Raised? && VerifyEnvelope(env, v).error != VerificationError <==>
      Authentic(env, v) && JsonText.LoadsBytes(ExtractPayload(env).value).Raised?
  {
    if Authentic(env, v) { LoadsRaisesValueError(ExtractPayload(env).value); }
  }

  lemma ConcludeRaises(scheme: string, keyid: string, keyidOk: bool, unsealed: Result<Json>, live: Result<string>)
    ensures Conclude(scheme, keyid, keyidOk, unsealed, live).Raised? <==>
      (unsealed.Raised? && unsealed.error != VerificationError)
      || (unsealed.Ok? && Statement.ToAttestation(unsealed.value).Ok?
          && (Statement.BadSubject(unsealed.value) || (Rehashes(unsealed.value) && Unexpected(live))))
  {
    if unsealed.Ok? { ToAttestationErrors(unsealed.value); }
  }

  lemma LoadsRaisesValueError(b: Bytes)
    ensures JsonText.LoadsBytes(b).Raised? ==> JsonText.LoadsBytes(b).error == ValueError
  {
  }

  lemma {:induction false} AsPairsErrors(items: seq<Json>)
    ensures AsPairs(items).Raised? ==> Caught(AsPairs(items).error)
  {
    if items != [] { AsPairsErrors(items[1..]); }
  }

  lemma AsDictErrors(value: Json)
    ensures AsDict(value).Raised? ==> Caught(AsDict(value).error)
  {
    if !value.Obj? && Iterate(value).Ok? { AsPairsErrors(Iterate(value).value); }
  }

  lemma FindingErrors(data: Json)
    ensures FindingFromDict(data).Raised? ==> Caught(FindingFromDict(data).error)
  {
    AsDictErrors(GetOr(data, "metadata", Obj([])));
  }

  lemma {:induction false} FindingsErrors(items: seq<Json>)
    ensures FindingsFromList(items).Raised? ==> Caught(FindingsFromList(items).error)
  {
    if items != [] {
      FindingErrors(items[0]);
      FindingsErrors(items[1..]);
    }
  }

  lemma GateErrors(data: Json)
    ensures GateFromDict(data).Raised? ==> Caught(GateFromDict(data).error)
  {
    var fs := Iterate(GetOr(data, "findings", Arr([])));
    if fs.Ok? { FindingsErrors(fs.value); }
    AsDictErrors(GetOr(data, "evidence", Obj([])));
  }

  lemma {:induction false} GatesErrors(items: seq<Json>)
    ensures GatesFromList(items).Raised? ==> Caught(GatesFromList(items).error)
  {
    if items != [] {
      GateErrors(items[0]);
      GatesErrors(items[1..]);
    }
  }

  lemma RestErrors(data: Json, ref: ArtifactRef, digest: Json, t: ArtifactType, d: Decision, gates: seq<GateResult>)
    ensures var r := RestFromDict(data, ref, digest, t, d, gates); r.Raised? ==> Caught(r.error)
  {
    AsDictErrors(GetOr(data, "metadata", Obj([])));
  }

  lemma FromDictErrors(data: Json)
    ensures FromDict(data).Raised? ==> Caught(FromDict(data).error)
  {
    var gs := Iterate(GetOr(data, "gate_summary", Arr([])));
    if gs.Ok? { GatesErrors(gs.value); }
    forall ref, digest, t, d, gates
      ensures var r := RestFromDict(data, ref, digest, t, d, gates); r.Raised? ==> Caught(r.error)
    {
      RestErrors(data, ref, digest, t, d, gates);
    }
  }

  /** Decoding a predicate, however malformed, only ever raises what the guard catches. */
  lemma ToAttestationErrors(statement: Json)
    ensures Statement.ToAttestation(statement).Raised? ==> Caught(Statement.ToAttestation(statement).error)
  {
    match Get(statement, "predicate") {
      case Some(Obj(ms)) => FromDictErrors(Obj(ms));
      case _ =>
    }
  }

  /** A correctly signed payload that is not JSON text raises. */
  lemma SignedNonJsonRaises(data: Json, payload: Bytes, s: Signer, v: Verifier, live: Result<string>)
    requires Carries(data, Sealed(payload, s)) && Matching(s, v) && JsonText.LoadsBytes(payload).Raised?
    ensures Verify(data, live, v, None) == Raised(ValueError)
  {
    var env := Sealed(payload, s);
    DecodeEncodedEnvelope(env);
    VerifyConcludes(data, live, v, None);
    UnsealedNonJson(payload, s, v);
    ConcludeRaises(v.scheme, ShownKeyid(env, v.scheme), true, Raised(ValueError), Ok(""));
  }

  lemma UnsealedNonJson(payload: Bytes, s: Signer, v: Verifier)
    requires Matching(s, v) && JsonText.LoadsBytes(payload).Raised?
    ensures VerifyEnvelope(Sealed(payload, s), v) == Raised(ValueError)
  {
    assert Authentic(Sealed(payload, s), v) by { AcceptsSigned(payload, s, v); }
    SignedBytesOfSigned(payload, s);
    LoadsRaisesValueError(payload);
  }

  lemma LoadsOfX()
    ensures JsonText.LoadsBytes([120]) == Raised(ValueError)
  {
    var s := [120 as char];
    var b: Bytes := [120];
    Encodings.AsciiStartIsUtf8(b);
    assert b[1..] == [];
    assert Utf8.DecodeChar(b) == Some((120 as char, []));
    assert Utf8.Decode([]) == Some("");
    assert s == [120 as char] + "";
    assert Utf8.Decode(b) == Some(s);
    assert JsonText.ParseValue(s).Fail?;
  }

  /** The smallest such payload, the letter x. */
  lemma SignedXRaises(data: Json, s: Signer, v: Verifier, live: Result<string>)
    requires Carries(data, Sealed([120], s)) && Matching(s, v)
    ensures Verify(data, live, v, None) == Raised(ValueError)
  {
    LoadsOfX();
    SignedNonJsonRaises(data, [120], s, v, live);
  }

  /** A correctly signed attestation whose subject is not a dict raises as well, whatever it attests. */
  lemma SignedBadSubjectRaises(data: Json, a: Attestation, subject: Json, s: Signer, v: Verifier, live: Result<string>)
    requires WfAttestation(a) && Wf(subject) && !subject.Obj? && Matching(s, v)
    requires Carries(data, SignStatement(Statement.About(subject, Obj(PredicateMembers(a))), s))
    ensures Verify(data, live, v, None) == Raised(AttributeError)
  {
    var statement := Statement.About(subject, Obj(PredicateMembers(a)));
    var env := SignStatement(statement, s);
    BadStatement(a, subject);
    VerifySigned(statement, s, v);
    DecodeEncodedEnvelope(env);
    VerifyConcludes(data, live, v, None);
    ConcludeBadSubject(v.scheme, ShownKeyid(env, v.scheme), true, Norm(statement), live);
  }

  lemma BadStatement(a: Attestation, subject: Json)
    requires WfAttestation(a) && Wf(subject) && !subject.Obj?
    ensures var statement := Statement.About(subject, Obj(PredicateMembers(a)));
      Wf(statement) && Statement.ToAttestation(Norm(statement)).Ok? && Statement.BadSubject(Norm(statement))
  {
    PredicateWf(a);
    Statement.AboutWf(subject, Obj(PredicateMembers(a)));
    Statement.SortedAbout(subject, Obj(PredicateMembers(a)));
    Statement.DecodedAbout(a, subject);
  }

  lemma ConcludeBadSubject(scheme: string, keyid: string, keyidOk: bool, statement: Json, live: Result<string>)
    requires Statement.ToAttestation(statement).Ok? && Statement.BadSubject(statement)
    ensures Conclude(scheme, keyid, keyidOk, Ok(statement), live) == Raised(AttributeError)
  {
  }

  /** A bare envelope is not mistaken for a bundle. */
  lemma NoBundleKey(env: Envelope)
    ensures EnvelopeView(Norm(EncodeEnvelope(env))) == Norm(EncodeEnvelope(env))
  {
    EncodeEnvelopeWf(env);
    LookupFails(EncodeEnvelope(env).members, "envelope");
    GetNorm(EncodeEnvelope(env), "envelope");
  }

  // ---- from attestation to accepted bytes ----------------------------------

  /** The file holding an envelope, alone or inside a bundle. */
  ghost predicate Carries(data: Json, env: Envelope) {
    EnvelopeView(data) == Norm(EncodeEnvelope(env))
  }

  /** An envelope file read back carries its envelope; so does a bundle with anything else in it. */
  lemma FilesCarry(env: Envelope, bundle: Json)
    requires Get(bundle, "envelope") == Some(Norm(EncodeEnvelope(env)))
    ensures JsonText.LoadsBytes(EnvelopeBytes(env)).Ok?
    ensures Carries(JsonText.LoadsBytes(EnvelopeBytes(env)).value, env)
    ensures Carries(bundle, env)
  {
    EncodeEnvelopeWf(env);
    Canonical.LoadsOfCanonical(EncodeEnvelope(env));
    NoBundleKey(env);
  }

  /** Project, sign, write, read, verify: an attributed attestation over the live digest is accepted with every
      check true and its own decision, and what the verifier hands on is that attestation, signature cleared. */
  lemma EndToEnd(a: Attestation, text: Json -> string, live: string, s: Signer, v: Verifier, expected: Option<string>,
                 data: Json)
    requires WfAttestation(a) && (forall g :: g in a.gateSummary ==> Attributed(g))
    requires a.digest.Str? && Computed(live) && DigestsMatch(a.digest.s, live)
    requires Matching(s, v) && (expected.None? || expected == Some(s.keyId))
    requires Statement.FromAttestation(a, text).Ok? ==>
      Carries(data, SignStatement(Statement.FromAttestation(a, text).value, s))
    ensures Statement.FromAttestation(a, text).Ok?
    ensures Verify(data, Ok(live), v, expected) ==
      Ok(VerifyResult(true, v.scheme, s.keyId, Some(a.decision), Checks(true, true, true, true), []))
    ensures var env := SignStatement(Statement.FromAttestation(a, text).value, s);
      && VerifyEnvelope(env, v).Ok?
      && Statement.ToAttestation(VerifyEnvelope(env, v).value) == Ok(NormAttestation(a.(signature := Null)))
  {
    Statement.FromAttestationShape(a, text, live);
    var name, hex := Statement.SubjectName(a.ref, text), live[7..];
    var statement := Statement.StatementJson(name, hex, Obj(PredicateMembers(a)));
    var env := SignStatement(statement, s);
    var att := NormAttestation(a.(signature := Null));
    SignedStatement(a, name, live, s, v);
    assert env.signatures == [env.signatures[0]] && env.signatures[0].scheme == s.scheme
      && env.signatures[0].keyid == s.keyId;
    DecodeEncodedEnvelope(env);
    AcceptedStatement(data, env, Norm(statement), hex, att, live, v, expected);
  }

  /** What the verifier finds in the signed payload. */
  lemma SignedStatement(a: Attestation, name: string, live: string, s: Signer, v: Verifier)
    requires WfAttestation(a) && (forall g :: g in a.gateSummary ==> Attributed(g))
    requires a.digest.Str? && Computed(live) && DigestsMatch(a.digest.s, live) && Matching(s, v)
    ensures var statement := Statement.StatementJson(name, live[7..], Obj(PredicateMembers(a)));
      && VerifyEnvelope(SignStatement(statement, s), v) == Ok(Norm(statement))
      && Statement.ToAttestation(Norm(statement)) == Ok(NormAttestation(a.(signature := Null)))
      && Statement.SubjectDigest(Norm(statement)) == Ok(live[7..])
    ensures var att := NormAttestation(a.(signature := Null));
      && (forall g :: g in att.gateSummary ==> Attributed(g))
      && att.digest.Str? && DigestsMatch(att.digest.s, live[7..]) && DigestsMatch(live, live[7..])
  {
    var body := Obj(PredicateMembers(a));
    PredicateWf(a);
    Statement.StatementWf(name, live[7..], body);
    VerifySigned(Statement.StatementJson(name, live[7..], body), s, v);
    Statement.ToAttestationOfProjected(a, name, live[7..]);
    ComputedChars(live);
    Statement.SubjectDigestSorted(name, live[7..], body);
    NormalizeComputed(live);
    AttributedNormGates(a.gateSummary);
  }

  lemma AcceptedStatement(data: Json, env: Envelope, statement: Json, hex: string, att: Attestation, live: string,
                          v: Verifier, expected: Option<string>)
    requires DecodeEnvelope(EnvelopeView(data)) == Ok(env) && |env.signatures| == 1
    requires env.signatures[0].scheme == v.scheme && (expected.None? || expected == Some(env.signatures[0].keyid))
    requires VerifyEnvelope(env, v) == Ok(statement) && Statement.ToAttestation(statement) == Ok(att)
    requires Statement.SubjectDigest(statement) == Ok(hex) && forall g :: g in att.gateSummary ==> Attributed(g)
    requires att.digest.Str? && DigestsMatch(att.digest.s, hex) && DigestsMatch(live, hex)
    ensures Verify(data, Ok(live), v, expected) ==
      Ok(VerifyResult(true, v.scheme, env.signatures[0].keyid, Some(att.decision), Checks(true, true, true, true), []))
  {
    assert env.signatures[0] in env.signatures;
    ShownKeyidOfOne(env, v.scheme);
    ConcludeOk(v.scheme, env.signatures[0].keyid, true, Ok(statement), Ok(live));
    assert KeyidOk(env, v.scheme, expected);
  }

  lemma ShownKeyidOfOne(env: Envelope, scheme: string)
    requires |env.signatures| == 1
    ensures ShownKeyid(env, scheme) == env.signatures[0].keyid
  {
    CandidatesAre(env.signatures, scheme);
    var c := Candidates(env.signatures, scheme);
    if c != [] { assert c[0] in c; }
  }

  lemma {:induction false} AttributedNormGates(gs: seq<GateResult>)
    requires forall g :: g in gs ==> Attributed(g)
    ensures forall g :: g in NormGates(gs) ==> Attributed(g)
  {
    if gs != [] {
      AttributedNormGates(gs[1..]);
      TruthyNorm(gs[0].scannerName);
      TruthyNorm(gs[0].scannerVersion);
      assert gs[0] in gs;
    }
  }

  lemma TruthyNorm(j: Json)
    ensures Truthy(Norm(j)) <==> Truthy(j)
  {
    if j.Obj? { SortLength(NormMembers(j.members)); }
  }

  lemma {:induction false} SortLength(ms: seq<Member>)
    ensures |Order.Sort(LeMember, ms)| == |ms|
  {
    if ms != [] {
      SortLength(ms[1..]);
      Order.InsertKeeps(LeMember, ms[0], Order.Sort(LeMember, ms[1..]));
    }
  }

  // ---- what verification ignores -------------------------------------------

  /** The signature texts of one scheme, in order: keyids and other schemes forgotten. */
  function SigTexts(sigs: seq<Signature>, scheme: string): seq<string> {
    if sigs == [] then []
    else (if sigs[0].scheme == scheme then [sigs[0].sig] else []) + SigTexts(sigs[1..], scheme)
  }

  lemma {:induction false} SigTextsAre(sigs: seq<Signature>, scheme: string, t: string)
    ensures t in SigTexts(sigs, scheme) <==> exists s :: s in sigs && s.scheme == scheme && s.sig == t
  {
    if sigs != [] {
      SigTextsAre(sigs[1..], scheme, t);
      assert sigs == [sigs[0]] + sigs[1..];
    }
  }

  lemma AuthenticDependsOnTexts(e1: Envelope, e2: Envelope, v: Verifier)
    requires SignedBytes(e1) == SignedBytes(e2)
    requires forall t :: t in SigTexts(e1.signatures, v.scheme) ==> t in SigTexts(e2.signatures, v.scheme)
    ensures Authentic(e1, v) ==> Authentic(e2, v)
  {
    if Authentic(e1, v) {
      var s1 :| s1 in e1.signatures && Accepts(v, SignedBytes(e1).value, s1);
      SigTextsAre(e1.signatures, v.scheme, s1.sig);
      SigTextsAre(e2.signatures, v.scheme, s1.sig);
      var s2 :| s2 in e2.signatures && s2.scheme == v.scheme && s2.sig == s1.sig;
      assert Accepts(v, SignedBytes(e2).value, s2);
    }
  }

  ghost predicate SameVerdict(r1: Result<VerifyResult>, r2: Result<VerifyResult>) {
    && (r1.Raised? <==> r2.Raised?)
    && (r1.Ok? ==> r1.value.ok == r2.value.ok && r1.value.decision == r2.value.decision
                   && r1.value.checks == r2.value.checks && r1.value.problems == r2.value.problems)
  }

  lemma ConcludeIgnoresKeyid(scheme: string, k1: string, k2: string, unsealed: Result<Json>, live: Result<string>)
    ensures SameVerdict(Conclude(scheme, k1, true, unsealed, live), Conclude(scheme, k2, true, unsealed, live))
  {
  }

  lemma VerifyEnvelopeDependsOn(e1: Envelope, e2: Envelope, v: Verifier)
    requires e1.payloadType == e2.payloadType && ExtractPayload(e1) == ExtractPayload(e2)
    requires forall t :: t in SigTexts(e1.signatures, v.scheme) <==> t in SigTexts(e2.signatures, v.scheme)
    ensures VerifyEnvelope(e1, v) == VerifyEnvelope(e2, v)
  {
    AuthenticDependsOnTexts(e1, e2, v);
    AuthenticDependsOnTexts(e2, e1, v);
  }

  /** With no expected keyid, only the payload type, the payload bytes and the signatures of the operator's scheme
      matter: other bundle fields, keyids and signatures of other schemes change neither `ok` nor the decision. */
  lemma UnsignedDataIsIgnored(d1: Json, d2: Json, live: Result<string>, v: Verifier)
    requires DecodeEnvelope(EnvelopeView(d1)).Ok? && DecodeEnvelope(EnvelopeView(d2)).Ok?
    requires var e1, e2 := DecodeEnvelope(EnvelopeView(d1)).value, DecodeEnvelope(EnvelopeView(d2)).value;
      && e1.payloadType == e2.payloadType && ExtractPayload(e1) == ExtractPayload(e2)
      && (forall t :: t in SigTexts(e1.signatures, v.scheme) <==> t in SigTexts(e2.signatures, v.scheme))
    ensures SameVerdict(Verify(d1, live, v, None), Verify(d2, live, v, None))
  {
    var e1, e2 := DecodeEnvelope(EnvelopeView(d1)).value, DecodeEnvelope(EnvelopeView(d2)).value;
    VerifyConcludes(d1, live, v, None);
    VerifyConcludes(d2, live, v, None);
    VerifyEnvelopeDependsOn(e1, e2, v);
    ConcludeIgnoresKeyid(v.scheme, ShownKeyid(e1, v.scheme), ShownKeyid(e2, v.scheme), VerifyEnvelope(e1, v), live);
  }
}
