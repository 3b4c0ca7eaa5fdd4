/** `promote_artifact`: the ordered, fail-closed flow across the decision boundary. */
module Promote {
  import opened Prelude
  import opened Json
  import opened Dsse
  import opened Verdict
  import opened Attestation
  import opened Verify
  import opened PromotionGate
  import opened StoreProtocol
  import opened LocalStore
  import Canonical
  import Hashing
  import Signing
  import Statement
  import TrustedStore
  import opened AttestationRoundTrip

  datatype Tag = Promoted | IdempotentNoop | WouldPromote | Denied | VerificationFailed | Failed

  /** What the caller and the audit log see. */
  datatype PromotionResult = PromotionResult(
    ok: bool, outcome: Tag, exitCode: nat, digest: Option<string>, storeUri: Option<string>, alreadyPresent: bool,
    decision: Option<Decision>)

  /**
   One attempt: the arguments, and what every call to the outside gives or raises. `gate` may be any gate; `live` is
   the re-hash made while verifying; `world` is what the store's own write meets.
   */
  datatype Attempt = Attempt(
    load: Result<Json>, makeTemp: Option<PyError>, fetch: Result<ArtifactRef>,
    verifier: Signing.Verifier, expected: Option<string>, live: Result<string>,
    gate: Json -> Result<PromotionDecision>, dryRun: bool, migVersion: string, now: string,
    sha: Hashing.Sha, text: Json -> string, say: Reason -> string, world: World)

  function Failure(digest: Option<string>): PromotionResult {
    PromotionResult(false, Failed, 2, digest, None, false, None)
  }

  // ---- the receipt -----------------------------------------------------------

  function ReasonTexts(rs: seq<Reason>, say: Reason -> string): seq<Json> {
    if rs == [] then [] else [Str(say(rs[0]))] + ReasonTexts(rs[1..], say)
  }

  /** `digest.split(":", 1)[1]`. */
  function AfterColon(digest: string): Result<string> {
    var i := Hashing.Colon(digest);
    if i == |digest| then Raised(OtherError) else Ok(digest[i + 1..])
  }

  function GateRecord(d: PromotionDecision, say: Reason -> string): Json {
    Obj([Member("allow", Bool(d.allow)), Member("engine", Str(d.engine)),
         Member("reasons", Arr(ReasonTexts(d.reasons, say)))])
  }

  function ReceiptJson(p: Attempt, r: VerifyResult, att: Attestation, d: PromotionDecision, ref: ArtifactRef,
                       digest: string, uri: string, env: Envelope): Json
  {
    ReceiptOf(digest, uri, Statement.SubjectName(ref, p.text), TypeText(att.artifactType), DecisionText(att.decision),
              VerificationJson(r), GateRecord(d, p.say), Hashing.Digest(p.sha, EnvelopeBytes(env)),
              Obj([Member("id", att.policyId), Member("version", att.policyVersion)]), p.migVersion, p.now)
  }

  function ReceiptOf(digest: string, uri: string, name: string, kind: string, decision: string, verification: Json,
                     gate: Json, attestationDigest: string, policy: Json, migVersion: string, now: string): Json
  {
    Obj([Member("schema", Str("https://mig.dev/promotion-receipt/v1")), Member("digest", Str(digest)),
         Member("store_uri", Str(uri)), Member("subject_name", Str(name)), Member("artifact_type", Str(kind)),
         Member("decision", Str(decision)), Member("verification", verification), Member("gate", gate),
         Member("attestation_digest", Str(attestationDigest)), Member("policy", policy),
         Member("mig_version", Str(migVersion)), Member("promoted_at", Str(now))])
  }

  lemma {:induction false} ReasonTextsFinite(rs: seq<Reason>, say: Reason -> string)
    ensures Finite(Arr(ReasonTexts(rs, say)))
  {
    if rs != [] {
      ReasonTextsFinite(rs[1..], say);
      ConsFinite(Str(say(rs[0])), ReasonTexts(rs[1..], say));
    }
  }

  lemma GateRecordFinite(d: PromotionDecision, say: Reason -> string)
    ensures Finite(GateRecord(d, say))
  {
    ReasonTextsFinite(d.reasons, say);
  }

  lemma ReceiptFinite(digest: string, uri: string, name: string, kind: string, decision: string, verification: Json,
                      gate: Json, attestationDigest: string, policy: Json, migVersion: string, now: string)
    requires Finite(verification) && Finite(gate) && Finite(policy)
    ensures Finite(ReceiptOf(digest, uri, name, kind, decision, verification, gate, attestationDigest, policy, migVersion,
                             now))
  {
  }

  /** A receipt is only written for an attestation that could be shown to the gate, so encoding it cannot fail. */
  lemma ReceiptEncodes(p: Attempt, r: VerifyResult, att: Attestation, d: PromotionDecision, ref: ArtifactRef,
                       digest: string, uri: string, env: Envelope)
    requires BuildInput(r, att, ref, p.text).Ok?
    ensures var receipt := ReceiptJson(p, r, att, d, ref, digest, uri, env);
      Canonical.Canonicalize(Canonical.FromJson(receipt)) == Ok(receipt)
  {
    BuildsExactly(r, att, ref, p.text);
    VerificationFinite(r);
    GateRecordFinite(d, p.say);
    PairFinite(Member("id", att.policyId), Member("version", att.policyVersion));
    ReceiptFinite(digest, uri, Statement.SubjectName(ref, p.text), TypeText(att.artifactType), DecisionText(att.decision),
                  VerificationJson(r), GateRecord(d, p.say), Hashing.Digest(p.sha, EnvelopeBytes(env)),
                  Obj([Member("id", att.policyId), Member("version", att.policyVersion)]), p.migVersion, p.now);
    Canonical.ProjectJson(ReceiptJson(p, r, att, d, ref, digest, uri, env));
  }

  // ---- what the receipt says -----------------------------------------------------

  /** The receipt, key by key. */
  predicate ReceiptTells(j: Json, digest: string, uri: string, name: string, kind: string, decision: string,
                         verification: Json, gate: Json, attestationDigest: string, policy: Json, migVersion: string,
                         now: string)
  {
    && Get(j, "schema") == Some(Str("https://mig.dev/promotion-receipt/v1"))
    && Get(j, "digest") == Some(Str(digest)) && Get(j, "store_uri") == Some(Str(uri))
    && Get(j, "subject_name") == Some(Str(name)) && Get(j, "artifact_type") == Some(Str(kind))
    && Get(j, "decision") == Some(Str(decision)) && Get(j, "verification") == Some(verification)
    && Get(j, "gate") == Some(gate) && Get(j, "attestation_digest") == Some(Str(attestationDigest))
    && Get(j, "policy") == Some(policy) && Get(j, "mig_version") == Some(Str(migVersion))
    && Get(j, "promoted_at") == Some(Str(now))
  }

  predicate ReceiptKeyed(ms: seq<Member>) {
    && |ms| == 12
    && ms[0].key == "schema" && ms[1].key == "digest" && ms[2].key == "store_uri" && ms[3].key == "subject_name"
    && ms[4].key == "artifact_type" && ms[5].key == "decision" && ms[6].key == "verification" && ms[7].key == "gate"
    && ms[8].key == "attestation_digest" && ms[9].key == "policy" && ms[10].key == "mig_version"
    && ms[11].key == "promoted_at"
  }

  lemma ReceiptLookupsEarly(ms: seq<Member>)
    requires ReceiptKeyed(ms)
    ensures Lookup(ms, "schema") == Some(ms[0].value) && Lookup(ms, "digest") == Some(ms[1].value)
    ensures Lookup(ms, "store_uri") == Some(ms[2].value) && Lookup(ms, "subject_name") == Some(ms[3].value)
    ensures Lookup(ms, "artifact_type") == Some(ms[4].value) && Lookup(ms, "decision") == Some(ms[5].value)
  {
    LookupAt(ms, 0);
    LookupAt(ms, 1);
    LookupAt(ms, 2);
    LookupAt(ms, 3);
    LookupAt(ms, 4);
    LookupAt(ms, 5);
  }

  lemma ReceiptLookupsMiddle(ms: seq<Member>)
    requires ReceiptKeyed(ms)
    ensures Lookup(ms, "verification") == Some(ms[6].value) && Lookup(ms, "gate") == Some(ms[7].value)
    ensures Lookup(ms, "attestation_digest") == Some(ms[8].value)
  {
    LookupAt(ms, 6);
    LookupAt(ms, 7);
    LookupAt(ms, 8);
  }

  lemma ReceiptLookupsLate(ms: seq<Member>)
    requires ReceiptKeyed(ms)
    ensures Lookup(ms, "policy") == Some(ms[9].value) && Lookup(ms, "mig_version") == Some(ms[10].value)
    ensures Lookup(ms, "promoted_at") == Some(ms[11].value)
  {
    LookupAt(ms, 9);
    LookupAt(ms, 10);
    LookupAt(ms, 11);
  }

  lemma ReceiptOfTells(digest: string, uri: string, name: string, kind: string, decision: string, verification: Json,
                       gate: Json, attestationDigest: string, policy: Json, migVersion: string, now: string)
    ensures ReceiptTells(ReceiptOf(digest, uri, name, kind, decision, verification, gate, attestationDigest, policy,
                                   migVersion, now),
                         digest, uri, name, kind, decision, verification, gate, attestationDigest, policy, migVersion, now)
  {
    var ms := ReceiptOf(digest, uri, name, kind, decision, verification, gate, attestationDigest, policy, migVersion,
                        now).members;
    ReceiptLookupsEarly(ms);
    ReceiptLookupsMiddle(ms);
    ReceiptLookupsLate(ms);
  }

  lemma GateRecordTells(d: PromotionDecision, say: Reason -> string)
    ensures var g := GateRecord(d, say);
      && Get(g, "allow") == Some(Bool(d.allow)) && Get(g, "engine") == Some(Str(d.engine))
      && Get(g, "reasons") == Some(Arr(ReasonTexts(d.reasons, say)))
  {
    var ms := GateRecord(d, say).members;
    assert ms[0].key == "allow" && ms[1].key == "engine" && ms[2].key == "reasons";
    LookupAt(ms, 0);
    LookupAt(ms, 1);
    LookupAt(ms, 2);
  }

  lemma {:induction false} ReasonTextsAre(rs: seq<Reason>, say: Reason -> string)
    ensures |ReasonTexts(rs, say)| == |rs|
    ensures forall i :: 0 <= i < |rs| ==> ReasonTexts(rs, say)[i] == Str(say(rs[i]))
  {
    if rs != [] { ReasonTextsAre(rs[1..], say); }
  }

  /** What a planned write stores as receipt tells of this very write: the verified digest and the address, the digest of
      the envelope's own bytes, the attestation's type, decision and policy, the verification's report, and that the gate
      said yes. */
  lemma WrittenReceiptTells(p: Attempt) returns (att: Attestation, r: VerifyResult, gate: Json, j: Json)
    requires PlanOf(p).Writes?
    ensures PlanOf(p).receipt == Canonical.Encoding(j) && Canonical.Canonicalize(Canonical.FromJson(j)) == Ok(j)
    ensures var plan := PlanOf(p);
      && Reconstruct(p.load.value, p.verifier) == Ok((plan.env, att))
      && Verify.Verify(p.load.value, p.live, p.verifier, p.expected) == Ok(r)
      && ReceiptTells(j, plan.digest, plan.receiptUri, Statement.SubjectName(p.fetch.value, p.text),
                      TypeText(att.artifactType), DecisionText(att.decision), VerificationJson(r), gate,
                      Hashing.Digest(p.sha, EnvelopeBytes(plan.env)),
                      Obj([Member("id", att.policyId), Member("version", att.policyVersion)]), p.migVersion, p.now)
    ensures Get(gate, "allow") == Some(Bool(true))
  {
    var trusted := Reconstruct(p.load.value, p.verifier);
    r := Verify.Verify(p.load.value, p.live, p.verifier, p.expected).value;
    att := trusted.value.1;
    gate, j := PlannedReceipt(p, p.fetch.value, r, trusted);
  }

  lemma PlannedReceipt(p: Attempt, ref: ArtifactRef, r: VerifyResult, trusted: Result<(Envelope, Attestation)>)
      returns (gate: Json, j: Json)
    requires PlanVerified(p, ref, r, trusted).Writes?
    ensures var plan := PlanVerified(p, ref, r, trusted); var att := trusted.value.1;
      && plan.env == trusted.value.0
      && plan.receipt == Canonical.Encoding(j) && Canonical.Canonicalize(Canonical.FromJson(j)) == Ok(j)
      && ReceiptTells(j, plan.digest, plan.receiptUri, Statement.SubjectName(ref, p.text), TypeText(att.artifactType),
                      DecisionText(att.decision), VerificationJson(r), gate,
                      Hashing.Digest(p.sha, EnvelopeBytes(plan.env)),
                      Obj([Member("id", att.policyId), Member("version", att.policyVersion)]), p.migVersion, p.now)
    ensures Get(gate, "allow") == Some(Bool(true))
  {
    var (env, att) := trusted.value;
    var d := p.gate(BuildInput(r, att, ref, p.text).value).value;
    var digest := Hashing.Normalize(att.digest.s);
    var uri := Uri(AfterColon(digest).value);
    gate, j := GateRecord(d, p.say), ReceiptJson(p, r, att, d, ref, digest, uri, env);
    GateRecordTells(d, p.say);
    ReceiptEncodes(p, r, att, d, ref, digest, uri, env);
    ReceiptOfTells(digest, uri, Statement.SubjectName(ref, p.text), TypeText(att.artifactType),
                   DecisionText(att.decision), VerificationJson(r), gate, Hashing.Digest(p.sha, EnvelopeBytes(env)),
                   Obj([Member("id", att.policyId), Member("version", att.policyVersion)]), p.migVersion, p.now);
  }

  // ---- what the flow decides before it writes --------------------------------

  datatype Plan =
    | Escapes(error: PyError)
    | Ends(result: PromotionResult)
    | Writes(env: Envelope, receipt: Bytes, digest: string, decision: Decision, receiptUri: string)

  /** Steps 1 to 4a, and the receipt. */
  function PlanOf(p: Attempt): Plan {
    match p.load
    case Raised(e) => if e.OSError? || e.ValueError? then Ends(Failure(None)) else Escapes(e)
    case Ok(data) =>
      if !data.Obj? then Ends(Failure(None))
      else if p.makeTemp.Some? then Escapes(p.makeTemp.value)
      else match p.fetch
        case Raised(_) => Ends(Failure(None))
        case Ok(ref) =>
          PlanFetched(p, ref, Verify.Verify(data, p.live, p.verifier, p.expected), Reconstruct(data, p.verifier))
  }

  /** From verification on; what is trusted is consulted only once it has passed. */
  function PlanFetched(p: Attempt, ref: ArtifactRef, verified: Result<VerifyResult>,
                       trusted: Result<(Envelope, Attestation)>): Plan
  {
    match verified
    case Raised(_) => Ends(Failure(None))
    case Ok(r) =>
      if !r.ok then Ends(PromotionResult(false, VerificationFailed, 3, None, None, false, None))
      else PlanVerified(p, ref, r, trusted)
  }

  /** From a passing verification on. */
  function PlanVerified(p: Attempt, ref: ArtifactRef, r: VerifyResult, trusted: Result<(Envelope, Attestation)>): Plan {
    match trusted
    case Raised(_) => Ends(Failure(None))
    case Ok((env, att)) =>
      if !att.digest.Str? then Ends(Failure(None))
      else match BuildInput(r, att, ref, p.text)
        case Raised(_) => Ends(Failure(None))
        case Ok(doc) =>
          match p.gate(doc)
          case Raised(_) => Ends(Failure(None))
          case Ok(d) => PlanDecided(p, ref, r, env, att, d)
  }

  /** `dsse_envelope_from_dict`, `verify_envelope` and `attestation_from_statement` once more, over the signed bytes. */
  function Reconstruct(data: Json, v: Signing.Verifier): Result<(Envelope, Attestation)> {
    var env :- DecodeEnvelope(EnvelopeView(data));
    var statement :- Signing.VerifyEnvelope(env, v);
    var att :- Statement.ToAttestation(statement);
    Ok((env, att))
  }

  function PlanDecided(p: Attempt, ref: ArtifactRef, r: VerifyResult, env: Envelope, att: Attestation,
                       d: PromotionDecision): Plan
    requires att.digest.Str?
  {
    var digest := Hashing.Normalize(att.digest.s);
    if !d.allow then Ends(PromotionResult(false, Denied, 1, Some(digest), None, false, Some(att.decision)))
    else if p.dryRun then Ends(PromotionResult(true, WouldPromote, 0, Some(digest), None, false, Some(att.decision)))
    else match AfterColon(digest)
      case Raised(_) => Ends(Failure(None))
      case Ok(hex) =>
        Writes(env, Canonical.Encoding(ReceiptJson(p, r, att, d, ref, digest, Uri(hex), env)), digest, att.decision,
               Uri(hex))
  }

  /** The result after the store's answer: its own failures keep the digest, others are unexpected. */
  function AfterWrite(answer: Result<(string, bool)>, digest: string, decision: Decision): PromotionResult {
    match answer
    case Raised(e) =>
      if e.PromotionError? || e.QuarantineError? || e.OSError? then Failure(Some(digest)) else Failure(None)
    case Ok((uri, already)) =>
      PromotionResult(true, if already then IdempotentNoop else Promoted, 0, Some(digest), Some(uri), already,
                      Some(decision))
  }

  /** The store's `write`, as `LocalTrustedStore.Write` specifies it. */
  function StoreWrite(h: Digests, env: Envelope, receipt: Bytes, disk: Disk, o: World): (Result<(string, bool)>, Disk) {
    match SubjectOf(env)
    case Raised(e) => (Raised(e), disk)
    case Ok(bare) =>
      var (outcome, after) := WriteEffect(h, CallOf(env, bare, Ok(receipt), o.nonce), disk, o);
      (Reported(outcome, bare), after)
  }

  class Promoter {
    const store: LocalTrustedStore
    /** Every record the audit sink was given. */
    var audit: seq<PromotionResult>

    constructor (store: LocalTrustedStore)
      ensures this.store == store && audit == []
    {
      this.store := store;
      audit := [];
    }

    /** The closure every outcome leaves through. */
    method Finish(result: PromotionResult) returns (r: Result<PromotionResult>)
      modifies `audit
      ensures audit == old(audit) + [result] && r == Ok(result)
    {
      audit := audit + [result];
      return Ok(result);
    }

    /** `promote_artifact`, with an audit sink that does not raise: exactly one record per attempt once loading and the
        temporary directory are past, one write at most, and only where the plan says so. */
    method PromoteArtifact(p: Attempt) returns (r: Result<PromotionResult>)
      modifies `audit, store`disk
      ensures match PlanOf(p)
        case Escapes(e) => r == Raised(e) && audit == old(audit) && store.disk == old(store.disk)
        case Ends(result) => r == Ok(result) && audit == old(audit) + [result] && store.disk == old(store.disk)
        case Writes(env, receipt, digest, decision, _) =>
          var (answer, after) := StoreWrite(store.h, env, receipt, old(store.disk), p.world);
          var result := AfterWrite(answer, digest, decision);
          r == Ok(result) && audit == old(audit) + [result] && store.disk == after
    {
      if p.load.Raised? {
        if p.load.error.OSError? || p.load.error.ValueError? {
          r := Finish(Failure(None));
          return;
        }
        return Raised(p.load.error);
      }
      var data := p.load.value;
      if !data.Obj? {
        r := Finish(Failure(None));
        return;
      }
      if p.makeTemp.Some? {
        return Raised(p.makeTemp.value);
      }
      if p.fetch.Raised? {
        r := Finish(Failure(None));
        return;
      }
      var verified := VerifyAttestation(data, p.live, p.verifier, p.expected);
      if verified.Raised? {
        r := Finish(Failure(None));
        return;
      }
      if !verified.value.ok {
        r := Finish(PromotionResult(false, VerificationFailed, 3, None, None, false, None));
        return;
      }
      r := GateAndWrite(p, data, p.fetch.value, verified.value);
    }

    method GateAndWrite(p: Attempt, data: Json, ref: ArtifactRef, verified: VerifyResult)
        returns (r: Result<PromotionResult>)
      modifies `audit, store`disk
      ensures match PlanVerified(p, ref, verified, Reconstruct(data, p.verifier))
        case Escapes(_) => false
        case Ends(result) => r == Ok(result) && audit == old(audit) + [result] && store.disk == old(store.disk)
        case Writes(env, receipt, digest, decision, _) =>
          var (answer, after) := StoreWrite(store.h, env, receipt, old(store.disk), p.world);
          var result := AfterWrite(answer, digest, decision);
          r == Ok(result) && audit == old(audit) + [result] && store.disk == after
    {
      var trusted := Reconstruct(data, p.verifier);
      if trusted.Raised? {
        r := Finish(Failure(None));
        return;
      }
      var env, att := trusted.value.0, trusted.value.1;
      if !att.digest.Str? {
        r := Finish(Failure(None));
        return;
      }
      var doc := BuildInput(verified, att, ref, p.text);
      if doc.Raised? {
        r := Finish(Failure(None));
        return;
      }
      var decided := p.gate(doc.value);
      if decided.Raised? {
        r := Finish(Failure(None));
        return;
      }
      r := ActOnDecision(p, ref, verified, env, att, decided.value);
    }

    /** What follows the gate's answer. */
    method ActOnDecision(p: Attempt, ref: ArtifactRef, verified: VerifyResult, env: Envelope, att: Attestation,
                         d: PromotionDecision)
        returns (r: Result<PromotionResult>)
      requires att.digest.Str?
      modifies `audit, store`disk
      ensures match PlanDecided(p, ref, verified, env, att, d)
        case Escapes(_) => false
        case Ends(result) => r == Ok(result) && audit == old(audit) + [result] && store.disk == old(store.disk)
        case Writes(env2, receipt, digest, decision, _) =>
          var (answer, after) := StoreWrite(store.h, env2, receipt, old(store.disk), p.world);
          var result := AfterWrite(answer, digest, decision);
          r == Ok(result) && audit == old(audit) + [result] && store.disk == after
    {
      var digest := Hashing.Normalize(att.digest.s);
      if !d.allow {
        r := Finish(PromotionResult(false, Denied, 1, Some(digest), None, false, Some(att.decision)));
        return;
      }
      if p.dryRun {
        r := Finish(PromotionResult(true, WouldPromote, 0, Some(digest), None, false, Some(att.decision)));
        return;
      }
      var hex := AfterColon(digest);
      if hex.Raised? {
        r := Finish(Failure(None));
        return;
      }
      var receipt := Canonical.Encoding(ReceiptJson(p, verified, att, d, ref, digest, Uri(hex.value), env));
      r := WriteStep(p, env, receipt, digest, att.decision);
    }

    /** The only call of the store's write. */
    method WriteStep(p: Attempt, env: Envelope, receipt: Bytes, digest: string, decision: Decision)
        returns (r: Result<PromotionResult>)
      modifies `audit, store`disk
      ensures var (answer, after) := StoreWrite(store.h, env, receipt, old(store.disk), p.world);
        var result := AfterWrite(answer, digest, decision);
        r == Ok(result) && audit == old(audit) + [result] && store.disk == after
    {
      var answer := store.Write(env, Ok(receipt), p.world);
      r := Finish(AfterWrite(answer, digest, decision));
    }
  }

  // ---- the outcome table -------------------------------------------------------

  /** How outcome, exit code, success and store address go together. */
  predicate Tabled(r: PromotionResult) {
    && r.ok == (r.exitCode == 0)
    && r.exitCode == (match r.outcome
       case Promoted | IdempotentNoop | WouldPromote => 0
       case Denied => 1
       case Failed => 2
       case VerificationFailed => 3)
    && (r.storeUri.Some? <==> r.outcome.Promoted? || r.outcome.IdempotentNoop?)
    && (r.alreadyPresent <==> r.outcome.IdempotentNoop?)
    && (r.decision.Some? ==> r.digest.Some?)
    && (r.ok ==> r.decision.Some?)
  }

  /** Every attempt, whatever fails in it, ends in a row of the table, and without a write none reports a store address;
      only a failure before there is anything to clean up can escape. */
  lemma EveryEndIsTabled(p: Attempt)
    ensures PlanOf(p).Ends? ==> Tabled(PlanOf(p).result) && PlanOf(p).result.storeUri.None?
    ensures PlanOf(p).Escapes? <==>
      ((p.load.Raised? && !p.load.error.OSError? && !p.load.error.ValueError?)
       || (p.load.Ok? && p.load.value.Obj? && p.makeTemp.Some?))
  {
    if p.load.Ok? && p.fetch.Ok? {
      FetchedEndIsTabled(p, p.fetch.value, Verify.Verify(p.load.value, p.live, p.verifier, p.expected),
                         Reconstruct(p.load.value, p.verifier));
    }
  }

  /** Both ways out are real, whatever else the attempt holds: a file nested too deeply makes the JSON reader raise a
      `RecursionError`, and the temporary directory may fail to be made. */
  lemma SomeAttemptsEscape(p: Attempt, data: Json)
    requires data.Obj?
    ensures PlanOf(p.(load := Raised(OtherError))) == Escapes(OtherError)
    ensures PlanOf(p.(load := Ok(data), makeTemp := Some(OSError))) == Escapes(OSError)
  {
    EveryEndIsTabled(p.(load := Raised(OtherError)));
    EveryEndIsTabled(p.(load := Ok(data), makeTemp := Some(OSError)));
  }

  lemma FetchedEndIsTabled(p: Attempt, ref: ArtifactRef, verified: Result<VerifyResult>,
                           trusted: Result<(Envelope, Attestation)>)
    ensures var plan := PlanFetched(p, ref, verified, trusted);
      !plan.Escapes? && (plan.Ends? ==> Tabled(plan.result) && plan.result.storeUri.None?)
  {
  }

  /** Each outcome has its one cause: a report that is not ok, a gate that denies, a dry run that would have passed. */
  lemma OutcomeHasItsCause(p: Attempt, ref: ArtifactRef, verified: Result<VerifyResult>, env: Envelope, att: Attestation)
    requires att.digest.Str?
    ensures var plan := PlanFetched(p, ref, verified, Ok((env, att))); var passed := verified.Ok? && verified.value.ok;
      && (plan.Ends? && plan.result.outcome.VerificationFailed? <==> verified.Ok? && !verified.value.ok)
      && (plan.Ends? && plan.result.outcome.Denied? <==>
            (passed && GateSays(p, ref, verified.value, att).Ok? && !GateSays(p, ref, verified.value, att).value.allow))
      && (plan.Ends? && plan.result.outcome.WouldPromote? <==>
            (passed && GateSays(p, ref, verified.value, att).Ok? && GateSays(p, ref, verified.value, att).value.allow
             && p.dryRun))
  {
  }

  /** What the reference, the verification and what is trusted of it come to, once there is a temporary directory. */
  predicate Reached(p: Attempt) { p.load.Ok? && p.load.value.Obj? && p.makeTemp.None? && p.fetch.Ok? }

  /** Verification reports, and says `ok`. */
  predicate VerifiedAs(p: Attempt, ok: bool) {
    Reached(p)
    && var r := Verify.Verify(p.load.value, p.live, p.verifier, p.expected);
       r.Ok? && r.value.ok == ok
  }

  /** The gate's answer for a passing verification, if it comes to one. */
  function Answer(p: Attempt): Option<PromotionDecision> {
    if !VerifiedAs(p, true) then None
    else match Reconstruct(p.load.value, p.verifier)
      case Raised(_) => None
      case Ok((_, att)) =>
        var r := Verify.Verify(p.load.value, p.live, p.verifier, p.expected).value;
        match GateSays(p, p.fetch.value, r, att)
        case Raised(_) => None
        case Ok(d) => if att.digest.Str? then Some(d) else None
  }

  /** The whole attempt, store included. An attempt ends as `verification_failed` exactly on a report that is not ok, as
      `denied` exactly when the gate says no, as `would_promote` exactly on a dry run the gate allows, as `promoted` or
      `idempotent_noop` exactly as the store reports; whatever else does not escape is an `error`, a failed load, fetch
      or store included. */
  lemma EveryOutcomeHasItsCause(p: Attempt, h: Digests, disk: Disk)
    requires ResultOf(p, h, disk).Some?
    ensures var r := ResultOf(p, h, disk).value; var plan := PlanOf(p);
      && Tabled(r)
      && (r.outcome.VerificationFailed? <==> VerifiedAs(p, false))
      && (r.outcome.Denied? <==> Denies(p)) && (r.outcome.WouldPromote? <==> Allows(p) && p.dryRun)
      && (r.outcome.Promoted? <==> plan.Writes? && Stored(p, h, disk).Ok? && !Stored(p, h, disk).value.1)
      && (r.outcome.IdempotentNoop? <==> plan.Writes? && Stored(p, h, disk).Ok? && Stored(p, h, disk).value.1)
      && (plan.Writes? ==> Allows(p) && !p.dryRun)
  {
    EveryEndIsTabled(p);
    EveryPlanHasItsCause(p);
    CausesCarryOver(PlanOf(p), Stored(p, h, disk), VerifiedAs(p, false), Denies(p), Allows(p), p.dryRun);
  }

  /** What a result carries besides its outcome: the verified digest and the attested decision where the gate has answered,
      the digest alone where the store refused, neither otherwise; and the address the store returned. */
  lemma EveryResultCarries(p: Attempt, h: Digests, disk: Disk)
    requires ResultOf(p, h, disk).Some?
    ensures PlanOf(p).Ends? && Reached(p) ==> EndCarries(PlanOf(p).result, Reconstruct(p.load.value, p.verifier))
    ensures PlanOf(p).Ends? && !Reached(p) ==> PlanOf(p).result == PromotionResult(false, Failed, 2, None, None, false, None)
    ensures PlanOf(p).Writes? ==> WriteCarries(PlanOf(p).digest, PlanOf(p).decision, Stored(p, h, disk),
                                               ResultOf(p, h, disk).value)
  {
    if Reached(p) {
      FetchedCarries(p, p.fetch.value, Verify.Verify(p.load.value, p.live, p.verifier, p.expected),
                     Reconstruct(p.load.value, p.verifier));
    }
    match PlanOf(p)
    case Writes(_, _, digest, decision, _) => AfterWriteCarries(Stored(p, h, disk), digest, decision);
    case _ =>
  }

  /** Of an attempt that ends without a write. */
  predicate EndCarries(r: PromotionResult, trusted: Result<(Envelope, Attestation)>) {
    if r.outcome.Denied? || r.outcome.WouldPromote? then
      trusted.Ok? && trusted.value.1.digest.Str? && r.digest == Some(Hashing.Normalize(trusted.value.1.digest.s))
      && r.decision == Some(trusted.value.1.decision)
    else
      (r.outcome.VerificationFailed? || r.outcome.Failed?) && r.digest.None? && r.decision.None?
  }

  /** Of one that asked the store: three kinds of exception are the store's refusal. */
  predicate WriteCarries(digest: string, decision: Decision, answer: Result<(string, bool)>, r: PromotionResult) {
    match answer
    case Ok((uri, _)) => r.digest == Some(digest) && r.decision == Some(decision) && r.storeUri == Some(uri)
    case Raised(e) =>
      r.decision.None? && r.digest == if e in {PromotionError, QuarantineError, OSError} then Some(digest) else None
  }

  lemma AfterWriteCarries(answer: Result<(string, bool)>, digest: string, decision: Decision)
    ensures WriteCarries(digest, decision, answer, AfterWrite(answer, digest, decision))
  {
  }

  lemma DecidedCarries(p: Attempt, ref: ArtifactRef, r: VerifyResult, env: Envelope, att: Attestation,
                       d: PromotionDecision)
    requires att.digest.Str?
    ensures var plan := PlanDecided(p, ref, r, env, att, d); plan.Ends? ==> EndCarries(plan.result, Ok((env, att)))
  {
  }

  lemma FetchedCarries(p: Attempt, ref: ArtifactRef, verified: Result<VerifyResult>,
                       trusted: Result<(Envelope, Attestation)>)
    ensures var plan := PlanFetched(p, ref, verified, trusted); plan.Ends? ==> EndCarries(plan.result, trusted)
  {
    if verified.Ok? && trusted.Ok? && trusted.value.1.digest.Str? {
      var (env, att) := trusted.value;
      if GateSays(p, ref, verified.value, att).Ok? {
        DecidedCarries(p, ref, verified.value, env, att, GateSays(p, ref, verified.value, att).value);
      }
    }
  }

  predicate Denies(p: Attempt) { Answer(p).Some? && !Answer(p).value.allow }

  predicate Allows(p: Attempt) { Answer(p).Some? && Answer(p).value.allow }

  /** What holds of the plan holds of the result made of it and of the store's answer. */
  lemma CausesCarryOver(plan: Plan, answer: Result<(string, bool)>, failed: bool, denies: bool, allows: bool, dry: bool)
    requires !plan.Escapes? && (plan.Ends? ==> Tabled(plan.result) && plan.result.storeUri.None?)
    requires Caused(plan, failed, denies, allows, dry)
    ensures var r := Concluded(plan, answer).value;
      && Tabled(r)
      && (r.outcome.VerificationFailed? <==> failed) && (r.outcome.Denied? <==> denies)
      && (r.outcome.WouldPromote? <==> allows && dry)
      && (r.outcome.Promoted? <==> plan.Writes? && answer.Ok? && !answer.value.1)
      && (r.outcome.IdempotentNoop? <==> plan.Writes? && answer.Ok? && answer.value.1)
  {
  }

  predicate Caused(plan: Plan, failed: bool, denies: bool, allows: bool, dry: bool) {
    && (plan.Ends? && plan.result.outcome.VerificationFailed? <==> failed)
    && (plan.Ends? && plan.result.outcome.Denied? <==> denies)
    && (plan.Ends? && plan.result.outcome.WouldPromote? <==> allows && dry)
    && (plan.Writes? ==> allows && !dry)
  }

  /** What the plan and the store's answer come to. */
  function Concluded(plan: Plan, answer: Result<(string, bool)>): Option<PromotionResult> {
    match plan
    case Escapes(_) => None
    case Ends(r) => Some(r)
    case Writes(_, _, digest, decision, _) => Some(AfterWrite(answer, digest, decision))
  }

  /** What the store answers to a planned write. */
  function Stored(p: Attempt, h: Digests, disk: Disk): Result<(string, bool)> {
    match PlanOf(p)
    case Writes(env, receipt, _, _, _) => StoreWrite(h, env, receipt, disk, p.world).0
    case _ => Raised(OtherError)
  }

  lemma EveryPlanHasItsCause(p: Attempt)
    requires !PlanOf(p).Escapes?
    ensures Caused(PlanOf(p), VerifiedAs(p, false), Denies(p), Allows(p), p.dryRun)
  {
    if Reached(p) { PlanHasItsCause(p); }
  }

  lemma PlanHasItsCause(p: Attempt)
    requires Reached(p)
    ensures Caused(PlanOf(p), VerifiedAs(p, false), Denies(p), Allows(p), p.dryRun)
  {
    var verified := Verify.Verify(p.load.value, p.live, p.verifier, p.expected);
    var trusted := Reconstruct(p.load.value, p.verifier);
    if trusted.Ok? && trusted.value.1.digest.Str? {
      OutcomeHasItsCause(p, p.fetch.value, verified, trusted.value.0, trusted.value.1);
    }
  }

  /** The gate's answer on the document built from what was verified. */
  function GateSays(p: Attempt, ref: ArtifactRef, r: VerifyResult, att: Attestation): Result<PromotionDecision> {
    match BuildInput(r, att, ref, p.text)
    case Raised(e) => Raised(e)
    case Ok(doc) => p.gate(doc)
  }

  lemma EveryWriteIsTabled(answer: Result<(string, bool)>, digest: string, decision: Decision)
    ensures var r := AfterWrite(answer, digest, decision);
      && Tabled(r) && r.ok == answer.Ok?
      && (answer.Ok? ==> r.storeUri == Some(answer.value.0) && (r.outcome.Promoted? <==> !answer.value.1))
  {
  }

  // ---- what dominates the write --------------------------------------------------

  /** A passing verification: the signed bytes, read again, give the attestation whose checks passed. */
  lemma VerifiedReconstructs(data: Json, live: Result<string>, v: Signing.Verifier, expected: Option<string>,
                             r: VerifyResult)
    requires Verify.Verify(data, live, v, expected) == Ok(r) && r.ok
    ensures Reconstruct(data, v).Ok?
    ensures var (env, att) := Reconstruct(data, v).value;
      && r.checks == Checks(true, true, true, true) && r.decision == Some(att.decision)
      && DecodeEnvelope(EnvelopeView(data)) == Ok(env) && Signing.Authentic(env, v) && KeyidOk(env, v.scheme, expected)
      && SubjectOf(env).Ok? && Sound(Signing.VerifyEnvelope(env, v).value, att, live)
      && SubjectOf(env) == Statement.SubjectDigest(Signing.VerifyEnvelope(env, v).value)
  {
    var env := DecodeEnvelope(EnvelopeView(data)).value;
    VerifyConcludes(data, live, v, expected);
    ConcludeOk(v.scheme, ShownKeyid(env, v.scheme), KeyidOk(env, v.scheme, expected), Signing.VerifyEnvelope(env, v),
               live);
    OpenedIsAuthentic(env, v);
  }

  /** What the flow has established by the time it may write. */
  ghost predicate Cleared(p: Attempt, env: Envelope, att: Attestation, r: VerifyResult, doc: Json) {
    && p.load.Ok? && Verify.Verify(p.load.value, p.live, p.verifier, p.expected) == Ok(r) && r.ok
    && DecodeEnvelope(EnvelopeView(p.load.value)) == Ok(env) && Signing.Authentic(env, p.verifier)
    && SubjectOf(env).Ok? && Sound(Signing.VerifyEnvelope(env, p.verifier).value, att, p.live)
    && SubjectOf(env) == Statement.SubjectDigest(Signing.VerifyEnvelope(env, p.verifier).value)
    && p.fetch.Ok? && BuildInput(r, att, p.fetch.value, p.text) == Ok(doc)
    && p.gate(doc).Ok? && p.gate(doc).value.allow && !p.dryRun
  }

  /** A write is planned only after verification, gate and no dry run; it carries the verified envelope itself. */
  lemma WriteIsDominated(p: Attempt) returns (att: Attestation, r: VerifyResult, doc: Json)
    requires PlanOf(p).Writes?
    ensures Cleared(p, PlanOf(p).env, att, r, doc)
    ensures PlanOf(p).decision == att.decision && PlanOf(p).digest == Hashing.Normalize(att.digest.s)
    ensures AfterColon(PlanOf(p).digest).Ok? && PlanOf(p).receiptUri == Uri(AfterColon(PlanOf(p).digest).value)
  {
    var data := p.load.value;
    r := Verify.Verify(data, p.live, p.verifier, p.expected).value;
    VerifiedReconstructs(data, p.live, p.verifier, p.expected, r);
    att := Reconstruct(data, p.verifier).value.1;
    doc := BuildInput(r, att, p.fetch.value, p.text).value;
  }

  /** A gate that never allows what the floor refuses. */
  ghost predicate Guarded(gate: Json -> Result<PromotionDecision>, floor: Floor) {
    forall doc :: gate(doc).Ok? && gate(doc).value.allow ==> FloorReasons(doc, floor) == Ok([])
  }

  /** What the composite reports, from what its engines did. */
  function ComposeResults(base: Result<seq<Reason>>, other: Option<Result<PromotionDecision>>): Result<PromotionDecision> {
    var reasons :- base;
    var floor := PromotionDecision(reasons == [], reasons, "embedded");
    match other
    case None => Ok(Compose(floor, None))
    case Some(Raised(e)) => Raised(e)
    case Some(Ok(d)) => Ok(Compose(floor, Some(d)))
  }

  /** The gate `make_promotion_gate` builds: the floor, and maybe another engine. */
  function CompositeGate(floor: Floor, other: Option<Json -> Result<PromotionDecision>>)
    : Json -> Result<PromotionDecision>
  {
    doc => ComposeResults(FloorReasons(doc, floor), if other.None? then None else Some(other.value(doc)))
  }

  lemma CompositeIsGuarded(floor: Floor, other: Option<Json -> Result<PromotionDecision>>)
    ensures Guarded(CompositeGate(floor, other), floor)
  {
    var gate := CompositeGate(floor, other);
    forall doc | gate(doc).Ok? && gate(doc).value.allow ensures FloorReasons(doc, floor) == Ok([]) {
      ComposedAllows(FloorReasons(doc, floor), if other.None? then None else Some(other.value(doc)));
    }
  }

  lemma ComposedAllows(base: Result<seq<Reason>>, other: Option<Result<PromotionDecision>>)
    ensures ComposeResults(base, other).Ok? && ComposeResults(base, other).value.allow ==> base == Ok([])
  {
  }

  /** Behind the composite gate, only an approved, fully checked attestation reaches the store; for an executable type
      only one with behavioural rigor under docker or gvisor. */
  lemma OnlyPromotableIsWritten(p: Attempt, floor: Floor) returns (att: Attestation, r: VerifyResult)
    requires PlanOf(p).Writes? && Guarded(p.gate, floor)
    ensures PromotableAttestation(r, att, floor)
    ensures exists statement :: Sound(statement, att, p.live)
    ensures DecodeEnvelope(EnvelopeView(p.load.value)) == Ok(PlanOf(p).env)
    ensures Signing.Authentic(PlanOf(p).env, p.verifier)
    ensures PlanOf(p).decision == Approve
  {
    var doc;
    att, r, doc := WriteIsDominated(p);
    FloorOnBuiltInput(r, att, p.fetch.value, p.text, floor);
  }

  /** Behind a floor that lists keyids, a write means that the envelope has a signature of the operator's scheme under a
      listed keyid. */
  lemma ListedKeyidIsThere(p: Attempt, floor: Floor)
    requires PlanOf(p).Writes? && Guarded(p.gate, floor) && floor.requiredKeyids != {}
    ensures exists s :: s in PlanOf(p).env.signatures && s.scheme == p.verifier.scheme && s.keyid in floor.requiredKeyids
  {
    var att, r, doc := WriteIsDominated(p);
    FloorOnBuiltInput(r, att, p.fetch.value, p.text, floor);
    VerifyReports(p.load.value, p.live, p.verifier, p.expected);
    ShownOfAuthentic(PlanOf(p).env, p.verifier, r.keyid);
  }

  // ---- what an attempt publishes -----------------------------------------------

  ghost predicate NoTmpOf(disk: Disk, nonce: string) { forall bare :: TmpDir(bare, nonce) !in disk }

  /** The disk after a whole attempt. */
  function DiskAfter(p: Attempt, h: Digests, disk: Disk): Disk {
    match PlanOf(p)
    case Writes(env, receipt, _, _, _) => StoreWrite(h, env, receipt, disk, p.world).1
    case _ => disk
  }

  function ResultOf(p: Attempt, h: Digests, disk: Disk): Option<PromotionResult> {
    Concluded(PlanOf(p), Stored(p, h, disk))
  }

  /** Any outcome other than `promoted` leaves every key of the store as it was. */
  lemma OnlyPromotedPublishes(p: Attempt, h: Digests, disk: Disk, k: Path)
    requires NoTmpOf(disk, p.world.nonce) && k.KeyDir?
    requires ResultOf(p, h, disk).None? || !ResultOf(p, h, disk).value.outcome.Promoted?
    ensures k in DiskAfter(p, h, disk) <==> k in disk
    ensures k in disk ==> DiskAfter(p, h, disk)[k] == disk[k]
  {
    match PlanOf(p)
    case Writes(env, receipt, _, _, _) =>
      if SubjectOf(env).Ok? {
        WriteOutcomes(h, CallOf(env, SubjectOf(env).value, Ok(receipt), p.world.nonce), disk, p.world);
      }
    case _ =>
  }

  /** A write that reports a fresh publication has added one entry, whole, at the envelope's own subject. */
  lemma FreshWritePublishes(h: Digests, env: Envelope, receipt: Bytes, disk: Disk, o: World)
    requires NoTmpOf(disk, o.nonce) && SubjectOf(env).Ok?
    requires StoreWrite(h, env, receipt, disk, o).0.Ok? && !StoreWrite(h, env, receipt, disk, o).0.value.1
    ensures var bare := SubjectOf(env).value; var (answer, after) := StoreWrite(h, env, receipt, disk, o);
      && answer == Ok((Uri(bare), false))
      && (KeyDir(bare) !in disk || Empty(disk[KeyDir(bare)]))
      && h.whole(o.copied).Ok? && h.matches(h.whole(o.copied).value, bare)
      && after == disk[KeyDir(bare) := Dir(o.nonce, Some(o.copied), Some(EnvelopeBytes(env)), Some(receipt), true)]
  {
    var bare := SubjectOf(env).value;
    WriteOutcomes(h, CallOf(env, bare, Ok(receipt), o.nonce), disk, o);
  }

  /** `promoted` means: one new entry, at the verified subject, holding the bytes of the envelope that was verified and a
      tree that hashes to that subject; nothing else has changed. */
  lemma PromotedPublishesVerified(p: Attempt, h: Digests, disk: Disk, plan: Plan)
    requires NoTmpOf(disk, p.world.nonce) && plan == PlanOf(p)
    requires ResultOf(p, h, disk).Some? && ResultOf(p, h, disk).value.outcome.Promoted?
    ensures plan.Writes? && SubjectOf(plan.env).Ok? && Signing.Authentic(plan.env, p.verifier)
    ensures var bare := SubjectOf(plan.env).value;
      && ResultOf(p, h, disk).value.storeUri == Some(Uri(bare))
      && (KeyDir(bare) !in disk || Empty(disk[KeyDir(bare)]))
      && h.whole(p.world.copied).Ok? && h.matches(h.whole(p.world.copied).value, bare)
      && DiskAfter(p, h, disk) == disk[KeyDir(bare) :=
           Dir(p.world.nonce, Some(p.world.copied), Some(EnvelopeBytes(plan.env)), Some(plan.receipt), true)]
  {
    EveryEndIsTabled(p);
    var att, r, doc := WriteIsDominated(p);
    EveryWriteIsTabled(StoreWrite(h, plan.env, plan.receipt, disk, p.world).0, plan.digest, plan.decision);
    FreshWritePublishes(h, plan.env, plan.receipt, disk, p.world);
  }

  /** The receipt names the entry by the normalised digest, the store by the subject as signed: they agree exactly when
      the subject is spelled plainly, as MIG's own statements spell it. */
  lemma ReceiptNamesEntryExactly(p: Attempt)
    requires PlanOf(p).Writes? && (p.live.Ok? ==> Hashing.Computed(p.live.value))
    ensures SubjectOf(PlanOf(p).env).Ok?
    ensures PlanOf(p).receiptUri == Uri(SubjectOf(PlanOf(p).env).value) <==> Plain(SubjectOf(PlanOf(p).env).value)
  {
    var att, r, doc := WriteIsDominated(p);
    var bare := SubjectOf(PlanOf(p).env).value;
    var d := p.live.value;
    assert Hashing.DigestsMatch(att.digest.s, bare) && Hashing.DigestsMatch(d, bare);
    Hashing.NormalizeComputed(d);
    Hashing.ComputedChars(d);
    assert PlanOf(p).digest == d;
    assert Hashing.Colon(d) == 6;
    UriInjective(d[7..], bare);
    PlainMatches(bare, d);
  }

  lemma UriInjective(a: string, b: string)
    ensures Uri(a) == Uri(b) <==> a == b
  {
    var n := |"mig-trusted://sha256/"|;
    assert Uri(a)[n..] == a && Uri(b)[n..] == b;
  }

  lemma PlainMatches(bare: string, d: string)
    requires Hashing.Computed(d) && Hashing.Normalize(bare) == d
    ensures Plain(bare) <==> bare == d[7..]
  {
    Hashing.ComputedChars(d);
    if Plain(bare) {
      Hashing.NormalizeComputed("sha256:" + bare);
      assert ("sha256:" + bare)[7..] == bare;
    }
  }

  // ---- an honest attempt succeeds ---------------------------------------------------

  /** What verification reports of an honest attestation. */
  function HonestResult(a: Attestation, s: Signing.Signer): VerifyResult {
    VerifyResult(true, s.scheme, s.keyId, Some(a.decision), Checks(true, true, true, true), [])
  }

  /** What the gate is shown of it. */
  function Trusted(a: Attestation): Attestation { NormAttestation(a.(signature := Null)) }

  /** The attempt has before it a file carrying the statement of `a`, signed by `s`, and fetches what `a` attests. */
  ghost predicate Honest(p: Attempt, a: Attestation, live: string, s: Signing.Signer) {
    && WfAttestation(a) && (forall g :: g in a.gateSummary ==> Attributed(g))
    && a.digest.Str? && Hashing.Computed(live) && Hashing.DigestsMatch(a.digest.s, live)
    && Signing.Matching(s, p.verifier) && (p.expected.None? || p.expected == Some(s.keyId))
    && p.load.Ok? && p.load.value.Obj? && p.makeTemp.None? && p.fetch.Ok? && p.live == Ok(live) && !p.dryRun
    && (Statement.FromAttestation(a, p.text).Ok? ==>
          Carries(p.load.value, Signing.SignStatement(Statement.FromAttestation(a, p.text).value, s)))
  }

  lemma HonestVerifies(p: Attempt, a: Attestation, live: string, s: Signing.Signer)
    requires Honest(p, a, live, s)
    ensures Statement.FromAttestation(a, p.text).Ok?
    ensures Verify.Verify(p.load.value, p.live, p.verifier, p.expected) == Ok(HonestResult(a, s))
  {
    EndToEnd(a, p.text, live, s, p.verifier, p.expected, p.load.value);
  }

  lemma HonestOpens(p: Attempt, a: Attestation, live: string, s: Signing.Signer, env: Envelope)
    requires Honest(p, a, live, s) && Statement.FromAttestation(a, p.text).Ok?
    requires env == Signing.SignStatement(Statement.FromAttestation(a, p.text).value, s)
    ensures Carries(p.load.value, env) && Signing.VerifyEnvelope(env, p.verifier).Ok?
    ensures Statement.ToAttestation(Signing.VerifyEnvelope(env, p.verifier).value) == Ok(Trusted(a))
  {
    EndToEnd(a, p.text, live, s, p.verifier, p.expected, p.load.value);
  }

  lemma HonestReconstructs(data: Json, env: Envelope, v: Signing.Verifier, trusted: Attestation)
    requires Carries(data, env) && env.signatures != [] && Signing.VerifyEnvelope(env, v).Ok?
    requires Statement.ToAttestation(Signing.VerifyEnvelope(env, v).value) == Ok(trusted)
    ensures Reconstruct(data, v) == Ok((env, trusted))
  {
    DecodeEncodedEnvelope(env);
  }

  lemma TrustedDigest(p: Attempt, a: Attestation, live: string, s: Signing.Signer)
    requires Honest(p, a, live, s)
    ensures Trusted(a).digest.Str? && Hashing.Normalize(Trusted(a).digest.s) == live
    ensures BuildInput(HonestResult(a, s), Trusted(a), p.fetch.value, p.text).Ok?
    ensures AfterColon(live) == Ok(live[7..])
  {
    Hashing.NormalizeComputed(live);
    Hashing.ComputedChars(live);
    assert live[6] == ':';
    TrustedIsFinite(a);
    BuildsExactly(HonestResult(a, s), Trusted(a), p.fetch.value, p.text);
  }

  /** What could be signed can be shown to the gate. */
  lemma TrustedIsFinite(a: Attestation)
    requires WfAttestation(a)
    ensures FiniteView(Trusted(a))
  {
    EncodableIsFinite(a);
    FiniteNorm(a.confinementLevel);
    FiniteNorm(a.policyId);
    FiniteNorm(a.policyVersion);
    FiniteNorm(a.migVersion);
    FiniteNorm(a.createdAt);
    FiniteNorm(a.predicateType);
    NormGatesFinite(a.gateSummary);
  }

  lemma {:induction false} NormGatesFinite(gs: seq<GateResult>)
    requires forall g :: g in gs ==> WfGate(g) && FiniteGate(g)
    ensures forall g :: g in NormGates(gs) ==> FiniteGate(g)
  {
    if gs != [] {
      assert gs[0] in gs && forall g :: g in gs[1..] ==> g in gs;
      FiniteNorm(gs[0].gateId);
      FiniteNorm(gs[0].scannerName);
      FiniteNorm(gs[0].scannerVersion);
      NormGatesFinite(gs[1..]);
    }
  }

  lemma EncodableIsFinite(a: Attestation)
    requires Canonical.Encodable(Graph(a))
    ensures Finite(a.confinementLevel) && Finite(a.policyId) && Finite(a.policyVersion) && Finite(a.migVersion)
    ensures Finite(a.createdAt) && Finite(a.predicateType) && forall g :: g in a.gateSummary ==> FiniteGate(g)
  {
    EncodableGraph(Graph(a));
    var g, h := RefGraph(a.ref), Canonical.PySeq(GateGraphs(a.gateSummary));
    var k, d, r := TypeText(a.artifactType), DecisionText(a.decision), RigorText(a.overallRigor);
    PartsSatisfy(a, g, h, k, d, r, Canonical.Encodable);
    FieldsSatisfy(a, g, h, k, d, r, Canonical.Encodable);
    Canonical.ProjectJson(a.confinementLevel);
    Canonical.ProjectJson(a.policyId);
    Canonical.ProjectJson(a.policyVersion);
    Canonical.ProjectJson(a.migVersion);
    Canonical.ProjectJson(a.createdAt);
    Canonical.ProjectJson(a.predicateType);
    EncodableGatesFinite(a.gateSummary);
  }

  lemma FieldsSatisfy(a: Attestation, g: Canonical.Py, h: Canonical.Py, k: string, d: string, r: string,
                      p: Canonical.Py -> bool)
    requires forall i :: 0 <= i < 14 ==> p(GraphFields(a, g, h, k, d, r)[i].value)
    ensures p(Canonical.FromJson(a.confinementLevel)) && p(Canonical.FromJson(a.policyId))
    ensures p(Canonical.FromJson(a.policyVersion)) && p(Canonical.FromJson(a.migVersion))
    ensures p(Canonical.FromJson(a.createdAt)) && p(Canonical.FromJson(a.predicateType))
  {
    var fs := GraphFields(a, g, h, k, d, r);
    assert p(fs[6].value) && p(fs[7].value) && p(fs[8].value) && p(fs[9].value) && p(fs[10].value) && p(fs[12].value);
  }

  lemma {:induction false} EncodableGatesFinite(gs: seq<GateResult>)
    requires Canonical.Encodable(Canonical.PySeq(GateGraphs(gs)))
    ensures forall g :: g in gs ==> FiniteGate(g)
  {
    if gs != [] {
      var graphs := GateGraphs(gs);
      assert graphs[0] in graphs && graphs[0] == GateGraph(gs[0]) && graphs[1..] == GateGraphs(gs[1..]);
      EncodableGraph(graphs[0]);
      GateFieldsSatisfy(gs[0], Canonical.Encodable);
      Canonical.ProjectJson(gs[0].gateId);
      Canonical.ProjectJson(gs[0].scannerName);
      Canonical.ProjectJson(gs[0].scannerVersion);
      EncodableGatesFinite(gs[1..]);
    }
  }

  lemma GateFieldsSatisfy(g: GateResult, p: Canonical.Py -> bool)
    requires forall i :: 0 <= i < 8 ==> p(GateGraph(g).fields[i].value)
    ensures p(Canonical.FromJson(g.gateId)) && p(Canonical.FromJson(g.scannerName))
    ensures p(Canonical.FromJson(g.scannerVersion))
  {
    var fs := GateGraph(g).fields;
    assert p(fs[0].value) && p(fs[4].value) && p(fs[5].value);
  }

  /** Nothing stops an honest, promotable attempt before the store, and it carries the envelope that was signed. */
  lemma HonestPlanWrites(p: Attempt, a: Attestation, live: string, s: Signing.Signer, floor: Floor)
    requires Honest(p, a, live, s) && p.gate == CompositeGate(floor, None)
    requires PromotableAttestation(HonestResult(a, s), Trusted(a), floor)
    ensures PlanOf(p).Writes? && Statement.FromAttestation(a, p.text).Ok?
    ensures PlanOf(p).env == Signing.SignStatement(Statement.FromAttestation(a, p.text).value, s)
    ensures PlanOf(p).digest == live && PlanOf(p).decision == a.decision
  {
    HonestVerifies(p, a, live, s);
    TrustedDigest(p, a, live, s);
    var r, att := HonestResult(a, s), Trusted(a);
    var env := Signing.SignStatement(Statement.FromAttestation(a, p.text).value, s);
    HonestOpens(p, a, live, s, env);
    HonestReconstructs(p.load.value, env, p.verifier, att);
    var doc := BuildInput(r, att, p.fetch.value, p.text).value;
    FloorOnBuiltInput(r, att, p.fetch.value, p.text, floor);
    FloorAlone(doc, floor);
    PassingPlan(p, r, env, att);
    AllowedPlan(p, p.fetch.value, r, env, att, doc);
  }

  lemma PassingPlan(p: Attempt, r: VerifyResult, env: Envelope, att: Attestation)
    requires p.load.Ok? && p.load.value.Obj? && p.makeTemp.None? && p.fetch.Ok? && r.ok
    requires Verify.Verify(p.load.value, p.live, p.verifier, p.expected) == Ok(r)
    requires Reconstruct(p.load.value, p.verifier) == Ok((env, att))
    ensures PlanOf(p) == PlanVerified(p, p.fetch.value, r, Ok((env, att)))
  {
  }

  lemma AllowedPlan(p: Attempt, ref: ArtifactRef, r: VerifyResult, env: Envelope, att: Attestation, doc: Json)
    requires att.digest.Str? && BuildInput(r, att, ref, p.text) == Ok(doc) && !p.dryRun
    requires p.gate(doc).Ok? && p.gate(doc).value.allow && AfterColon(Hashing.Normalize(att.digest.s)).Ok?
    ensures var plan := PlanVerified(p, ref, r, Ok((env, att)));
      plan.Writes? && plan.env == env && plan.digest == Hashing.Normalize(att.digest.s) && plan.decision == att.decision
  {
  }

  lemma FloorAlone(doc: Json, floor: Floor)
    requires FloorReasons(doc, floor) == Ok([])
    ensures CompositeGate(floor, None)(doc) == Ok(PromotionDecision(true, [], "embedded"))
  {
    var none: seq<Reason> := [];
    assert ComposeResults(Ok(none), None) == Ok(PromotionDecision(true, none, "embedded"));
  }

  lemma HonestSubject(p: Attempt, a: Attestation, live: string, s: Signing.Signer)
    requires Honest(p, a, live, s)
    ensures Statement.FromAttestation(a, p.text).Ok?
    ensures SubjectOf(Signing.SignStatement(Statement.FromAttestation(a, p.text).value, s)) == Ok(live[7..])
  {
    Statement.FromAttestationShape(a, p.text, live);
    PredicateWf(a);
    Hashing.ComputedChars(live);
    SubjectOfSigned(Statement.SubjectName(a.ref, p.text), live[7..], Obj(PredicateMembers(a)), s);
  }

  /** The store is idle, nothing fails in it, and what it re-hashes and copies is `t`. */
  ghost predicate QuietStore(p: Attempt, t: Hashing.Tree, st: State) {
    && Inv(Sha256Digests(p.sha), st) && Quiet(p.world) && p.world.nonce !in st.writers
    && p.world.live == t && p.world.files == Hashing.Paths(t) && p.world.copied == t
  }

  /** From attestation to store: an honest attempt behind the floor, on a store that has no such entry and with nothing
      failing, is promoted, and the entry then holds exactly the signed envelope and the attested tree. */
  lemma HonestAttemptIsPromoted(p: Attempt, a: Attestation, live: string, s: Signing.Signer, floor: Floor,
                                t: Hashing.Tree, st: State)
    requires Hashing.TreeDigest(p.sha, t) == Ok(live) && Hashing.IsSha256(p.sha)
    requires Honest(p, a, live, s) && p.gate == CompositeGate(floor, None)
    requires PromotableAttestation(HonestResult(a, s), Trusted(a), floor)
    requires QuietStore(p, t, st) && KeyDir(live[7..]) !in st.disk
    ensures PlanOf(p).Writes? && Statement.FromAttestation(a, p.text).Ok?
    ensures PlanOf(p).env == Signing.SignStatement(Statement.FromAttestation(a, p.text).value, s)
    ensures PromotedAs(PlanOf(p), p.world, Sha256Digests(p.sha), st.disk, KeyDir(live[7..]), t)
  {
    HonestPlanWrites(p, a, live, s, floor);
    HonestSubject(p, a, live, s);
    PlanPublishes(PlanOf(p), p, live, t, st);
  }

  /** Carrying out `plan` promotes, and the entry at `key` holds the planned envelope and `t`. */
  ghost predicate PromotedAs(plan: Plan, o: World, h: Digests, disk: Disk, key: Path, t: Hashing.Tree) {
    && plan.Writes?
    && var (answer, after) := StoreWrite(h, plan.env, plan.receipt, disk, o);
       && AfterWrite(answer, plan.digest, plan.decision).outcome.Promoted?
       && key in after && after[key].artifact == Some(t) && after[key].att == Some(EnvelopeBytes(plan.env))
  }

  lemma PlanPublishes(plan: Plan, p: Attempt, live: string, t: Hashing.Tree, st: State)
    requires Hashing.Computed(live) && plan.Writes? && SubjectOf(plan.env) == Ok(live[7..])
    requires Hashing.TreeDigest(p.sha, t) == Ok(live) && Hashing.IsSha256(p.sha)
    requires QuietStore(p, t, st) && KeyDir(live[7..]) !in st.disk
    ensures PromotedAs(plan, p.world, Sha256Digests(p.sha), st.disk, KeyDir(live[7..]), t)
  {
    StorePublishes(p, plan.env, plan.receipt, live, t, st);
  }

  lemma StorePublishes(p: Attempt, env: Envelope, receipt: Bytes, live: string, t: Hashing.Tree, st: State)
    requires Hashing.TreeDigest(p.sha, t) == Ok(live) && Hashing.IsSha256(p.sha) && Hashing.Computed(live)
    requires SubjectOf(env) == Ok(live[7..]) && QuietStore(p, t, st) && KeyDir(live[7..]) !in st.disk
    ensures var key := KeyDir(live[7..]);
      var (answer, after) := StoreWrite(Sha256Digests(p.sha), env, receipt, st.disk, p.world);
      && answer == Ok((Uri(key.bare), false))
      && key in after && after[key].artifact == Some(t) && after[key].att == Some(EnvelopeBytes(env))
  {
    var h := Sha256Digests(p.sha);
    var w := CallOf(env, live[7..], Ok(receipt), p.world.nonce);
    TrustedStore.Sha256IsHonest(p.sha);
    Hashing.NormalizeComputed(live);
    assert h.matches(live, live[7..]) && Publishable(h, w, p.world);
    QuietFirst(h, st, w, p.world);
  }
}
