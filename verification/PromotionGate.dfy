/** From a verdict to the promotion decision: attestation builder, input document, safety floor, reference Rego. */
module PromotionGate {
  import opened Prelude
  import opened Json
  import opened Verdict
  import opened Attestation
  import opened Policy
  import opened Pipeline
  import opened Verify
  import Canonical
  import Hashing
  import Signing
  import Statement

  // ---- building the attestation ---------------------------------------------

  datatype Stamp = Stamp(
    policyId: Json, policyVersion: Json, migVersion: Json, confinement: Json, createdAt: Json, metadata: Json)

  /** `build_attestation`. */
  function BuildAttestation(v: RunVerdict, a: Artifact, stamp: Stamp): Result<Attestation> {
    if !Truthy(a.digest) || v.ref != a.ref then Raised(ValueError)
    else if AllProblems(v.gateResults) != [] then Raised(ValueError)
    else Ok(Attestation(a.ref, a.digest, a.artifactType, v.decision, v.gateResults, RigorSummary(v.gateResults),
                        stamp.confinement, stamp.policyId, stamp.policyVersion, stamp.migVersion, stamp.createdAt, Null,
                        Str(Statement.PREDICATE_TYPE), stamp.metadata))
  }

  // ---- the input document ----------------------------------------------------

  function GateView(g: GateResult): Json {
    Obj([Member("gate_id", g.gateId), Member("status", Str(StatusText(g.status))), Member("rigor", Str(RigorText(g.rigor))),
         Member("scanner_name", g.scannerName), Member("scanner_version", g.scannerVersion)])
  }

  function GateViews(gs: seq<GateResult>): seq<Json> {
    if gs == [] then [] else [GateView(gs[0])] + GateViews(gs[1..])
  }

  function ChecksJson(c: Checks): Json {
    Obj([Member("signature", Bool(c.signature)), Member("digest_rebind", Bool(c.digestRebind)),
         Member("attribution", Bool(c.attribution)), Member("keyid", Bool(c.keyid))])
  }

  function VerificationJson(r: VerifyResult): Json {
    Obj([Member("ok", Bool(r.ok)), Member("scheme", Str(r.scheme)), Member("keyid", Str(r.keyid)),
         Member("checks", ChecksJson(r.checks))])
  }

  function ShownType(att: Attestation): Json {
    if Truthy(att.predicateType) then att.predicateType else Str(Statement.PREDICATE_TYPE)
  }

  /** The document, with the subject and the gates already written out. */
  function Document(r: VerifyResult, att: Attestation, subject: Json, gates: Json): Json {
    DocumentOf(att, subject, ShownType(att), gates, VerificationJson(r), DecisionText(att.decision),
               TypeText(att.artifactType), RigorText(att.overallRigor), IsExecutable(att.artifactType),
               Obj([Member("id", att.policyId), Member("version", att.policyVersion)]))
  }

  function DocumentOf(att: Attestation, subject: Json, shown: Json, gates: Json, verification: Json, decision: string,
                      kind: string, rigor: string, executable: bool, policy: Json): Json
  {
    Obj([Member("subject", subject), Member("predicate_type", shown), Member("decision", Str(decision)),
         Member("artifact_type", Str(kind)), Member("overall_rigor", Str(rigor)),
         Member("confinement_level", att.confinementLevel), Member("is_executable_type", Bool(executable)),
         Member("gate_summary", gates), Member("verification", verification),
         Member("policy", policy), Member("mig_version", att.migVersion), Member("created_at", att.createdAt)])
  }

  function SubjectShown(ref: ArtifactRef, text: Json -> string, hex: string): Json {
    Statement.SubjectJson(Statement.SubjectName(ref, text), hex)
  }

  /** `build_promotion_input`; a digest without an algorithm prefix is an `IndexError`, a NaN a `ValueError`. */
  function BuildInput(r: VerifyResult, att: Attestation, ref: ArtifactRef, text: Json -> string): Result<Json> {
    if !att.digest.Str? then Raised(AttributeError)
    else
      var n := Hashing.Normalize(att.digest.s);
      var i := Hashing.Colon(n);
      if i == |n| then Raised(OtherError)
      else
        var subject := SubjectShown(ref, text, n[i + 1..]);
        Canonical.Canonicalize(Canonical.FromJson(Document(r, att, subject, Arr(GateViews(att.gateSummary)))))
  }

  // ---- the floor -------------------------------------------------------------

  datatype Reason =
    | NotVerified
    | CheckFailed(name: string)
    | NotApproved
    | NeedsBehavioral
    | NeedsConfinement
    | NoPolicy
    | HmacOnly
    | KeyidNotListed
    | FromOther(text: string)

  datatype PromotionDecision = PromotionDecision(allow: bool, reasons: seq<Reason>, engine: string)

  datatype Floor = Floor(requiredKeyids: set<string>, requireAsymmetric: bool)

  const DEFAULT_FLOOR := Floor({}, false)
  const CHECKS := ["signature", "digest_rebind", "attribution", "keyid"]

  /** `_as_mapping`. */
  function AsMapping(v: Option<Json>): Json { match v case Some(Obj(ms)) => Obj(ms) case _ => Obj([]) }

  predicate IsTrue(v: Option<Json>) { v == Some(Bool(true)) }

  /** `value in some_frozenset_of_text`: a list or a dict cannot be hashed. */
  function InTexts(v: Json, texts: set<string>): Result<bool> {
    if v.Arr? || v.Obj? then Raised(TypeError) else Ok(v.Str? && v.s in texts)
  }

  function CheckReasons(checks: Json, names: seq<string>): seq<Reason> {
    if names == [] then []
    else
      var last := names[|names| - 1];
      CheckReasons(checks, names[..|names| - 1]) + When(!IsTrue(Get(checks, last)), CheckFailed(last))
  }

  function When(b: bool, r: Reason): seq<Reason> { if b then [r] else [] }

  /** The clauses on verification and decision. */
  function EarlyReasons(doc: Json): seq<Reason> {
    var verification := AsMapping(Get(doc, "verification"));
    var checks := AsMapping(Get(verification, "checks"));
    When(!IsTrue(Get(verification, "ok")), NotVerified) + CheckReasons(checks, CHECKS)
    + When(Get(doc, "decision") != Some(Str("approve")), NotApproved)
  }

  predicate TreatedAsExecutable(doc: Json) { Get(doc, "is_executable_type") != Some(Bool(false)) }

  /** The clauses on executable types. */
  function ExecutableReasons(doc: Json): Result<seq<Reason>> {
    if !TreatedAsExecutable(doc) then Ok([])
    else
      var confined :- InTexts(GetOr(doc, "confinement_level", Null), {"docker", "gvisor"});
      Ok(When(Get(doc, "overall_rigor") != Some(Str("behavioral")), NeedsBehavioral) + When(!confined, NeedsConfinement))
  }

  /** The clauses on policy and hardening. */
  function LateReasons(doc: Json, floor: Floor): Result<seq<Reason>> {
    var verification, policy := AsMapping(Get(doc, "verification")), AsMapping(Get(doc, "policy"));
    var named := Truthy(GetOr(policy, "id", Null)) && Truthy(GetOr(policy, "version", Null));
    var hmac := floor.requireAsymmetric && Get(verification, "scheme") == Some(Str(Signing.HMAC_SCHEME));
    if floor.requiredKeyids == {} then Ok(When(!named, NoPolicy) + When(hmac, HmacOnly))
    else
      var listed :- InTexts(GetOr(verification, "keyid", Null), floor.requiredKeyids);
      Ok(When(!named, NoPolicy) + When(hmac, HmacOnly) + When(!listed, KeyidNotListed))
  }

  function FloorReasons(doc: Json, floor: Floor): Result<seq<Reason>> {
    var executable :- ExecutableReasons(doc);
    var late :- LateReasons(doc, floor);
    Ok(EarlyReasons(doc) + executable + late)
  }

  /** `EmbeddedPromotionGate.evaluate`: clause by clause, every failed one adding a reason. */
  method EvaluateFloor(doc: Json, floor: Floor) returns (r: Result<PromotionDecision>)
    ensures r == match FloorReasons(doc, floor)
      case Raised(e) => Raised(e)
      case Ok(reasons) => Ok(PromotionDecision(reasons == [], reasons, "embedded"))
  {
    var reasons := VerificationClauses(doc);
    if Get(doc, "is_executable_type") != Some(Bool(false)) {
      if Get(doc, "overall_rigor") != Some(Str("behavioral")) {
        reasons := reasons + [NeedsBehavioral];
      }
      var confined := InTexts(GetOr(doc, "confinement_level", Null), {"docker", "gvisor"});
      if confined.Raised? {
        return Raised(confined.error);
      }
      if !confined.value {
        reasons := reasons + [NeedsConfinement];
      }
    }
    assert ExecutableReasons(doc).Ok? && reasons == EarlyReasons(doc) + ExecutableReasons(doc).value;
    r := PolicyClauses(doc, floor, reasons);
  }

  method VerificationClauses(doc: Json) returns (reasons: seq<Reason>)
    ensures reasons == EarlyReasons(doc)
  {
    reasons := [];
    var verification := AsMapping(Get(doc, "verification"));
    var checks := AsMapping(Get(verification, "checks"));
    if !IsTrue(Get(verification, "ok")) {
      reasons := reasons + [NotVerified];
    }
    var failed := CheckClauses(checks, CHECKS);
    reasons := reasons + failed;
    assert reasons == When(!IsTrue(Get(verification, "ok")), NotVerified) + CheckReasons(checks, CHECKS);
    if Get(doc, "decision") != Some(Str("approve")) {
      reasons := reasons + [NotApproved];
    }
  }

  /** The loop over the named checks. */
  method CheckClauses(checks: Json, names: seq<string>) returns (reasons: seq<Reason>)
    ensures reasons == CheckReasons(checks, names)
    ensures reasons == [] <==> forall n :: n in names ==> IsTrue(Get(checks, n))
  {
    reasons := [];
    for i := 0 to |names|
      invariant reasons == CheckReasons(checks, names[..i])
    {
      assert names[..i + 1][..i] == names[..i];
      if !IsTrue(Get(checks, names[i])) {
        reasons := reasons + [CheckFailed(names[i])];
      }
    }
    assert names[..|names|] == names;
    NoReasonsFor(checks, names);
  }

  method PolicyClauses(doc: Json, floor: Floor, start: seq<Reason>) returns (r: Result<PromotionDecision>)
    ensures r == match LateReasons(doc, floor)
      case Raised(e) => Raised(e)
      case Ok(late) => Ok(PromotionDecision(start + late == [], start + late, "embedded"))
  {
    var reasons := start;
    var verification, policy := AsMapping(Get(doc, "verification")), AsMapping(Get(doc, "policy"));
    var named := Truthy(GetOr(policy, "id", Null)) && Truthy(GetOr(policy, "version", Null));
    if !named {
      reasons := reasons + [NoPolicy];
    }
    assert reasons == start + When(!named, NoPolicy);
    var hmac := floor.requireAsymmetric && Get(verification, "scheme") == Some(Str(Signing.HMAC_SCHEME));
    if hmac {
      reasons := reasons + [HmacOnly];
    }
    assert reasons == start + (When(!named, NoPolicy) + When(hmac, HmacOnly));
    if floor.requiredKeyids != {} {
      var listed := InTexts(GetOr(verification, "keyid", Null), floor.requiredKeyids);
      if listed.Raised? {
        return Raised(listed.error);
      }
      if !listed.value {
        reasons := reasons + [KeyidNotListed];
      }
      assert reasons == start + (When(!named, NoPolicy) + When(hmac, HmacOnly) + When(!listed.value, KeyidNotListed));
    }
    return Ok(PromotionDecision(reasons == [], reasons, "embedded"));
  }

  /** `CompositePromotionGate.evaluate`, over what the two engines said. */
  function Compose(base: PromotionDecision, other: Option<PromotionDecision>): PromotionDecision {
    match other
    case None => PromotionDecision(base.allow, base.reasons, "embedded")
    case Some(o) => PromotionDecision(base.allow && o.allow, base.reasons + o.reasons, "embedded+" + o.engine)
  }

  // ---- what the floor lets through -------------------------------------------

  predicate HardeningMet(scheme: Option<Json>, keyid: Json, floor: Floor) {
    && (floor.requireAsymmetric ==> scheme != Some(Str(Signing.HMAC_SCHEME)))
    && (floor.requiredKeyids != {} ==> keyid.Str? && keyid.s in floor.requiredKeyids)
  }

  /** The conditions for promotion, as a conjunction. */
  predicate Promotable(doc: Json, floor: Floor) {
    var verification := AsMapping(Get(doc, "verification"));
    var checks, policy := AsMapping(Get(verification, "checks")), AsMapping(Get(doc, "policy"));
    && IsTrue(Get(verification, "ok"))
    && IsTrue(Get(checks, "signature")) && IsTrue(Get(checks, "digest_rebind"))
    && IsTrue(Get(checks, "attribution")) && IsTrue(Get(checks, "keyid"))
    && Get(doc, "decision") == Some(Str("approve"))
    && (Get(doc, "is_executable_type") == Some(Bool(false))
        || (Get(doc, "overall_rigor") == Some(Str("behavioral"))
            && (Get(doc, "confinement_level") == Some(Str("docker"))
                || Get(doc, "confinement_level") == Some(Str("gvisor")))))
    && Truthy(GetOr(policy, "id", Null)) && Truthy(GetOr(policy, "version", Null))
    && HardeningMet(Get(verification, "scheme"), GetOr(verification, "keyid", Null), floor)
  }

  /** A document passes exactly when every clause holds; one missing or mistyped field is enough to stop it. */
  lemma FloorAllowsExactly(doc: Json, floor: Floor)
    ensures FloorReasons(doc, floor) == Ok([]) <==> Promotable(doc, floor)
  {
    var verification := AsMapping(Get(doc, "verification"));
    NoCheckReasons(AsMapping(Get(verification, "checks")));
    ConfinedIs(doc);
    LateAllows(doc, floor);
  }

  predicate Unhashable(v: Json) { v.Arr? || v.Obj? }

  /** The floor answers every document but those where it would look a list or a dict up in a set: there it raises. */
  lemma FloorRaisesExactly(doc: Json, floor: Floor)
    ensures FloorReasons(doc, floor).Raised? <==>
      ((TreatedAsExecutable(doc) && Unhashable(GetOr(doc, "confinement_level", Null)))
       || (floor.requiredKeyids != {} && Unhashable(GetOr(AsMapping(Get(doc, "verification")), "keyid", Null))))
    ensures FloorReasons(doc, floor).Raised? ==> FloorReasons(doc, floor).error == TypeError
  {
  }

  /** Both places can be reached: a list for a confinement level, and a list for a keyid when keyids are required. */
  lemma FloorRaises()
    ensures FloorReasons(Obj([Member("confinement_level", Arr([]))]), DEFAULT_FLOOR) == Raised(TypeError)
    ensures FloorReasons(Obj([Member("is_executable_type", Bool(false)),
                              Member("verification", Obj([Member("keyid", Arr([]))]))]), Floor({"k"}, false))
            == Raised(TypeError)
  {
    var one := [Member("confinement_level", Arr([]))];
    LookupAt(one, 0);
    LookupFails(one, "is_executable_type");
    FloorRaisesExactly(Obj(one), DEFAULT_FLOOR);
    var keyed := [Member("keyid", Arr([]))];
    LookupAt(keyed, 0);
    var two := [Member("is_executable_type", Bool(false)), Member("verification", Obj(keyed))];
    LookupAt(two, 1);
    assert "k" in {"k"};
    FloorRaisesExactly(Obj(two), Floor({"k"}, false));
  }

  lemma {:induction false} NoReasonsFor(checks: Json, names: seq<string>)
    ensures CheckReasons(checks, names) == [] <==> forall n :: n in names ==> IsTrue(Get(checks, n))
  {
    if names != [] {
      var front, last := names[..|names| - 1], names[|names| - 1];
      NoReasonsFor(checks, front);
      EmptyConcat(CheckReasons(checks, front), When(!IsTrue(Get(checks, last)), CheckFailed(last)));
      assert names == front + [last];
    }
  }

  lemma NoCheckReasons(checks: Json)
    ensures CheckReasons(checks, CHECKS) == [] <==>
      (IsTrue(Get(checks, "signature")) && IsTrue(Get(checks, "digest_rebind"))
       && IsTrue(Get(checks, "attribution")) && IsTrue(Get(checks, "keyid")))
  {
    NoReasonsFor(checks, CHECKS);
    assert CHECKS[0] == "signature" && CHECKS[1] == "digest_rebind" && CHECKS[2] == "attribution" && CHECKS[3] == "keyid";
  }

  lemma ConfinedIs(doc: Json)
    ensures ExecutableReasons(doc) == Ok([]) <==>
      (Get(doc, "is_executable_type") == Some(Bool(false))
       || (Get(doc, "overall_rigor") == Some(Str("behavioral"))
           && (Get(doc, "confinement_level") == Some(Str("docker"))
               || Get(doc, "confinement_level") == Some(Str("gvisor")))))
  {
    var confined := InTexts(GetOr(doc, "confinement_level", Null), {"docker", "gvisor"});
    if confined.Ok? {
      EmptyConcat(When(Get(doc, "overall_rigor") != Some(Str("behavioral")), NeedsBehavioral),
                  When(!confined.value, NeedsConfinement));
    }
  }

  lemma LateAllows(doc: Json, floor: Floor)
    ensures var verification, policy := AsMapping(Get(doc, "verification")), AsMapping(Get(doc, "policy"));
      LateReasons(doc, floor) == Ok([]) <==>
        (Truthy(GetOr(policy, "id", Null)) && Truthy(GetOr(policy, "version", Null))
         && HardeningMet(Get(verification, "scheme"), GetOr(verification, "keyid", Null), floor))
  {
    var verification, policy := AsMapping(Get(doc, "verification")), AsMapping(Get(doc, "policy"));
    var named := Truthy(GetOr(policy, "id", Null)) && Truthy(GetOr(policy, "version", Null));
    var hmac := floor.requireAsymmetric && Get(verification, "scheme") == Some(Str(Signing.HMAC_SCHEME));
    EmptyConcat(When(!named, NoPolicy), When(hmac, HmacOnly));
    var listed := InTexts(GetOr(verification, "keyid", Null), floor.requiredKeyids);
    if listed.Ok? { EmptyConcat(When(!named, NoPolicy) + When(hmac, HmacOnly), When(!listed.value, KeyidNotListed)); }
  }

  lemma EmptyConcat(a: seq<Reason>, b: seq<Reason>)
    ensures a + b == [] <==> a == [] && b == []
  {
    assert |a + b| == |a| + |b|;
  }

  // ---- the reference Rego -----------------------------------------------------

  /** `a.b.c`: undefined when a step is missing or not an object. */
  function Path(v: Option<Json>, key: string): Option<Json> {
    match v case None => None case Some(j) => Get(j, key)
  }

  /** `x != y` holds only of a defined `x`. */
  predicate Differs(v: Option<Json>, expected: Json) { v.Some? && v.value != expected }

  /** `not x` holds of an undefined and of a false `x`. */
  predicate Not(v: Option<Json>) { v.None? || v == Some(Bool(false)) }

  /** The `deny` rules of `promotion.rego`, under Rego's undefined-value semantics. */
  predicate RegoDenies(doc: Json) {
    var verification := Path(Some(doc), "verification");
    var checks := Path(verification, "checks");
    var executable := GetOr(doc, "is_executable_type", Bool(true)) != Bool(false);
    var confinement := Path(Some(doc), "confinement_level");
    || Differs(Path(verification, "ok"), Bool(true))
    || (exists n :: n in CHECKS && Differs(Path(checks, n), Bool(true)))
    || Differs(Path(Some(doc), "decision"), Str("approve"))
    || (executable && Differs(Path(Some(doc), "overall_rigor"), Str("behavioral")))
    || (executable && !(confinement == Some(Str("docker")) || confinement == Some(Str("gvisor"))))
    || Not(Path(Path(Some(doc), "policy"), "id"))
  }

  /** Whatever the floor allows, the reference policy allows: it can only restrict. */
  lemma RegoMirrorsFloor(doc: Json, floor: Floor)
    requires FloorReasons(doc, floor) == Ok([])
    ensures !RegoDenies(doc)
  {
    FloorAllowsExactly(doc, floor);
    var verification := AsMapping(Get(doc, "verification"));
    var checks := AsMapping(Get(verification, "checks"));
    assert verification == Obj([]) || Get(doc, "verification") == Some(verification);
    assert checks == Obj([]) || Get(verification, "checks") == Some(checks);
    NoCheckReasons(checks);
    NoReasonsFor(checks, CHECKS);
  }

  /** Deny-overrides: the pair allows exactly what both allow, and gives a reason whenever it denies; paired with the
      reference policy it decides as the floor alone. */
  lemma CompositionOnlyRestricts(doc: Json, floor: Floor, other: Option<PromotionDecision>)
    requires FloorReasons(doc, floor).Ok?
    requires other.Some? ==> (other.value.allow <==> other.value.reasons == [])
    ensures var reasons := FloorReasons(doc, floor).value;
      var both := Compose(PromotionDecision(reasons == [], reasons, "embedded"), other);
      && (both.allow <==> Promotable(doc, floor) && (other.Some? ==> other.value.allow))
      && (both.allow <==> both.reasons == [])
      && (other.Some? && other.value.allow == !RegoDenies(doc) ==> both.allow == Promotable(doc, floor))
  {
    FloorAllowsExactly(doc, floor);
    if Promotable(doc, floor) { RegoMirrorsFloor(doc, floor); }
    if other.Some? { EmptyConcat(FloorReasons(doc, floor).value, other.value.reasons); }
  }

  /** The pair reports the reasons of both, the floor's first, and names both engines. */
  lemma CompositionReports(base: PromotionDecision, other: Option<PromotionDecision>)
    ensures var both := Compose(base, other);
      && both.reasons == base.reasons + (match other case None => [] case Some(o) => o.reasons)
      && both.engine == "embedded" + (match other case None => "" case Some(o) => "+" + o.engine)
  {
    assert base.reasons + [] == base.reasons && "embedded" + "" == "embedded";
    if other.Some? { assert "embedded" + ("+" + other.value.engine) == "embedded+" + other.value.engine; }
  }

  /** Without a policy id, or with the id `false`, the reference policy denies. */
  lemma RegoNeedsPolicyId(doc: Json)
    requires !RegoDenies(doc)
    ensures Get(doc, "policy").Some? && Get(Get(doc, "policy").value, "id") !in {None, Some(Bool(false))}
  {
  }

  /** The document says something, whatever it is, about verification and decision, and for an executable type about
      rigor. */
  predicate Says(doc: Json) {
    var verification := Path(Some(doc), "verification");
    && Path(verification, "ok").Some? && (forall n :: n in CHECKS ==> Path(Path(verification, "checks"), n).Some?)
    && Get(doc, "decision").Some? && (TreatedAsExecutable(doc) ==> Get(doc, "overall_rigor").Some?)
  }

  /** On any document, the default floor allows exactly what the reference policy allows and the document says, under a
      policy with a name and a version: what is undefined does not deny in Rego, which also takes any defined policy id
      other than `false` and never looks at the version. */
  lemma RegoExactly(doc: Json)
    ensures var policy := AsMapping(Get(doc, "policy"));
      Promotable(doc, DEFAULT_FLOOR) <==>
        (!RegoDenies(doc) && Says(doc) && Truthy(GetOr(policy, "id", Null)) && Truthy(GetOr(policy, "version", Null)))
  {
    var verification := AsMapping(Get(doc, "verification"));
    PathIsGet(Get(doc, "verification"), "ok");
    PathIsGet(Get(doc, "verification"), "checks");
    PathIsGet(Get(doc, "policy"), "id");
    RegoChecks(Get(verification, "checks"));
  }

  /** A step on a path is a step into a mapping, anything else counting as an empty one. */
  lemma PathIsGet(v: Option<Json>, key: string)
    ensures Path(v, key) == Get(AsMapping(v), key)
  {
  }

  lemma RegoChecks(v: Option<Json>)
    ensures var checks := AsMapping(v);
      (IsTrue(Get(checks, "signature")) && IsTrue(Get(checks, "digest_rebind"))
       && IsTrue(Get(checks, "attribution")) && IsTrue(Get(checks, "keyid"))) <==>
        (!(exists n :: n in CHECKS && Differs(Path(v, n), Bool(true))) && forall n :: n in CHECKS ==> Path(v, n).Some?)
  {
    NoCheckReasons(AsMapping(v));
    NoReasonsFor(AsMapping(v), CHECKS);
    forall n ensures Path(v, n) == Get(AsMapping(v), n) {
      PathIsGet(v, n);
    }
  }

  /** A document without verification and decision. */
  function SilentDocument(): Json {
    Obj([Member("confinement_level", Str("docker")), Member("policy", Obj([Member("id", Str("p"))]))])
  }

  /** The converse fails: what is undefined does not deny in Rego, so on its own the reference policy lets through a
      document that says nothing about verification or decision. */
  lemma RegoAloneIsWeaker()
    ensures var doc := SilentDocument(); !RegoDenies(doc) && FloorReasons(doc, DEFAULT_FLOOR) != Ok([])
  {
    var doc := SilentDocument();
    LookupFails(doc.members, "verification");
    LookupFails(doc.members, "decision");
    LookupFails(doc.members, "overall_rigor");
    LookupAt(doc.members, 1);
    assert Get(doc, "policy") == Some(Obj([Member("id", Str("p"))]));
    assert Get(Obj([Member("id", Str("p"))]), "id") == Some(Str("p"));
    FloorAllowsExactly(doc, DEFAULT_FLOOR);
  }

  // ---- the whole chain ---------------------------------------------------------

  /** What the document says, field by field. */
  lemma DocumentSays(r: VerifyResult, att: Attestation, subject: Json, gates: Json)
    ensures var doc := Document(r, att, subject, gates);
      && Get(doc, "decision") == Some(Str(DecisionText(att.decision)))
      && Get(doc, "overall_rigor") == Some(Str(RigorText(att.overallRigor)))
      && Get(doc, "confinement_level") == Some(att.confinementLevel)
      && Get(doc, "is_executable_type") == Some(Bool(IsExecutable(att.artifactType)))
      && Get(doc, "verification") == Some(VerificationJson(r))
      && Get(doc, "policy") == Some(Obj([Member("id", att.policyId), Member("version", att.policyVersion)]))
  {
    DocumentKeys(r, att, subject, gates);
    DocumentLookups(Document(r, att, subject, gates).members);
  }

  predicate DocumentKeyed(ms: seq<Member>) {
    && |ms| == 12
    && ms[0].key == "subject" && ms[1].key == "predicate_type" && ms[2].key == "decision" && ms[3].key == "artifact_type"
    && ms[4].key == "overall_rigor" && ms[5].key == "confinement_level" && ms[6].key == "is_executable_type"
    && ms[7].key == "gate_summary" && ms[8].key == "verification" && ms[9].key == "policy"
    && ms[10].key == "mig_version" && ms[11].key == "created_at"
  }

  lemma DocumentKeys(r: VerifyResult, att: Attestation, subject: Json, gates: Json)
    ensures DocumentKeyed(Document(r, att, subject, gates).members)
  {
  }

  lemma DocumentLookups(ms: seq<Member>)
    requires DocumentKeyed(ms)
    ensures Lookup(ms, "decision") == Some(ms[2].value) && Lookup(ms, "overall_rigor") == Some(ms[4].value)
    ensures Lookup(ms, "confinement_level") == Some(ms[5].value) && Lookup(ms, "is_executable_type") == Some(ms[6].value)
    ensures Lookup(ms, "verification") == Some(ms[8].value) && Lookup(ms, "policy") == Some(ms[9].value)
  {
    LookupAt(ms, 2);
    LookupAt(ms, 4);
    LookupAt(ms, 5);
    LookupAt(ms, 6);
    LookupAt(ms, 8);
    LookupAt(ms, 9);
  }

  /** And what else it says, of which the floor reads nothing. */
  lemma DocumentSaysToo(r: VerifyResult, att: Attestation, subject: Json, gates: Json)
    ensures var doc := Document(r, att, subject, gates);
      && Get(doc, "subject") == Some(subject) && Get(doc, "gate_summary") == Some(gates)
      && Get(doc, "artifact_type") == Some(Str(TypeText(att.artifactType)))
      && Get(doc, "mig_version") == Some(att.migVersion) && Get(doc, "created_at") == Some(att.createdAt)
      && Get(doc, "predicate_type") ==
           Some(if Truthy(att.predicateType) then att.predicateType else Str("https://mig.dev/attestation/vetting/v1"))
  {
    DocumentKeys(r, att, subject, gates);
    OtherLookups(Document(r, att, subject, gates).members);
  }

  lemma OtherLookups(ms: seq<Member>)
    requires DocumentKeyed(ms)
    ensures Lookup(ms, "subject") == Some(ms[0].value) && Lookup(ms, "predicate_type") == Some(ms[1].value)
    ensures Lookup(ms, "artifact_type") == Some(ms[3].value) && Lookup(ms, "gate_summary") == Some(ms[7].value)
    ensures Lookup(ms, "mig_version") == Some(ms[10].value) && Lookup(ms, "created_at") == Some(ms[11].value)
  {
    LookupAt(ms, 0);
    LookupAt(ms, 1);
    LookupAt(ms, 3);
    LookupAt(ms, 7);
    LookupAt(ms, 10);
    LookupAt(ms, 11);
  }

  /** The gates are shown one by one, each by name, outcome, rigor and scanner. */
  lemma {:induction false} GateViewsTell(gs: seq<GateResult>, i: nat)
    requires i < |gs|
    ensures |GateViews(gs)| == |gs|
    ensures var j, g := GateViews(gs)[i], gs[i];
      && Get(j, "gate_id") == Some(g.gateId) && Get(j, "status") == Some(Str(StatusText(g.status)))
      && Get(j, "rigor") == Some(Str(RigorText(g.rigor))) && Get(j, "scanner_name") == Some(g.scannerName)
      && Get(j, "scanner_version") == Some(g.scannerVersion)
  {
    if i > 0 {
      GateViewsTell(gs[1..], i - 1);
    } else {
      if |gs| > 1 { GateViewsTell(gs[1..], 0); }
      GateViewTells(gs[0]);
    }
  }

  lemma GateViewTells(g: GateResult)
    ensures var j := GateView(g);
      && Get(j, "gate_id") == Some(g.gateId) && Get(j, "status") == Some(Str(StatusText(g.status)))
      && Get(j, "rigor") == Some(Str(RigorText(g.rigor))) && Get(j, "scanner_name") == Some(g.scannerName)
      && Get(j, "scanner_version") == Some(g.scannerVersion)
  {
    var ms := GateView(g).members;
    assert ms[0].key == "gate_id" && ms[1].key == "status" && ms[2].key == "rigor" && ms[3].key == "scanner_name";
    assert ms[4].key == "scanner_version";
    LookupAt(ms, 0);
    LookupAt(ms, 1);
    LookupAt(ms, 2);
    LookupAt(ms, 3);
    LookupAt(ms, 4);
  }

  lemma VerificationSays(r: VerifyResult)
    ensures var v := VerificationJson(r);
      && Get(v, "ok") == Some(Bool(r.ok)) && Get(v, "scheme") == Some(Str(r.scheme))
      && Get(v, "keyid") == Some(Str(r.keyid)) && Get(v, "checks") == Some(ChecksJson(r.checks))
  {
    var ms := VerificationJson(r).members;
    assert ms[0].key == "ok" && ms[1].key == "scheme" && ms[2].key == "keyid" && ms[3].key == "checks";
    LookupAt(ms, 0);
    LookupAt(ms, 1);
    LookupAt(ms, 2);
    LookupAt(ms, 3);
  }

  lemma ChecksSay(c: Checks)
    ensures var j := ChecksJson(c);
      && Get(j, "signature") == Some(Bool(c.signature)) && Get(j, "digest_rebind") == Some(Bool(c.digestRebind))
      && Get(j, "attribution") == Some(Bool(c.attribution)) && Get(j, "keyid") == Some(Bool(c.keyid))
  {
    var ms := ChecksJson(c).members;
    assert ms[0].key == "signature" && ms[1].key == "digest_rebind" && ms[2].key == "attribution" && ms[3].key == "keyid";
    LookupAt(ms, 0);
    LookupAt(ms, 1);
    LookupAt(ms, 2);
    LookupAt(ms, 3);
  }

  /** What must hold of a verification and an attestation for the floor to let them through. */
  predicate PromotableAttestation(r: VerifyResult, att: Attestation, floor: Floor) {
    && r.ok && r.checks == Checks(true, true, true, true)
    && att.decision.Approve?
    && (IsExecutable(att.artifactType) ==>
          att.overallRigor.Behavioral? && (att.confinementLevel == Str("docker") || att.confinementLevel == Str("gvisor")))
    && Truthy(att.policyId) && Truthy(att.policyVersion)
    && HardeningMet(Some(Str(r.scheme)), Str(r.keyid), floor)
  }

  lemma PolicySays(id: Json, version: Json)
    ensures var p := Obj([Member("id", id), Member("version", version)]);
      Get(p, "id") == Some(id) && Get(p, "version") == Some(version)
  {
    var ms := [Member("id", id), Member("version", version)];
    assert ms[0].key == "id" && ms[1].key == "version";
    LookupAt(ms, 0);
    LookupAt(ms, 1);
  }

  /** On the document built from a verified attestation, the floor reads exactly the attestation's own fields. */
  lemma FloorOnDocument(r: VerifyResult, att: Attestation, subject: Json, gates: Json, floor: Floor)
    ensures Promotable(Document(r, att, subject, gates), floor) <==> PromotableAttestation(r, att, floor)
  {
    DocumentSays(r, att, subject, gates);
    VerificationSays(r);
    ChecksSay(r.checks);
    PolicySays(att.policyId, att.policyVersion);
    TextsDiffer(att.decision, att.overallRigor);
  }

  lemma TextsDiffer(d: Decision, r: RigorLevel)
    ensures DecisionText(d) == "approve" <==> d.Approve?
    ensures RigorText(r) == "behavioral" <==> r.Behavioral?
  {
    assert |"approve"| == 7 && |"reject"| == 6 && |"review_required"| == 15;
    assert |"behavioral"| == 10 && |"none"| == 4 && |"static"| == 6;
  }

  /** A document in which every field the reference policy looks at is defined. */
  predicate FullyDefined(doc: Json) {
    var verification, policy := AsMapping(Get(doc, "verification")), AsMapping(Get(doc, "policy"));
    var checks := AsMapping(Get(verification, "checks"));
    && Get(doc, "verification") == Some(verification) && Get(verification, "checks") == Some(checks)
    && Get(doc, "policy") == Some(policy) && Get(verification, "ok").Some? && Get(policy, "id").Some?
    && Get(doc, "decision").Some? && Get(doc, "overall_rigor").Some? && Get(doc, "is_executable_type").Some?
    && forall n :: n in CHECKS ==> Get(checks, n).Some?
  }

  /** On such documents the reference policy decides as the default floor, but for the policy's name and version. */
  lemma RegoOnFullDocument(doc: Json)
    requires FullyDefined(doc)
    ensures var policy := AsMapping(Get(doc, "policy"));
      Promotable(doc, DEFAULT_FLOOR) <==>
        (!RegoDenies(doc) && Truthy(GetOr(policy, "id", Null)) && Truthy(GetOr(policy, "version", Null)))
  {
    RegoExactly(doc);
  }

  /** The documents MIG builds are of that kind. */
  lemma RegoOnDocument(r: VerifyResult, att: Attestation, subject: Json, gates: Json)
    ensures var doc := Document(r, att, subject, gates);
      && FullyDefined(doc)
      && (Promotable(doc, DEFAULT_FLOOR) <==> (!RegoDenies(doc) && Truthy(att.policyId) && Truthy(att.policyVersion)))
  {
    DocumentSays(r, att, subject, gates);
    VerificationSays(r);
    PolicySays(att.policyId, att.policyVersion);
    ChecksDefined(r.checks);
    RegoOnFullDocument(Document(r, att, subject, gates));
  }

  lemma ChecksDefined(c: Checks)
    ensures forall n :: n in CHECKS ==> Get(ChecksJson(c), n).Some?
  {
    ChecksSay(c);
    assert CHECKS[0] == "signature" && CHECKS[1] == "digest_rebind" && CHECKS[2] == "attribution" && CHECKS[3] == "keyid";
  }

  /** No NaN and no infinity in what the document shows of the attestation. */
  predicate FiniteView(att: Attestation) {
    && Finite(ShownType(att)) && Finite(att.confinementLevel) && Finite(att.policyId) && Finite(att.policyVersion)
    && Finite(att.migVersion) && Finite(att.createdAt) && forall g :: g in att.gateSummary ==> FiniteGate(g)
  }

  predicate FiniteGate(g: GateResult) { Finite(g.gateId) && Finite(g.scannerName) && Finite(g.scannerVersion) }

  /** What holds of the values written into the document holds of its members. */
  lemma DocumentHas(ms: seq<Member>, p: Json -> bool)
    requires |ms| == 12 && p(ms[0].value) && p(ms[1].value) && p(ms[2].value) && p(ms[3].value) && p(ms[4].value)
    requires p(ms[5].value) && p(ms[6].value) && p(ms[7].value) && p(ms[8].value) && p(ms[9].value)
    requires p(ms[10].value) && p(ms[11].value)
    ensures forall m :: m in ms ==> p(m.value)
  {
    forall m | m in ms ensures p(m.value) {
      var i :| 0 <= i < 12 && ms[i] == m;
    }
  }

  lemma DocumentShows(att: Attestation, subject: Json, shown: Json, gates: Json, verification: Json, decision: string,
                      kind: string, rigor: string, executable: bool, policy: Json)
    ensures var ms := DocumentOf(att, subject, shown, gates, verification, decision, kind, rigor, executable, policy).members;
      && |ms| == 12 && ms[0].value == subject && ms[1].value == shown && ms[2].value == Str(decision)
      && ms[3].value == Str(kind) && ms[4].value == Str(rigor) && ms[5].value == att.confinementLevel
      && ms[6].value == Bool(executable) && ms[7].value == gates && ms[8].value == verification && ms[9].value == policy
      && ms[10].value == att.migVersion && ms[11].value == att.createdAt
      && forall i :: 0 <= i < 12 ==> ms[i] in ms
  {
  }

  lemma PairFinite(a: Member, b: Member)
    ensures Finite(Obj([a, b])) <==> Finite(a.value) && Finite(b.value)
  {
    assert a in [a, b] && b in [a, b];
  }

  lemma VerificationFinite(r: VerifyResult)
    ensures Finite(VerificationJson(r))
  {
    assert Finite(ChecksJson(r.checks));
  }

  lemma {:induction false} GateViewsFinite(gs: seq<GateResult>)
    ensures Finite(Arr(GateViews(gs))) <==> forall g :: g in gs ==> FiniteGate(g)
  {
    if gs != [] {
      var v, vs := GateView(gs[0]), GateViews(gs[1..]);
      GateViewFinite(gs[0]);
      GateViewsFinite(gs[1..]);
      assert GateViews(gs) == [v] + vs && gs == [gs[0]] + gs[1..];
      ConsFinite(v, vs);
    }
  }

  lemma ConsFinite(v: Json, vs: seq<Json>)
    ensures Finite(Arr([v] + vs)) <==> Finite(v) && Finite(Arr(vs))
  {
    assert v in [v] + vs && forall x :: x in vs ==> x in [v] + vs;
  }

  lemma GateViewFinite(g: GateResult)
    ensures Finite(GateView(g)) <==> FiniteGate(g)
  {
    var ms := GateView(g).members;
    assert ms[0] in ms && ms[3] in ms && ms[4] in ms;
  }

  lemma MembersFinite(ms: seq<Member>, p: Json -> bool)
    requires |ms| == 12 && (forall i :: 0 <= i < 12 ==> ms[i] in ms) && p(ms[0].value) && p(ms[2].value)
    requires p(ms[3].value) && p(ms[4].value) && p(ms[6].value) && p(ms[8].value)
    ensures (forall m :: m in ms ==> p(m.value)) <==>
      (p(ms[1].value) && p(ms[5].value) && p(ms[7].value) && p(ms[9].value) && p(ms[10].value) && p(ms[11].value))
  {
    if p(ms[1].value) && p(ms[5].value) && p(ms[7].value) && p(ms[9].value) && p(ms[10].value) && p(ms[11].value) {
      DocumentHas(ms, p);
    }
  }

  lemma WholeFinite(doc: Json)
    requires doc.Obj?
    ensures Finite(doc) <==> forall m :: m in doc.members ==> Finite(m.value)
  {
  }

  lemma DocumentFinite(r: VerifyResult, att: Attestation, subject: Json)
    requires Finite(subject)
    ensures Finite(Document(r, att, subject, Arr(GateViews(att.gateSummary)))) <==> FiniteView(att)
  {
    var gates := Arr(GateViews(att.gateSummary));
    var policy := Obj([Member("id", att.policyId), Member("version", att.policyVersion)]);
    VerificationFinite(r);
    DocumentShows(att, subject, ShownType(att), gates, VerificationJson(r), DecisionText(att.decision),
                  TypeText(att.artifactType), RigorText(att.overallRigor), IsExecutable(att.artifactType), policy);
    MembersFinite(Document(r, att, subject, gates).members, Finite);
    WholeFinite(Document(r, att, subject, gates));
    PairFinite(Member("id", att.policyId), Member("version", att.policyVersion));
    GateViewsFinite(att.gateSummary);
  }

  /** The document is built exactly for a digest with an algorithm and finite fields. */
  lemma BuildsExactly(r: VerifyResult, att: Attestation, ref: ArtifactRef, text: Json -> string)
    ensures BuildInput(r, att, ref, text).Ok? <==>
      att.digest.Str? && ':' in Hashing.Normalize(att.digest.s) && FiniteView(att)
    ensures BuildInput(r, att, ref, text).Ok? ==>
      var n := Hashing.Normalize(att.digest.s); var hex := n[Hashing.Colon(n) + 1..];
      BuildInput(r, att, ref, text).value ==
        Document(r, att, SubjectShown(ref, text, hex), Arr(GateViews(att.gateSummary)))
  {
    if att.digest.Str? {
      var n := Hashing.Normalize(att.digest.s);
      assert ':' in n <==> Hashing.Colon(n) < |n|;
      if Hashing.Colon(n) < |n| {
        var subject := SubjectShown(ref, text, n[Hashing.Colon(n) + 1..]);
        SubjectFinite(ref, text, n[Hashing.Colon(n) + 1..]);
        DocumentFinite(r, att, subject);
        Canonical.ProjectJson(Document(r, att, subject, Arr(GateViews(att.gateSummary))));
      }
    }
  }

  /** Its subject is the reference by name, and the digest without its algorithm; what stands in the way of building it. */
  lemma BuiltSubject(r: VerifyResult, att: Attestation, ref: ArtifactRef, text: Json -> string)
    ensures BuildInput(r, att, ref, text).Ok? ==>
      var n := Hashing.Normalize(att.digest.s); var subject := Get(BuildInput(r, att, ref, text).value, "subject");
      && subject.Some? && Get(subject.value, "name") == Some(Str(Statement.SubjectName(ref, text)))
      && Get(subject.value, "digest").Some?
      && Get(Get(subject.value, "digest").value, "sha256") == Some(Str(n[Hashing.Colon(n) + 1..]))
    ensures BuildInput(r, att, ref, text).Raised? ==>
      BuildInput(r, att, ref, text).error ==
        if !att.digest.Str? then AttributeError
        else if ':' !in Hashing.Normalize(att.digest.s) then OtherError else ValueError
  {
    BuildsExactly(r, att, ref, text);
    if att.digest.Str? {
      var n := Hashing.Normalize(att.digest.s);
      assert ':' in n <==> Hashing.Colon(n) < |n|;
      if Hashing.Colon(n) < |n| {
        var hex := n[Hashing.Colon(n) + 1..];
        var doc := Document(r, att, SubjectShown(ref, text, hex), Arr(GateViews(att.gateSummary)));
        DocumentSaysToo(r, att, SubjectShown(ref, text, hex), Arr(GateViews(att.gateSummary)));
        Statement.StatementTells(Statement.SubjectName(ref, text), hex, doc);
        Canonical.ProjectJson(doc);
      }
    }
  }

  lemma SubjectFinite(ref: ArtifactRef, text: Json -> string, hex: string)
    ensures Finite(SubjectShown(ref, text, hex))
  {
    PairFinite(Member("name", Str(Statement.SubjectName(ref, text))), Member("digest", Obj([Member("sha256", Str(hex))])));
  }

  lemma FloorDecidesDocument(doc: Json, r: VerifyResult, att: Attestation, subject: Json, gates: Json, floor: Floor)
    requires doc == Document(r, att, subject, gates)
    ensures FloorReasons(doc, floor) == Ok([]) <==> PromotableAttestation(r, att, floor)
  {
    FloorAllowsExactly(doc, floor);
    FloorOnDocument(r, att, subject, gates, floor);
  }

  lemma BuiltDocument(r: VerifyResult, att: Attestation, ref: ArtifactRef, text: Json -> string)
      returns (subject: Json, gates: Json)
    requires BuildInput(r, att, ref, text).Ok?
    ensures BuildInput(r, att, ref, text).value == Document(r, att, subject, gates)
  {
    var n := Hashing.Normalize(att.digest.s);
    subject, gates := SubjectShown(ref, text, n[Hashing.Colon(n) + 1..]), Arr(GateViews(att.gateSummary));
    Canonical.ProjectJson(Document(r, att, subject, gates));
  }

  /** The same, through the projection. */
  lemma FloorOnBuiltInput(r: VerifyResult, att: Attestation, ref: ArtifactRef, text: Json -> string, floor: Floor)
    requires BuildInput(r, att, ref, text).Ok?
    ensures FloorReasons(BuildInput(r, att, ref, text).value, floor) == Ok([]) <==> PromotableAttestation(r, att, floor)
  {
    var subject, gates := BuiltDocument(r, att, ref, text);
    FloorDecidesDocument(BuildInput(r, att, ref, text).value, r, att, subject, gates, floor);
  }

  /** Executable types, from the gates to the floor: an approved run that is attested carries behavioural rigor, earned
      by an executed gate, and only with docker or gvisor confinement can it pass the floor. */
  lemma ExecutableNeedsDetonation(a: Artifact, gates: seq<Gate>, rules: seq<Rule>, stamp: Stamp, r: VerifyResult,
                                  text: Json -> string, floor: Floor)
    requires IsExecutable(a.artifactType) && VerdictOf(a, gates, rules, text).Ok?
    requires BuildAttestation(VerdictOf(a, gates, rules, text).value, a, stamp).Ok?
    ensures var v := VerdictOf(a, gates, rules, text).value; var att := BuildAttestation(v, a, stamp).value;
      && (att.decision.Approve? ==>
            att.overallRigor.Behavioral?
            && exists g :: g in att.gateSummary && g.rigor.Behavioral? && Executed(g))
      && (PromotableAttestation(r, att, floor) ==>
            att.decision.Approve? && (stamp.confinement == Str("docker") || stamp.confinement == Str("gvisor")))
  {
    var results := ShortRun(gates, a.artifactType);
    ApproveMeans(rules, a, results, text);
  }

  /** Built attestations are attributed, so what MIG signs, its own verifier does not fault for attribution. */
  lemma BuiltIsAttributed(v: RunVerdict, a: Artifact, stamp: Stamp)
    ensures BuildAttestation(v, a, stamp).Ok? <==>
      Truthy(a.digest) && v.ref == a.ref && forall g :: g in v.gateResults ==> Attributed(g)
    ensures BuildAttestation(v, a, stamp).Ok? ==>
      (BuildAttestation(v, a, stamp).value.overallRigor == Behavioral <==> BehavioralRan(v.gateResults))
    ensures BuildAttestation(v, a, stamp).Raised? ==> BuildAttestation(v, a, stamp).error == ValueError
  {
    NoProblems(v.gateResults);
    BehavioralRanIsSummary(v.gateResults);
  }

  /** What is attested is what was run: the artifact's own reference, digest and type, the run's own results and decision,
      and the stamp's policy, versions, confinement and time. */
  lemma BuiltCarries(v: RunVerdict, a: Artifact, stamp: Stamp)
    requires BuildAttestation(v, a, stamp).Ok?
    ensures var att := BuildAttestation(v, a, stamp).value;
      && att.ref == a.ref == v.ref && att.digest == a.digest && att.artifactType == a.artifactType
      && att.decision == v.decision && att.gateSummary == v.gateResults
      && att.overallRigor == RigorSummary(v.gateResults)
      && att.confinementLevel == stamp.confinement && att.policyId == stamp.policyId
      && att.policyVersion == stamp.policyVersion && att.migVersion == stamp.migVersion
      && att.createdAt == stamp.createdAt && att.metadata == stamp.metadata
      && att.predicateType == Str(Statement.PREDICATE_TYPE) && att.signature == Null
  {
  }

  /** From the run to the attestation, for every type: the attested decision is what the policy makes of the very results
      that are attested. So what passes the floor was approved by the policy, and each of its results passed or was
      skipped. */
  lemma AttestedIsEvaluated(a: Artifact, gates: seq<Gate>, rules: seq<Rule>, stamp: Stamp, r: VerifyResult,
                            text: Json -> string, floor: Floor)
    requires VerdictOf(a, gates, rules, text).Ok?
    requires BuildAttestation(VerdictOf(a, gates, rules, text).value, a, stamp).Ok?
    ensures var att := BuildAttestation(VerdictOf(a, gates, rules, text).value, a, stamp).value;
      && att.gateSummary == ShortRun(gates, a.artifactType) && att.artifactType == a.artifactType && att.ref == a.ref
      && Evaluate(rules, a, att.gateSummary, text) == Ok(att.decision)
      && (PromotableAttestation(r, att, floor) ==>
            Evaluate(rules, a, att.gateSummary, text) == Ok(Approve)
            && forall g :: g in att.gateSummary ==> g.status.Pass? || g.status.Skipped?)
  {
    BuiltCarries(VerdictOf(a, gates, rules, text).value, a, stamp);
    ApproveMeans(rules, a, ShortRun(gates, a.artifactType), text);
  }
}
