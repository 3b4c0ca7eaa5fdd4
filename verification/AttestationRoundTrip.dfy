/** Projecting an attestation and decoding the projection, keys re-ordered, gives the attestation back. */
module AttestationRoundTrip {
  import opened Prelude
  import opened Json
  import opened Verdict
  import opened Canonical
  import opened Attestation

  function RefJson(r: ArtifactRef): Json {
    Obj([Member("scheme", r.scheme), Member("locator", r.locator),
         Member("revision", r.revision), Member("expected_digest", r.expectedDigest)])
  }

  function FindingJson(f: Finding): Json {
    Obj([Member("gate_id", f.gateId), Member("severity", SeverityText(f.severity)), Member("code", f.code),
         Member("message", f.message), Member("location", f.location), Member("metadata", f.metadata)])
  }

  function FindingJsons(fs: seq<Finding>): (r: seq<Json>)
    ensures |r| == |fs|
  {
    if fs == [] then [] else [FindingJson(fs[0])] + FindingJsons(fs[1..])
  }

  function GateJson(g: GateResult): Json {
    Obj([Member("gate_id", g.gateId), Member("status", Str(StatusText(g.status))),
         Member("rigor", Str(RigorText(g.rigor))), Member("findings", Arr(FindingJsons(g.findings))),
         Member("scanner_name", g.scannerName), Member("scanner_version", g.scannerVersion),
         Member("duration_ms", g.durationMs), Member("evidence", g.evidence)])
  }

  function GateJsons(gs: seq<GateResult>): (r: seq<Json>)
    ensures |r| == |gs|
  {
    if gs == [] then [] else [GateJson(gs[0])] + GateJsons(gs[1..])
  }

  /** The members of the projected attestation other than `signature`. */
  function PredicateMembers(a: Attestation): seq<Member> {
    MembersWith(a, RefJson(a.ref), Arr(GateJsons(a.gateSummary)))
  }

  function MembersWith(a: Attestation, ref: Json, gates: Json): (ms: seq<Member>)
    ensures |ms| == 13
  {
    MembersOf(a, ref, gates, TypeText(a.artifactType), DecisionText(a.decision), RigorText(a.overallRigor))
  }

  function MembersOf(a: Attestation, ref: Json, gates: Json, kind: string, decision: string, rigor: string)
    : (ms: seq<Member>)
    ensures |ms| == 13
  {
    [Member("ref", ref), Member("digest", a.digest), Member("artifact_type", Str(kind)),
     Member("decision", Str(decision)), Member("gate_summary", gates), Member("overall_rigor", Str(rigor)),
     Member("confinement_level", a.confinementLevel), Member("policy_id", a.policyId),
     Member("policy_version", a.policyVersion), Member("mig_version", a.migVersion), Member("created_at", a.createdAt),
     Member("predicate_type", a.predicateType), Member("metadata", a.metadata)]
  }

  // ---- what the projection is ----------------------------------------------

  predicate AllEncodable(fields: seq<Field>) { forall i :: 0 <= i < |fields| ==> Encodable(fields[i].value) }

  /** The field holds the member's value, as JSON data, as an enum member, or as something known to project to it. */
  predicate Becomes(f: Field, m: Member) {
    f.name == m.key
    && (f.value == FromJson(m.value) || f.value == PyEnum(FromJson(m.value)) || Canonicalize(f.value) == Ok(m.value))
  }

  lemma {:induction false} FieldsProject(fields: seq<Field>, ms: seq<Member>)
    requires |fields| == |ms| && AllEncodable(fields) && forall i :: 0 <= i < |fields| ==> Becomes(fields[i], ms[i])
    ensures CanonicalizeFields(fields) == Ok(ms)
    ensures Canonicalize(PyData(fields)) == Ok(Obj(ms))
  {
    if fields != [] {
      FieldProjects(fields[0], ms[0]);
      FieldsProject(fields[1..], ms[1..]);
      assert ms == [ms[0]] + ms[1..];
    }
  }

  lemma FieldProjects(f: Field, m: Member)
    requires Encodable(f.value) && Becomes(f, m)
    ensures Canonicalize(f.value) == Ok(m.value)
  {
    ProjectJson(m.value);
  }

  lemma EncodableGraph(p: Py)
    requires Encodable(p) && p.PyData?
    ensures AllEncodable(p.fields)
  {
    forall i | 0 <= i < |p.fields| ensures Encodable(p.fields[i].value) {
      assert p.fields[i] in p.fields;
    }
  }

  lemma RefProjects(r: ArtifactRef)
    requires Encodable(RefGraph(r))
    ensures Canonicalize(RefGraph(r)) == Ok(RefJson(r))
  {
    EncodableGraph(RefGraph(r));
    FieldsProject(RefGraph(r).fields, RefJson(r).members);
  }

  lemma FindingFieldsBecome(f: Finding)
    ensures forall i :: 0 <= i < 6 ==> Becomes(FindingGraph(f).fields[i], FindingJson(f).members[i])
  {
  }

  lemma FindingProjects(f: Finding)
    requires Encodable(FindingGraph(f))
    ensures Canonicalize(FindingGraph(f)) == Ok(FindingJson(f))
  {
    EncodableGraph(FindingGraph(f));
    FindingFieldsBecome(f);
    FieldsProject(FindingGraph(f).fields, FindingJson(f).members);
  }

  lemma {:induction false} FindingsProject(fs: seq<Finding>)
    requires Encodable(PySeq(FindingGraphs(fs)))
    ensures CanonicalizeItems(FindingGraphs(fs)) == Ok(FindingJsons(fs))
  {
    if fs != [] {
      FindingProjects(fs[0]);
      FindingsProject(fs[1..]);
      assert FindingGraphs(fs)[1..] == FindingGraphs(fs[1..]);
    }
  }

  lemma FindingsSatisfy(g: GateResult, p: Py -> bool)
    requires forall i :: 0 <= i < |GateGraph(g).fields| ==> p(GateGraph(g).fields[i].value)
    ensures p(PySeq(FindingGraphs(g.findings)))
  {
    assert p(GateGraph(g).fields[3].value);
  }

  lemma GateProjects(g: GateResult)
    requires Encodable(GateGraph(g))
    ensures Canonicalize(GateGraph(g)) == Ok(GateJson(g))
  {
    EncodableGraph(GateGraph(g));
    FindingsSatisfy(g, Encodable);
    FindingsProject(g.findings);
    GateFieldsBecome(g);
    FieldsProject(GateGraph(g).fields, GateJson(g).members);
  }

  lemma GateFieldsBecome(g: GateResult)
    requires CanonicalizeItems(FindingGraphs(g.findings)) == Ok(FindingJsons(g.findings))
    ensures forall i :: 0 <= i < 8 ==> Becomes(GateGraph(g).fields[i], GateJson(g).members[i])
  {
  }

  lemma {:induction false} GatesProject(gs: seq<GateResult>)
    requires Encodable(PySeq(GateGraphs(gs)))
    ensures CanonicalizeItems(GateGraphs(gs)) == Ok(GateJsons(gs))
  {
    if gs != [] {
      GateProjects(gs[0]);
      GatesProject(gs[1..]);
      assert GateGraphs(gs)[1..] == GateGraphs(gs[1..]);
    }
  }

  lemma FirstFieldsBecome(a: Attestation, g: Py, h: Py, ref: Json, gates: Json, k: string, d: string, r: string)
    requires Canonicalize(g) == Ok(ref) && Canonicalize(h) == Ok(gates)
    ensures forall i :: 0 <= i < 6 ==> Becomes(GraphFields(a, g, h, k, d, r)[i], MembersOf(a, ref, gates, k, d, r)[i])
  {
  }

  lemma MiddleFieldsBecome(a: Attestation, g: Py, h: Py, ref: Json, gates: Json, k: string, d: string, r: string)
    ensures forall i :: 6 <= i < 11 ==> Becomes(GraphFields(a, g, h, k, d, r)[i], MembersOf(a, ref, gates, k, d, r)[i])
  {
  }

  lemma LastFieldsBecome(a: Attestation, g: Py, h: Py, ref: Json, gates: Json, k: string, d: string, r: string)
    ensures Becomes(GraphFields(a, g, h, k, d, r)[11], Member("signature", a.signature))
    ensures forall i :: 11 <= i < 13 ==>
      Becomes(GraphFields(a, g, h, k, d, r)[i + 1], MembersOf(a, ref, gates, k, d, r)[i])
  {
  }

  /** `canonicalize(att)`: the predicate's members with `signature` in its place among them. */
  function AttestationMembers(a: Attestation): seq<Member> {
    PredicateMembers(a)[..11] + [Member("signature", a.signature)] + PredicateMembers(a)[11..]
  }

  /** A NaN or an infinity anywhere in it keeps an attestation from being projected, and nothing else does. */
  lemma AttestationProjects(a: Attestation)
    ensures Canonicalize(Graph(a)) ==
      if Encodable(Graph(a)) then Ok(Obj(AttestationMembers(a))) else Raised(ValueError)
  {
    if Encodable(Graph(a)) {
      EncodableProjects(a);
    } else {
      CanonicalizeAcceptsExactlyEncodable(Graph(a));
      CanonicalizeErrors(Graph(a));
    }
  }

  lemma EncodableProjects(a: Attestation)
    requires Encodable(Graph(a))
    ensures Canonicalize(Graph(a)) == Ok(Obj(AttestationMembers(a)))
  {
    EncodableGraph(Graph(a));
    var g, h := RefGraph(a.ref), PySeq(GateGraphs(a.gateSummary));
    var k, d, r := TypeText(a.artifactType), DecisionText(a.decision), RigorText(a.overallRigor);
    PartsSatisfy(a, g, h, k, d, r, Encodable);
    RefProjects(a.ref);
    GatesProject(a.gateSummary);
    GraphProjects(a, g, h, RefJson(a.ref), Arr(GateJsons(a.gateSummary)), k, d, r);
  }

  /** What holds of every field holds of the two that are graphs themselves. */
  lemma PartsSatisfy(a: Attestation, g: Py, h: Py, k: string, d: string, r: string, p: Py -> bool)
    requires forall i :: 0 <= i < 14 ==> p(GraphFields(a, g, h, k, d, r)[i].value)
    ensures p(g) && p(h)
  {
    assert p(GraphFields(a, g, h, k, d, r)[0].value) && p(GraphFields(a, g, h, k, d, r)[4].value);
  }

  lemma GraphProjects(a: Attestation, g: Py, h: Py, ref: Json, gates: Json, k: string, d: string, r: string)
    requires AllEncodable(GraphFields(a, g, h, k, d, r)) && Canonicalize(g) == Ok(ref) && Canonicalize(h) == Ok(gates)
    ensures var ms := MembersOf(a, ref, gates, k, d, r);
      Canonicalize(PyData(GraphFields(a, g, h, k, d, r))) ==
        Ok(Obj(ms[..11] + [Member("signature", a.signature)] + ms[11..]))
  {
    FirstFieldsBecome(a, g, h, ref, gates, k, d, r);
    MiddleFieldsBecome(a, g, h, ref, gates, k, d, r);
    LastFieldsBecome(a, g, h, ref, gates, k, d, r);
    FieldsWithExtra(GraphFields(a, g, h, k, d, r), MembersOf(a, ref, gates, k, d, r), Member("signature", a.signature));
  }

  lemma FieldsWithExtra(fs: seq<Field>, ms: seq<Member>, extra: Member)
    requires |fs| == 14 && |ms| == 13 && AllEncodable(fs)
    requires forall i :: 0 <= i < 6 ==> Becomes(fs[i], ms[i])
    requires forall i :: 6 <= i < 11 ==> Becomes(fs[i], ms[i])
    requires Becomes(fs[11], extra) && forall i :: 11 <= i < 13 ==> Becomes(fs[i + 1], ms[i])
    ensures Canonicalize(PyData(fs)) == Ok(Obj(ms[..11] + [extra] + ms[11..]))
  {
    var all := ms[..11] + [extra] + ms[11..];
    forall i | 0 <= i < 14 ensures Becomes(fs[i], all[i]) {
      if i > 11 { assert all[i] == ms[i - 1] && Becomes(fs[(i - 1) + 1], ms[i - 1]); }
    }
    FieldsProject(fs, all);
  }

  // ---- key-sorted copies ---------------------------------------------------

  function NormRef(r: ArtifactRef): ArtifactRef {
    ArtifactRef(Norm(r.scheme), Norm(r.locator), Norm(r.revision), Norm(r.expectedDigest))
  }

  function NormFinding(f: Finding): Finding {
    f.(gateId := Norm(f.gateId), code := Norm(f.code), message := Norm(f.message),
       location := Norm(f.location), metadata := Norm(f.metadata))
  }

  function NormFindings(fs: seq<Finding>): seq<Finding> {
    if fs == [] then [] else [NormFinding(fs[0])] + NormFindings(fs[1..])
  }

  function NormGate(g: GateResult): GateResult {
    g.(gateId := Norm(g.gateId), findings := NormFindings(g.findings), scannerName := Norm(g.scannerName),
       scannerVersion := Norm(g.scannerVersion), durationMs := Norm(g.durationMs), evidence := Norm(g.evidence))
  }

  function NormGates(gs: seq<GateResult>): seq<GateResult> {
    if gs == [] then [] else [NormGate(gs[0])] + NormGates(gs[1..])
  }

  /** The attestation with every dict it carries re-inserted in key order: equal to it in Python's eyes. */
  function NormAttestation(a: Attestation): Attestation {
    a.(ref := NormRef(a.ref), digest := Norm(a.digest), gateSummary := NormGates(a.gateSummary),
       confinementLevel := Norm(a.confinementLevel), policyId := Norm(a.policyId),
       policyVersion := Norm(a.policyVersion), migVersion := Norm(a.migVersion), createdAt := Norm(a.createdAt),
       signature := Norm(a.signature), predicateType := Norm(a.predicateType), metadata := Norm(a.metadata))
  }

  // ---- JSON-native attestations --------------------------------------------

  ghost predicate WfFinding(f: Finding) {
    Wf(f.gateId) && Wf(f.code) && Wf(f.message) && Wf(f.location) && Wf(f.metadata) && f.metadata.Obj?
  }

  ghost predicate WfGate(g: GateResult) {
    && Wf(g.gateId) && Wf(g.scannerName) && Wf(g.scannerVersion) && Wf(g.durationMs) && Wf(g.evidence)
    && g.evidence.Obj? && forall f :: f in g.findings ==> WfFinding(f)
  }

  ghost predicate WfScalars(a: Attestation) {
    && Wf(a.digest) && Wf(a.confinementLevel) && Wf(a.policyId) && Wf(a.policyVersion) && Wf(a.migVersion)
    && Wf(a.createdAt) && Wf(a.predicateType) && Wf(a.metadata) && a.metadata.Obj?
  }

  /** Every field holds JSON-native data, and no NaN or infinity. */
  ghost predicate WfAttestation(a: Attestation) {
    && Encodable(Graph(a))
    && Wf(a.ref.scheme) && Wf(a.ref.locator) && Wf(a.ref.revision) && Wf(a.ref.expectedDigest)
    && WfScalars(a) && forall g :: g in a.gateSummary ==> WfGate(g)
  }

  // ---- decoding a projection -----------------------------------------------

  /** `d` maps the key of every member of `ms` to that member's value, key-sorted. */
  ghost predicate Holds(d: Json, ms: seq<Member>) {
    d.Obj? && forall i :: 0 <= i < |ms| ==> Get(d, ms[i].key) == Some(Norm(ms[i].value))
  }

  lemma SortedHolds(ms: seq<Member>)
    requires Wf(Obj(ms))
    ensures Holds(Norm(Obj(ms)), ms)
  {
    forall i | 0 <= i < |ms| ensures Get(Norm(Obj(ms)), ms[i].key) == Some(Norm(ms[i].value)) {
      LookupAt(ms, i);
      GetNorm(Obj(ms), ms[i].key);
    }
  }

  lemma RefOf(d: Json, r: ArtifactRef)
    requires Holds(d, RefJson(r).members)
    ensures RefFromDict(d) == Ok(NormRef(r))
  {
    var ms := RefJson(r).members;
    assert ms[0].key == "scheme" && ms[1].key == "locator" && ms[2].key == "revision" && ms[3].key == "expected_digest";
  }

  lemma RefDecodes(r: ArtifactRef)
    requires Wf(r.scheme) && Wf(r.locator) && Wf(r.revision) && Wf(r.expectedDigest)
    ensures Wf(RefJson(r)) && RefFromDict(Norm(RefJson(r))) == Ok(NormRef(r))
  {
    SortedHolds(RefJson(r).members);
    RefOf(Norm(RefJson(r)), r);
  }

  lemma NormOfObj(j: Json)
    requires j.Obj?
    ensures Norm(j).Obj? && AsDict(Norm(j)) == Ok(Norm(j))
  {
  }

  lemma FindingOf(d: Json, f: Finding)
    requires Holds(d, FindingJson(f).members) && f.metadata.Obj?
    ensures FindingFromDict(d) == Ok(NormFinding(f))
  {
    var ms := FindingJson(f).members;
    assert ms[0].key == "gate_id" && ms[1].key == "severity" && ms[2].key == "code";
    assert ms[3].key == "message" && ms[4].key == "location" && ms[5].key == "metadata";
    NormOfObj(f.metadata);
  }

  lemma FindingWf(f: Finding)
    requires WfFinding(f)
    ensures Wf(FindingJson(f))
  {
    assert DistinctKeys(FindingJson(f).members);
  }

  lemma FindingDecodes(f: Finding)
    requires WfFinding(f)
    ensures Wf(FindingJson(f)) && FindingFromDict(Norm(FindingJson(f))) == Ok(NormFinding(f))
  {
    FindingWf(f);
    SortedHolds(FindingJson(f).members);
    FindingOf(Norm(FindingJson(f)), f);
  }

  lemma {:induction false} FindingsDecode(fs: seq<Finding>)
    requires forall f :: f in fs ==> WfFinding(f)
    ensures Wf(Arr(FindingJsons(fs))) && FindingsFromList(NormItems(FindingJsons(fs))) == Ok(NormFindings(fs))
  {
    if fs != [] {
      FindingDecodes(fs[0]);
      FindingsDecode(fs[1..]);
      assert FindingJsons(fs)[1..] == FindingJsons(fs[1..]);
      assert NormItems(FindingJsons(fs))[1..] == NormItems(FindingJsons(fs[1..]));
      forall x | x in FindingJsons(fs) ensures Wf(x) {
        assert x == FindingJson(fs[0]) || x in Arr(FindingJsons(fs[1..])).items;
      }
    }
  }

  lemma GateFields(d: Json, g: GateResult)
    requires Holds(d, GateJson(g).members)
    ensures Get(d, "gate_id") == Some(Norm(g.gateId)) && Get(d, "status") == Some(Str(StatusText(g.status)))
    ensures Get(d, "rigor") == Some(Str(RigorText(g.rigor)))
    ensures Get(d, "findings") == Some(Arr(NormItems(FindingJsons(g.findings))))
    ensures Get(d, "scanner_name") == Some(Norm(g.scannerName))
    ensures Get(d, "scanner_version") == Some(Norm(g.scannerVersion))
    ensures Get(d, "duration_ms") == Some(Norm(g.durationMs)) && Get(d, "evidence") == Some(Norm(g.evidence))
  {
    var ms := GateJson(g).members;
    assert ms[0].key == "gate_id" && ms[1].key == "status" && ms[2].key == "rigor" && ms[3].key == "findings";
    assert ms[4].key == "scanner_name" && ms[5].key == "scanner_version" && ms[6].key == "duration_ms";
    assert ms[7].key == "evidence";
  }

  lemma StatusTextReads(s: GateStatus)
    ensures StatusOf(Str(StatusText(s))) == Ok(s)
  {
  }

  lemma GateOf(d: Json, g: GateResult)
    requires Holds(d, GateJson(g).members) && g.evidence.Obj?
    requires FindingsFromList(NormItems(FindingJsons(g.findings))) == Ok(NormFindings(g.findings))
    ensures GateFromDict(d) == Ok(NormGate(g))
  {
    GateFields(d, g);
    StatusTextReads(g.status);
    EnumTextsRead(Model, Approve, g.rigor);
    NormOfObj(g.evidence);
  }

  lemma GateKeys(g: GateResult)
    ensures DistinctKeys(GateJson(g).members)
  {
  }

  lemma GateWf(g: GateResult)
    requires Wf(g.gateId) && Wf(g.scannerName) && Wf(g.scannerVersion) && Wf(g.durationMs) && Wf(g.evidence)
    requires Wf(Arr(FindingJsons(g.findings)))
    ensures Wf(GateJson(g))
  {
    var ms := GateJson(g).members;
    GateKeys(g);
    assert ms[0].value == g.gateId && ms[1].value.Str? && ms[2].value.Str? && ms[3].value == Arr(FindingJsons(g.findings));
    assert ms[4].value == g.scannerName && ms[5].value == g.scannerVersion && ms[6].value == g.durationMs;
    assert ms[7].value == g.evidence;
    GateWfFromParts(g, ms);
  }

  lemma GateWfFromParts(g: GateResult, ms: seq<Member>)
    requires Wf(g.gateId) && Wf(g.scannerName) && Wf(g.scannerVersion) && Wf(g.durationMs) && Wf(g.evidence)
    requires Wf(Arr(FindingJsons(g.findings))) && |ms| == 8 && DistinctKeys(ms)
    requires ms[0].value == g.gateId && ms[1].value.Str? && ms[2].value.Str? && ms[3].value == Arr(FindingJsons(g.findings))
    requires ms[4].value == g.scannerName && ms[5].value == g.scannerVersion && ms[6].value == g.durationMs
    requires ms[7].value == g.evidence
    ensures Wf(Obj(ms))
  {
    EightValues(ms, Wf);
    ObjWf(ms);
  }

  lemma ObjWf(ms: seq<Member>)
    requires DistinctKeys(ms) && forall m :: m in ms ==> Wf(m.value)
    ensures Wf(Obj(ms))
  {
  }

  /** Checking a property of the values of a short object one by one. */
  lemma EightValues(ms: seq<Member>, p: Json -> bool)
    requires |ms| == 8 && p(ms[0].value) && p(ms[1].value) && p(ms[2].value) && p(ms[3].value)
    requires p(ms[4].value) && p(ms[5].value) && p(ms[6].value) && p(ms[7].value)
    ensures forall m :: m in ms ==> p(m.value)
  {
    forall m | m in ms ensures p(m.value) {
      var i :| 0 <= i < 8 && ms[i] == m;
      assert i == 0 || i == 1 || i == 2 || i == 3 || i == 4 || i == 5 || i == 6 || i == 7;
    }
  }

  lemma GateDecodes(g: GateResult)
    requires WfGate(g)
    ensures Wf(GateJson(g)) && GateFromDict(Norm(GateJson(g))) == Ok(NormGate(g))
  {
    FindingsDecode(g.findings);
    GateWf(g);
    SortedHolds(GateJson(g).members);
    GateOf(Norm(GateJson(g)), g);
  }

  lemma {:induction false} GatesDecode(gs: seq<GateResult>)
    requires forall g :: g in gs ==> WfGate(g)
    ensures Wf(Arr(GateJsons(gs))) && GatesFromList(NormItems(GateJsons(gs))) == Ok(NormGates(gs))
  {
    if gs != [] {
      GateDecodes(gs[0]);
      GatesDecode(gs[1..]);
      assert GateJsons(gs)[1..] == GateJsons(gs[1..]);
      assert NormItems(GateJsons(gs))[1..] == NormItems(GateJsons(gs[1..]));
      forall x | x in GateJsons(gs) ensures Wf(x) {
        assert x == GateJson(gs[0]) || x in Arr(GateJsons(gs[1..])).items;
      }
    }
  }

  /** The place of each key among the members; anything else is out of range. */
  function KeyRank(key: string): int {
    if key == "ref" then 0 else if key == "digest" then 1 else if key == "artifact_type" then 2
    else if key == "decision" then 3 else if key == "gate_summary" then 4 else if key == "overall_rigor" then 5
    else if key == "confinement_level" then 6 else if key == "policy_id" then 7 else if key == "policy_version" then 8
    else if key == "mig_version" then 9 else if key == "created_at" then 10 else if key == "predicate_type" then 11
    else if key == "metadata" then 12 else 13
  }

  lemma RanksDistinguish(ms: seq<Member>, rank: string -> int)
    requires |ms| == 13 && rank(ms[0].key) == 0 && rank(ms[1].key) == 1 && rank(ms[2].key) == 2
    requires rank(ms[3].key) == 3 && rank(ms[4].key) == 4 && rank(ms[5].key) == 5 && rank(ms[6].key) == 6
    requires rank(ms[7].key) == 7 && rank(ms[8].key) == 8 && rank(ms[9].key) == 9 && rank(ms[10].key) == 10
    requires rank(ms[11].key) == 11 && rank(ms[12].key) == 12
    ensures forall i :: 0 <= i < 13 ==> rank(ms[i].key) == i
    ensures DistinctKeys(ms)
  {
  }

  lemma RanksOfFirst()
    ensures KeyRank("ref") == 0 && KeyRank("digest") == 1 && KeyRank("artifact_type") == 2
    ensures KeyRank("decision") == 3 && KeyRank("gate_summary") == 4 && KeyRank("overall_rigor") == 5
    ensures KeyRank("confinement_level") == 6
  {
  }

  lemma RanksOfRest()
    ensures KeyRank("policy_id") == 7 && KeyRank("policy_version") == 8 && KeyRank("mig_version") == 9
    ensures KeyRank("created_at") == 10 && KeyRank("predicate_type") == 11 && KeyRank("metadata") == 12
    ensures KeyRank("signature") == 13
  {
  }

  lemma PredicateKeys(a: Attestation, ref: Json, gates: Json)
    ensures DistinctKeys(MembersWith(a, ref, gates))
    ensures forall m :: m in MembersWith(a, ref, gates) ==> m.key != "signature"
  {
    RanksOfFirst();
    RanksOfRest();
    RanksDistinguish(MembersWith(a, ref, gates), KeyRank);
  }

  lemma PredicateWf(a: Attestation)
    requires WfAttestation(a)
    ensures Wf(Obj(PredicateMembers(a)))
  {
    assert Wf(RefJson(a.ref)) by { RefDecodes(a.ref); }
    assert Wf(Arr(GateJsons(a.gateSummary))) by { GatesDecode(a.gateSummary); }
    PredicateWfOf(a, RefJson(a.ref), Arr(GateJsons(a.gateSummary)));
  }

  lemma PredicateWfOf(a: Attestation, ref: Json, gates: Json)
    requires WfScalars(a) && Wf(ref) && Wf(gates)
    ensures Wf(Obj(MembersWith(a, ref, gates)))
  {
    MembersSatisfy(a, ref, gates, Wf);
    assert DistinctKeys(MembersWith(a, ref, gates)) by { PredicateKeys(a, ref, gates); }
    ObjWf(MembersWith(a, ref, gates));
  }

  /** What holds of every text, of the other fields and of the two projected parts holds of every member. */
  lemma MembersSatisfy(a: Attestation, ref: Json, gates: Json, p: Json -> bool)
    requires p(ref) && p(gates) && p(a.digest) && p(a.confinementLevel) && p(a.policyId) && p(a.policyVersion)
    requires p(a.migVersion) && p(a.createdAt) && p(a.predicateType) && p(a.metadata) && forall t: string :: p(Str(t))
    ensures forall m :: m in MembersWith(a, ref, gates) ==> p(m.value)
  {
    ThirteenValues(MembersWith(a, ref, gates), p);
  }

  lemma ThirteenValues(ms: seq<Member>, p: Json -> bool)
    requires |ms| == 13 && p(ms[0].value) && p(ms[1].value) && p(ms[2].value) && p(ms[3].value)
    requires p(ms[4].value) && p(ms[5].value) && p(ms[6].value) && p(ms[7].value)
    requires p(ms[8].value) && p(ms[9].value) && p(ms[10].value) && p(ms[11].value) && p(ms[12].value)
    ensures forall m :: m in ms ==> p(m.value)
  {
    EightValues(ms[..8], p);
    EightValues(ms[5..], p);
    forall m | m in ms ensures m in ms[..8] || m in ms[5..] {
      var i :| 0 <= i < 13 && ms[i] == m;
      if i >= 8 { assert ms[5..][i - 5] == m; } else { assert ms[..8][i] == m; }
    }
  }

  lemma NoSignatureKey(a: Attestation)
    requires Wf(Obj(PredicateMembers(a)))
    ensures Get(Norm(Obj(PredicateMembers(a))), "signature") == None
  {
    PredicateKeys(a, RefJson(a.ref), Arr(GateJsons(a.gateSummary)));
    LookupFails(PredicateMembers(a), "signature");
    GetNorm(Obj(PredicateMembers(a)), "signature");
  }

  lemma PredicateFields(d: Json, a: Attestation)
    requires Holds(d, PredicateMembers(a))
    ensures Get(d, "ref") == Some(Norm(RefJson(a.ref))) && Get(d, "digest") == Some(Norm(a.digest))
    ensures Get(d, "artifact_type") == Some(Str(TypeText(a.artifactType)))
    ensures Get(d, "decision") == Some(Str(DecisionText(a.decision)))
    ensures Get(d, "gate_summary") == Some(Arr(NormItems(GateJsons(a.gateSummary))))
    ensures Get(d, "overall_rigor") == Some(Str(RigorText(a.overallRigor)))
    ensures Get(d, "confinement_level") == Some(Norm(a.confinementLevel))
    ensures Get(d, "policy_id") == Some(Norm(a.policyId)) && Get(d, "policy_version") == Some(Norm(a.policyVersion))
    ensures Get(d, "mig_version") == Some(Norm(a.migVersion)) && Get(d, "created_at") == Some(Norm(a.createdAt))
    ensures Get(d, "predicate_type") == Some(Norm(a.predicateType)) && Get(d, "metadata") == Some(Norm(a.metadata))
  {
    var ms := PredicateMembers(a);
    assert ms[0].key == "ref" && ms[1].key == "digest" && ms[2].key == "artifact_type" && ms[3].key == "decision";
    assert ms[4].key == "gate_summary" && ms[5].key == "overall_rigor" && ms[6].key == "confinement_level";
    assert ms[7].key == "policy_id" && ms[8].key == "policy_version" && ms[9].key == "mig_version";
    assert ms[10].key == "created_at" && ms[11].key == "predicate_type" && ms[12].key == "metadata";
  }

  lemma EnumTextsRead(t: ArtifactType, d: Decision, r: RigorLevel)
    ensures TypeOf(Str(TypeText(t))) == Ok(t)
    ensures DecisionOf(Str(DecisionText(d))) == Ok(d)
    ensures RigorOf(Str(RigorText(r))) == Ok(r)
  {
  }

  lemma RestOf(d: Json, a: Attestation, ref: ArtifactRef, gates: seq<GateResult>)
    requires Holds(d, PredicateMembers(a)) && a.metadata.Obj? && Get(d, "signature") == None
    ensures RestFromDict(d, ref, Norm(a.digest), a.artifactType, a.decision, gates) ==
      Ok(NormAttestation(a).(ref := ref, gateSummary := gates, signature := Null))
  {
    PredicateFields(d, a);
    EnumTextsRead(a.artifactType, a.decision, a.overallRigor);
    NormOfObj(a.metadata);
  }

  lemma PredicateOf(d: Json, a: Attestation)
    requires Holds(d, PredicateMembers(a)) && a.metadata.Obj? && Get(d, "signature") == None
    requires RefFromDict(Norm(RefJson(a.ref))) == Ok(NormRef(a.ref))
    requires GatesFromList(NormItems(GateJsons(a.gateSummary))) == Ok(NormGates(a.gateSummary))
    ensures FromDict(d) == Ok(NormAttestation(a.(signature := Null)))
  {
    PredicateFields(d, a);
    EnumTextsRead(a.artifactType, a.decision, a.overallRigor);
    RestOf(d, a, NormRef(a.ref), NormGates(a.gateSummary));
  }

  /** Every field comes back; only `signature` is cleared. */
  lemma PredicateDecodes(a: Attestation)
    requires WfAttestation(a)
    ensures Wf(Obj(PredicateMembers(a)))
    ensures FromDict(Norm(Obj(PredicateMembers(a)))) == Ok(NormAttestation(a.(signature := Null)))
  {
    PredicateWf(a);
    NoSignatureKey(a);
    RefDecodes(a.ref);
    GatesDecode(a.gateSummary);
    SortedHolds(PredicateMembers(a));
    PredicateOf(Norm(Obj(PredicateMembers(a))), a);
  }
}
