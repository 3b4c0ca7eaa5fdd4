/** The attestation, its projection to JSON, and the typed decoders that read it back. */
module Attestation {
  import opened Prelude
  import opened Json
  import opened Verdict
  import opened Canonical
  import Numbers

  datatype ArtifactRef = ArtifactRef(scheme: Json, locator: Json, revision: Json, expectedDigest: Json)

  datatype Attestation = Attestation(
    ref: ArtifactRef, digest: Json, artifactType: ArtifactType, decision: Decision,
    gateSummary: seq<GateResult>, overallRigor: RigorLevel, confinementLevel: Json,
    policyId: Json, policyVersion: Json, migVersion: Json, createdAt: Json,
    signature: Json, predicateType: Json, metadata: Json)

  // ---- enum values ---------------------------------------------------------

  function SeverityText(s: Severity): Json { Int(SeverityValue(s)) }

  function StatusText(s: GateStatus): string {
    match s
    case Pass => "pass" case Warn => "warn" case Fail => "fail" case Skipped => "skipped" case Error => "error"
  }

  function RigorText(r: RigorLevel): string {
    match r case NoRigor => "none" case Static => "static" case Behavioral => "behavioral"
  }

  function DecisionText(d: Decision): string {
    match d case Approve => "approve" case Reject => "reject" case ReviewRequired => "review_required"
  }

  function TypeText(t: ArtifactType): string {
    match t
    case Model => "model" case Adapter => "adapter" case Dataset => "dataset" case Tokenizer => "tokenizer"
    case EmbeddingModel => "embedding_model" case AgentSkill => "agent_skill" case McpServer => "mcp_server"
    case PythonPackage => "python_package" case NpmPackage => "npm_package"
    case ContainerImage => "container_image" case Notebook => "notebook"
    case PromptTemplate => "prompt_template" case EvalSet => "eval_set"
  }

  /** `Severity(value)`: `True` and `False` equal 1 and 0, and so may a float. */
  function SeverityOf(j: Json): Result<Severity> {
    match j
    case Num(t) =>
      (match Numbers.SmallInteger(t)
       case Some(0) => Ok(Info) case Some(1) => Ok(Low) case Some(2) => Ok(Medium)
       case Some(3) => Ok(High) case Some(4) => Ok(Critical)
       case _ => Raised(ValueError))
    case Int(0) => Ok(Info) case Int(1) => Ok(Low) case Int(2) => Ok(Medium)
    case Int(3) => Ok(High) case Int(4) => Ok(Critical)
    case Bool(b) => Ok(if b then Low else Info)
    case _ => Raised(ValueError)
  }

  function StatusOf(j: Json): Result<GateStatus> {
    if j == Str("pass") then Ok(Pass) else if j == Str("warn") then Ok(Warn) else if j == Str("fail") then Ok(Fail)
    else if j == Str("skipped") then Ok(Skipped) else if j == Str("error") then Ok(Error) else Raised(ValueError)
  }

  function RigorOf(j: Json): Result<RigorLevel> {
    if j == Str("none") then Ok(NoRigor) else if j == Str("static") then Ok(Static)
    else if j == Str("behavioral") then Ok(Behavioral) else Raised(ValueError)
  }

  function DecisionOf(j: Json): Result<Decision> {
    if j == Str("approve") then Ok(Approve) else if j == Str("reject") then Ok(Reject)
    else if j == Str("review_required") then Ok(ReviewRequired) else Raised(ValueError)
  }

  function TypeOf(j: Json): Result<ArtifactType> {
    if j == Str("model") then Ok(Model) else if j == Str("adapter") then Ok(Adapter)
    else if j == Str("dataset") then Ok(Dataset) else if j == Str("tokenizer") then Ok(Tokenizer)
    else if j == Str("embedding_model") then Ok(EmbeddingModel) else if j == Str("agent_skill") then Ok(AgentSkill)
    else if j == Str("mcp_server") then Ok(McpServer) else if j == Str("python_package") then Ok(PythonPackage)
    else if j == Str("npm_package") then Ok(NpmPackage) else if j == Str("container_image") then Ok(ContainerImage)
    else if j == Str("notebook") then Ok(Notebook) else if j == Str("prompt_template") then Ok(PromptTemplate)
    else if j == Str("eval_set") then Ok(EvalSet) else Raised(ValueError)
  }

  // ---- projection ----------------------------------------------------------

  function RefGraph(r: ArtifactRef): Py {
    PyData([Field("scheme", FromJson(r.scheme)), Field("locator", FromJson(r.locator)),
            Field("revision", FromJson(r.revision)), Field("expected_digest", FromJson(r.expectedDigest))])
  }

  function FindingGraph(f: Finding): Py {
    PyData([Field("gate_id", FromJson(f.gateId)), Field("severity", PyEnum(FromJson(SeverityText(f.severity)))),
            Field("code", FromJson(f.code)), Field("message", FromJson(f.message)),
            Field("location", FromJson(f.location)), Field("metadata", FromJson(f.metadata))])
  }

  function FindingGraphs(fs: seq<Finding>): seq<Py> {
    if fs == [] then [] else [FindingGraph(fs[0])] + FindingGraphs(fs[1..])
  }

  function GateGraph(g: GateResult): Py {
    PyData([Field("gate_id", FromJson(g.gateId)), Field("status", PyEnum(PyStr(StatusText(g.status)))),
            Field("rigor", PyEnum(PyStr(RigorText(g.rigor)))), Field("findings", PySeq(FindingGraphs(g.findings))),
            Field("scanner_name", FromJson(g.scannerName)), Field("scanner_version", FromJson(g.scannerVersion)),
            Field("duration_ms", FromJson(g.durationMs)), Field("evidence", FromJson(g.evidence))])
  }

  function GateGraphs(gs: seq<GateResult>): seq<Py> {
    if gs == [] then [] else [GateGraph(gs[0])] + GateGraphs(gs[1..])
  }

  /** The attestation object as `canonicalize` meets it. */
  function Graph(a: Attestation): Py {
    PyData(GraphFields(a, RefGraph(a.ref), PySeq(GateGraphs(a.gateSummary)), TypeText(a.artifactType),
                       DecisionText(a.decision), RigorText(a.overallRigor)))
  }

  function GraphFields(a: Attestation, ref: Py, gates: Py, kind: string, decision: string, rigor: string): (fs: seq<Field>)
    ensures |fs| == 14
  {
    [Field("ref", ref), Field("digest", FromJson(a.digest)), Field("artifact_type", PyEnum(PyStr(kind))),
     Field("decision", PyEnum(PyStr(decision))), Field("gate_summary", gates),
     Field("overall_rigor", PyEnum(PyStr(rigor))), Field("confinement_level", FromJson(a.confinementLevel)),
     Field("policy_id", FromJson(a.policyId)), Field("policy_version", FromJson(a.policyVersion)),
     Field("mig_version", FromJson(a.migVersion)), Field("created_at", FromJson(a.createdAt)),
     Field("signature", FromJson(a.signature)), Field("predicate_type", FromJson(a.predicateType)),
     Field("metadata", FromJson(a.metadata))]
  }

  // ---- decoding ------------------------------------------------------------

  /** `data[key]`: a value that is not a dict cannot be indexed by text. */
  function Index(data: Json, key: string): Result<Json> {
    if !data.Obj? then Raised(TypeError)
    else match Get(data, key) case None => Raised(KeyError) case Some(v) => Ok(v)
  }

  /** `data.get(key, default)` on a dict. */
  function GetOr(data: Json, key: string, default: Json): Json {
    match Get(data, key) case None => default case Some(v) => v
  }

  function Chars(s: string): seq<Json> {
    if s == "" then [] else [Str([s[0]])] + Chars(s[1..])
  }

  function Keys(ms: seq<Member>): seq<Json> {
    if ms == [] then [] else [Str(ms[0].key)] + Keys(ms[1..])
  }

  /** What `for x in value` runs over. */
  function Iterate(value: Json): Result<seq<Json>> {
    match value
    case Arr(items) => Ok(items)
    case Obj(ms) => Ok(Keys(ms))
    case Str(s) => Ok(Chars(s))
    case _ => Raised(TypeError)
  }

  /** Whether `dict(...)` can take `x` as one key-value pair. */
  function AsPair(x: Json): Result<()> {
    var parts :- Iterate(x);
    if |parts| != 2 then Raised(ValueError)
    else if parts[0].Arr? || parts[0].Obj? then Raised(TypeError)
    else Ok(())
  }

  function AsPairs(items: seq<Json>): Result<()> {
    if items == [] then Ok(())
    else
      var _ :- AsPair(items[0]);
      AsPairs(items[1..])
  }

  /** `dict(value)`: a dict, or a list of pairs, which is kept as the list it came as. */
  function AsDict(value: Json): Result<Json> {
    if value.Obj? then Ok(value)
    else
      var items :- Iterate(value);
      var _ :- AsPairs(items);
      Ok(value)
  }

  function RefFromDict(data: Json): Result<ArtifactRef> {
    var scheme :- Index(data, "scheme");
    var locator :- Index(data, "locator");
    Ok(ArtifactRef(scheme, locator, GetOr(data, "revision", Null), GetOr(data, "expected_digest", Null)))
  }

  function FindingFromDict(data: Json): Result<Finding> {
    var gateId :- Index(data, "gate_id");
    var severityValue :- Index(data, "severity");
    var severity :- SeverityOf(severityValue);
    var code :- Index(data, "code");
    var message :- Index(data, "message");
    var metadata :- AsDict(GetOr(data, "metadata", Obj([])));
    Ok(Finding(gateId, severity, code, message, GetOr(data, "location", Null), metadata))
  }

  function FindingsFromList(items: seq<Json>): Result<seq<Finding>> {
    if items == [] then Ok([])
    else
      var f :- FindingFromDict(items[0]);
      var rest :- FindingsFromList(items[1..]);
      Ok([f] + rest)
  }

  function GateFromDict(data: Json): Result<GateResult> {
    var gateId :- Index(data, "gate_id");
    var statusValue :- Index(data, "status");
    var status :- StatusOf(statusValue);
    var rigorValue :- Index(data, "rigor");
    var rigor :- RigorOf(rigorValue);
    var items :- Iterate(GetOr(data, "findings", Arr([])));
    var findings :- FindingsFromList(items);
    var evidence :- AsDict(GetOr(data, "evidence", Obj([])));
    Ok(GateResult(gateId, status, rigor, findings, GetOr(data, "scanner_name", Null),
                  GetOr(data, "scanner_version", Null), GetOr(data, "duration_ms", Null), evidence))
  }

  function GatesFromList(items: seq<Json>): Result<seq<GateResult>> {
    if items == [] then Ok([])
    else
      var g :- GateFromDict(items[0]);
      var rest :- GatesFromList(items[1..]);
      Ok([g] + rest)
  }

  /** `attestation_from_dict`. */
  function FromDict(data: Json): Result<Attestation> {
    var refValue :- Index(data, "ref");
    var ref :- RefFromDict(refValue);
    var digest :- Index(data, "digest");
    var typeValue :- Index(data, "artifact_type");
    var artifactType :- TypeOf(typeValue);
    var decisionValue :- Index(data, "decision");
    var decision :- DecisionOf(decisionValue);
    var items :- Iterate(GetOr(data, "gate_summary", Arr([])));
    var gates :- GatesFromList(items);
    RestFromDict(data, ref, digest, artifactType, decision, gates)
  }

  function RestFromDict(data: Json, ref: ArtifactRef, digest: Json, artifactType: ArtifactType, decision: Decision,
                        gates: seq<GateResult>): Result<Attestation>
  {
    var rigorValue :- Index(data, "overall_rigor");
    var rigor :- RigorOf(rigorValue);
    var confinement :- Index(data, "confinement_level");
    var policyId :- Index(data, "policy_id");
    var policyVersion :- Index(data, "policy_version");
    var migVersion :- Index(data, "mig_version");
    var createdAt :- Index(data, "created_at");
    var metadata :- AsDict(GetOr(data, "metadata", Obj([])));
    Ok(Attestation(ref, digest, artifactType, decision, gates, rigor, confinement, policyId, policyVersion,
                   migVersion, createdAt, GetOr(data, "signature", Null), GetOr(data, "predicate_type", Null), metadata))
  }

  // ---- what an enumeration reads -----------------------------------------------

  /** A severity is read from its number, whether it comes as an integer, a float or a truth value. */
  lemma SeverityReads(n: int, t: string, b: bool)
    ensures SeverityOf(Int(n)).Ok? <==> 0 <= n <= 4
    ensures SeverityOf(Int(n)).Ok? ==> SeverityValue(SeverityOf(Int(n)).value) == n
    ensures SeverityOf(Bool(b)) == SeverityOf(Int(if b then 1 else 0))
    ensures SeverityOf(Num(t)) ==
      match Numbers.SmallInteger(t) case None => Raised(ValueError) case Some(k) => SeverityOf(Int(k))
  {
  }

  lemma SeverityErrors(j: Json)
    ensures SeverityOf(j).Raised? ==> SeverityOf(j) == Raised(ValueError) && !j.Bool?
  {
  }

  /** The other enumerations are read from their own names and from nothing else. */
  lemma StatusReads(j: Json, s: GateStatus)
    ensures StatusOf(j) == Ok(s) <==> j == Str(StatusText(s))
    ensures StatusOf(j).Raised? ==> StatusOf(j) == Raised(ValueError)
  {
  }

  lemma RigorReads(j: Json, r: RigorLevel)
    ensures RigorOf(j) == Ok(r) <==> j == Str(RigorText(r))
    ensures RigorOf(j).Raised? ==> RigorOf(j) == Raised(ValueError)
  {
  }

  lemma DecisionReads(j: Json, d: Decision)
    ensures DecisionOf(j) == Ok(d) <==> j == Str(DecisionText(d))
    ensures DecisionOf(j).Raised? ==> DecisionOf(j) == Raised(ValueError)
  {
  }

  lemma TypeReads(j: Json, k: ArtifactType)
    ensures TypeOf(j) == Ok(k) ==> j == Str(TypeText(k))
    ensures TypeOf(j).Raised? ==> TypeOf(j) == Raised(ValueError)
  {
  }

  // ---- attribution ---------------------------------------------------------

  /** Python truth of a JSON value. */
  predicate Truthy(j: Json) {
    match j
    case Null => false
    case Bool(b) => b
    case Int(n) => n != 0
    case Num(t) => !Numbers.IsZero(t)
    case Str(s) => s != ""
    case Arr(xs) => xs != []
    case Obj(ms) => ms != []
  }

  /** What Python counts as false. */
  lemma FalseIs(j: Json)
    ensures !Truthy(j) <==>
      j in {Null, Bool(false), Int(0), Str(""), Arr([]), Obj([])} || (j.Num? && Numbers.IsZero(j.text))
  {
  }

  datatype AttributionProblem = MissingName(gateId: Json) | MissingVersion(gateId: Json)

  predicate Attributed(g: GateResult) { !Executed(g) || (Truthy(g.scannerName) && Truthy(g.scannerVersion)) }

  function ProblemsOf(g: GateResult): seq<AttributionProblem> {
    if !Executed(g) then [] else
      var name := if Truthy(g.scannerName) then [] else [MissingName(g.gateId)];
      var version := if Truthy(g.scannerVersion) then [] else [MissingVersion(g.gateId)];
      name + version
  }

  function AllProblems(gs: seq<GateResult>): seq<AttributionProblem> {
    if gs == [] then [] else AllProblems(gs[..|gs| - 1]) + ProblemsOf(gs[|gs| - 1])
  }

  /** `attribution_problems`: nothing to report exactly when every executed gate names its scanner and version. */
  method AttributionProblems(gs: seq<GateResult>) returns (problems: seq<AttributionProblem>)
    ensures problems == AllProblems(gs)
    ensures problems == [] <==> forall g :: g in gs ==> Attributed(g)
  {
    problems := [];
    for i := 0 to |gs|
      invariant problems == AllProblems(gs[..i])
    {
      assert gs[..i + 1][..i] == gs[..i];
      ghost var before := problems;
      if Executed(gs[i]) {
        if !Truthy(gs[i].scannerName) {
          problems := problems + [MissingName(gs[i].gateId)];
        }
        if !Truthy(gs[i].scannerVersion) {
          problems := problems + [MissingVersion(gs[i].gateId)];
        }
      }
      assert problems == before + ProblemsOf(gs[i]);
    }
    assert gs[..|gs|] == gs;
    NoProblems(gs);
  }

  /** A problem names a gate that passed, warned or failed, and what that gate does not say of its scanner. */
  lemma {:induction false} AllProblemsAre(gs: seq<GateResult>, p: AttributionProblem)
    ensures p in AllProblems(gs) <==>
      exists g :: g in gs && p.gateId == g.gateId && g.status in {Pass, Warn, Fail}
        && !Truthy(if p.MissingName? then g.scannerName else g.scannerVersion)
  {
    if gs != [] {
      var front, last := gs[..|gs| - 1], gs[|gs| - 1];
      AllProblemsAre(front, p);
      assert gs == front + [last];
      assert p in ProblemsOf(last) <==>
        p.gateId == last.gateId && last.status in {Pass, Warn, Fail}
        && !Truthy(if p.MissingName? then last.scannerName else last.scannerVersion);
      if g :| g in gs && p.gateId == g.gateId && g.status in {Pass, Warn, Fail}
              && !Truthy(if p.MissingName? then g.scannerName else g.scannerVersion) {
        assert g in front || g == last;
      }
    }
  }

  lemma {:induction false} NoProblems(gs: seq<GateResult>)
    ensures AllProblems(gs) == [] <==> forall g :: g in gs ==> Attributed(g)
  {
    if gs != [] {
      NoProblems(gs[..|gs| - 1]);
      assert ProblemsOf(gs[|gs| - 1]) == [] <==> Attributed(gs[|gs| - 1]);
      forall g | g in gs ensures g in gs[..|gs| - 1] || g == gs[|gs| - 1] {
      }
    }
  }
}
