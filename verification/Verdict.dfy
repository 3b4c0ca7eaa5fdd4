/** Gate results and the summaries that carry no decision. Fields the decoders never type-check hold any JSON value. */
module Verdict {
  import opened Prelude
  import opened Json

  datatype Severity = Info | Low | Medium | High | Critical
  datatype GateStatus = Pass | Warn | Fail | Skipped | Error
  datatype RigorLevel = NoRigor | Static | Behavioral
  datatype GateCost = Cheap | Moderate | Expensive
  datatype Decision = Approve | Reject | ReviewRequired

  datatype ArtifactType =
    | Model | Adapter | Dataset | Tokenizer | EmbeddingModel | AgentSkill | McpServer
    | PythonPackage | NpmPackage | ContainerImage | Notebook | PromptTemplate | EvalSet

  /** `EXECUTABLE_ARTIFACT_TYPES`. */
  predicate IsExecutable(t: ArtifactType) {
    t.McpServer? || t.PythonPackage? || t.NpmPackage? || t.Notebook? || t.ContainerImage? || t.AgentSkill?
  }

  datatype Finding = Finding(gateId: Json, severity: Severity, code: Json, message: Json, location: Json, metadata: Json)

  datatype GateResult = GateResult(
    gateId: Json, status: GateStatus, rigor: RigorLevel, findings: seq<Finding>,
    scannerName: Json, scannerVersion: Json, durationMs: Json, evidence: Json)

  /** `EXECUTED_STATUSES`. */
  predicate Executed(r: GateResult) { r.status.Pass? || r.status.Warn? || r.status.Fail? }

  function RigorRank(r: RigorLevel): nat {
    match r case NoRigor => 0 case Static => 1 case Behavioral => 2
  }

  function SeverityValue(s: Severity): nat {
    match s case Info => 0 case Low => 1 case Medium => 2 case High => 3 case Critical => 4
  }

  /** The rigor of the executed gates, in order. */
  function Achieved(results: seq<GateResult>): seq<RigorLevel> {
    if results == [] then []
    else (if Executed(results[0]) then [results[0].rigor] else []) + Achieved(results[1..])
  }

  /** `max(levels, key=rigor_rank)` with `NONE` for an empty list; the first of equals wins. */
  function MaxRigor(levels: seq<RigorLevel>): RigorLevel {
    if levels == [] then NoRigor
    else
      var rest := MaxRigor(levels[1..]);
      if RigorRank(rest) > RigorRank(levels[0]) then rest else levels[0]
  }

  /** `Verdict.rigor_summary`. */
  function RigorSummary(results: seq<GateResult>): RigorLevel { MaxRigor(Achieved(results)) }

  /** The summary is the highest rigor that a gate which passed, warned or failed has reached; none without such a gate. */
  lemma {:induction false} SummaryIsHighest(results: seq<GateResult>)
    ensures forall r :: r in results && r.status in {Pass, Warn, Fail} ==>
      r.rigor.NoRigor? || RigorSummary(results).Behavioral? || r.rigor == RigorSummary(results)
    ensures RigorSummary(results).NoRigor?
      || exists r :: r in results && r.status in {Pass, Warn, Fail} && r.rigor == RigorSummary(results)
  {
    if results != [] {
      SummaryIsHighest(results[1..]);
      assert results == [results[0]] + results[1..];
      var rest := Achieved(results[1..]);
      if Executed(results[0]) {
        assert Achieved(results)[1..] == rest;
      } else {
        assert Achieved(results) == rest;
      }
    }
  }

  lemma SeveritiesAscend()
    ensures SeverityValue(Info) < SeverityValue(Low) < SeverityValue(Medium) < SeverityValue(High) < SeverityValue(Critical)
  {
  }

  /** `Verdict.behavioral_ran`. */
  predicate BehavioralRan(results: seq<GateResult>) {
    exists r :: r in results && r.rigor.Behavioral? && Executed(r)
  }

  lemma {:induction false} BehavioralRanIsSummary(results: seq<GateResult>)
    ensures BehavioralRan(results) <==> RigorSummary(results) == Behavioral
  {
    if results != [] {
      BehavioralRanIsSummary(results[1..]);
      assert results == [results[0]] + results[1..];
      var rest := Achieved(results[1..]);
      if Executed(results[0]) {
        assert Achieved(results)[1..] == rest;
      } else {
        assert Achieved(results) == rest;
      }
    }
  }
}
