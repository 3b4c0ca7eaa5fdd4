/** The gate pipeline: cost order, short-circuit, and a raising gate as an error result. */
module Pipeline {
  import opened Prelude
  import opened Json
  import opened Order
  import opened Verdict
  import opened Policy
  import opened Attestation

  /** A gate, with what its `evaluate` does on the artifact at hand and how long that takes. */
  datatype Gate = Gate(id: Json, cost: GateCost, appliesTo: set<ArtifactType>, outcome: Result<GateResult>, millis: nat)

  datatype RunVerdict = RunVerdict(
    ref: ArtifactRef, artifactType: ArtifactType, gateResults: seq<GateResult>, decision: Decision)

  function CostRank(c: GateCost): nat { match c case Cheap => 0 case Moderate => 1 case Expensive => 2 }

  predicate LeCost(g: Gate, k: Gate) { CostRank(g.cost) <= CostRank(k.cost) }

  /** `order_gates`. */
  function OrderGates(gates: seq<Gate>): seq<Gate> { Sort(LeCost, gates) }

  /** `_run_gate`. */
  function RunGate(g: Gate): GateResult {
    match g.outcome
    case Raised(_) =>
      GateResult(g.id, Error, NoRigor, [Finding(g.id, Medium, Str("gate_error"), Str(""), Null, Obj([]))],
                 Null, Null, Int(g.millis), Obj([]))
    case Ok(r) => if r.durationMs.Null? then r.(durationMs := Int(g.millis)) else r
  }

  function Applicable(gates: seq<Gate>, t: ArtifactType): seq<Gate> {
    if gates == [] then []
    else (if t in gates[0].appliesTo then [gates[0]] else []) + Applicable(gates[1..], t)
  }

  function RunAll(gates: seq<Gate>): seq<GateResult> {
    if gates == [] then [] else [RunGate(gates[0])] + RunAll(gates[1..])
  }

  /** The loop over the ordered gates; `skip` is the short-circuit flag. */
  function RunFrom(gates: seq<Gate>, skip: bool): seq<GateResult> {
    if gates == [] then []
    else if skip && gates[0].cost.Expensive? then RunFrom(gates[1..], skip)
    else
      var r := RunGate(gates[0]);
      [r] + RunFrom(gates[1..], skip || (r.status.Fail? && !gates[0].cost.Expensive?))
  }

  function ShortRun(gates: seq<Gate>, t: ArtifactType): seq<GateResult> {
    RunFrom(Applicable(OrderGates(gates), t), false)
  }

  function VerdictOf(a: Artifact, gates: seq<Gate>, rules: seq<Rule>, text: Json -> string): Result<RunVerdict> {
    var results := ShortRun(gates, a.artifactType);
    match Evaluate(rules, a, results, text)
    case Raised(e) => Raised(e)
    case Ok(d) => Ok(RunVerdict(a.ref, a.artifactType, results, d))
  }

  /** One turn of the loop, with `done` already collected. */
  lemma RunFromHead(done: seq<GateResult>, gates: seq<Gate>, skip: bool)
    requires gates != []
    ensures var g, rest := gates[0], gates[1..];
      done + RunFrom(gates, skip) ==
        if skip && g.cost.Expensive? then done + RunFrom(rest, skip)
        else done + [RunGate(g)] + RunFrom(rest, skip || (RunGate(g).status.Fail? && !g.cost.Expensive?))
  {
  }

  /** `run_pipeline`. */
  method RunPipeline(a: Artifact, gates: seq<Gate>, rules: seq<Rule>, text: Json -> string) returns (v: Result<RunVerdict>)
    ensures v == VerdictOf(a, gates, rules, text)
  {
    var applicable := Applicable(OrderGates(gates), a.artifactType);
    var results: seq<GateResult> := [];
    var shortCircuit := false;
    assert applicable[0..] == applicable;
    for i := 0 to |applicable|
      invariant RunFrom(applicable, false) == results + RunFrom(applicable[i..], shortCircuit)
    {
      var gate := applicable[i];
      RunFromHead(results, applicable[i..], shortCircuit);
      assert applicable[i..][1..] == applicable[i + 1..];
      if !(shortCircuit && gate.cost.Expensive?) {
        var result := RunGate(gate);
        results := results + [result];
        if result.status.Fail? && !gate.cost.Expensive? {
          shortCircuit := true;
        }
      }
    }
    assert results + [] == results;
    var decision := Evaluate(rules, a, results, text);
    return if decision.Ok? then Ok(RunVerdict(a.ref, a.artifactType, results, decision.value)) else Raised(decision.error);
  }

  /** A gate's own result passes through unaltered but for its missing duration; a raising gate has not executed. */
  lemma RunGateKeepsResult(g: Gate)
    ensures g.outcome.Ok? ==>
      (RunGate(g).(durationMs := Null) == g.outcome.value.(durationMs := Null)
       && (!g.outcome.value.durationMs.Null? ==> RunGate(g) == g.outcome.value))
    ensures g.outcome.Raised? ==>
      var r := RunGate(g);
      && r.status.Error? && r.rigor.NoRigor? && !Executed(r) && r.gateId == g.id
      && r.scannerName == r.scannerVersion == Null
      && |r.findings| == 1 && r.findings[0].gateId == g.id && r.findings[0].severity.Medium?
      && r.findings[0].code == Str("gate_error")
    ensures g.outcome.Raised? || g.outcome.value.durationMs.Null? ==> RunGate(g).durationMs == Int(g.millis)
  {
  }

  /** A run ends with a verdict exactly when the policy can be evaluated on its results: on this artifact, with all the
      results of the run and the decision the policy makes of them. */
  lemma VerdictIs(a: Artifact, gates: seq<Gate>, rules: seq<Rule>, text: Json -> string)
    ensures var v, d := VerdictOf(a, gates, rules, text), Evaluate(rules, a, ShortRun(gates, a.artifactType), text);
      && (v.Raised? <==> d.Raised?) && (v.Raised? ==> v.error == d.error)
      && (v.Ok? ==> v.value == RunVerdict(a.ref, a.artifactType, ShortRun(gates, a.artifactType), d.value))
  {
  }

  // ---- cost order ----------------------------------------------------------

  function OfCost(gates: seq<Gate>, c: GateCost): seq<Gate> {
    if gates == [] then [] else (if gates[0].cost == c then [gates[0]] else []) + OfCost(gates[1..], c)
  }

  /** A gate goes past every gate that is cheaper and before the first that is not. */
  lemma {:induction false} InsertPast(g: Gate, below: seq<Gate>, rest: seq<Gate>)
    requires forall k :: k in below ==> !LeCost(g, k)
    requires rest == [] || LeCost(g, rest[0])
    ensures Insert(LeCost, g, below + rest) == below + ([g] + rest)
  {
    if below == [] {
      assert below + rest == rest;
    } else {
      assert below[0] in below && forall k :: k in below[1..] ==> k in below;
      assert (below + rest)[0] == below[0] && (below + rest)[1..] == below[1..] + rest;
      InsertPast(g, below[1..], rest);
      assert below == [below[0]] + below[1..];
    }
  }

  lemma InsertByCost(g: Gate, cheap: seq<Gate>, moderate: seq<Gate>, expensive: seq<Gate>)
    requires forall k :: k in cheap ==> k.cost.Cheap?
    requires forall k :: k in moderate ==> k.cost.Moderate?
    requires forall k :: k in expensive ==> k.cost.Expensive?
    ensures Insert(LeCost, g, cheap + moderate + expensive) ==
      match g.cost
      case Cheap => [g] + cheap + moderate + expensive
      case Moderate => cheap + ([g] + moderate) + expensive
      case Expensive => cheap + moderate + ([g] + expensive)
  {
    match g.cost
    case Cheap =>
      InsertPast(g, [], cheap + moderate + expensive);
      assert [] + (cheap + moderate + expensive) == cheap + moderate + expensive;
      assert [] + ([g] + (cheap + moderate + expensive)) == [g] + cheap + moderate + expensive;
    case Moderate =>
      assert cheap + (moderate + expensive) == cheap + moderate + expensive;
      assert moderate + expensive != [] ==> (moderate + expensive)[0] in moderate || (moderate + expensive)[0] in expensive;
      InsertPast(g, cheap, moderate + expensive);
      assert cheap + ([g] + (moderate + expensive)) == cheap + ([g] + moderate) + expensive;
    case Expensive =>
      assert expensive != [] ==> expensive[0] in expensive;
      InsertPast(g, cheap + moderate, expensive);
  }

  lemma {:induction false} OfCostIs(gates: seq<Gate>, c: GateCost)
    ensures forall k :: k in OfCost(gates, c) ==> k.cost == c
  {
    if gates != [] { OfCostIs(gates[1..], c); }
  }

  lemma OfCostStep(gates: seq<Gate>, c: GateCost)
    requires gates != []
    ensures OfCost(gates, c) == if gates[0].cost == c then [gates[0]] + OfCost(gates[1..], c) else OfCost(gates[1..], c)
  {
  }

  /** Cheap, then medium, then expensive gates, each group in the order it was given. */
  lemma {:induction false} OrderIsStable(gates: seq<Gate>)
    ensures OrderGates(gates) == OfCost(gates, Cheap) + OfCost(gates, Moderate) + OfCost(gates, Expensive)
  {
    if gates != [] {
      OrderIsStable(gates[1..]);
      OfCostIs(gates[1..], Cheap);
      OfCostIs(gates[1..], Moderate);
      OfCostIs(gates[1..], Expensive);
      var g, cheap, moderate, expensive :=
        gates[0], OfCost(gates[1..], Cheap), OfCost(gates[1..], Moderate), OfCost(gates[1..], Expensive);
      InsertByCost(g, cheap, moderate, expensive);
      OfCostStep(gates, Cheap);
      OfCostStep(gates, Moderate);
      OfCostStep(gates, Expensive);
    }
  }

  // ---- short-circuit -------------------------------------------------------

  lemma {:induction false} ApplicableConcat(a: seq<Gate>, b: seq<Gate>, t: ArtifactType)
    ensures Applicable(a + b, t) == Applicable(a, t) + Applicable(b, t)
  {
    if a == [] {
      assert a + b == b;
    } else {
      assert (a + b)[1..] == a[1..] + b && (a + b)[0] == a[0];
      ApplicableConcat(a[1..], b, t);
      var head := if t in a[0].appliesTo then [a[0]] else [];
      assert head + (Applicable(a[1..], t) + Applicable(b, t)) == head + Applicable(a[1..], t) + Applicable(b, t);
    }
  }

  lemma {:induction false} ApplicableAre(gates: seq<Gate>, t: ArtifactType)
    ensures forall g :: g in Applicable(gates, t) ==> g in gates && t in g.appliesTo
  {
    if gates != [] { ApplicableAre(gates[1..], t); }
  }

  lemma {:induction false} RunAllConcat(a: seq<Gate>, b: seq<Gate>)
    ensures RunAll(a + b) == RunAll(a) + RunAll(b)
  {
    if a == [] {
      assert a + b == b;
    } else {
      assert (a + b)[1..] == a[1..] + b;
      RunAllConcat(a[1..], b);
    }
  }

  predicate AnyFail(results: seq<GateResult>) { exists r :: r in results && r.status.Fail? }

  lemma {:induction false} RunFromExpensive(late: seq<Gate>, skip: bool)
    requires forall g :: g in late ==> g.cost.Expensive?
    ensures RunFrom(late, skip) == if skip then [] else RunAll(late)
  {
    if late != [] {
      assert late[0] in late && forall g :: g in late[1..] ==> g in late;
      RunFromExpensive(late[1..], skip);
    }
  }

  lemma RunFromStep(g: Gate, rest: seq<Gate>, skip: bool)
    requires !g.cost.Expensive?
    ensures RunFrom([g] + rest, skip) == [RunGate(g)] + RunFrom(rest, skip || RunGate(g).status.Fail?)
  {
    assert ([g] + rest)[1..] == rest;
  }

  lemma AnyFailStep(r: GateResult, rest: seq<GateResult>)
    ensures AnyFail([r] + rest) <==> (r.status.Fail? || AnyFail(rest))
  {
    assert r in [r] + rest;
    assert forall x :: x in rest ==> x in [r] + rest;
  }

  lemma {:induction false} RunFromSplit(early: seq<Gate>, late: seq<Gate>, skip: bool)
    requires (forall g :: g in early ==> !g.cost.Expensive?) && forall g :: g in late ==> g.cost.Expensive?
    ensures RunFrom(early + late, skip) ==
      RunAll(early) + (if skip || AnyFail(RunAll(early)) then [] else RunAll(late))
  {
    if early == [] {
      assert early + late == late;
      RunFromExpensive(late, skip);
    } else {
      var g, rest := early[0], early[1..];
      assert g in early && forall k :: k in rest ==> k in early;
      assert early + late == [g] + (rest + late);
      RunFromStep(g, rest + late, skip);
      RunFromSplit(rest, late, skip || RunGate(g).status.Fail?);
      AnyFailStep(RunGate(g), RunAll(rest));
    }
  }

  /** The gates that run whatever happens, and those a failure among them skips. */
  function Early(gates: seq<Gate>, t: ArtifactType): seq<Gate> {
    Applicable(OfCost(gates, Cheap) + OfCost(gates, Moderate), t)
  }

  function Late(gates: seq<Gate>, t: ArtifactType): seq<Gate> { Applicable(OfCost(gates, Expensive), t) }

  /** Every applicable gate, nothing skipped, in cost order. */
  function FullRun(gates: seq<Gate>, t: ArtifactType): seq<GateResult> { RunAll(Early(gates, t)) + RunAll(Late(gates, t)) }

  /** The run is the full run, less all of the expensive results exactly when a cheaper gate failed. */
  lemma ShortRunIs(gates: seq<Gate>, t: ArtifactType)
    ensures ShortRun(gates, t) ==
      if AnyFail(RunAll(Early(gates, t))) then RunAll(Early(gates, t)) else FullRun(gates, t)
    ensures RunAll(Applicable(OrderGates(gates), t)) == FullRun(gates, t)
  {
    var cheap, moderate, expensive := OfCost(gates, Cheap), OfCost(gates, Moderate), OfCost(gates, Expensive);
    OrderIsStable(gates);
    ApplicableConcat(cheap + moderate, expensive, t);
    OfCostIs(gates, Cheap);
    OfCostIs(gates, Moderate);
    OfCostIs(gates, Expensive);
    ApplicableAre(cheap + moderate, t);
    ApplicableAre(expensive, t);
    RunFromSplit(Early(gates, t), Late(gates, t), false);
    RunAllConcat(Early(gates, t), Late(gates, t));
    assert RunAll(Early(gates, t)) + [] == RunAll(Early(gates, t));
  }

  /** Skipping what is expensive after a failure never changes the decision, as long as the policy can be evaluated on
      both runs: a failure rejects whatever the skipped gates would have found. */
  lemma ShortCircuitKeepsDecision(a: Artifact, gates: seq<Gate>, rules: seq<Rule>, text: Json -> string)
    requires Evaluate(rules, a, ShortRun(gates, a.artifactType), text).Ok?
    requires Evaluate(rules, a, FullRun(gates, a.artifactType), text).Ok?
    ensures Evaluate(rules, a, ShortRun(gates, a.artifactType), text)
         == Evaluate(rules, a, FullRun(gates, a.artifactType), text)
    ensures ShortRun(gates, a.artifactType) <= FullRun(gates, a.artifactType)
  {
    var t := a.artifactType;
    ShortRunIs(gates, t);
    if AnyFail(RunAll(Early(gates, t))) {
      FailureRejects(a, ShortRun(gates, t), rules, text);
      FailureRejects(a, FullRun(gates, t), rules, text);
    }
  }

  lemma FailureRejects(a: Artifact, results: seq<GateResult>, rules: seq<Rule>, text: Json -> string)
    requires AnyFail(results) && Evaluate(rules, a, results, text).Ok?
    ensures Evaluate(rules, a, results, text) == Ok(Reject)
  {
    assert HasStatus(results, Fail);
    DecisionIsStrictest(rules, a, results, text);
  }

  /** No gate is lost to an exception: each applicable gate that runs leaves one result under its own status, and a
      gate that raises leaves an error, so the artifact is not approved. */
  lemma RaisingGateBlocksApproval(a: Artifact, gates: seq<Gate>, rules: seq<Rule>, text: Json -> string, g: Gate)
    requires g in gates && a.artifactType in g.appliesTo && g.outcome.Raised?
    ensures Evaluate(rules, a, ShortRun(gates, a.artifactType), text) != Ok(Approve)
  {
    var t := a.artifactType;
    ShortRunIs(gates, t);
    var results := ShortRun(gates, t);
    if !AnyFail(RunAll(Early(gates, t))) {
      OrderKeeps(gates, g);
      ApplicableHas(OrderGates(gates), t, g);
      RunAllHas(Applicable(OrderGates(gates), t), g);
    } else {
      assert AnyFail(results);
    }
    ApproveMeans(rules, a, results, text);
  }

  lemma OrderKeeps(gates: seq<Gate>, g: Gate)
    requires g in gates
    ensures g in OrderGates(gates)
  {
    SortPermutesAndOrders(LeCost, gates);
    assert g in multiset(OrderGates(gates));
  }

  lemma {:induction false} ApplicableHas(gates: seq<Gate>, t: ArtifactType, g: Gate)
    requires g in gates && t in g.appliesTo
    ensures g in Applicable(gates, t)
  {
    if gates[0] != g { ApplicableHas(gates[1..], t, g); }
  }

  lemma {:induction false} RunAllHas(gates: seq<Gate>, g: Gate)
    requires g in gates
    ensures RunGate(g) in RunAll(gates)
  {
    if gates[0] != g { RunAllHas(gates[1..], g); }
  }
}
