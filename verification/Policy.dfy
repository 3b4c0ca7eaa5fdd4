/** The ingest decision: a safety floor, and categorical rules that can only raise it. */
module Policy {
  import opened Prelude
  import opened Json
  import opened Verdict
  import opened Attestation
  import Hashing

  datatype Artifact = Artifact(ref: ArtifactRef, artifactType: ArtifactType, files: seq<string>, digest: Json)

  datatype PolicyAction = PolicyWarn | RequireReview | PolicyReject
  datatype Condition = Condition(key: string, value: Json)
  datatype Rule = Rule(when: seq<Condition>, action: PolicyAction)

  /** `_DECISION_RANK`. */
  function DecisionRank(d: Decision): nat {
    match d case Approve => 0 case ReviewRequired => 1 case Reject => 2
  }

  predicate HasStatus(results: seq<GateResult>, s: GateStatus) { exists r :: r in results && r.status == s }

  /** `default_decision`. */
  function DefaultDecision(a: Artifact, results: seq<GateResult>): Decision {
    if HasStatus(results, Fail) then Reject
    else if HasStatus(results, Error) then ReviewRequired
    else if IsExecutable(a.artifactType) && !BehavioralRan(results) then ReviewRequired
    else if HasStatus(results, Warn) then ReviewRequired
    else Approve
  }

  // ---- the facts rules are matched against ----------------------------------

  datatype Context = Context(
    artifactType: string, extensions: set<string>, formats: set<string>, codes: set<Json>,
    maxSeverity: Option<Severity>, rigor: RigorLevel, failedGates: set<Json>)

  /** Index of the last `c` in `s`, or -1. */
  function LastIndex(s: string, c: char): (i: int)
    ensures -1 <= i < |s|
  {
    if s == "" then -1 else if s[|s| - 1] == c then |s| - 1 else LastIndex(s[..|s| - 1], c)
  }

  predicate AllDots(s: string) { forall i :: 0 <= i < |s| ==> s[i] == '.' }

  /** `os.path.splitext(f)[1]`: from the last dot of the base name, unless only dots come before it. */
  function Extension(f: string): string {
    var dot, slash := LastIndex(f, '.'), LastIndex(f, '/');
    if dot > slash && !AllDots(f[slash + 1..dot]) then f[dot..] else ""
  }

  /** `lstrip(".")`. */
  function DropDots(s: string): string { if s != "" && s[0] == '.' then DropDots(s[1..]) else s }

  function Findings(results: seq<GateResult>): seq<Finding> {
    if results == [] then [] else results[0].findings + Findings(results[1..])
  }

  function MaxSeverity(fs: seq<Finding>): Option<Severity> {
    if fs == [] then None
    else match MaxSeverity(fs[1..])
      case None => Some(fs[0].severity)
      case Some(s) => Some(if SeverityValue(s) > SeverityValue(fs[0].severity) then s else fs[0].severity)
  }

  /** `_build_context`. */
  function BuildContext(a: Artifact, results: seq<GateResult>): Context {
    var extensions := set f | f in a.files :: Hashing.Lower(Extension(f));
    var findings := Findings(results);
    Context(TypeText(a.artifactType), extensions, set e | e in extensions :: DropDots(e),
            set f | f in findings :: f.code, MaxSeverity(findings), RigorSummary(results),
            set r | r in results && r.status.Fail? :: r.gateId)
  }

  // ---- conditions ----------------------------------------------------------

  /** `_as_str_list`; `text` is Python's `str()`. */
  function LowerTexts(items: seq<Json>, text: Json -> string): set<string> {
    set x | x in items :: Hashing.Lower(text(x))
  }

  function Dotted(e: string): string { if e != "" && e[0] == '.' then e else "." + e }

  function RigorByName(name: string): Option<RigorLevel> {
    if name == "none" then Some(NoRigor) else if name == "static" then Some(Static)
    else if name == "behavioral" then Some(Behavioral) else None
  }

  function SeverityByName(name: string): Option<Severity> {
    if name == "info" then Some(Info) else if name == "low" then Some(Low) else if name == "medium" then Some(Medium)
    else if name == "high" then Some(High) else if name == "critical" then Some(Critical) else None
  }

  predicate SeverityAtLeast(m: Option<Severity>, target: Severity) {
    m.Some? && SeverityValue(m.value) >= SeverityValue(target)
  }

  /** `_predicate_matches`. */
  function ConditionMatches(c: Condition, ctx: Context, text: Json -> string): Result<bool> {
    var key, value := c.key, c.value;
    if key == "artifact.type" then Ok(ctx.artifactType == Hashing.Lower(text(value)))
    else if key == "artifact.type_in" then
      (if value.Arr? then Ok(ctx.artifactType in LowerTexts(value.items, text)) else Raised(PolicyError))
    else if key == "artifact.file_ext_in" then
      (if value.Arr? then Ok(exists e :: e in LowerTexts(value.items, text) && Dotted(e) in ctx.extensions)
       else Raised(PolicyError))
    else if key == "artifact.format_not_in" then
      (if value.Arr? then Ok(ctx.formats !! LowerTexts(value.items, text)) else Raised(PolicyError))
    else if key == "rigor_below" then
      (match RigorByName(Hashing.Lower(text(value)))
       case None => Raised(PolicyError)
       case Some(target) => Ok(RigorRank(ctx.rigor) < RigorRank(target)))
    else if key == "finding.code" then Ok(Str(text(value)) in ctx.codes)
    else if key == "finding.code_in" then
      (if value.Arr? then Ok(exists x :: x in value.items && Str(text(x)) in ctx.codes) else Raised(PolicyError))
    else if key == "finding.severity_at_least" then
      (match SeverityByName(Hashing.Lower(text(value)))
       case None => Raised(PolicyError)
       case Some(target) => Ok(SeverityAtLeast(ctx.maxSeverity, target)))
    else if key == "gate_failed" then Ok(Str(text(value)) in ctx.failedGates)
    else Raised(PolicyError)
  }

  /** `all(...)`: conditions after the first false one are not looked at. */
  function AllMatch(when: seq<Condition>, ctx: Context, text: Json -> string): Result<bool> {
    if when == [] then Ok(true)
    else match ConditionMatches(when[0], ctx, text)
      case Raised(e) => Raised(e)
      case Ok(b) => if b then AllMatch(when[1..], ctx, text) else Ok(false)
  }

  /** `_rule_matches`. */
  function RuleMatches(r: Rule, ctx: Context, text: Json -> string): Result<bool> {
    if r.when == [] then Ok(false) else AllMatch(r.when, ctx, text)
  }

  /** `matched_rules`. */
  function MatchedRules(rules: seq<Rule>, ctx: Context, text: Json -> string): Result<seq<Rule>> {
    if rules == [] then Ok([])
    else match RuleMatches(rules[0], ctx, text)
      case Raised(e) => Raised(e)
      case Ok(b) =>
        match MatchedRules(rules[1..], ctx, text)
        case Raised(e) => Raised(e)
        case Ok(rest) => Ok(if b then [rules[0]] + rest else rest)
  }

  /** `_decision_from_actions`. */
  function DecisionFromRules(rules: seq<Rule>): Decision {
    if exists r :: r in rules && r.action.PolicyReject? then Reject
    else if exists r :: r in rules && r.action.RequireReview? then ReviewRequired
    else Approve
  }

  /** `evaluate`. */
  function Evaluate(rules: seq<Rule>, a: Artifact, results: seq<GateResult>, text: Json -> string): Result<Decision> {
    match MatchedRules(rules, BuildContext(a, results), text)
    case Raised(e) => Raised(e)
    case Ok(matched) =>
      var floor, raised := DefaultDecision(a, results), DecisionFromRules(matched);
      Ok(if DecisionRank(raised) > DecisionRank(floor) then raised else floor)
  }

  // ---- which rules fire ----------------------------------------------------

  predicate Fires(r: Rule, ctx: Context, text: Json -> string) { RuleMatches(r, ctx, text) == Ok(true) }

  predicate Bad(r: Rule, ctx: Context, text: Json -> string) { RuleMatches(r, ctx, text).Raised? }

  lemma {:induction false} OnlyPolicyErrors(when: seq<Condition>, ctx: Context, text: Json -> string)
    ensures AllMatch(when, ctx, text).Raised? ==> AllMatch(when, ctx, text).error == PolicyError
  {
    if when != [] { OnlyPolicyErrors(when[1..], ctx, text); }
  }

  lemma {:induction false} MatchedAre(rules: seq<Rule>, ctx: Context, text: Json -> string)
    ensures var m := MatchedRules(rules, ctx, text);
      && (m.Raised? <==> exists r :: r in rules && Bad(r, ctx, text))
      && (m.Raised? ==> m.error == PolicyError)
      && (m.Ok? ==> forall r :: r in m.value <==> r in rules && Fires(r, ctx, text))
  {
    if rules != [] {
      OnlyPolicyErrors(rules[0].when, ctx, text);
      MatchedAre(rules[1..], ctx, text);
      assert rules == [rules[0]] + rules[1..];
      assert Bad(rules[0], ctx, text) <==> RuleMatches(rules[0], ctx, text).Raised?;
      assert (exists r :: r in rules && Bad(r, ctx, text))
        <==> (Bad(rules[0], ctx, text) || exists r :: r in rules[1..] && Bad(r, ctx, text));
    }
  }

  /** The decision is exactly the higher of the floor and of the strictest rule that fires, so a rule can raise the
      floor and never lower it. */
  lemma DecisionIsStrictest(rules: seq<Rule>, a: Artifact, results: seq<GateResult>, text: Json -> string)
    ensures var ctx := BuildContext(a, results); var d := Evaluate(rules, a, results, text);
      var floor := DecisionRank(DefaultDecision(a, results));
      && (d.Raised? <==> exists r :: r in rules && Bad(r, ctx, text))
      && (d.Ok? ==> DecisionRank(d.value) >= floor)
      && (d.Ok? ==> (d.value == Reject <==>
            floor == 2 || exists r :: r in rules && Fires(r, ctx, text) && r.action.PolicyReject?))
      && (d.Ok? ==> (d.value == Approve <==>
            floor == 0 && forall r :: r in rules && Fires(r, ctx, text) ==> r.action.PolicyWarn?))
  {
    MatchedAre(rules, BuildContext(a, results), text);
  }

  /** An approval means: nothing failed, erred or warned, and an executable type ran at behavioural rigor. */
  lemma ApproveMeans(rules: seq<Rule>, a: Artifact, results: seq<GateResult>, text: Json -> string)
    ensures Evaluate(rules, a, results, text) == Ok(Approve) ==>
      (IsExecutable(a.artifactType) ==> BehavioralRan(results) && RigorSummary(results) == Behavioral)
    ensures Evaluate(rules, a, results, text) == Ok(Approve) ==>
      forall r :: r in results ==> r.status.Pass? || r.status.Skipped?
  {
    BehavioralRanIsSummary(results);
    if Evaluate(rules, a, results, text) == Ok(Approve) {
      forall r | r in results ensures r.status.Pass? || r.status.Skipped? {
        assert HasStatus(results, r.status);
      }
    }
  }

  /** The floor, said of the results themselves. */
  lemma DefaultDecisionExactly(a: Artifact, results: seq<GateResult>)
    ensures DefaultDecision(a, results) == Reject <==> exists r :: r in results && r.status.Fail?
    ensures DefaultDecision(a, results) == Approve <==>
      ((forall r :: r in results ==> r.status.Pass? || r.status.Skipped?)
       && (IsExecutable(a.artifactType) ==> exists r :: r in results && Executed(r) && r.rigor.Behavioral?))
  {
    if DefaultDecision(a, results) == Approve {
      forall r | r in results ensures r.status.Pass? || r.status.Skipped? {
        assert HasStatus(results, r.status);
      }
    }
  }

  // ---- what the conditions mean ------------------------------------------------

  /** A finding condition asks for a finding with that code, of any gate. */
  lemma FindingCondition(a: Artifact, results: seq<GateResult>, value: Json, text: Json -> string)
    ensures ConditionMatches(Condition("finding.code", value), BuildContext(a, results), text) ==
      Ok(exists r, f :: r in results && f in r.findings && f.code == Str(text(value)))
  {
    var code := Str(text(value));
    var ctx := BuildContext(a, results);
    if code in ctx.codes {
      var f :| f in Findings(results) && f.code == code;
      FindingsAre(results, f);
    }
    if r, f :| r in results && f in r.findings && f.code == code {
      FindingsAre(results, f);
    }
  }

  /** A gate condition asks for a failed result of that gate. */
  lemma GateCondition(a: Artifact, results: seq<GateResult>, value: Json, text: Json -> string)
    ensures ConditionMatches(Condition("gate_failed", value), BuildContext(a, results), text) ==
      Ok(exists r :: r in results && r.status.Fail? && r.gateId == Str(text(value)))
  {
  }

  lemma SevereFinding(results: seq<GateResult>, target: Severity)
    ensures SeverityAtLeast(MaxSeverity(Findings(results)), target) <==>
      exists r, f :: r in results && f in r.findings && SeverityValue(f.severity) >= SeverityValue(target)
  {
    var fs := Findings(results);
    MaxSeverityIsMax(fs);
    if SeverityAtLeast(MaxSeverity(fs), target) {
      var f :| f in fs && f.severity == MaxSeverity(fs).value;
      FindingsAre(results, f);
    }
    if r, f :| r in results && f in r.findings && SeverityValue(f.severity) >= SeverityValue(target) {
      FindingsAre(results, f);
    }
  }

  /** A severity condition asks for a finding at least that severe; its name must be one. */
  lemma SeverityCondition(a: Artifact, results: seq<GateResult>, value: Json, text: Json -> string)
    ensures ConditionMatches(Condition("finding.severity_at_least", value), BuildContext(a, results), text) ==
      match SeverityByName(Hashing.Lower(text(value)))
      case None => Raised(PolicyError)
      case Some(target) =>
        Ok(exists r, f :: r in results && f in r.findings && SeverityValue(f.severity) >= SeverityValue(target))
  {
    match SeverityByName(Hashing.Lower(text(value)))
    case None =>
    case Some(target) => SevereFinding(results, target);
  }

  /** A rigor condition asks that no executed gate reached that rigor. */
  lemma RigorCondition(a: Artifact, results: seq<GateResult>, value: Json, text: Json -> string)
    ensures ConditionMatches(Condition("rigor_below", value), BuildContext(a, results), text) ==
      match RigorByName(Hashing.Lower(text(value)))
      case None => Raised(PolicyError)
      case Some(target) =>
        Ok(!target.NoRigor? && forall r :: r in results && Executed(r) ==> RigorRank(r.rigor) < RigorRank(target))
  {
    RigorSummaryIsMax(results);
  }

  /** An extension condition asks for a file with one of the extensions, the dot optional and letter case ignored. */
  lemma ExtensionCondition(a: Artifact, results: seq<GateResult>, items: seq<Json>, text: Json -> string)
    ensures ConditionMatches(Condition("artifact.file_ext_in", Arr(items)), BuildContext(a, results), text) ==
      Ok(exists f, x :: f in a.files && x in items && HasExtension(f, Hashing.Lower(text(x))))
  {
    var ctx := BuildContext(a, results);
    var wanted := LowerTexts(items, text);
    if f, x :| f in a.files && x in items && HasExtension(f, Hashing.Lower(text(x))) {
      assert Hashing.Lower(text(x)) in wanted && Dotted(Hashing.Lower(text(x))) in ctx.extensions;
    }
  }

  /** The file's extension is `wanted`, which may come without its dot. */
  predicate HasExtension(f: string, wanted: string) {
    Hashing.Lower(Extension(f)) == if wanted != "" && wanted[0] == '.' then wanted else "." + wanted
  }

  /** A type condition asks for this very type, letter case ignored. */
  lemma TypeCondition(a: Artifact, results: seq<GateResult>, value: Json, text: Json -> string)
    ensures ConditionMatches(Condition("artifact.type", value), BuildContext(a, results), text) ==
      Ok(Hashing.Lower(text(value)) == TypeText(a.artifactType))
  {
  }

  /** A type list asks for one of these types, letter case ignored. */
  lemma TypeListCondition(a: Artifact, results: seq<GateResult>, items: seq<Json>, text: Json -> string)
    ensures ConditionMatches(Condition("artifact.type_in", Arr(items)), BuildContext(a, results), text) ==
      Ok(exists x :: x in items && Hashing.Lower(text(x)) == TypeText(a.artifactType))
  {
    if x :| x in items && Hashing.Lower(text(x)) == TypeText(a.artifactType) {
      assert Hashing.Lower(text(x)) in LowerTexts(items, text);
    }
  }

  /** A format condition asks that no file's extension, without its dot and in lower case, is one of the formats: it
      fires on an artifact that has none of them. */
  lemma FormatCondition(a: Artifact, results: seq<GateResult>, items: seq<Json>, text: Json -> string)
    ensures ConditionMatches(Condition("artifact.format_not_in", Arr(items)), BuildContext(a, results), text) ==
      Ok(NoFormat(a.files, items, text))
  {
    var ctx := BuildContext(a, results);
    var wanted := LowerTexts(items, text);
    assert ctx.formats !! wanted <==> NoFormat(a.files, items, text) by { FormatsAre(ctx.formats, a.files, items, text); }
  }

  predicate NoFormat(files: seq<string>, items: seq<Json>, text: Json -> string) {
    forall f, x :: f in files && x in items ==> !HasFormat(f, Hashing.Lower(text(x)))
  }

  lemma FormatsAre(formats: set<string>, files: seq<string>, items: seq<Json>, text: Json -> string)
    requires forall e :: e in formats <==> exists f :: f in files && DropDots(Hashing.Lower(Extension(f))) == e
    ensures formats !! LowerTexts(items, text) <==> NoFormat(files, items, text)
  {
    var wanted := LowerTexts(items, text);
    if f, x :| f in files && x in items && HasFormat(f, Hashing.Lower(text(x))) {
      FormatIs(f, Hashing.Lower(text(x)));
      assert Hashing.Lower(text(x)) in wanted && Hashing.Lower(text(x)) in formats;
    }
    if !(formats !! wanted) {
      var e :| e in formats && e in wanted;
      var f :| f in files && DropDots(Hashing.Lower(Extension(f))) == e;
      var x :| x in items && Hashing.Lower(text(x)) == e;
      FormatIs(f, e);
    }
  }

  /** The file's extension is a dot and `wanted`, or both are missing. */
  predicate HasFormat(f: string, wanted: string) {
    if Extension(f) == "" then wanted == "" else Hashing.Lower(Extension(f)) == "." + wanted
  }

  lemma FormatIs(f: string, wanted: string)
    ensures HasFormat(f, wanted) <==> DropDots(Hashing.Lower(Extension(f))) == wanted
  {
    var e := Extension(f);
    if e != "" {
      LastIndexIsLast(f, '.');
      var rest := Hashing.Lower(e)[1..];
      assert e[0] == '.' && Hashing.Lower(e) == "." + rest;
      if rest != "" { assert e[1] == f[LastIndex(f, '.') + 1] && rest[0] == Hashing.LowerChar(e[1]); }
      assert DropDots(Hashing.Lower(e)) == rest;
      assert ("." + wanted)[1..] == wanted;
    }
  }

  /** The names a rigor and a severity go by. */
  const SEVERITY_NAMES := ["info", "low", "medium", "high", "critical"]

  lemma NamesAre(r: RigorLevel, s: Severity)
    ensures RigorByName(RigorText(r)) == Some(r) && SeverityByName(SEVERITY_NAMES[SeverityValue(s)]) == Some(s)
  {
  }

  /** A code list asks for a finding with one of these codes, spelled exactly so. */
  lemma CodeListCondition(a: Artifact, results: seq<GateResult>, items: seq<Json>, text: Json -> string)
    ensures ConditionMatches(Condition("finding.code_in", Arr(items)), BuildContext(a, results), text) ==
      Ok(exists r, f, x :: r in results && f in r.findings && x in items && f.code == Str(text(x)))
  {
    var ctx := BuildContext(a, results);
    if x :| x in items && Str(text(x)) in ctx.codes {
      var f :| f in Findings(results) && f.code == Str(text(x));
      FindingsAre(results, f);
    }
    if r, f, x :| r in results && f in r.findings && x in items && f.code == Str(text(x)) {
      FindingsAre(results, f);
    }
  }

  const LIST_KEYS := {"artifact.type_in", "artifact.file_ext_in", "artifact.format_not_in", "finding.code_in"}
  const NAME_KEYS := {"rigor_below", "finding.severity_at_least"}
  const TEXT_KEYS := {"artifact.type", "finding.code", "gate_failed"}

  /** A condition cannot be evaluated exactly when its key is unknown, when it wants a list and has none, or when it wants
      the name of a rigor or a severity and has another. */
  lemma ConditionRaisesExactly(c: Condition, ctx: Context, text: Json -> string)
    ensures ConditionMatches(c, ctx, text).Raised? <==>
      (c.key !in LIST_KEYS + NAME_KEYS + TEXT_KEYS || (c.key in LIST_KEYS && !c.value.Arr?)
       || (c.key == "rigor_below" && Hashing.Lower(text(c.value)) !in {"none", "static", "behavioral"})
       || (c.key == "finding.severity_at_least"
           && Hashing.Lower(text(c.value)) !in {"info", "low", "medium", "high", "critical"}))
    ensures ConditionMatches(c, ctx, text).Raised? ==> ConditionMatches(c, ctx, text) == Raised(PolicyError)
  {
  }

  /** What each condition of a rule comes to, and what the list of them comes to: the first that is not true decides. */
  function Outcomes(when: seq<Condition>, ctx: Context, text: Json -> string): (r: seq<Result<bool>>)
    ensures |r| == |when| && forall i :: 0 <= i < |when| ==> r[i] == ConditionMatches(when[i], ctx, text)
  {
    seq(|when|, i requires 0 <= i < |when| => ConditionMatches(when[i], ctx, text))
  }

  function AllTrue(rs: seq<Result<bool>>): Result<bool> {
    if rs == [] then Ok(true) else if rs[0] == Ok(true) then AllTrue(rs[1..]) else rs[0]
  }

  lemma {:induction false} AllMatchIs(when: seq<Condition>, ctx: Context, text: Json -> string)
    ensures AllMatch(when, ctx, text) == AllTrue(Outcomes(when, ctx, text))
  {
    if when != [] {
      AllMatchIs(when[1..], ctx, text);
      assert Outcomes(when, ctx, text)[1..] == Outcomes(when[1..], ctx, text);
    }
  }

  lemma {:induction false} AllTrueIs(rs: seq<Result<bool>>)
    ensures AllTrue(rs) == Ok(true) <==> forall i :: 0 <= i < |rs| ==> rs[i] == Ok(true)
    ensures AllTrue(rs).Raised? <==>
      exists i :: 0 <= i < |rs| && rs[i].Raised? && forall k :: 0 <= k < i ==> rs[k] == Ok(true)
  {
    if rs != [] && rs[0] == Ok(true) {
      AllTrueIs(rs[1..]);
      assert forall i :: 0 <= i < |rs| - 1 ==> rs[1..][i] == rs[i + 1];
      if i :| 0 <= i < |rs| && rs[i].Raised? && forall k :: 0 <= k < i ==> rs[k] == Ok(true) {
        assert rs[1..][i - 1] == rs[i] && forall k :: 0 <= k < i - 1 ==> rs[1..][k] == rs[k + 1];
      }
      if i :| 0 <= i < |rs[1..]| && rs[1..][i].Raised? && forall k :: 0 <= k < i ==> rs[1..][k] == Ok(true) {
        assert rs[i + 1] == rs[1..][i] && forall k :: 1 <= k < i + 1 ==> rs[k] == rs[1..][k - 1];
      }
      if forall i :: 0 <= i < |rs[1..]| ==> rs[1..][i] == Ok(true) {
        assert forall i :: 1 <= i < |rs| ==> rs[i] == rs[1..][i - 1];
      }
    }
  }

  /** A rule fires exactly when it has conditions and all of them hold; one that comes after the first false one is not
      looked at, so a rule is bad exactly when a bad condition follows only true ones. */
  lemma RuleFiresExactly(r: Rule, ctx: Context, text: Json -> string)
    ensures var outcomes := Outcomes(r.when, ctx, text);
      && (Fires(r, ctx, text) <==> r.when != [] && forall i :: 0 <= i < |outcomes| ==> outcomes[i] == Ok(true))
      && (Bad(r, ctx, text) <==>
            exists i :: 0 <= i < |outcomes| && outcomes[i].Raised? && forall k :: 0 <= k < i ==> outcomes[k] == Ok(true))
  {
    AllMatchIs(r.when, ctx, text);
    AllTrueIs(Outcomes(r.when, ctx, text));
  }

  /** A name has an extension exactly when some character of its base name that is not a dot has a dot after it. */
  lemma HasExtensionExactly(f: string)
    ensures Extension(f) != "" <==> exists i, j :: DottedAt(f, i, j)
  {
    if Extension(f) != "" { ExtensionIsDotted(f); }
    if i, j :| DottedAt(f, i, j) { DottedHasExtension(f, i, j); }
  }

  /** A dot at `j`, something else at `i` before it, and no slash from there on. */
  predicate DottedAt(f: string, i: int, j: int) {
    0 <= i < j < |f| && f[i] != '.' && f[j] == '.' && forall k :: i <= k < |f| ==> f[k] != '/'
  }

  lemma ExtensionIsDotted(f: string)
    requires Extension(f) != ""
    ensures exists i, j :: DottedAt(f, i, j)
  {
    var dot, slash := LastIndex(f, '.'), LastIndex(f, '/');
    LastIndexIsLast(f, '.');
    LastIndexIsLast(f, '/');
    var base := f[slash + 1..dot];
    var m :| 0 <= m < |base| && base[m] != '.';
    assert base[m] == f[slash + 1 + m];
    assert DottedAt(f, slash + 1 + m, dot);
  }

  lemma DottedHasExtension(f: string, i: int, j: int)
    requires DottedAt(f, i, j)
    ensures Extension(f) != ""
  {
    var dot, slash := LastIndex(f, '.'), LastIndex(f, '/');
    LastIndexIsLast(f, '.');
    LastIndexIsLast(f, '/');
    assert slash < i && j <= dot;
    var base := f[slash + 1..dot];
    assert base[i - slash - 1] == f[i];
  }

  /** An extension is the end of the name from its last dot on. */
  lemma ExtensionIsSuffix(f: string)
    ensures var e := Extension(f);
      e == "" || (|e| <= |f| && f[|f| - |e|..] == e && e[0] == '.' && '.' !in e[1..] && '/' !in e)
  {
    var dot, slash := LastIndex(f, '.'), LastIndex(f, '/');
    LastIndexIsLast(f, '.');
    LastIndexIsLast(f, '/');
  }

  lemma {:induction false} LastIndexIsLast(s: string, c: char)
    ensures var i := LastIndex(s, c); (i >= 0 ==> s[i] == c) && forall k :: i < k < |s| ==> s[k] != c
  {
    if s != "" && s[|s| - 1] != c { LastIndexIsLast(s[..|s| - 1], c); }
  }

  // ---- order and repetition do not matter -----------------------------------

  ghost predicate SameElements<T(!new)>(a: seq<T>, b: seq<T>) { forall x :: x in a <==> x in b }

  lemma {:induction false} FindingsAre(results: seq<GateResult>, f: Finding)
    ensures f in Findings(results) <==> exists r :: r in results && f in r.findings
  {
    if results != [] {
      FindingsAre(results[1..], f);
      assert results == [results[0]] + results[1..];
    }
  }

  /** The maximum is attained, and nothing is above it. */
  lemma {:induction false} MaxSeverityIsMax(fs: seq<Finding>)
    ensures MaxSeverity(fs).None? <==> fs == []
    ensures forall f :: f in fs ==> SeverityValue(f.severity) <= SeverityValue(MaxSeverity(fs).value)
    ensures fs != [] ==> exists f :: f in fs && f.severity == MaxSeverity(fs).value
  {
    if fs != [] {
      MaxSeverityIsMax(fs[1..]);
      assert fs == [fs[0]] + fs[1..];
    }
  }

  lemma MaxSeverityMonotone(a: seq<Finding>, b: seq<Finding>)
    requires forall f :: f in a ==> f in b
    ensures MaxSeverity(a).Some? ==>
      MaxSeverity(b).Some? && SeverityValue(MaxSeverity(a).value) <= SeverityValue(MaxSeverity(b).value)
  {
    MaxSeverityIsMax(a);
    MaxSeverityIsMax(b);
  }

  lemma {:induction false} RigorSummaryIsMax(results: seq<GateResult>)
    ensures forall r :: r in results && Executed(r) ==> RigorRank(r.rigor) <= RigorRank(RigorSummary(results))
    ensures RigorSummary(results).NoRigor? || exists r :: r in results && Executed(r) && r.rigor == RigorSummary(results)
  {
    if results != [] {
      RigorSummaryIsMax(results[1..]);
      assert results == [results[0]] + results[1..];
      if Executed(results[0]) {
        assert Achieved(results)[1..] == Achieved(results[1..]);
      } else {
        assert Achieved(results) == Achieved(results[1..]);
      }
    }
  }

  lemma RigorSummaryMonotone(a: seq<GateResult>, b: seq<GateResult>)
    requires forall r :: r in a ==> r in b
    ensures RigorRank(RigorSummary(a)) <= RigorRank(RigorSummary(b))
  {
    RigorSummaryIsMax(a);
    RigorSummaryIsMax(b);
  }

  lemma SameFindings(r1: seq<GateResult>, r2: seq<GateResult>)
    requires forall r :: r in r1 ==> r in r2
    ensures forall f :: f in Findings(r1) ==> f in Findings(r2)
  {
    forall f | f in Findings(r1) ensures f in Findings(r2) {
      FindingsAre(r1, f);
      FindingsAre(r2, f);
    }
  }

  lemma SameSummaries(r1: seq<GateResult>, r2: seq<GateResult>)
    requires SameElements(r1, r2)
    ensures MaxSeverity(Findings(r1)) == MaxSeverity(Findings(r2)) && RigorSummary(r1) == RigorSummary(r2)
  {
    SameFindings(r1, r2);
    SameFindings(r2, r1);
    MaxSeverityMonotone(Findings(r1), Findings(r2));
    MaxSeverityMonotone(Findings(r2), Findings(r1));
    RigorSummaryMonotone(r1, r2);
    RigorSummaryMonotone(r2, r1);
  }

  lemma ContextIgnoresOrder(a: Artifact, r1: seq<GateResult>, r2: seq<GateResult>)
    requires SameElements(r1, r2)
    ensures BuildContext(a, r1) == BuildContext(a, r2)
  {
    SameFindings(r1, r2);
    SameFindings(r2, r1);
    SameSummaries(r1, r2);
    var c1, c2 := BuildContext(a, r1), BuildContext(a, r2);
    assert c1.codes == c2.codes;
    assert c1.failedGates == c2.failedGates;
  }

  lemma DefaultIgnoresOrder(a: Artifact, r1: seq<GateResult>, r2: seq<GateResult>)
    requires SameElements(r1, r2)
    ensures DefaultDecision(a, r1) == DefaultDecision(a, r2)
  {
    assert forall s :: HasStatus(r1, s) <==> HasStatus(r2, s);
    assert BehavioralRan(r1) <==> BehavioralRan(r2);
  }

  /** Permuting or repeating gate results or rules changes nothing, errors included. */
  lemma EvaluateIgnoresOrder(rules1: seq<Rule>, rules2: seq<Rule>, a: Artifact, r1: seq<GateResult>, r2: seq<GateResult>,
                             text: Json -> string)
    requires SameElements(rules1, rules2) && SameElements(r1, r2)
    ensures Evaluate(rules1, a, r1, text) == Evaluate(rules2, a, r2, text)
  {
    ContextIgnoresOrder(a, r1, r2);
    DefaultIgnoresOrder(a, r1, r2);
    MatchedAre(rules1, BuildContext(a, r1), text);
    MatchedAre(rules2, BuildContext(a, r1), text);
  }

  // ---- more rules, more results ----------------------------------------------

  /** Adding rules, anywhere, never lowers a decision; only a rule that cannot be evaluated can take it away. */
  lemma MoreRulesNeverLower(fewer: seq<Rule>, more: seq<Rule>, a: Artifact, results: seq<GateResult>, text: Json -> string)
    requires forall r :: r in fewer ==> r in more
    requires Evaluate(more, a, results, text).Ok?
    ensures Evaluate(fewer, a, results, text).Ok?
    ensures DecisionRank(Evaluate(fewer, a, results, text).value) <= DecisionRank(Evaluate(more, a, results, text).value)
  {
    MatchedAre(fewer, BuildContext(a, results), text);
    MatchedAre(more, BuildContext(a, results), text);
  }

  predicate NoRigorBelow(rules: seq<Rule>) {
    forall r :: r in rules ==> forall c :: c in r.when ==> c.key != "rigor_below"
  }

  /** Every fact rules look at, other than the rigor, can only grow. */
  ghost predicate Grows(c1: Context, c2: Context) {
    && c1.artifactType == c2.artifactType && c1.extensions == c2.extensions && c1.formats == c2.formats
    && c1.codes <= c2.codes && c1.failedGates <= c2.failedGates
    && (c1.maxSeverity.Some? ==>
          c2.maxSeverity.Some? && SeverityValue(c1.maxSeverity.value) <= SeverityValue(c2.maxSeverity.value))
  }

  lemma ConditionGrows(c: Condition, c1: Context, c2: Context, text: Json -> string)
    requires Grows(c1, c2) && c.key != "rigor_below" && ConditionMatches(c, c1, text) == Ok(true)
    ensures ConditionMatches(c, c2, text) == Ok(true)
  {
  }

  lemma {:induction false} AllMatchGrows(when: seq<Condition>, c1: Context, c2: Context, text: Json -> string)
    requires Grows(c1, c2) && (forall c :: c in when ==> c.key != "rigor_below") && AllMatch(when, c1, text) == Ok(true)
    ensures AllMatch(when, c2, text) == Ok(true)
  {
    if when != [] {
      assert when[0] in when && forall c :: c in when[1..] ==> c in when;
      ConditionGrows(when[0], c1, c2, text);
      AllMatchGrows(when[1..], c1, c2, text);
    }
  }

  lemma ContextGrows(a: Artifact, r1: seq<GateResult>, r2: seq<GateResult>)
    requires forall r :: r in r1 ==> r in r2
    ensures Grows(BuildContext(a, r1), BuildContext(a, r2))
  {
    SameFindings(r1, r2);
    MaxSeverityMonotone(Findings(r1), Findings(r2));
  }

  /** For a policy without `rigor_below`, more gate results never lower a decision unless one of them is the
      behavioural run the floor was waiting for. */
  lemma MoreResultsNeverLower(rules: seq<Rule>, a: Artifact, r1: seq<GateResult>, r2: seq<GateResult>, text: Json -> string)
    requires NoRigorBelow(rules) && forall r :: r in r1 ==> r in r2
    requires BehavioralRan(r2) ==> BehavioralRan(r1)
    requires Evaluate(rules, a, r1, text).Ok? && Evaluate(rules, a, r2, text).Ok?
    ensures DecisionRank(Evaluate(rules, a, r1, text).value) <= DecisionRank(Evaluate(rules, a, r2, text).value)
  {
    var c1, c2 := BuildContext(a, r1), BuildContext(a, r2);
    ContextGrows(a, r1, r2);
    MatchedAre(rules, c1, text);
    MatchedAre(rules, c2, text);
    forall r | r in rules && Fires(r, c1, text) ensures Fires(r, c2, text) {
      AllMatchGrows(r.when, c1, c2, text);
    }
    DefaultGrows(a, r1, r2);
  }

  lemma DefaultGrows(a: Artifact, r1: seq<GateResult>, r2: seq<GateResult>)
    requires forall r :: r in r1 ==> r in r2
    requires BehavioralRan(r2) ==> BehavioralRan(r1)
    ensures DecisionRank(DefaultDecision(a, r1)) <= DecisionRank(DefaultDecision(a, r2))
  {
    assert forall s :: HasStatus(r1, s) ==> HasStatus(r2, s);
  }

  lemma OneCondition(c: Condition, ctx: Context, text: Json -> string)
    ensures AllMatch([c], ctx, text) == ConditionMatches(c, ctx, text)
  {
    assert [c][1..] == [];
  }

  function TextOf(j: Json): string { if j.Str? then j.s else "" }

  /** With `rigor_below` the restriction is needed: a first static result lifts the rule, and the decision drops. */
  lemma RigorBelowCanDrop()
    ensures var rules := [Rule([Condition("rigor_below", Str("static"))], RequireReview)];
      var a := Artifact(ArtifactRef(Null, Null, Null, Null), Model, [], Null);
      var passed := GateResult(Str("g"), Pass, Static, [], Null, Null, Null, Obj([]));
      && Evaluate(rules, a, [], TextOf) == Ok(ReviewRequired)
      && Evaluate(rules, a, [passed], TextOf) == Ok(Approve)
  {
    var c := Condition("rigor_below", Str("static"));
    var rule := Rule([c], RequireReview);
    var a := Artifact(ArtifactRef(Null, Null, Null, Null), Model, [], Null);
    var passed := GateResult(Str("g"), Pass, Static, [], Null, Null, Null, Obj([]));
    assert Hashing.Lower("static") == "static";
    var c1, c2 := BuildContext(a, []), BuildContext(a, [passed]);
    assert [passed][1..] == [] && RigorSummary([passed]) == Static;
    OneCondition(c, c1, TextOf);
    OneCondition(c, c2, TextOf);
    OneRule(rule, a, [], TextOf);
    OneRule(rule, a, [passed], TextOf);
    assert DefaultDecision(a, []) == Approve && DefaultDecision(a, [passed]) == Approve;
  }

  lemma OneRule(rule: Rule, a: Artifact, results: seq<GateResult>, text: Json -> string)
    requires rule.action.RequireReview? && DefaultDecision(a, results) == Approve
    ensures var m := RuleMatches(rule, BuildContext(a, results), text);
      m.Ok? ==> Evaluate([rule], a, results, text) == Ok(if m.value then ReviewRequired else Approve)
  {
    var ctx := BuildContext(a, results);
    assert [rule][1..] == [] && [rule] + [] == [rule];
    var m := RuleMatches(rule, ctx, text);
    if m.Ok? {
      assert MatchedRules([rule], ctx, text) == Ok(if m.value then [rule] else []);
      assert rule in [rule];
    }
  }
}
