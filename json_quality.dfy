/** The quality analyzer for an extracted problem/solution/asset triple: every checked
    field is recorded as complete, missing or unclear (two fields only ever as complete),
    and a summary counts the three lists and grades the share of complete fields. */
module JsonQuality {
  import opened Common

  /** The verdict of one field check; `Unrecorded` is a field that was not appended to
      any list. */
  datatype Verdict = Complete | Missing | Unclear | Unrecorded

  datatype Summary = Summary(completeCount: nat, missingCount: nat, unclearCount: nat, totalFields: nat, quality: string)

  datatype Analysis = Analysis(complete: seq<string>, missing: seq<string>, unclear: seq<string>, summary: Summary)

  /** The sections the analyzer reads, after `doc.get(section, {})`. */
  datatype Sections = Sections(
    prob: map<string, Json>, reporter: map<string, Json>, classification: map<string, Json>,
    sol: map<string, Json>, metadata: map<string, Json>,
    ast: map<string, Json>, technical: map<string, Json>)

  /** The checked fields, in the order the checks run. */
  const FieldNames: seq<string> := [
    "problem_title", "problem_description", "problem_symptoms", "reporter_department",
    "classification_severity", "affected_users",
    "solution_title", "solution_steps", "solution_approach", "solution_complexity",
    "asset_name", "asset_version", "asset_platform", "asset_deployment"]

  lemma FieldNamesDistinct()
    ensures |FieldNames| == 14 && Distinct(FieldNames)
  {
  }

  // ---------------------------------------------------------------------------
  // Reading JSON the way the analyzer does

  /** `doc.get(key, {})` followed by `.get` on the result: None when that raises because
      the section is present but not an object. */
  function SectionOf(doc: map<string, Json>, key: string): Option<map<string, Json>> {
    if key !in doc then Some(map[]) else if doc[key].JObj? then Some(doc[key].fields) else None
  }

  /** `section.get(key, default)`. */
  function GetOr(section: map<string, Json>, key: string, default: Json): Json {
    if key in section then section[key] else default
  }

  /** Python `len(value)`: None when it raises. */
  function LenOf(j: Json): Option<nat> {
    match j
    case JStr(s) => Some(|s|)
    case JArr(a) => Some(|a|)
    case JObj(m) => Some(|m|)
    case _ => None
  }

  /** Truthy means complete; anything else is `otherwise`. */
  function Presence(j: Json, otherwise: Verdict): Verdict {
    if Truthy(j) then Complete else otherwise
  }

  /** The description: complete when longer than 20, unclear when shorter but non-empty,
      missing when empty. */
  function DescriptionVerdict(desc: Json): Option<Verdict> {
    if !Truthy(desc) then Some(Missing)
    else match LenOf(desc)
      case None => None
      case Some(n) => Some(if n > 20 then Complete else Unclear)
  }

  /** Symptoms and steps: complete when non-empty. */
  function NonEmptyVerdict(items: Json): Option<Verdict> {
    if !Truthy(items) then Some(Missing)
    else match LenOf(items)
      case None => None
      case Some(n) => Some(if n > 0 then Complete else Missing)
  }

  /** Affected users and deployment: a generic placeholder value is unclear. */
  function LabelVerdict(j: Json, generic: string): Verdict {
    if Truthy(j) && j != JStr(generic) then Complete
    else if j == JStr(generic) then Unclear
    else Missing
  }

  /** Declared complexity against the step count: low is at most 3 steps, medium 4 or 5,
      high more than 5. */
  predicate ComplexityAgrees(complexity: Json, steps: nat) {
    (complexity == JStr("low") && steps <= 3)
    || (complexity == JStr("medium") && 3 < steps <= 5)
    || (complexity == JStr("high") && steps > 5)
  }

  function ComplexityVerdict(complexity: Json, steps: Json): Option<Verdict> {
    if !Truthy(complexity) then Some(Missing)
    else match LenOf(steps)
      case None => None
      case Some(n) =>
        if n > 0 then Some(if ComplexityAgrees(complexity, n) then Complete else Unclear)
        else Some(Missing)
  }

  function Sectioned(problem: map<string, Json>, solution: Option<map<string, Json>>, asset: map<string, Json>): Option<Sections> {
    if solution.None? then None
    else
      var prob := SectionOf(problem, "problem");
      var reporter := SectionOf(problem, "reporter");
      var classification := SectionOf(problem, "classification");
      var sol := SectionOf(solution.value, "solution");
      var metadata := SectionOf(solution.value, "metadata");
      var ast := SectionOf(asset, "asset");
      var technical := SectionOf(asset, "technical");
      if prob.None? || reporter.None? || classification.None? || sol.None? || metadata.None? || ast.None? || technical.None? then None
      else Some(Sections(prob.value, reporter.value, classification.value, sol.value, metadata.value, ast.value, technical.value))
  }

  /** The fourteen verdicts, aligned with `FieldNames`; None when a `len` raises. */
  function Verdicts(x: Sections): (vs: Option<seq<Verdict>>)
    ensures vs.Some? ==> |vs.value| == |FieldNames|
    ensures vs.Some? ==> forall k :: 0 <= k < |vs.value| && k != 4 && k != 10 ==> vs.value[k] != Unrecorded
    ensures vs.Some? ==> vs.value[4] != Missing && vs.value[4] != Unclear && vs.value[10] != Missing && vs.value[10] != Unclear
  {
    var steps := GetOr(x.sol, "steps", JArr([]));
    var desc := DescriptionVerdict(GetOr(x.prob, "description", JStr("")));
    var symptoms := NonEmptyVerdict(GetOr(x.prob, "symptoms", JArr([])));
    var stepsV := NonEmptyVerdict(steps);
    var complexity := ComplexityVerdict(GetOr(x.metadata, "complexity", JNull), steps);
    if desc.None? || symptoms.None? || stepsV.None? || complexity.None? then None
    else Some([
      Presence(GetOr(x.prob, "title", JNull), Missing),
      desc.value,
      symptoms.value,
      Presence(GetOr(x.reporter, "department", JNull), Missing),
      Presence(GetOr(x.classification, "severity", JNull), Unrecorded),
      LabelVerdict(GetOr(x.classification, "affected_users", JStr("")), "single user"),
      Presence(GetOr(x.sol, "title", JNull), Missing),
      stepsV.value,
      Presence(GetOr(x.sol, "approach", JNull), Missing),
      complexity.value,
      Presence(GetOr(x.ast, "name", JNull), Unrecorded),
      Presence(GetOr(x.technical, "version", JNull), Missing),
      Presence(GetOr(x.technical, "platform", JNull), Missing),
      LabelVerdict(GetOr(x.technical, "deployment", JNull), "cloud-based")])
  }

  // ---------------------------------------------------------------------------
  // Lists and summary

  /** The names with verdict `v`, in check order. */
  function Listed(vs: seq<Verdict>, v: Verdict): (names: seq<string>)
    requires |vs| <= |FieldNames|
    ensures |names| <= |vs|
  {
    if |vs| == 0 then []
    else Listed(vs[..|vs| - 1], v) + (if vs[|vs| - 1] == v then [FieldNames[|vs| - 1]] else [])
  }

  function CountOf(vs: seq<Verdict>, v: Verdict): nat {
    if |vs| == 0 then 0 else CountOf(vs[..|vs| - 1], v) + (if vs[|vs| - 1] == v then 1 else 0)
  }

  /** The grade on the unrounded share of complete fields. */
  function QualityOf(complete: nat, total: nat): string {
    if total > 0 && 100 * complete >= 75 * total then "good"
    else if total > 0 && 100 * complete >= 50 * total then "medium"
    else "needs_work"
  }

  /** `analyze_quality`: None when the analyzer raises (a missing solution document, a
      section that is not an object, or `len` of a value without one). */
  function AnalyzeQuality(problem: map<string, Json>, solution: Option<map<string, Json>>, asset: map<string, Json>): (r: Option<Analysis>)
    ensures solution.None? ==> r.None?
    ensures r.Some? ==> var s := r.value.summary;
      && s.completeCount == |r.value.complete| && s.missingCount == |r.value.missing| && s.unclearCount == |r.value.unclear|
      && s.totalFields == s.completeCount + s.missingCount + s.unclearCount
      && 12 <= s.totalFields <= 14
  {
    var x := Sectioned(problem, solution, asset);
    if x.None? then None
    else
      var vs := Verdicts(x.value);
      if vs.None? then None
      else
        var complete := Listed(vs.value, Complete);
        var missing := Listed(vs.value, Missing);
        var unclear := Listed(vs.value, Unclear);
        var total := |complete| + |missing| + |unclear|;
        TotalIsTwelveToFourteen(vs.value);
        Some(Analysis(complete, missing, unclear,
          Summary(|complete|, |missing|, |unclear|, total, QualityOf(|complete|, total))))
  }

  lemma {:induction false} ListedLength(vs: seq<Verdict>, v: Verdict)
    requires |vs| <= |FieldNames|
    ensures |Listed(vs, v)| == CountOf(vs, v)
    decreases |vs|
  {
    if |vs| > 0 {
      ListedLength(vs[..|vs| - 1], v);
    }
  }

  lemma {:induction false} CountsPartition(vs: seq<Verdict>)
    ensures CountOf(vs, Complete) + CountOf(vs, Missing) + CountOf(vs, Unclear) + CountOf(vs, Unrecorded) == |vs|
    decreases |vs|
  {
    if |vs| > 0 {
      CountsPartition(vs[..|vs| - 1]);
    }
  }

  /** Only positions `i` and `j` may be unrecorded, so at most two are. */
  lemma {:induction false} UnrecordedAtMostTwo(vs: seq<Verdict>, i: nat, j: nat)
    requires forall k :: 0 <= k < |vs| && k != i && k != j ==> vs[k] != Unrecorded
    requires i != j
    ensures CountOf(vs, Unrecorded) <= (if i < |vs| then 1 else 0) + (if j < |vs| then 1 else 0)
    decreases |vs|
  {
    if |vs| > 0 {
      UnrecordedAtMostTwo(vs[..|vs| - 1], i, j);
    }
  }

  lemma TotalIsTwelveToFourteen(vs: seq<Verdict>)
    requires |vs| == |FieldNames|
    requires forall k :: 0 <= k < |vs| && k != 4 && k != 10 ==> vs[k] != Unrecorded
    ensures var total := |Listed(vs, Complete)| + |Listed(vs, Missing)| + |Listed(vs, Unclear)|;
      12 <= total <= 14
  {
    ListedLength(vs, Complete);
    ListedLength(vs, Missing);
    ListedLength(vs, Unclear);
    CountsPartition(vs);
    UnrecordedAtMostTwo(vs, 4, 10);
  }

  /** A name is in the list for `v` exactly when some check with that name gave `v`. */
  lemma {:induction false} ListedMembership(vs: seq<Verdict>, v: Verdict, n: string)
    requires |vs| <= |FieldNames|
    ensures n in Listed(vs, v) <==> exists k :: 0 <= k < |vs| && FieldNames[k] == n && vs[k] == v
    decreases |vs|
  {
    if |vs| > 0 {
      ListedMembership(vs[..|vs| - 1], v, n);
      if n in Listed(vs, v) && n !in Listed(vs[..|vs| - 1], v) {
        assert FieldNames[|vs| - 1] == n && vs[|vs| - 1] == v;
      }
    }
  }

  /** Field `k` is listed under `v` exactly when its verdict is `v`. */
  lemma ListedAt(vs: seq<Verdict>, v: Verdict, k: nat)
    requires |vs| == |FieldNames| && k < |vs|
    ensures FieldNames[k] in Listed(vs, v) <==> vs[k] == v
  {
    FieldNamesDistinct();
    ListedMembership(vs, v, FieldNames[k]);
  }

  /** Each field name is appended to at most one of the three lists. */
  lemma ListsDisjoint(problem: map<string, Json>, solution: Option<map<string, Json>>, asset: map<string, Json>, n: string)
    requires AnalyzeQuality(problem, solution, asset).Some?
    ensures var a := AnalyzeQuality(problem, solution, asset).value;
      && !(n in a.complete && n in a.missing)
      && !(n in a.complete && n in a.unclear)
      && !(n in a.missing && n in a.unclear)
  {
    var vs := AnalysisOf(problem, solution, asset);
    ListedOnce(vs, Complete, Missing, n);
    ListedOnce(vs, Complete, Unclear, n);
    ListedOnce(vs, Missing, Unclear, n);
  }

  /** Since the field names are distinct, a name is listed under at most one verdict. */
  lemma ListedOnce(vs: seq<Verdict>, v: Verdict, w: Verdict, n: string)
    requires |vs| <= |FieldNames| && v != w
    ensures !(n in Listed(vs, v) && n in Listed(vs, w))
  {
    ListedMembership(vs, v, n);
    ListedMembership(vs, w, n);
    FieldNamesDistinct();
  }

  /** The grade: good at three quarters complete, medium at one half, else needs work. */
  lemma QualityThresholds(problem: map<string, Json>, solution: Option<map<string, Json>>, asset: map<string, Json>)
    requires AnalyzeQuality(problem, solution, asset).Some?
    ensures var s := AnalyzeQuality(problem, solution, asset).value.summary;
      && (s.quality == "good" <==> 4 * s.completeCount >= 3 * s.totalFields)
      && (s.quality == "medium" <==> 4 * s.completeCount < 3 * s.totalFields && 2 * s.completeCount >= s.totalFields)
      && (s.quality == "needs_work" <==> 2 * s.completeCount < s.totalFields)
  {
  }

  // ---------------------------------------------------------------------------
  // Looking up a field's status

  /** `get_field_status`: the first list holding the name, in the order complete,
      missing, unclear, else "unknown". */
  function GetFieldStatus(name: string, a: Analysis): (status: string)
    ensures status in ["complete", "missing", "unclear", "unknown"]
    ensures status == "unknown" <==> name !in a.complete && name !in a.missing && name !in a.unclear
  {
    if name in a.complete then "complete"
    else if name in a.missing then "missing"
    else if name in a.unclear then "unclear"
    else "unknown"
  }

  function StatusName(v: Verdict): string {
    match v
    case Complete => "complete"
    case Missing => "missing"
    case Unclear => "unclear"
    case Unrecorded => "unknown"
  }

  /** The lists of a successful analysis are those of its verdicts. */
  lemma AnalysisOf(problem: map<string, Json>, solution: Option<map<string, Json>>, asset: map<string, Json>)
    returns (vs: seq<Verdict>)
    requires AnalyzeQuality(problem, solution, asset).Some?
    ensures Sectioned(problem, solution, asset).Some?
    ensures Verdicts(Sectioned(problem, solution, asset).value) == Some(vs)
    ensures |vs| == |FieldNames|
    ensures vs[4] != Missing && vs[4] != Unclear && vs[10] != Missing && vs[10] != Unclear
    ensures var a := AnalyzeQuality(problem, solution, asset).value;
      a.complete == Listed(vs, Complete) && a.missing == Listed(vs, Missing) && a.unclear == Listed(vs, Unclear)
  {
    vs := Verdicts(Sectioned(problem, solution, asset).value).value;
  }

  /** Over any analysis built from verdicts, a field's status names its verdict. */
  lemma StatusFromVerdict(a: Analysis, vs: seq<Verdict>, k: nat)
    requires |vs| == |FieldNames| && k < |vs|
    requires a.complete == Listed(vs, Complete) && a.missing == Listed(vs, Missing) && a.unclear == Listed(vs, Unclear)
    ensures GetFieldStatus(FieldNames[k], a) == StatusName(vs[k])
  {
    ListedAt(vs, Complete, k);
    ListedAt(vs, Missing, k);
    ListedAt(vs, Unclear, k);
  }

  /** The status reported for field `k` is its verdict. */
  lemma FieldStatusIsVerdict(problem: map<string, Json>, solution: Option<map<string, Json>>, asset: map<string, Json>, k: nat)
    requires AnalyzeQuality(problem, solution, asset).Some? && k < |FieldNames|
    ensures var vs := Verdicts(Sectioned(problem, solution, asset).value).value;
      GetFieldStatus(FieldNames[k], AnalyzeQuality(problem, solution, asset).value) == StatusName(vs[k])
  {
    var vs := AnalysisOf(problem, solution, asset);
    StatusFromVerdict(AnalyzeQuality(problem, solution, asset).value, vs, k);
  }

  /** A description longer than 20 characters is complete, a shorter non-empty one is
      unclear, an empty or absent one is missing. */
  lemma DescriptionRule(problem: map<string, Json>, solution: Option<map<string, Json>>, asset: map<string, Json>, desc: string)
    requires AnalyzeQuality(problem, solution, asset).Some?
    requires "problem" in problem && problem["problem"].JObj?
    requires GetOr(problem["problem"].fields, "description", JStr("")) == JStr(desc)
    ensures GetFieldStatus("problem_description", AnalyzeQuality(problem, solution, asset).value)
      == if |desc| > 20 then "complete" else if desc != "" then "unclear" else "missing"
  {
    var vs := AnalysisOf(problem, solution, asset);
    StatusFromVerdict(AnalyzeQuality(problem, solution, asset).value, vs, 1);
  }

  /** 'single user' is unclear, another non-empty value complete, an empty one missing. */
  lemma AffectedUsersRule(problem: map<string, Json>, solution: Option<map<string, Json>>, asset: map<string, Json>, affected: string)
    requires AnalyzeQuality(problem, solution, asset).Some?
    requires "classification" in problem && problem["classification"].JObj?
    requires GetOr(problem["classification"].fields, "affected_users", JStr("")) == JStr(affected)
    ensures GetFieldStatus("affected_users", AnalyzeQuality(problem, solution, asset).value)
      == if affected == "single user" then "unclear" else if affected != "" then "complete" else "missing"
  {
    var vs := AnalysisOf(problem, solution, asset);
    StatusFromVerdict(AnalyzeQuality(problem, solution, asset).value, vs, 5);
  }

  /** Complexity is complete only when it agrees with the number of steps, unclear when it
      disagrees, and missing when empty or when there are no steps. */
  lemma ComplexityRule(problem: map<string, Json>, solution: Option<map<string, Json>>, asset: map<string, Json>, complexity: string, steps: seq<Json>)
    requires AnalyzeQuality(problem, solution, asset).Some?
    requires solution.Some?
    requires "solution" in solution.value && solution.value["solution"].JObj?
    requires GetOr(solution.value["solution"].fields, "steps", JArr([])) == JArr(steps)
    requires "metadata" in solution.value && solution.value["metadata"].JObj?
    requires GetOr(solution.value["metadata"].fields, "complexity", JNull) == JStr(complexity)
    ensures GetFieldStatus("solution_complexity", AnalyzeQuality(problem, solution, asset).value)
      == if complexity == "" || |steps| == 0 then "missing"
         else if ComplexityAgrees(JStr(complexity), |steps|) then "complete" else "unclear"
  {
    var vs := AnalysisOf(problem, solution, asset);
    StatusFromVerdict(AnalyzeQuality(problem, solution, asset).value, vs, 9);
  }

  /** Severity and asset name are only ever recorded as complete; otherwise no list holds
      them. */
  lemma SeverityAndNameOnlyComplete(problem: map<string, Json>, solution: Option<map<string, Json>>, asset: map<string, Json>)
    requires AnalyzeQuality(problem, solution, asset).Some?
    ensures var a := AnalyzeQuality(problem, solution, asset).value;
      && GetFieldStatus("classification_severity", a) in ["complete", "unknown"]
      && GetFieldStatus("asset_name", a) in ["complete", "unknown"]
  {
    var vs := AnalysisOf(problem, solution, asset);
    var a := AnalyzeQuality(problem, solution, asset).value;
    assert FieldNames[4] == "classification_severity" && FieldNames[10] == "asset_name";
    NeverFlaggedStatus(a, vs, 4);
    NeverFlaggedStatus(a, vs, 10);
  }

  /** A field that is never missing or unclear is reported complete or unknown. */
  lemma NeverFlaggedStatus(a: Analysis, vs: seq<Verdict>, k: nat)
    requires |vs| == |FieldNames| && k < |vs| && vs[k] != Missing && vs[k] != Unclear
    requires a.complete == Listed(vs, Complete) && a.missing == Listed(vs, Missing) && a.unclear == Listed(vs, Unclear)
    ensures GetFieldStatus(FieldNames[k], a) in ["complete", "unknown"]
  {
    StatusFromVerdict(a, vs, k);
  }

  // ---------------------------------------------------------------------------
  // A missing solution document

  /** As written, a response run whose solution document failed to load passes None and
      the analyzer raises on `solution.get`, whatever the other documents hold. */
  lemma MissingSolutionRaises(problem: map<string, Json>, asset: map<string, Json>)
    ensures AnalyzeQuality(problem, None, asset).None?
  {
  }

  /** The analysis with a missing solution document read as `{}`, as the template filler
      does with `solution.get(...) if solution else {}`. */
  function AnalyzeQualityTolerant(problem: map<string, Json>, solution: Option<map<string, Json>>, asset: map<string, Json>): (r: Option<Analysis>)
    ensures solution.Some? ==> r == AnalyzeQuality(problem, solution, asset)
  {
    AnalyzeQuality(problem, Some(if solution.Some? then solution.value else map[]), asset)
  }

  lemma EmptySolutionVerdicts(x: Sections)
    requires x.sol == map[] && x.metadata == map[] && Verdicts(x).Some?
    ensures forall k :: 6 <= k <= 9 ==> Verdicts(x).value[k] == Missing
  {
  }

  /** With a missing solution document the tolerant analysis raises only where it would
      with an empty one, and then reports every solution field as missing. */
  lemma TolerantMissingSolution(problem: map<string, Json>, asset: map<string, Json>)
    requires AnalyzeQuality(problem, Some(map[]), asset).Some?
    ensures AnalyzeQualityTolerant(problem, None, asset).Some?
    ensures var a := AnalyzeQualityTolerant(problem, None, asset).value;
      forall k :: 6 <= k <= 9 ==> GetFieldStatus(FieldNames[k], a) == "missing"
  {
    var x := Sectioned(problem, Some(map[]), asset).value;
    assert x.sol == map[] && x.metadata == map[];
    EmptySolutionVerdicts(x);
    var a := AnalyzeQuality(problem, Some(map[]), asset).value;
    forall k | 6 <= k <= 9
      ensures GetFieldStatus(FieldNames[k], a) == "missing"
    {
      FieldStatusIsVerdict(problem, Some(map[]), asset, k);
    }
  }
}
