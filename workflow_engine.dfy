/** The service daemon's orchestration cycle: fetch, classify, match each classification
    to the first workflow rule of the processing catalog whose conditions hold, run the
    rule's processing sequence for the mail, and route the mail file to `sent/` or
    `failed/`. Storage directories are sets of file names; subprocesses are oracles. */
module WorkflowEngine {
  import opened Common

  // ---------------------------------------------------------------------------
  // Processing catalog and classification records

  /** A `processing_types` entry: its `id` selects the handler, `enabled` defaults to true. */
  datatype Processor = Processor(id: string, enabled: Option<Json>)

  /** A `workflow_rules` entry: conditions in key order, then the processing sequence. */
  datatype Rule = Rule(conditions: seq<(string, Json)>, sequence: seq<string>)

  datatype Catalog = Catalog(rules: seq<(string, Rule)>, types: map<string, Processor>)

  /** The parts of an `*_identifier.json` document the daemon reads:
      `mail_classification.type` (JNull when absent) and `content_analysis`. */
  datatype ClassRecord = ClassRecord(mailType: Json, content: map<string, Json>)

  /** A loaded classification together with the stem of the file it came from. */
  datatype Classification = Classification(jsonStem: Option<string>, record: ClassRecord)

  datatype WorkflowMatch = WorkflowMatch(name: string, rule: Rule)

  /** A subprocess as the daemon observes it: whether it exited with status 0 (false also
      for a missing script, a timeout or a launch error) and the files it left in the
      directory the daemon looks at afterwards. */
  datatype ScriptRun = ScriptRun(exitOk: bool, produced: set<string>)

  const NoRun := ScriptRun(false, {})

  predicate Enabled(p: Processor) {
    p.enabled.None? || Truthy(p.enabled.value)
  }

  // ---------------------------------------------------------------------------
  // Workflow matching

  /** The number a boolean or a number stands for in a Python comparison. */
  function NumberOf(j: Json): Option<int> {
    match j
    case JBool(b) => Some(if b then 1 else 0)
    case JNum(n) => Some(n)
    case _ => None
  }

  /** Python `==` on loaded JSON values: `True == 1` and `False == 0`, lists compare
      element by element and dicts by their keys and the values under them. */
  predicate PyEq(a: Json, b: Json)
    decreases a
  {
    match a
    case JNull => b.JNull?
    case JStr(x) => b.JStr? && b.s == x
    case JArr(xs) => b.JArr? && |xs| == |b.items| && forall i :: 0 <= i < |xs| ==> PyEq(xs[i], b.items[i])
    case JObj(f) => b.JObj? && f.Keys == b.fields.Keys && forall k :: k in f ==> PyEq(f[k], b.fields[k])
    case _ => NumberOf(a).Some? && NumberOf(b) == NumberOf(a)
  }

  /** Python `x in items` on a list: some element equals `x`. */
  predicate PyIn(x: Json, items: seq<Json>) {
    exists i :: 0 <= i < |items| && PyEq(x, items[i])
  }

  /** Every value equals itself under Python equality. */
  lemma {:induction false} PyEqReflexive(a: Json)
    ensures PyEq(a, a)
    decreases a
  {
    match a
    case JArr(xs) =>
      forall i | 0 <= i < |xs| ensures PyEq(xs[i], xs[i]) {
        PyEqReflexive(xs[i]);
      }
    case JObj(f) =>
      forall k | k in f ensures PyEq(f[k], f[k]) {
        PyEqReflexive(f[k]);
      }
    case _ =>
  }

  /** Python equality is symmetric. */
  lemma {:induction false} PyEqSymmetric(a: Json, b: Json)
    requires PyEq(a, b)
    ensures PyEq(b, a)
    decreases a
  {
    match a
    case JArr(xs) =>
      forall i | 0 <= i < |xs| ensures PyEq(b.items[i], xs[i]) {
        PyEqSymmetric(xs[i], b.items[i]);
      }
    case JObj(f) =>
      forall k | k in b.fields ensures PyEq(b.fields[k], f[k]) {
        PyEqSymmetric(f[k], b.fields[k]);
      }
    case _ =>
  }

  /** One condition: the classification type is in a list value or equal to a scalar value;
      any other key holds when absent from the content analysis or equal to the value.
      Equality and membership are Python's. */
  predicate ConditionHolds(r: ClassRecord, key: string, value: Json) {
    if key == "classification_type" then
      if value.JArr? then PyIn(r.mailType, value.items) else PyEq(r.mailType, value)
    else key !in r.content || PyEq(r.content[key], value)
  }

  /** A rule condition `true` is met by a classification type `1`, and a list condition
      `[1]` by the type `true`. */
  lemma TrueMatchesOne(content: map<string, Json>)
    ensures ConditionHolds(ClassRecord(JNum(1), content), "classification_type", JBool(true))
    ensures ConditionHolds(ClassRecord(JBool(true), content), "classification_type", JArr([JNum(1)]))
  {
    assert PyEq(JBool(true), JArr([JNum(1)]).items[0]);
  }

  predicate RuleHolds(r: ClassRecord, rule: Rule) {
    forall k :: 0 <= k < |rule.conditions| ==>
      ConditionHolds(r, rule.conditions[k].0, rule.conditions[k].1)
  }

  /** The first rule, in catalog order, whose conditions all hold. */
  function FirstMatch(rules: seq<(string, Rule)>, r: ClassRecord): (m: Option<WorkflowMatch>)
    ensures m.Some? ==> RuleHolds(r, m.value.rule)
  {
    if |rules| == 0 then None
    else if RuleHolds(r, rules[0].1) then Some(WorkflowMatch(rules[0].0, rules[0].1))
    else FirstMatch(rules[1..], r)
  }

  /** No match exactly when no rule holds; a match is the rule at some index whose
      predecessors all fail. */
  lemma {:induction false} FirstMatchIsFirst(rules: seq<(string, Rule)>, r: ClassRecord)
    ensures FirstMatch(rules, r).None? <==> forall i :: 0 <= i < |rules| ==> !RuleHolds(r, rules[i].1)
    ensures FirstMatch(rules, r).Some? ==>
      exists i :: 0 <= i < |rules| && FirstMatch(rules, r) == Some(WorkflowMatch(rules[i].0, rules[i].1))
        && forall k :: 0 <= k < i ==> !RuleHolds(r, rules[k].1)
    decreases |rules|
  {
    if |rules| > 0 && !RuleHolds(r, rules[0].1) {
      var tail := rules[1..];
      FirstMatchIsFirst(tail, r);
      assert forall i :: 0 < i < |rules| ==> rules[i] == tail[i - 1];
      if FirstMatch(tail, r).Some? {
        var i :| 0 <= i < |tail| && FirstMatch(tail, r) == Some(WorkflowMatch(tail[i].0, tail[i].1))
          && forall k :: 0 <= k < i ==> !RuleHolds(r, tail[k].1);
        assert FirstMatch(rules, r) == Some(WorkflowMatch(rules[i + 1].0, rules[i + 1].1));
      } else {
        forall i | 0 <= i < |rules| ensures !RuleHolds(r, rules[i].1) {
          if i > 0 { assert rules[i] == tail[i - 1]; }
        }
      }
    }
  }

  /** A rule whose non-type keys are all absent from the content analysis matches on the
      classification type alone. */
  lemma AbsentKeysAreVacuous(r: ClassRecord, rule: Rule)
    requires forall k :: 0 <= k < |rule.conditions| && rule.conditions[k].0 != "classification_type" ==>
      rule.conditions[k].0 !in r.content
    ensures RuleHolds(r, rule) <==>
      forall k :: 0 <= k < |rule.conditions| && rule.conditions[k].0 == "classification_type" ==>
        ConditionHolds(r, "classification_type", rule.conditions[k].1)
  {
  }

  /** Number of classifications that match some rule: each one executes a workflow,
      duplicates included. */
  function CountMatched(rules: seq<(string, Rule)>, cs: seq<Classification>): (n: nat)
    ensures n <= |cs|
  {
    if |cs| == 0 then 0
    else CountMatched(rules, cs[..|cs| - 1]) + (if FirstMatch(rules, cs[|cs| - 1].record).Some? then 1 else 0)
  }

  /** Counting is additive over concatenation, so a classification listed twice runs its
      workflow twice. */
  lemma {:induction false} CountMatchedAppend(rules: seq<(string, Rule)>, xs: seq<Classification>, ys: seq<Classification>)
    ensures CountMatched(rules, xs + ys) == CountMatched(rules, xs) + CountMatched(rules, ys)
    decreases |ys|
  {
    if |ys| > 0 {
      var ys' := ys[..|ys| - 1];
      assert (xs + ys)[..|xs + ys| - 1] == xs + ys';
      assert (xs + ys)[|xs + ys| - 1] == ys[|ys| - 1];
      CountMatchedAppend(rules, xs, ys');
    } else {
      assert xs + ys == xs;
    }
  }

  lemma DuplicateRunsTwice(rules: seq<(string, Rule)>, c: Classification)
    requires FirstMatch(rules, c.record).Some?
    ensures CountMatched(rules, [c, c]) == 2
  {
    CountMatchedAppend(rules, [c], [c]);
    assert [c, c] == [c] + [c];
    assert [c][..0] == [];
  }

  // ---------------------------------------------------------------------------
  // Storage directories and the specification of one workflow run

  datatype Dirs = Dirs(
    mails: set<string>, classified: set<string>, processed: set<string>,
    failed: set<string>, sent: set<string>, archived: set<string>)

  datatype StepResult = StepResult(ok: bool, dirs: Dirs)

  datatype Outcome = NoJsonPath | NoMailFile | UnknownStep(step: string) | StepFailed(step: string) | Completed

  datatype Run = Run(outcome: Outcome, dirs: Dirs)

  /** An extraction step: an existing output is success without running anything;
      otherwise the extraction script runs and success is whether the output exists
      afterwards, whatever the script's exit status. */
  function ExtractionStep(ts: string, kind: string, run: ScriptRun, d: Dirs): (r: StepResult)
    ensures r.ok <==> DocumentName(ts, kind) in r.dirs.processed
    ensures d.processed <= r.dirs.processed
    ensures r.dirs == d.(processed := r.dirs.processed)
  {
    if DocumentName(ts, kind) in d.processed then StepResult(true, d)
    else
      var d' := d.(processed := d.processed + run.produced);
      StepResult(DocumentName(ts, kind) in d'.processed, d')
  }

  /** The confirmation step: fails unless problem, solution and asset documents all exist;
      otherwise succeeds exactly when the response script exits with status 0. The files
      the response script itself moves are not part of the daemon's view: the step leaves
      the directories as they were. */
  function ConfirmationStep(ts: string, run: ScriptRun, d: Dirs): (r: StepResult)
    ensures r.dirs == d
    ensures r.ok <==> run.exitOk && forall kind :: kind in ["problem", "solution", "asset"] ==> DocumentName(ts, kind) in d.processed
  {
    if DocumentName(ts, "problem") !in d.processed then StepResult(false, d)
    else if DocumentName(ts, "solution") !in d.processed then StepResult(false, d)
    else if DocumentName(ts, "asset") !in d.processed then StepResult(false, d)
    else StepResult(run.exitOk, d)
  }

  /** Auto-archiving renames the mail into `archived/`; a missing mail is a failure. */
  function ArchiveStep(f: string, d: Dirs): (r: StepResult)
    ensures r.ok <==> f in d.mails
    ensures r.ok ==> f !in r.dirs.mails && f in r.dirs.archived && r.dirs.sent == d.sent
  {
    if f in d.mails then StepResult(true, d.(mails := d.mails - {f}, archived := d.archived + {f}))
    else StepResult(false, d)
  }

  function ToSent(f: string, d: Dirs): Dirs {
    if f in d.mails then d.(mails := d.mails - {f}, sent := d.sent + {f}) else d
  }

  function ToFailed(f: string, d: Dirs): Dirs {
    if f in d.mails then d.(mails := d.mails - {f}, failed := d.failed + {f}) else d
  }

  /** Dispatch on the processor id; in a dry run every step succeeds without effect. */
  function ProcessorStep(p: Processor, dry: bool, f: string, ts: string, run: ScriptRun, d: Dirs): (r: StepResult)
    ensures r.dirs.failed == d.failed && r.dirs.sent == d.sent && r.dirs.classified == d.classified
    ensures r.dirs.mails == d.mails || (p.id == "auto_archive" && r.dirs.mails == d.mails - {f})
    ensures dry ==> r == StepResult(true, d)
  {
    if dry then StepResult(true, d)
    else if p.id == "problem_extraction" then ExtractionStep(ts, "problem", run, d)
    else if p.id == "solution_extraction" then ExtractionStep(ts, "solution", run, d)
    else if p.id == "asset_extraction" then ExtractionStep(ts, "asset", run, d)
    else if p.id == "confirmation_mail" then ConfirmationStep(ts, run, d)
    else if p.id == "auto_archive" then ArchiveStep(f, d)
    else StepResult(false, d)
  }

  function Head(runs: seq<ScriptRun>): ScriptRun {
    if |runs| > 0 then runs[0] else NoRun
  }

  function Tail(runs: seq<ScriptRun>): seq<ScriptRun> {
    if |runs| > 0 then runs[1..] else []
  }

  function Drop(runs: seq<ScriptRun>, j: nat): seq<ScriptRun> {
    if j <= |runs| then runs[j..] else []
  }

  /** The processing sequence from its first step: an unknown step aborts leaving the mail
      where it is, a disabled step is skipped, a failing step moves the mail to `failed/`,
      and when every step passes the mail is moved to `sent/` (if it is still there).
      Step `j` consumes subprocess observation `runs[j]`. */
  function RunSteps(cat: Catalog, dry: bool, steps: seq<string>, runs: seq<ScriptRun>, f: string, ts: string, d: Dirs): Run
    decreases |steps|
  {
    if |steps| == 0 then Run(Completed, ToSent(f, d))
    else if steps[0] !in cat.types then Run(UnknownStep(steps[0]), d)
    else if !Enabled(cat.types[steps[0]]) then RunSteps(cat, dry, steps[1..], Tail(runs), f, ts, d)
    else
      var r := ProcessorStep(cat.types[steps[0]], dry, f, ts, Head(runs), d);
      if !r.ok then Run(StepFailed(steps[0]), ToFailed(f, r.dirs))
      else RunSteps(cat, dry, steps[1..], Tail(runs), f, ts, r.dirs)
  }

  /** Where the mail ends up. It leaves `mails/` on completion and on a failing step, into
      `sent/`, `failed/` or (through auto-archiving) `archived/`; a completed run never
      touches `failed/`, a failed or aborted run never touches `sent/`, and no other mail
      moves. */
  lemma {:induction false} RunStepsRouting(cat: Catalog, dry: bool, steps: seq<string>, runs: seq<ScriptRun>, f: string, ts: string, d: Dirs)
    requires f in d.mails
    ensures var e := RunSteps(cat, dry, steps, runs, f, ts, d);
      && e.dirs.mails - {f} == d.mails - {f}
      && (e.outcome == Completed ==> f !in e.dirs.mails && (f in e.dirs.sent || f in e.dirs.archived) && e.dirs.failed == d.failed)
      && (e.outcome.StepFailed? ==> f !in e.dirs.mails && (f in e.dirs.failed || f in e.dirs.archived) && e.dirs.sent == d.sent)
      && (e.outcome.UnknownStep? ==> e.dirs.failed == d.failed && e.dirs.sent == d.sent)
      && e.outcome != NoJsonPath && e.outcome != NoMailFile
    decreases |steps|
  {
    if |steps| > 0 && steps[0] in cat.types {
      var p := cat.types[steps[0]];
      if !Enabled(p) {
        RunStepsRouting(cat, dry, steps[1..], Tail(runs), f, ts, d);
      } else {
        var r := ProcessorStep(p, dry, f, ts, Head(runs), d);
        if r.ok && f in r.dirs.mails {
          RunStepsRouting(cat, dry, steps[1..], Tail(runs), f, ts, r.dirs);
        } else if r.ok {
          ArchivedStaysArchived(cat, dry, steps[1..], Tail(runs), f, ts, r.dirs);
        }
      }
    }
  }

  /** Once the mail has left `mails/`, the remaining steps cannot move it and it stays in
      `archived/`. */
  lemma {:induction false} ArchivedStaysArchived(cat: Catalog, dry: bool, steps: seq<string>, runs: seq<ScriptRun>, f: string, ts: string, d: Dirs)
    requires f !in d.mails && f in d.archived
    ensures var e := RunSteps(cat, dry, steps, runs, f, ts, d);
      && e.dirs.mails == d.mails && e.dirs.sent == d.sent && e.dirs.failed == d.failed && f in e.dirs.archived
      && e.outcome != NoJsonPath && e.outcome != NoMailFile
    decreases |steps|
  {
    if |steps| > 0 && steps[0] in cat.types {
      var p := cat.types[steps[0]];
      if !Enabled(p) {
        ArchivedStaysArchived(cat, dry, steps[1..], Tail(runs), f, ts, d);
      } else {
        var r := ProcessorStep(p, dry, f, ts, Head(runs), d);
        if r.ok {
          ArchivedStaysArchived(cat, dry, steps[1..], Tail(runs), f, ts, r.dirs);
        }
      }
    }
  }

  /** Fail-fast: once a sequence has failed or aborted, appending further steps (with any
      subprocess observations for them) changes nothing. */
  lemma {:induction false} FailFast(cat: Catalog, dry: bool, steps: seq<string>, runs: seq<ScriptRun>, more: seq<string>, moreRuns: seq<ScriptRun>, f: string, ts: string, d: Dirs)
    requires |runs| == |steps|
    requires RunSteps(cat, dry, steps, runs, f, ts, d).outcome != Completed
    ensures RunSteps(cat, dry, steps + more, runs + moreRuns, f, ts, d) == RunSteps(cat, dry, steps, runs, f, ts, d)
    decreases |steps|
  {
    assert (steps + more)[0] == steps[0];
    assert (steps + more)[1..] == steps[1..] + more;
    assert Head(runs + moreRuns) == Head(runs);
    assert Tail(runs + moreRuns) == Tail(runs) + moreRuns;
    if steps[0] in cat.types {
      var p := cat.types[steps[0]];
      if !Enabled(p) {
        FailFast(cat, dry, steps[1..], Tail(runs), more, moreRuns, f, ts, d);
      } else {
        var r := ProcessorStep(p, dry, f, ts, Head(runs), d);
        if r.ok {
          FailFast(cat, dry, steps[1..], Tail(runs), more, moreRuns, f, ts, r.dirs);
        }
      }
    }
  }

  function RemoveAt(runs: seq<ScriptRun>, k: nat): seq<ScriptRun>
    requires k < |runs|
  {
    runs[..k] + runs[k + 1..]
  }

  /** A disabled step is skipped: the sequence without it (and without its observation)
      has the same outcome and the same effect. */
  lemma {:induction false} DisabledStepIsSkipped(cat: Catalog, dry: bool, steps: seq<string>, runs: seq<ScriptRun>, k: nat, f: string, ts: string, d: Dirs)
    requires |runs| == |steps| && k < |steps|
    requires steps[k] in cat.types && !Enabled(cat.types[steps[k]])
    ensures RunSteps(cat, dry, steps[..k] + steps[k + 1..], RemoveAt(runs, k), f, ts, d) == RunSteps(cat, dry, steps, runs, f, ts, d)
    decreases k
  {
    var steps' := steps[..k] + steps[k + 1..];
    if k == 0 {
      assert steps' == steps[1..];
      assert RemoveAt(runs, 0) == Tail(runs);
    } else {
      assert steps'[0] == steps[0];
      assert steps'[1..] == steps[1..][..k - 1] + steps[1..][k..];
      assert Head(RemoveAt(runs, k)) == Head(runs);
      assert Tail(RemoveAt(runs, k)) == RemoveAt(Tail(runs), k - 1);
      if steps[0] in cat.types {
        var p := cat.types[steps[0]];
        if !Enabled(p) {
          DisabledStepIsSkipped(cat, dry, steps[1..], Tail(runs), k - 1, f, ts, d);
        } else {
          var r := ProcessorStep(p, dry, f, ts, Head(runs), d);
          if r.ok {
            DisabledStepIsSkipped(cat, dry, steps[1..], Tail(runs), k - 1, f, ts, r.dirs);
          }
        }
      }
    }
  }

  predicate IsExtraction(p: Processor) {
    p.id in ["problem_extraction", "solution_extraction", "asset_extraction"]
  }

  function ExtractionKind(id: string): string {
    if id == "problem_extraction" then "problem" else if id == "solution_extraction" then "solution" else "asset"
  }

  /** Re-running a sequence of known extraction steps whose outputs all exist completes
      without depending on any subprocess, and only moves the mail to `sent/`. */
  lemma {:induction false} ExtractionRerunIsIdempotent(cat: Catalog, dry: bool, steps: seq<string>, runs: seq<ScriptRun>, runs': seq<ScriptRun>, f: string, ts: string, d: Dirs)
    requires forall k :: 0 <= k < |steps| ==>
      steps[k] in cat.types && IsExtraction(cat.types[steps[k]]) && DocumentName(ts, ExtractionKind(cat.types[steps[k]].id)) in d.processed
    ensures RunSteps(cat, dry, steps, runs, f, ts, d) == Run(Completed, ToSent(f, d))
    ensures RunSteps(cat, dry, steps, runs, f, ts, d) == RunSteps(cat, dry, steps, runs', f, ts, d)
    decreases |steps|
  {
    if |steps| > 0 {
      assert steps[0] in cat.types;
      var p := cat.types[steps[0]];
      assert DocumentName(ts, ExtractionKind(p.id)) in d.processed;
      ExtractionRerunIsIdempotent(cat, dry, steps[1..], Tail(runs), Tail(runs'), f, ts, d);
    }
  }

  /** A dry run with only known steps completes and (like the daemon) moves the mail to
      `sent/`, regardless of subprocesses. */
  lemma {:induction false} DryRunCompletes(cat: Catalog, steps: seq<string>, runs: seq<ScriptRun>, f: string, ts: string, d: Dirs)
    requires forall k :: 0 <= k < |steps| ==> steps[k] in cat.types
    ensures RunSteps(cat, true, steps, runs, f, ts, d) == Run(Completed, ToSent(f, d))
    decreases |steps|
  {
    if |steps| > 0 {
      DryRunCompletes(cat, steps[1..], Tail(runs), f, ts, d);
    }
  }

  /** A name listed by `glob('*.eml')` in the mail directory. */
  function EmlFiles(mails: set<string>): set<string> {
    set n | n in mails && GlobStar(n, ".eml")
  }

  /** Classification files as `glob('*_identifier.json')` lists them. */
  function IdentifierFiles(classified: set<string>): set<string> {
    set n | n in classified && GlobStar(n, "_identifier.json")
  }

  /** Classifications loaded from the listed files in listing order; a file that cannot be
      loaded is skipped. */
  function LoadAll(order: seq<string>, contents: map<string, ClassRecord>): (cs: seq<Classification>)
    ensures |cs| <= |order|
    ensures forall c :: c in cs ==> c.jsonStem.Some? && exists n :: n in order && n in contents && c == Classification(Some(Stem(n)), contents[n])
  {
    if |order| == 0 then []
    else
      var n := order[|order| - 1];
      LoadAll(order[..|order| - 1], contents)
        + (if n in contents then [Classification(Some(Stem(n)), contents[n])] else [])
  }

  datatype Stats = Stats(fetched: nat, classified: nat, executed: nat, successful: nat, failed: nat)

  function RunsFor(runs: seq<seq<ScriptRun>>, i: nat): seq<ScriptRun> {
    if i < |runs| then runs[i] else []
  }

  /** What a cycle can do to the storage directories: the queue only loses mails, and each
      mail it loses is in `sent/`, `failed/` or `archived/`; those and `processed/` only
      gain files, and `classified/` is untouched. */
  predicate Conserved(d: Dirs, e: Dirs) {
    && e.mails <= d.mails
    && d.sent <= e.sent && d.failed <= e.failed && d.archived <= e.archived
    && d.processed <= e.processed && e.classified == d.classified
    && forall n :: n in d.mails && n !in e.mails ==> n in e.sent || n in e.failed || n in e.archived
  }

  lemma ConservedTrans(d1: Dirs, d2: Dirs, d3: Dirs)
    requires Conserved(d1, d2) && Conserved(d2, d3)
    ensures Conserved(d1, d3)
  {
  }

  /** A processing sequence keeps the directories conserved. */
  lemma {:induction false} RunStepsConserves(cat: Catalog, dry: bool, steps: seq<string>, runs: seq<ScriptRun>, f: string, ts: string, d: Dirs)
    ensures Conserved(d, RunSteps(cat, dry, steps, runs, f, ts, d).dirs)
    decreases |steps|
  {
    if |steps| > 0 && steps[0] in cat.types {
      var p := cat.types[steps[0]];
      if !Enabled(p) {
        RunStepsConserves(cat, dry, steps[1..], Tail(runs), f, ts, d);
      } else {
        var r := ProcessorStep(p, dry, f, ts, Head(runs), d);
        assert Conserved(d, r.dirs);
        if r.ok {
          RunStepsConserves(cat, dry, steps[1..], Tail(runs), f, ts, r.dirs);
          ConservedTrans(d, r.dirs, RunSteps(cat, dry, steps[1..], Tail(runs), f, ts, r.dirs).dirs);
        }
      }
    }
  }

  /** The file that `glob(f"{ts}_*.eml")` lists first for a classification is a legitimate
      choice: none exactly when no queued mail has the classification's key, otherwise a
      queued mail with that key. */
  predicate PickLegal(c: Classification, pick: Option<string>, d: Dirs) {
    if c.jsonStem.None? then pick.None?
    else
      var ts := Key(c.jsonStem.value);
      && (pick.None? <==> forall n :: n in d.mails ==> !MailFor(ts, n))
      && (pick.Some? ==> pick.value in d.mails && MailFor(ts, pick.value))
  }

  /** One workflow execution for a classification matched to `w`, given the mail file the
      listing put first. */
  function WorkflowRun(cat: Catalog, dry: bool, c: Classification, w: WorkflowMatch, runs: seq<ScriptRun>, pick: Option<string>, d: Dirs): Run {
    if c.jsonStem.None? then Run(NoJsonPath, d)
    else if pick.None? then Run(NoMailFile, d)
    else RunSteps(cat, dry, w.rule.sequence, runs, pick.value, Key(c.jsonStem.value), d)
  }

  function PickFor(picks: seq<Option<string>>, i: nat): Option<string> {
    if i < |picks| then picks[i] else None
  }

  /** The directories after step 3, its success and failure counts, and whether every
      mail file chosen was a legitimate choice. */
  datatype Cycle = Cycle(dirs: Dirs, successes: nat, failures: nat, legal: bool)

  /** Step 3 over the classifications in order: a classification that matches no rule
      changes nothing; a matched one runs its workflow (observing `runs[i]`, with mail file
      `picks[i]`) on the directories the earlier ones left, and counts as a success when
      its workflow completes and as a failure otherwise. */
  function WorkflowsFold(cat: Catalog, dry: bool, cs: seq<Classification>, runs: seq<seq<ScriptRun>>, picks: seq<Option<string>>, d: Dirs): Cycle
    decreases |cs|
  {
    if |cs| == 0 then Cycle(d, 0, 0, true)
    else
      var i := |cs| - 1;
      NextWorkflow(cat, dry, cs[i], RunsFor(runs, i), PickFor(picks, i), WorkflowsFold(cat, dry, cs[..i], runs, picks, d))
  }

  /** One classification of step 3 after the earlier ones left `before`. */
  function NextWorkflow(cat: Catalog, dry: bool, c: Classification, runs: seq<ScriptRun>, pick: Option<string>, before: Cycle): Cycle {
    var m := FirstMatch(cat.rules, c.record);
    if m.None? then before
    else
      var e := WorkflowRun(cat, dry, c, m.value, runs, pick, before.dirs);
      Cycle(e.dirs,
            before.successes + (if e.outcome == Completed then 1 else 0),
            before.failures + (if e.outcome == Completed then 0 else 1),
            before.legal && PickLegal(c, pick, before.dirs))
  }

  /** Every matched classification is counted once, as a success or as a failure, and the
      directories stay conserved over the whole step. */
  lemma {:induction false} WorkflowsFoldSpec(cat: Catalog, dry: bool, cs: seq<Classification>, runs: seq<seq<ScriptRun>>, picks: seq<Option<string>>, d: Dirs)
    ensures var r := WorkflowsFold(cat, dry, cs, runs, picks, d);
      r.successes + r.failures == CountMatched(cat.rules, cs) && Conserved(d, r.dirs)
    decreases |cs|
  {
    if |cs| > 0 {
      var i := |cs| - 1;
      WorkflowsFoldSpec(cat, dry, cs[..i], runs, picks, d);
      var before := WorkflowsFold(cat, dry, cs[..i], runs, picks, d);
      var m := FirstMatch(cat.rules, cs[i].record);
      if m.Some? {
        var c := cs[i];
        if c.jsonStem.Some? && PickFor(picks, i).Some? {
          RunStepsConserves(cat, dry, m.value.rule.sequence, RunsFor(runs, i), PickFor(picks, i).value, Key(c.jsonStem.value), before.dirs);
        }
        var e := WorkflowRun(cat, dry, c, m.value, RunsFor(runs, i), PickFor(picks, i), before.dirs);
        ConservedTrans(d, before.dirs, e.dirs);
      }
      assert cs == cs[..i] + [cs[i]];
    }
  }

  // ---------------------------------------------------------------------------
  // The service

  class Service {
    const catalog: Catalog
    const dryRun: bool
    var cycleCount: nat
    var mails: set<string>
    var classified: set<string>
    var processed: set<string>
    var failed: set<string>
    var sent: set<string>
    var archived: set<string>

    function State(): Dirs
      reads this
    {
      Dirs(mails, classified, processed, failed, sent, archived)
    }

    /** A service over a loaded catalog and the current content of the storage directories. */
    constructor(catalog: Catalog, dryRun: bool, d: Dirs)
      ensures this.catalog == catalog && this.dryRun == dryRun
      ensures cycleCount == 0 && State() == d
    {
      this.catalog := catalog;
      this.dryRun := dryRun;
      cycleCount := 0;
      mails, classified, processed := d.mails, d.classified, d.processed;
      failed, sent, archived := d.failed, d.sent, d.archived;
    }

    /** Step 1: run the mail agent (skipped in a dry run), which delivers `arrived`, and
        count the `.eml` files now queued. */
    method FetchMails(arrived: set<string>) returns (count: nat)
      modifies this`mails
      ensures mails == if dryRun then old(mails) else old(mails) + arrived
      ensures count == |EmlFiles(mails)|
    {
      if !dryRun {
        mails := mails + arrived;
      }
      count := |EmlFiles(mails)|;
    }

    /** Step 2: when some queued mail has no classification file, run the classifier (not
        in a dry run) and, if it succeeded, load every classification file in listing
        order `order`, which is any order of the files. */
    method ClassifyMails(run: ScriptRun, contents: map<string, ClassRecord>)
      returns (cs: seq<Classification>, order: seq<string>)
      modifies this`classified
      ensures var pending := Unclassified(old(mails), old(classified)) != {};
        classified == if pending && !dryRun then old(classified) + run.produced else old(classified)
      ensures Unclassified(old(mails), old(classified)) == {} || dryRun || !run.exitOk ==> cs == [] && order == []
      ensures Unclassified(old(mails), old(classified)) != {} && !dryRun && run.exitOk ==>
        Distinct(order) && (forall n :: n in order <==> n in IdentifierFiles(classified)) && cs == LoadAll(order, contents)
    {
      cs, order := [], [];
      if Unclassified(mails, classified) == {} || dryRun {
        return;
      }
      classified := classified + run.produced;
      if !run.exitOk {
        return;
      }
      cs, order := LoadClassifications(IdentifierFiles(classified), contents);
    }

    /** Loads the listed classification files one by one in some listing order. */
    method LoadClassifications(all: set<string>, contents: map<string, ClassRecord>)
      returns (cs: seq<Classification>, order: seq<string>)
      ensures Distinct(order) && (forall n :: n in order <==> n in all) && cs == LoadAll(order, contents)
    {
      cs, order := [], [];
      var remaining := all;
      while remaining != {}
        invariant remaining <= all
        invariant forall n :: n in all <==> n in remaining || n in order
        invariant forall n :: n in order ==> n !in remaining
        invariant Distinct(order)
        invariant cs == LoadAll(order, contents)
        decreases remaining
      {
        var n :| n in remaining;
        var order' := order + [n];
        assert order'[..|order'| - 1] == order;
        order := order';
        remaining := remaining - {n};
        if n in contents {
          cs := cs + [Classification(Some(Stem(n)), contents[n])];
        }
      }
    }

    /** Step 3a: the first catalog rule whose conditions all hold, checking conditions in
        order and stopping at the first that fails. */
    method MatchWorkflow(c: Classification) returns (m: Option<WorkflowMatch>)
      ensures m == FirstMatch(catalog.rules, c.record)
    {
      var rules := catalog.rules;
      var r := c.record;
      var i := 0;
      while i < |rules|
        invariant 0 <= i <= |rules|
        invariant FirstMatch(rules[i..], r) == FirstMatch(rules, r)
      {
        var conds := rules[i].1.conditions;
        var matched := true;
        var k := 0;
        while k < |conds| && matched
          invariant 0 <= k <= |conds|
          invariant matched <==> forall q :: 0 <= q < k ==> ConditionHolds(r, conds[q].0, conds[q].1)
        {
          var (key, value) := conds[k];
          if key == "classification_type" {
            if value.JArr? {
              if !PyIn(r.mailType, value.items) { matched := false; }
            } else if !PyEq(r.mailType, value) {
              matched := false;
            }
          } else if key in r.content {
            if !PyEq(r.content[key], value) { matched := false; }
          }
          k := k + 1;
        }
        assert rules[i..][0] == rules[i] && rules[i..][1..] == rules[i + 1..];
        if matched {
          return Some(WorkflowMatch(rules[i].0, rules[i].1));
        }
        i := i + 1;
      }
      return None;
    }

    /** Step 3b: find the mail by its timestamp key (any of the matching files), run the
        rule's processing sequence and route the mail. */
    method ExecuteWorkflow(c: Classification, w: WorkflowMatch, runs: seq<ScriptRun>)
      returns (success: bool, outcome: Outcome, mailFile: Option<string>)
      modifies this`mails, this`processed, this`failed, this`sent, this`archived
      ensures success <==> outcome == Completed
      ensures c.jsonStem.None? ==> outcome == NoJsonPath && mailFile.None? && State() == old(State())
      ensures c.jsonStem.Some? ==> var ts := Key(c.jsonStem.value);
        && (mailFile.None? <==> forall n :: n in old(mails) ==> !MailFor(ts, n))
        && (mailFile.None? ==> outcome == NoMailFile && State() == old(State()))
        && (mailFile.Some? ==>
              mailFile.value in old(mails) && MailFor(ts, mailFile.value) && Run(outcome, State()) == RunSteps(catalog, dryRun, w.rule.sequence, runs, mailFile.value, ts, old(State())))
      ensures PickLegal(c, mailFile, old(State()))
      ensures Run(outcome, State()) == WorkflowRun(catalog, dryRun, c, w, runs, mailFile, old(State()))
    {
      if c.jsonStem.None? {
        return false, NoJsonPath, None;
      }
      var ts := Key(c.jsonStem.value);
      var candidates := set n | n in mails && MailFor(ts, n);
      if candidates == {} {
        forall n | n in mails ensures !MailFor(ts, n) {
          assert n !in candidates;
        }
        return false, NoMailFile, None;
      }
      var f :| f in candidates;
      mailFile := Some(f);
      var steps := w.rule.sequence;
      var j := 0;
      while j < |steps|
        invariant 0 <= j <= |steps|
        invariant RunSteps(catalog, dryRun, steps[j..], Drop(runs, j), f, ts, State())
               == RunSteps(catalog, dryRun, steps, runs, f, ts, old(State()))
      {
        assert steps[j..][0] == steps[j] && steps[j..][1..] == steps[j + 1..];
        assert Tail(Drop(runs, j)) == Drop(runs, j + 1);
        var name := steps[j];
        if name !in catalog.types {
          return false, UnknownStep(name), mailFile;
        }
        var p := catalog.types[name];
        if Enabled(p) {
          var ok := ExecuteProcessor(p, f, ts, Head(Drop(runs, j)));
          if !ok {
            HandleFailure(f);
            return false, StepFailed(name), mailFile;
          }
        }
        j := j + 1;
      }
      MoveToSent(f);
      return true, Completed, mailFile;
    }

    method ExecuteProcessor(p: Processor, f: string, ts: string, run: ScriptRun) returns (ok: bool)
      modifies this`mails, this`processed, this`archived
      ensures StepResult(ok, State()) == ProcessorStep(p, dryRun, f, ts, run, old(State()))
    {
      if dryRun {
        return true;
      }
      if p.id == "problem_extraction" {
        ok := ExtractJson("problem", ts, run);
      } else if p.id == "solution_extraction" {
        ok := ExtractJson("solution", ts, run);
      } else if p.id == "asset_extraction" {
        ok := ExtractJson("asset", ts, run);
      } else if p.id == "confirmation_mail" {
        ok := SendConfirmation(ts, run);
      } else if p.id == "auto_archive" {
        ok := AutoArchive(f);
      } else {
        ok := false;
      }
    }

    method ExtractJson(kind: string, ts: string, run: ScriptRun) returns (ok: bool)
      modifies this`processed
      ensures StepResult(ok, State()) == ExtractionStep(ts, kind, run, old(State()))
    {
      var output := DocumentName(ts, kind);
      if output in processed {
        return true;
      }
      processed := processed + run.produced;
      ok := output in processed;
    }

    method SendConfirmation(ts: string, run: ScriptRun) returns (ok: bool)
      ensures StepResult(ok, State()) == ConfirmationStep(ts, run, State())
    {
      var required := ["problem", "solution", "asset"];
      assert required[0] == "problem" && required[1] == "solution" && required[2] == "asset";
      for i := 0 to |required|
        invariant forall q :: 0 <= q < i ==> DocumentName(ts, required[q]) in processed
      {
        if DocumentName(ts, required[i]) !in processed {
          return false;
        }
      }
      ok := run.exitOk;
    }

    method AutoArchive(f: string) returns (ok: bool)
      modifies this`mails, this`archived
      ensures StepResult(ok, State()) == ArchiveStep(f, old(State()))
    {
      if f !in mails {
        return false;
      }
      mails := mails - {f};
      archived := archived + {f};
      ok := true;
    }

    method MoveToSent(f: string)
      modifies this`mails, this`sent
      ensures State() == ToSent(f, old(State()))
    {
      if f in mails {
        mails := mails - {f};
        sent := sent + {f};
      }
    }

    method HandleFailure(f: string)
      modifies this`mails, this`failed
      ensures State() == ToFailed(f, old(State()))
    {
      if f in mails {
        mails := mails - {f};
        failed := failed + {f};
      }
    }

    /** One cycle: fetch, classify, then execute a workflow for every classification that
        matches a rule (classification `i` observes subprocess runs `runs[i]`); `order` is
        the listing order of the classification files and `picks` the mail file chosen
        for each classification. */
    method ProcessCycle(arrived: set<string>, classifier: ScriptRun, contents: map<string, ClassRecord>, runs: seq<seq<ScriptRun>>)
      returns (stats: Stats, cs: seq<Classification>, order: seq<string>, picks: seq<Option<string>>)
      modifies this`cycleCount, this`mails, this`classified, this`processed, this`failed, this`sent, this`archived
      ensures cycleCount == old(cycleCount) + 1
      ensures stats.fetched == |EmlFiles(if dryRun then old(mails) else old(mails) + arrived)|
      ensures stats.classified == |cs|
      ensures stats.executed == CountMatched(catalog.rules, cs)
      ensures stats.executed == stats.successful + stats.failed
      ensures dryRun ==> cs == [] && State() == old(State())
      ensures !dryRun ==>
        var queued := old(mails) + arrived;
        var pending := Unclassified(queued, old(classified)) != {};
        var d := old(State()).(mails := queued,
                               classified := if pending then old(classified) + classifier.produced else old(classified));
        var fold := WorkflowsFold(catalog, false, cs, runs, picks, d);
        && (pending && classifier.exitOk ==>
              Distinct(order) && (forall n :: n in order <==> n in IdentifierFiles(d.classified)) && cs == LoadAll(order, contents))
        && (!(pending && classifier.exitOk) ==> cs == [])
        && State() == fold.dirs && fold.legal
        && stats.successful == fold.successes && stats.failed == fold.failures
    {
      cycleCount := cycleCount + 1;
      stats := Stats(0, 0, 0, 0, 0);
      picks := [];
      var fetched := FetchMails(arrived);
      stats := stats.(fetched := fetched);
      cs, order := ClassifyMails(classifier, contents);
      stats := stats.(classified := |cs|);
      if |cs| == 0 {
        return;
      }
      var executed, successful, failedCount;
      executed, successful, failedCount, picks := RunWorkflows(cs, runs);
      stats := stats.(executed := executed, successful := successful, failed := failedCount);
    }

    /** Step 3 for one classification: match it, and run the matched workflow; `before`
        is the progress of step 3 so far. */
    method NextClassification(c: Classification, runs: seq<ScriptRun>, ghost before: Cycle)
      returns (matched: bool, success: bool, pick: Option<string>)
      requires before.dirs == State()
      modifies this`mails, this`processed, this`failed, this`sent, this`archived
      ensures matched <==> FirstMatch(catalog.rules, c.record).Some?
      ensures matched ==> PickLegal(c, pick, before.dirs)
      ensures NextWorkflow(catalog, dryRun, c, runs, pick, before) ==
        Cycle(State(),
              before.successes + (if matched && success then 1 else 0),
              before.failures + (if matched && !success then 1 else 0),
              before.legal)
    {
      success, pick := false, None;
      var w := MatchWorkflow(c);
      matched := w.Some?;
      if matched {
        var outcome;
        success, outcome, pick := ExecuteWorkflow(c, w.value, runs);
      }
    }

    /** Step 3 over all classifications, in order, counting executed, successful and
        failed workflows; the new state and the counts are those of the fold. */
    method RunWorkflows(cs: seq<Classification>, runs: seq<seq<ScriptRun>>)
      returns (executed: nat, successful: nat, failedCount: nat, picks: seq<Option<string>>)
      modifies this`mails, this`processed, this`failed, this`sent, this`archived
      ensures executed == CountMatched(catalog.rules, cs)
      ensures executed == successful + failedCount
      ensures var fold := WorkflowsFold(catalog, dryRun, cs, runs, picks, old(State()));
        && State() == fold.dirs && fold.legal
        && successful == fold.successes && failedCount == fold.failures
    {
      executed, successful, failedCount, picks := 0, 0, 0, [];
      ghost var d0 := State();
      ghost var acc := Cycle(d0, 0, 0, true);
      var i := 0;
      while i < |cs|
        invariant 0 <= i <= |cs| && |picks| == i
        invariant executed == successful + failedCount
        invariant acc == WorkflowsFold(catalog, dryRun, cs[..i], runs, picks, d0)
        invariant acc == Cycle(State(), successful, failedCount, true)
      {
        var matched, success, pick := NextClassification(cs[i], RunsFor(runs, i), acc);
        if matched {
          executed := executed + 1;
          if success {
            successful := successful + 1;
          } else {
            failedCount := failedCount + 1;
          }
        }
        FoldNext(catalog, dryRun, cs, runs, picks, pick, d0);
        acc := Cycle(State(), successful, failedCount, true);
        picks := picks + [pick];
        i := i + 1;
      }
      assert cs[..i] == cs;
      WorkflowsFoldSpec(catalog, dryRun, cs, runs, picks, old(State()));
    }
  }

  /** Extending the chosen files with the next classification's choice leaves the fold over
      the earlier classifications unchanged. */
  lemma {:induction false} FoldExtends(cat: Catalog, dry: bool, cs: seq<Classification>, runs: seq<seq<ScriptRun>>, picks: seq<Option<string>>, pick: Option<string>, d: Dirs)
    requires |picks| >= |cs|
    ensures WorkflowsFold(cat, dry, cs, runs, picks + [pick], d) == WorkflowsFold(cat, dry, cs, runs, picks, d)
    decreases |cs|
  {
    if |cs| > 0 {
      FoldExtends(cat, dry, cs[..|cs| - 1], runs, picks, pick, d);
      assert PickFor(picks + [pick], |cs| - 1) == PickFor(picks, |cs| - 1);
    }
  }

  /** The fold over one more classification is the next workflow after the fold so far. */
  lemma FoldNext(cat: Catalog, dry: bool, cs: seq<Classification>, runs: seq<seq<ScriptRun>>, picks: seq<Option<string>>, pick: Option<string>, d: Dirs)
    requires |picks| < |cs|
    ensures var i := |picks|;
      WorkflowsFold(cat, dry, cs[..i + 1], runs, picks + [pick], d)
        == NextWorkflow(cat, dry, cs[i], RunsFor(runs, i), pick, WorkflowsFold(cat, dry, cs[..i], runs, picks, d))
  {
    var i := |picks|;
    FoldExtends(cat, dry, cs[..i], runs, picks, pick, d);
    assert cs[..i + 1][..i] == cs[..i];
  }
}
