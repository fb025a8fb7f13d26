// The extraction batch: every mail in `mails/` gets its problem, solution and asset
// documents extracted by the LLM client into `processed/`, and is then moved to
// `processed/` when all three succeeded and to `failed/` otherwise.

module Extract {
  import opened Common
  import opened Batch

  /** The kinds of document extracted, in the order they are attempted. */
  const Kinds: seq<string> := ["problem", "solution", "asset"]

  /** The export path of one extraction: `processed/{key}_{kind}.json`, the key falling
      back to the current time for a single-segment stem. */
  function OutputName(stem: string, now: string, kind: string): string {
    DocumentName(MailKey(stem, now), kind)
  }

  /** The export path of the `i`-th kind, named with the clock reading of its own
      extraction. */
  function KindName(stem: string, clock: seq<string>, i: nat): string
    requires i < 3
  {
    OutputName(stem, NowAt(clock, i), Kinds[i])
  }

  /** The character before `.json` in a document name is the last one of its kind. */
  lemma DocumentNameKindEnd(key: string, kind: string)
    requires |kind| > 0
    ensures var n := DocumentName(key, kind); |n| >= 6 && n[|n| - 6] == kind[|kind| - 1]
  {
    var n := DocumentName(key, kind);
    var head := key + "_" + kind;
    assert n == head + ".json";
    assert n[|n| - 6] == head[|head| - 1];
  }

  /** The export names of two different kinds differ, whatever the clock read at each of
      the two extractions. */
  lemma OutputNamesDiffer(stem: string, a: string, b: string, i: nat, j: nat)
    requires i < 3 && j < 3 && i != j
    ensures OutputName(stem, a, Kinds[i]) != OutputName(stem, b, Kinds[j])
  {
    DocumentNameKindEnd(MailKey(stem, a), Kinds[i]);
    DocumentNameKindEnd(MailKey(stem, b), Kinds[j]);
  }

  /** The exports written by the runs of the first `n` kinds. */
  function Exports(stem: string, clock: seq<string>, runs: seq<LlmRun>, n: nat): (e: set<string>)
    requires n <= 3
    ensures forall x :: x in e ==> exists j :: 0 <= j < n && x == KindName(stem, clock, j)
  {
    if n == 0 then {}
    else Exports(stem, clock, runs, n - 1) +
           (if RunAt(runs, n - 1).exported then {KindName(stem, clock, n - 1)} else {})
  }

  /** The kinds among the first `n` whose extraction failed, in order; each run is judged
      against `processed/` as it was before the mail, since no other kind writes its file. */
  function FailedKinds(stem: string, clock: seq<string>, runs: seq<LlmRun>, processed: set<string>, n: nat): seq<string>
    requires n <= 3
  {
    if n == 0 then []
    else FailedKinds(stem, clock, runs, processed, n - 1) +
           (if Succeeded(RunAt(runs, n - 1), KindName(stem, clock, n - 1), processed)
            then [] else [Kinds[n - 1]])
  }

  /** A kind is reported failed exactly when its run did not succeed; the list holds each
      kind at most once, in attempt order, and a run that does not exit 0 always lands in
      it while one that exits 0 and writes its export never does. */
  lemma {:induction false} FailedKindsSpec(stem: string, clock: seq<string>, runs: seq<LlmRun>, processed: set<string>, n: nat)
    requires n <= 3
    ensures var fk := FailedKinds(stem, clock, runs, processed, n);
            && |fk| <= n
            && (forall i :: 0 <= i < n ==>
                  (Kinds[i] in fk <==> !Succeeded(RunAt(runs, i), KindName(stem, clock, i), processed)))
            && (forall i :: 0 <= i < n && RunAt(runs, i).ending != Exited(0) ==> Kinds[i] in fk)
            && (forall i :: 0 <= i < n && Clean(RunAt(runs, i)) ==> Kinds[i] !in fk)
            && (forall a, b :: 0 <= a < b < |fk| ==> IndexOfKind(fk[a]) < IndexOfKind(fk[b]))
            && (forall k :: k in fk ==> k in Kinds[..n])
            && ((forall i :: 0 <= i < n ==> Clean(RunAt(runs, i))) ==> fk == [])
  {
    FailedKindsMembers(stem, clock, runs, processed, n);
    FailedKindsOrdered(stem, clock, runs, processed, n);
    forall i | 0 <= i < n {
      SuccessRule(RunAt(runs, i), KindName(stem, clock, i), processed);
    }
    var fk := FailedKinds(stem, clock, runs, processed, n);
    if fk != [] {
      assert fk[0] in Kinds[..n];
    }
  }

  /** The failed kinds are among the first `n`, each listed exactly when its run did not
      succeed. */
  lemma {:induction false} FailedKindsMembers(stem: string, clock: seq<string>, runs: seq<LlmRun>,
                                              processed: set<string>, n: nat)
    requires n <= 3
    ensures var fk := FailedKinds(stem, clock, runs, processed, n);
            && |fk| <= n
            && (forall k :: k in fk ==> k in Kinds[..n])
            && (forall i :: 0 <= i < n ==>
                  (Kinds[i] in fk <==> !Succeeded(RunAt(runs, i), KindName(stem, clock, i), processed)))
  {
    if n > 0 {
      FailedKindsMembers(stem, clock, runs, processed, n - 1);
      assert Kinds[..n] == Kinds[..n - 1] + [Kinds[n - 1]];
      assert Kinds[n - 1] !in Kinds[..n - 1];
    }
  }

  /** The failed kinds are listed in attempt order. */
  lemma {:induction false} FailedKindsOrdered(stem: string, clock: seq<string>, runs: seq<LlmRun>,
                                              processed: set<string>, n: nat)
    requires n <= 3
    ensures var fk := FailedKinds(stem, clock, runs, processed, n);
            forall a, b :: 0 <= a < b < |fk| ==> IndexOfKind(fk[a]) < IndexOfKind(fk[b])
  {
    if n > 0 {
      FailedKindsOrdered(stem, clock, runs, processed, n - 1);
      FailedKindsMembers(stem, clock, runs, processed, n - 1);
      var fk := FailedKinds(stem, clock, runs, processed, n - 1);
      forall k | k in fk ensures IndexOfKind(k) < n - 1 {
        assert k in Kinds[..n - 1];
      }
    }
  }

  /** A mail succeeds exactly when no kind failed, and that outcome is consistent with its
      three runs. */
  lemma FailedKindsConsistent(stem: string, clock: seq<string>, runs: seq<LlmRun>, processed: set<string>)
    ensures Consistent(runs, FailedKinds(stem, clock, runs, processed, 3) == [])
  {
    FailedKindsSpec(stem, clock, runs, processed, 3);
    var fk := FailedKinds(stem, clock, runs, processed, 3);
    if BadExit(runs) {
      assert Kinds[0] in fk || Kinds[1] in fk || Kinds[2] in fk;
    }
  }

  /** Position of a kind in the attempt order. */
  function IndexOfKind(k: string): nat {
    if k == "problem" then 0 else if k == "solution" then 1 else if k == "asset" then 2 else 3
  }

  /** No export of a later kind is among the exports of the earlier ones. */
  lemma LaterNotExported(stem: string, clock: seq<string>, runs: seq<LlmRun>, i: nat)
    requires i < 3
    ensures KindName(stem, clock, i) !in Exports(stem, clock, runs, i)
  {
    if KindName(stem, clock, i) in Exports(stem, clock, runs, i) {
      var j :| 0 <= j < i && KindName(stem, clock, i) == KindName(stem, clock, j);
      OutputNamesDiffer(stem, NowAt(clock, i), NowAt(clock, j), i, j);
    }
  }

  /** Number of `true` entries. */
  function Trues(results: seq<bool>): (n: nat)
    ensures n <= |results|
    ensures n == |results| <==> forall i :: 0 <= i < |results| ==> results[i]
  {
    if |results| == 0 then 0
    else Trues(results[..|results| - 1]) + (if results[|results| - 1] then 1 else 0)
  }

  /** The three directories the extraction works on (`processed/` is both the output
      directory and the destination of finished mails). */
  datatype Store = Store(mails: set<string>, processed: set<string>, failed: set<string>)

  /** `process_mail` on `mail` over the directories `s`, the `k`-th kind reading the clock
      as `clock[k]`: whether it succeeded, and the directories afterwards. */
  function MailOutcome(mail: string, clock: seq<string>, runs: seq<LlmRun>, s: Store): (bool, Store) {
    var ok := FailedKinds(Stem(mail), clock, runs, s.processed, 3) == [];
    (ok, Store(s.mails - {mail},
               s.processed + Exports(Stem(mail), clock, runs, 3) + (if ok then {mail} else {}),
               s.failed + (if ok then {} else {mail})))
  }

  /** The directories after a prefix of the selection, and the outcome of each mail. */
  datatype Progress = Progress(store: Store, results: seq<bool>)

  /** The loop of `main` over `selected`, from the directories `s`: each mail is processed
      on the directories its predecessors left behind. */
  function Extraction(selected: seq<string>, clocks: seq<seq<string>>, runs: seq<seq<LlmRun>>, s: Store): Progress
    decreases |selected|
  {
    if selected == [] then Progress(s, [])
    else
      var n := |selected| - 1;
      var before := Extraction(selected[..n], clocks, runs, s);
      var out := MailOutcome(selected[n], ClockFor(clocks, n), RunsFor(runs, n), before.store);
      Progress(out.1, before.results + [out.0])
  }

  /** One mail's outcome: the mail leaves `mails/` and lands where its outcome says, the
      outcome is consistent with its runs, and nothing is removed from either output
      directory. */
  lemma MailOutcomeSpec(mail: string, clock: seq<string>, runs: seq<LlmRun>, s: Store)
    ensures var out := MailOutcome(mail, clock, runs, s);
            && out.1.mails == s.mails - {mail}
            && mail in (if out.0 then out.1.processed else out.1.failed)
            && Consistent(runs, out.0)
            && s.processed <= out.1.processed && s.failed <= out.1.failed
  {
    FailedKindsConsistent(Stem(mail), clock, runs, s.processed);
  }

  /** What the loop of `main` has left behind after the mails `selected`, started from
      the directories `s`. */
  ghost predicate Settled(selected: seq<string>, runs: seq<seq<LlmRun>>, s: Store, r: Progress) {
    && |r.results| == |selected|
    && (forall m :: m in r.store.mails <==> m in s.mails && m !in selected)
    && (forall i :: 0 <= i < |selected| ==>
          selected[i] in (if r.results[i] then r.store.processed else r.store.failed))
    && (forall i :: 0 <= i < |selected| ==> Consistent(RunsFor(runs, i), r.results[i]))
    && s.processed <= r.store.processed && s.failed <= r.store.failed
  }

  /** One more mail keeps the loop's account settled. */
  lemma SettledStep(selected: seq<string>, runs: seq<seq<LlmRun>>, s: Store, before: Progress,
                    ok: bool, t: Store)
    requires selected != []
    requires Settled(selected[..|selected| - 1], runs, s, before)
    requires t.mails == before.store.mails - {selected[|selected| - 1]}
    requires selected[|selected| - 1] in (if ok then t.processed else t.failed)
    requires Consistent(RunsFor(runs, |selected| - 1), ok)
    requires before.store.processed <= t.processed && before.store.failed <= t.failed
    ensures Settled(selected, runs, s, Progress(t, before.results + [ok]))
  {
    var n := |selected| - 1;
    forall m ensures m in t.mails <==> m in s.mails && m !in selected {
      assert m in selected <==> m in selected[..n] || m == selected[n];
    }
    forall i | 0 <= i < n ensures selected[i] == selected[..n][i] {
    }
  }

  /** What the loop of `main` leaves behind: one outcome per selected mail, the selected
      mails gone from `mails/`, each in `processed/` or `failed/` as its outcome says, that
      outcome consistent with the mail's runs, and nothing removed from either directory. */
  lemma {:induction false} ExtractionSpec(selected: seq<string>, clocks: seq<seq<string>>, runs: seq<seq<LlmRun>>, s: Store)
    ensures Settled(selected, runs, s, Extraction(selected, clocks, runs, s))
  {
    if selected != [] {
      var n := |selected| - 1;
      var pre := selected[..n];
      ExtractionSpec(pre, clocks, runs, s);
      var before := Extraction(pre, clocks, runs, s);
      MailOutcomeSpec(selected[n], ClockFor(clocks, n), RunsFor(runs, n), before.store);
      var out := MailOutcome(selected[n], ClockFor(clocks, n), RunsFor(runs, n), before.store);
      SettledStep(selected, runs, s, before, out.0, out.1);
    }
  }

  /** The fold over one more mail is that mail's outcome on the directories the fold
      left behind. */
  lemma ExtractionNext(selected: seq<string>, i: nat, clocks: seq<seq<string>>, runs: seq<seq<LlmRun>>, s: Store)
    requires i < |selected|
    ensures var p := Extraction(selected[..i], clocks, runs, s);
            var out := MailOutcome(selected[i], ClockFor(clocks, i), RunsFor(runs, i), p.store);
            Extraction(selected[..i + 1], clocks, runs, s) == Progress(out.1, p.results + [out.0])
  {
    assert selected[..i + 1][..i] == selected[..i];
  }

  class Extractor {
    var mails: set<string>
    var processed: set<string>
    var failed: set<string>

    constructor (mails: set<string>, processed: set<string>, failed: set<string>)
      ensures this.mails == mails && this.processed == processed && this.failed == failed
    {
      this.mails := mails;
      this.processed := processed;
      this.failed := failed;
    }

    /** The three directories as they stand. */
    function State(): Store
      reads this
    {
      Store(mails, processed, failed)
    }

    /** `extract_json`: an unknown kind fails before anything runs; otherwise the client
        exports to `OutputName`, and the extraction succeeds iff it exits 0 and the export
        exists afterwards. */
    method ExtractJson(mail: string, kind: string, now: string, run: LlmRun)
      returns (ok: bool, output: Option<string>)
      modifies this`processed
      ensures kind !in Kinds ==> !ok && output.None? && processed == old(processed)
      ensures kind in Kinds ==>
                processed == AfterRun(run, OutputName(Stem(mail), now, kind), old(processed))
      ensures ok <==> kind in Kinds && Succeeded(run, OutputName(Stem(mail), now, kind), old(processed))
      ensures ok ==> output == Some(OutputName(Stem(mail), now, kind)) && output.value in processed
      ensures !ok ==> output.None?
    {
      if kind !in Kinds {
        return false, None;
      }
      var path := OutputName(Stem(mail), now, kind);
      processed := AfterRun(run, path, processed);
      if run.ending == Exited(0) && path in processed {
        ok, output := true, Some(path);
      } else {
        ok, output := false, None;
      }
    }

    /** `process_mail`: all three kinds are attempted, whatever fails, the `i`-th kind
        observing `runs[i]` and reading the clock as `clock[i]`; then the mail moves to
        `processed/` iff none failed, and to `failed/` otherwise. */
    method ProcessMail(mail: string, clock: seq<string>, runs: seq<LlmRun>)
      returns (ok: bool, failedKinds: seq<string>)
      requires mail in mails
      modifies this`mails, this`processed, this`failed
      ensures failedKinds == FailedKinds(Stem(mail), clock, runs, old(processed), 3)
      ensures ok <==> failedKinds == []
      ensures mails == old(mails) - {mail}
      ensures processed == old(processed) + Exports(Stem(mail), clock, runs, 3) + (if ok then {mail} else {})
      ensures failed == old(failed) + (if ok then {} else {mail})
      ensures (ok, State()) == MailOutcome(mail, clock, runs, old(State()))
    {
      var stem := Stem(mail);
      failedKinds := [];
      for i := 0 to 3
        invariant processed == old(processed) + Exports(stem, clock, runs, i)
        invariant failedKinds == FailedKinds(stem, clock, runs, old(processed), i)
        invariant mails == old(mails) && failed == old(failed)
      {
        LaterNotExported(stem, clock, runs, i);
        var success, _ := ExtractJson(mail, Kinds[i], NowAt(clock, i), RunAt(runs, i));
        if !success {
          failedKinds := failedKinds + [Kinds[i]];
        }
      }
      ok := failedKinds == [];
      mails := mails - {mail};
      if ok {
        processed := processed + {mail};
      } else {
        failed := failed + {mail};
      }
    }

    /** The extraction run (`main`) over `listing`, the `*.eml` names of `mails/` in glob
        order: oldest first, selected by `--latest`/`--limit`, each selected mail processed
        once (the `i`-th observing `runs[i]` and the clock readings `clocks[i]`) on the
        directories its predecessors left, and exit 0 iff every one succeeded. */
    method Run(listing: seq<string>, rank: string -> int, latest: bool, limit: Option<int>,
               clocks: seq<seq<string>>, runs: seq<seq<LlmRun>>)
      returns (exit: int, selected: seq<string>, results: seq<bool>)
      requires Distinct(listing) && forall n :: n in listing ==> n in mails
      modifies this`mails, this`processed, this`failed
      ensures var sorted := SortByRank(listing, rank);
              && (sorted == [] ==> selected == [] && exit == 0)
              && (sorted != [] ==> selected == Select(sorted, latest, limit))
      ensures Progress(State(), results) == Extraction(selected, clocks, runs, old(State()))
      ensures |results| == |selected|
      ensures exit == ExitCode(Trues(results), |selected|)
      ensures exit == 0 <==> forall i :: 0 <= i < |results| ==> results[i]
      ensures forall m :: m in mails <==> m in old(mails) && m !in selected
      ensures forall i :: 0 <= i < |selected| ==> selected[i] in (if results[i] then processed else failed)
      ensures forall i :: 0 <= i < |selected| ==> Consistent(RunsFor(runs, i), results[i])
      ensures old(processed) <= processed && old(failed) <= failed
    {
      var sorted := SortByRank(listing, rank);
      if sorted == [] {
        return 0, [], [];
      }
      SortByRankDistinct(listing, rank);
      SortByRankCorrect(listing, rank);
      SelectKeepsOrder(sorted, latest, limit, rank);
      forall m | m in sorted ensures m in listing {
        assert m in multiset(sorted);
      }
      selected := Select(sorted, latest, limit);
      results := ProcessAll(selected, clocks, runs);
      exit := ExitCode(Trues(results), |selected|);
    }

    /** The loop of `main`: `process_mail` on each selected mail in turn. */
    method ProcessAll(selected: seq<string>, clocks: seq<seq<string>>, runs: seq<seq<LlmRun>>)
      returns (results: seq<bool>)
      requires Distinct(selected) && forall m :: m in selected ==> m in mails
      modifies this`mails, this`processed, this`failed
      ensures Progress(State(), results) == Extraction(selected, clocks, runs, old(State()))
      ensures |results| == |selected|
      ensures forall m :: m in mails <==> m in old(mails) && m !in selected
      ensures forall i :: 0 <= i < |selected| ==> selected[i] in (if results[i] then processed else failed)
      ensures forall i :: 0 <= i < |selected| ==> Consistent(RunsFor(runs, i), results[i])
      ensures old(processed) <= processed && old(failed) <= failed
    {
      results := [];
      var i := 0;
      while i < |selected|
        invariant 0 <= i <= |selected|
        invariant Progress(State(), results) == Extraction(selected[..i], clocks, runs, old(State()))
        invariant forall j :: i <= j < |selected| ==> selected[j] in mails
      {
        var ok, _ := ProcessMail(selected[i], ClockFor(clocks, i), RunsFor(runs, i));
        assert forall j :: i < j < |selected| ==> selected[j] != selected[i];
        ExtractionNext(selected, i, clocks, runs, old(State()));
        results := results + [ok];
        i := i + 1;
      }
      assert selected[..i] == selected;
      ExtractionSpec(selected, clocks, runs, old(State()));
    }
  }

  /** A run that exits 0 and writes its export. */
  predicate Clean(r: LlmRun) {
    r.ending == Exited(0) && r.exported
  }

  /** One of the three runs did not exit with 0. */
  predicate BadExit(runs: seq<LlmRun>) {
    RunAt(runs, 0).ending != Exited(0) || RunAt(runs, 1).ending != Exited(0) || RunAt(runs, 2).ending != Exited(0)
  }

  /** What a mail's outcome says about its three runs: one bad exit makes it fail, three
      clean runs make it succeed (in between, a stale export decides). */
  predicate Consistent(runs: seq<LlmRun>, ok: bool) {
    && (BadExit(runs) ==> !ok)
    && (Clean(RunAt(runs, 0)) && Clean(RunAt(runs, 1)) && Clean(RunAt(runs, 2)) ==> ok)
  }

  /** The runs observed for the `i`-th selected mail. */
  function RunsFor(runs: seq<seq<LlmRun>>, i: nat): seq<LlmRun> {
    if i < |runs| then runs[i] else []
  }

  /** The clock readings of the `i`-th selected mail, one per kind. */
  function ClockFor(clocks: seq<seq<string>>, i: nat): seq<string> {
    if i < |clocks| then clocks[i] else []
  }
}
