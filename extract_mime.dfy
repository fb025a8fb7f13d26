// The MIME-decoding variant of the extraction batch: before each extraction the mail is
// parsed, its plain-text body (or its HTML body when the plain one is empty) is written
// to a temporary `{stem}_decoded.txt` next to the mail, the LLM client reads that file
// instead of the raw `.eml`, and the temporary file is removed again on every path.
// Selection, per-mail routing and exit status are those of the plain extraction batch.

module ExtractMime {
  import opened Common
  import opened Batch
  import opened Extract

  /** The two bodies the mail parser returns. */
  datatype Body = Body(plain: string, html: string)

  /** `parsed['body']['plain'] or parsed['body']['html']`. */
  function BodyText(b: Body): (text: string)
    ensures text == "" <==> b.plain == "" && b.html == ""
    ensures b.plain != "" ==> text == b.plain
  {
    if b.plain != "" then b.plain else b.html
  }

  /** The decoded temporary file, in the mail's own directory. */
  function TempName(stem: string): string {
    stem + "_decoded.txt"
  }

  /** The temporary file is never taken for a mail: `*.eml` does not list it. */
  lemma TempNeverListed(stem: string)
    ensures !GlobStar(TempName(stem), ".eml")
  {
    var t := TempName(stem);
    assert t[|t| - 1] == 't';
  }

  /** The mail has a body to give to the LLM client: it parsed, and its text is non-empty. */
  predicate Decodable(parsed: Option<Body>) {
    parsed.Some? && BodyText(parsed.value) != ""
  }

  /** The run an extraction effectively observes: the client's own run when the body was
      decoded and written, otherwise one that raised and exported nothing (the client is
      never started). */
  function Effective(parsed: Option<Body>, written: bool, run: LlmRun): (r: LlmRun)
    ensures !(Decodable(parsed) && written) ==> !r.exported && r.ending != Exited(0)
  {
    if Decodable(parsed) && written then run else NoRun
  }

  /** What one mail observes: its parse result (None when parsing fails or raises), and
      for each kind whether the temporary file was written, how the client ran and what
      the clock read when the export was named. */
  datatype MailRuns = MailRuns(parsed: Option<Body>, writes: seq<bool>, runs: seq<LlmRun>, clock: seq<string>)

  function WrittenAt(writes: seq<bool>, i: nat): bool {
    i < |writes| && writes[i]
  }

  /** The effective runs of the three kinds. */
  function EffectiveRuns(o: MailRuns): (rs: seq<LlmRun>)
    ensures |rs| == 3
    ensures forall i :: 0 <= i < 3 ==> rs[i] == Effective(o.parsed, WrittenAt(o.writes, i), RunAt(o.runs, i))
  {
    seq(3, i requires 0 <= i < 3 => Effective(o.parsed, WrittenAt(o.writes, i), RunAt(o.runs, i)))
  }

  /** A mail without a decodable body fails all three kinds without starting the client. */
  lemma UndecodableFailsAll(stem: string, o: MailRuns, processed: set<string>)
    requires !Decodable(o.parsed)
    ensures FailedKinds(stem, o.clock, EffectiveRuns(o), processed, 3) == Kinds
    ensures Exports(stem, o.clock, EffectiveRuns(o), 3) == {}
  {
    var rs := EffectiveRuns(o);
    var c := o.clock;
    assert !RunAt(rs, 0).exported && !RunAt(rs, 1).exported && !RunAt(rs, 2).exported;
    assert !Succeeded(RunAt(rs, 0), KindName(stem, c, 0), processed);
    assert !Succeeded(RunAt(rs, 1), KindName(stem, c, 1), processed);
    assert !Succeeded(RunAt(rs, 2), KindName(stem, c, 2), processed);
    assert FailedKinds(stem, c, rs, processed, 1) == [Kinds[0]];
    assert FailedKinds(stem, c, rs, processed, 2) == [Kinds[0], Kinds[1]];
    assert Exports(stem, c, rs, 1) == {};
    assert Exports(stem, c, rs, 2) == {};
  }

  /** `process_mail` of the decoding variant on `mail` over the directories `s` (`mails`
      being every file of the mail directory): whether it succeeded, and the directories
      afterwards. */
  function MimeOutcome(mail: string, o: MailRuns, s: Store): (bool, Store) {
    var rs := EffectiveRuns(o);
    var ok := FailedKinds(Stem(mail), o.clock, rs, s.processed, 3) == [];
    (ok, Store(s.mails - {mail} - (if Decodable(o.parsed) then {TempName(Stem(mail))} else {}),
               s.processed + Exports(Stem(mail), o.clock, rs, 3) + (if ok then {mail} else {}),
               s.failed + (if ok then {} else {mail})))
  }

  /** The loop of `main` of the decoding variant over `selected`, from the directories
      `s`: each mail is processed on the directories its predecessors left behind. */
  function MimeExtraction(selected: seq<string>, obs: seq<MailRuns>, s: Store): Progress
    decreases |selected|
  {
    if selected == [] then Progress(s, [])
    else
      var n := |selected| - 1;
      var before := MimeExtraction(selected[..n], obs, s);
      var out := MimeOutcome(selected[n], ObsFor(obs, n), before.store);
      Progress(out.1, before.results + [out.0])
  }

  /** One mail's outcome: the mail leaves the mail directory, which loses no other
      `*.eml` file; it lands where its outcome says; the outcome is consistent with its
      effective runs and a failure when the body is not decodable; and nothing is removed
      from either output directory. */
  lemma MimeOutcomeSpec(mail: string, o: MailRuns, s: Store)
    ensures var out := MimeOutcome(mail, o, s);
            && (forall n :: GlobStar(n, ".eml") ==> (n in out.1.mails <==> n in s.mails && n != mail))
            && mail in (if out.0 then out.1.processed else out.1.failed)
            && Consistent(EffectiveRuns(o), out.0)
            && (!Decodable(o.parsed) ==> !out.0)
            && s.processed <= out.1.processed && s.failed <= out.1.failed
  {
    TempNeverListed(Stem(mail));
    FailedKindsConsistent(Stem(mail), o.clock, EffectiveRuns(o), s.processed);
    if !Decodable(o.parsed) {
      UndecodableFailsAll(Stem(mail), o, s.processed);
    }
  }

  /** What the loop of `main` has left behind after the mails `selected`, started from
      the directories `s`. */
  ghost predicate MimeSettled(selected: seq<string>, obs: seq<MailRuns>, s: Store, r: Progress) {
    && |r.results| == |selected|
    && (forall n :: GlobStar(n, ".eml") ==> (n in r.store.mails <==> n in s.mails && n !in selected))
    && (forall i :: 0 <= i < |selected| ==>
          selected[i] in (if r.results[i] then r.store.processed else r.store.failed))
    && (forall i :: 0 <= i < |selected| ==> Consistent(EffectiveRuns(ObsFor(obs, i)), r.results[i]))
    && (forall i :: 0 <= i < |selected| && !Decodable(ObsFor(obs, i).parsed) ==> !r.results[i])
    && s.processed <= r.store.processed && s.failed <= r.store.failed
  }

  /** One more mail keeps the loop's account settled. */
  lemma MimeSettledStep(pre: seq<string>, mail: string, obs: seq<MailRuns>, s: Store, before: Progress,
                        ok: bool, t: Store)
    requires MimeSettled(pre, obs, s, before)
    requires forall n :: GlobStar(n, ".eml") ==> (n in t.mails <==> n in before.store.mails && n != mail)
    requires mail in (if ok then t.processed else t.failed)
    requires Consistent(EffectiveRuns(ObsFor(obs, |pre|)), ok)
    requires !Decodable(ObsFor(obs, |pre|).parsed) ==> !ok
    requires before.store.processed <= t.processed && before.store.failed <= t.failed
    ensures MimeSettled(pre + [mail], obs, s, Progress(t, before.results + [ok]))
  {
    var selected := pre + [mail];
    forall n | GlobStar(n, ".eml") ensures n in t.mails <==> n in s.mails && n !in selected {
      assert n in selected <==> n in pre || n == mail;
    }
    forall i | 0 <= i < |pre| ensures selected[i] == pre[i] {
    }
  }

  /** What the loop leaves behind: one outcome per selected mail; among the `*.eml` files
      exactly the selected ones leave the mail directory; each selected mail is in
      `processed/` or `failed/` as its outcome says; that outcome is consistent with its
      effective runs, and a mail without a decodable body fails; nothing is removed from
      either output directory. */
  lemma {:induction false} MimeExtractionSpec(selected: seq<string>, obs: seq<MailRuns>, s: Store)
    ensures MimeSettled(selected, obs, s, MimeExtraction(selected, obs, s))
  {
    if selected != [] {
      var n := |selected| - 1;
      var pre := selected[..n];
      MimeExtractionSpec(pre, obs, s);
      var before := MimeExtraction(pre, obs, s);
      MimeOutcomeSpec(selected[n], ObsFor(obs, n), before.store);
      var out := MimeOutcome(selected[n], ObsFor(obs, n), before.store);
      MimeSettledStep(pre, selected[n], obs, s, before, out.0, out.1);
      assert selected == pre + [selected[n]];
    }
  }

  /** The fold over one more mail is that mail's outcome on the directories the fold
      left behind. */
  lemma MimeExtractionNext(selected: seq<string>, i: nat, obs: seq<MailRuns>, s: Store)
    requires i < |selected|
    ensures var p := MimeExtraction(selected[..i], obs, s);
            var out := MimeOutcome(selected[i], ObsFor(obs, i), p.store);
            MimeExtraction(selected[..i + 1], obs, s) == Progress(out.1, p.results + [out.0])
  {
    assert selected[..i + 1][..i] == selected[..i];
  }

  /** The storage directories: `mailDir` holds every file of `mails/`, `.eml` or not. */
  class MimeExtractor {
    var mailDir: set<string>
    var processed: set<string>
    var failed: set<string>

    constructor (mailDir: set<string>, processed: set<string>, failed: set<string>)
      ensures this.mailDir == mailDir && this.processed == processed && this.failed == failed
    {
      this.mailDir := mailDir;
      this.processed := processed;
      this.failed := failed;
    }

    /** The three directories as they stand, `mails` being every file of `mailDir`. */
    function State(): Store
      reads this
    {
      Store(mailDir, processed, failed)
    }

    /** `extract_json` of the decoding variant. An unknown kind is rejected before any
        decoding; a failed parse or an empty body fails without starting the client. Once
        the temporary file is named, it is removed on every path (write error, non-zero
        exit, timeout, exception, success), so only it and no mail leaves `mailDir`. The
        client reads the temporary file (`mailbody`), and the extraction succeeds iff it
        exits 0 and the export exists afterwards. */
    method ExtractJson(mail: string, kind: string, now: string, parsed: Option<Body>, written: bool,
                       run: LlmRun)
      returns (ok: bool, output: Option<string>, mailbody: Option<string>)
      modifies this`mailDir, this`processed
      ensures kind !in Kinds || !Decodable(parsed) ==>
                !ok && output.None? && mailbody.None? &&
                mailDir == old(mailDir) && processed == old(processed)
      ensures kind in Kinds && Decodable(parsed) ==> mailDir == old(mailDir) - {TempName(Stem(mail))}
      ensures mailbody.Some? <==> kind in Kinds && Decodable(parsed) && written
      ensures mailbody.Some? ==> mailbody.value == TempName(Stem(mail))
      ensures kind in Kinds ==>
                processed == AfterRun(Effective(parsed, written, run), OutputName(Stem(mail), now, kind),
                                      old(processed))
      ensures ok <==> kind in Kinds &&
                      Succeeded(Effective(parsed, written, run), OutputName(Stem(mail), now, kind), old(processed))
      ensures ok ==> output == Some(OutputName(Stem(mail), now, kind)) && output.value in processed
      ensures !ok ==> output.None?
      ensures forall n :: GlobStar(n, ".eml") ==> (n in mailDir <==> n in old(mailDir))
    {
      TempNeverListed(Stem(mail));
      if kind !in Kinds {
        return false, None, None;
      }
      var path := OutputName(Stem(mail), now, kind);
      if parsed.None? {
        return false, None, None;
      }
      var text := BodyText(parsed.value);
      if text == "" {
        return false, None, None;
      }
      var temp := TempName(Stem(mail));
      if !written {
        // the write raised, possibly after creating the file: removed when present
        if temp in mailDir {
          mailDir := mailDir - {temp};
        }
        return false, None, None;
      }
      mailDir := mailDir + {temp};
      mailbody := Some(temp);
      processed := AfterRun(run, path, processed);
      if temp in mailDir {
        mailDir := mailDir - {temp};
      }
      if run.ending == Exited(0) && path in processed {
        ok, output := true, Some(path);
      } else {
        ok, output := false, None;
      }
    }

    /** `process_mail` of the decoding variant: as in the plain batch, judged on the
        effective runs, and the mail directory loses the mail and, once a body was
        decoded, the temporary file. */
    method ProcessMail(mail: string, o: MailRuns)
      returns (ok: bool, failedKinds: seq<string>)
      requires mail in mailDir
      modifies this`mailDir, this`processed, this`failed
      ensures failedKinds == FailedKinds(Stem(mail), o.clock, EffectiveRuns(o), old(processed), 3)
      ensures ok <==> failedKinds == []
      ensures mailDir == old(mailDir) - {mail} - (if Decodable(o.parsed) then {TempName(Stem(mail))} else {})
      ensures processed == old(processed) + Exports(Stem(mail), o.clock, EffectiveRuns(o), 3) +
                           (if ok then {mail} else {})
      ensures failed == old(failed) + (if ok then {} else {mail})
      ensures (ok, State()) == MimeOutcome(mail, o, old(State()))
    {
      failedKinds := ExtractKinds(mail, o);
      ok := failedKinds == [];
      mailDir := mailDir - {mail};
      if ok {
        processed := processed + {mail};
      } else {
        failed := failed + {mail};
      }
    }

    /** The three extractions of `process_mail`, attempted whatever fails. */
    method ExtractKinds(mail: string, o: MailRuns) returns (failedKinds: seq<string>)
      modifies this`mailDir, this`processed
      ensures failedKinds == FailedKinds(Stem(mail), o.clock, EffectiveRuns(o), old(processed), 3)
      ensures mailDir == old(mailDir) - (if Decodable(o.parsed) then {TempName(Stem(mail))} else {})
      ensures processed == old(processed) + Exports(Stem(mail), o.clock, EffectiveRuns(o), 3)
    {
      var stem := Stem(mail);
      var rs := EffectiveRuns(o);
      failedKinds := [];
      for i := 0 to 3
        invariant processed == old(processed) + Exports(stem, o.clock, rs, i)
        invariant failedKinds == FailedKinds(stem, o.clock, rs, old(processed), i)
        invariant mailDir == old(mailDir) - (if Decodable(o.parsed) && i > 0 then {TempName(stem)} else {})
      {
        LaterNotExported(stem, o.clock, rs, i);
        SucceededIgnoresOthers(RunAt(rs, i), KindName(stem, o.clock, i), old(processed), Exports(stem, o.clock, rs, i));
        var success := ExtractKind(mail, o, i);
        if !success {
          failedKinds := failedKinds + [Kinds[i]];
        }
      }
    }

    /** `extract_json` on the `i`-th kind, seen through its effective run. */
    method ExtractKind(mail: string, o: MailRuns, i: nat) returns (success: bool)
      requires i < 3
      modifies this`mailDir, this`processed
      ensures processed == AfterRun(RunAt(EffectiveRuns(o), i), KindName(Stem(mail), o.clock, i), old(processed))
      ensures success <==> Succeeded(RunAt(EffectiveRuns(o), i), KindName(Stem(mail), o.clock, i), old(processed))
      ensures mailDir == old(mailDir) - (if Decodable(o.parsed) then {TempName(Stem(mail))} else {})
    {
      assert RunAt(EffectiveRuns(o), i) == Effective(o.parsed, WrittenAt(o.writes, i), RunAt(o.runs, i));
      var output, mailbody;
      success, output, mailbody := ExtractJson(mail, Kinds[i], NowAt(o.clock, i), o.parsed,
                                               WrittenAt(o.writes, i), RunAt(o.runs, i));
    }

    /** The run (`main`) over `listing`, the `*.eml` names of the mail directory in glob
        order: oldest first, selected by `--latest`/`--limit`, each selected mail processed
        once (the `i`-th observing `obs[i]`) on the directories its predecessors left, exit
        0 iff every one succeeded. */
    method Run(listing: seq<string>, rank: string -> int, latest: bool, limit: Option<int>,
               obs: seq<MailRuns>)
      returns (exit: int, selected: seq<string>, results: seq<bool>)
      requires Distinct(listing)
      requires forall n :: n in listing ==> n in mailDir && GlobStar(n, ".eml")
      modifies this`mailDir, this`processed, this`failed
      ensures var sorted := SortByRank(listing, rank);
              && (sorted == [] ==> selected == [] && exit == 0)
              && (sorted != [] ==> selected == Select(sorted, latest, limit))
      ensures Progress(State(), results) == MimeExtraction(selected, obs, old(State()))
      ensures |results| == |selected|
      ensures exit == ExitCode(Trues(results), |selected|)
      ensures exit == 0 <==> forall i :: 0 <= i < |results| ==> results[i]
      ensures forall n :: GlobStar(n, ".eml") ==> (n in mailDir <==> n in old(mailDir) && n !in selected)
      ensures forall i :: 0 <= i < |selected| ==> selected[i] in (if results[i] then processed else failed)
      ensures forall i :: 0 <= i < |selected| ==> Consistent(EffectiveRuns(ObsFor(obs, i)), results[i])
      ensures forall i :: 0 <= i < |selected| && !Decodable(ObsFor(obs, i).parsed) ==> !results[i]
      ensures old(processed) <= processed && old(failed) <= failed
    {
      var sorted := SortByRank(listing, rank);
      if sorted == [] {
        return 0, [], [];
      }
      SortByRankDistinct(listing, rank);
      SortByRankCorrect(listing, rank);
      SelectKeepsOrder(sorted, latest, limit, rank);
      forall m | m in sorted ensures m in listing {
        assert m in multiset(sorted);
      }
      selected := Select(sorted, latest, limit);
      results := ProcessAll(selected, obs);
      exit := ExitCode(Trues(results), |selected|);
    }

    /** The loop of `main`: `process_mail` on each selected mail in turn. */
    method ProcessAll(selected: seq<string>, obs: seq<MailRuns>) returns (results: seq<bool>)
      requires Distinct(selected)
      requires forall m :: m in selected ==> m in mailDir && GlobStar(m, ".eml")
      modifies this`mailDir, this`processed, this`failed
      ensures Progress(State(), results) == MimeExtraction(selected, obs, old(State()))
      ensures |results| == |selected|
      ensures forall n :: GlobStar(n, ".eml") ==> (n in mailDir <==> n in old(mailDir) && n !in selected)
      ensures forall i :: 0 <= i < |selected| ==> selected[i] in (if results[i] then processed else failed)
      ensures forall i :: 0 <= i < |selected| ==> Consistent(EffectiveRuns(ObsFor(obs, i)), results[i])
      ensures forall i :: 0 <= i < |selected| && !Decodable(ObsFor(obs, i).parsed) ==> !results[i]
      ensures old(processed) <= processed && old(failed) <= failed
    {
      results := [];
      var i := 0;
      while i < |selected|
        invariant 0 <= i <= |selected|
        invariant Progress(State(), results) == MimeExtraction(selected[..i], obs, old(State()))
        invariant forall j :: i <= j < |selected| ==> selected[j] in mailDir
      {
        TempNeverListed(Stem(selected[i]));
        var ok, _ := ProcessMail(selected[i], ObsFor(obs, i));
        assert forall j :: i < j < |selected| ==> selected[j] != selected[i] && GlobStar(selected[j], ".eml");
        MimeExtractionNext(selected, i, obs, old(State()));
        results := results + [ok];
        i := i + 1;
      }
      assert selected[..i] == selected;
      MimeExtractionSpec(selected, obs, old(State()));
    }
  }

  /** What the `i`-th selected mail observes; an unobserved mail does not parse. */
  function ObsFor(obs: seq<MailRuns>, i: nat): MailRuns {
    if i < |obs| then obs[i] else MailRuns(None, [], [], [])
  }
}
