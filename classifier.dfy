// The classification batch (stage 0): which mails still need a classification, which of
// them a run works on, how one classification is judged and named, and how the run is
// counted, summarised and turned into an exit status.

module Classifier {
  import opened Common
  import opened Batch

  // ---------------------------------------------------------------------------
  // Which mails need a classification

  /** A mail is still to be classified when `classified/` holds no
      `{key}_identifier.json` for its stem. */
  predicate NeedsClassification(name: string, classified: set<string>) {
    IdentifierFile(Stem(name)) !in classified
  }

  /** The listing as `get_unclassified_mails` filters it, in listing order: all of it with
      `--reclassify`, otherwise the mails that still need a classification. */
  function Pending(listing: seq<string>, classified: set<string>, reclassify: bool): seq<string>
  {
    if reclassify || |listing| == 0 then listing
    else
      var rest := Pending(listing[..|listing| - 1], classified, false);
      var last := listing[|listing| - 1];
      if NeedsClassification(last, classified) then rest + [last] else rest
  }

  /** The filter keeps exactly the mails without a classification (every mail with
      `--reclassify`), keeps their order and never invents or repeats one. */
  lemma PendingMembers(listing: seq<string>, classified: set<string>, reclassify: bool)
    ensures forall n :: n in Pending(listing, classified, reclassify) <==>
                          n in listing && (reclassify || NeedsClassification(n, classified))
    ensures Distinct(listing) ==> Distinct(Pending(listing, classified, reclassify))
    ensures |Pending(listing, classified, reclassify)| <= |listing|
  {
    PendingSelects(listing, classified, reclassify);
    if Distinct(listing) {
      PendingDistinct(listing, classified, reclassify);
    }
  }

  lemma {:induction false} PendingSelects(listing: seq<string>, classified: set<string>, reclassify: bool)
    ensures forall n :: n in Pending(listing, classified, reclassify) <==>
                          n in listing && (reclassify || NeedsClassification(n, classified))
    ensures |Pending(listing, classified, reclassify)| <= |listing|
  {
    if !reclassify && |listing| > 0 {
      var init := listing[..|listing| - 1];
      PendingSelects(init, classified, false);
      assert listing == init + [listing[|listing| - 1]];
    }
  }

  lemma {:induction false} PendingDistinct(listing: seq<string>, classified: set<string>, reclassify: bool)
    requires Distinct(listing)
    ensures Distinct(Pending(listing, classified, reclassify))
  {
    if !reclassify && |listing| > 0 {
      var init := listing[..|listing| - 1];
      var last := listing[|listing| - 1];
      assert Distinct(init) by {
        forall i, j | 0 <= i < j < |init| ensures init[i] != init[j] {
          assert init[i] == listing[i] && init[j] == listing[j];
        }
      }
      PendingDistinct(init, classified, false);
      PendingSelects(init, classified, false);
      assert last !in init by {
        forall k | 0 <= k < |init| ensures init[k] != last {
          assert init[k] == listing[k];
        }
      }
    }
  }

  /** The daemon's filter over the same directory listing selects the same mails: the
      two components agree on what "unclassified" means. */
  lemma AgreesWithDaemon(listing: seq<string>, mails: set<string>, classified: set<string>)
    requires forall n :: n in listing <==> n in mails && GlobStar(n, ".eml")
    ensures forall n :: n in Pending(listing, classified, false) <==> n in Unclassified(mails, classified)
  {
    PendingMembers(listing, classified, false);
  }

  /** `get_unclassified_mails`: the pending mails of `listing` (the `*.eml` names of the
      mail directory, in glob order; empty when the directory does not exist), oldest
      first by `rank`. */
  method GetUnclassifiedMails(listing: seq<string>, classified: set<string>, reclassify: bool,
                              rank: string -> int)
    returns (mails: seq<string>)
    ensures mails == SortByRank(Pending(listing, classified, reclassify), rank)
    ensures SortedBy(mails, rank)
    ensures forall n :: n in mails <==> n in listing && (reclassify || NeedsClassification(n, classified))
    ensures Distinct(listing) ==> Distinct(mails)
  {
    var unclassified: seq<string>;
    if reclassify {
      unclassified := listing;
    } else {
      unclassified := [];
      var i := 0;
      while i < |listing|
        invariant 0 <= i <= |listing|
        invariant unclassified == Pending(listing[..i], classified, false)
      {
        assert listing[..i + 1][..i] == listing[..i];
        if NeedsClassification(listing[i], classified) {
          unclassified := unclassified + [listing[i]];
        }
        i := i + 1;
      }
      assert listing[..i] == listing;
    }
    mails := SortByRank(unclassified, rank);
    PendingMembers(listing, classified, reclassify);
    SortByRankCorrect(unclassified, rank);
    if Distinct(listing) {
      SortByRankDistinct(unclassified, rank);
    }
    forall n ensures n in mails <==> n in unclassified {
      assert n in mails <==> n in multiset(mails);
      assert n in unclassified <==> n in multiset(unclassified);
    }
  }

  // ---------------------------------------------------------------------------
  // One classification

  /** What `classify_mail` returns: success, the output path, the loaded data. */
  datatype Outcome = Outcome(success: bool, output: Option<string>, data: Option<Json>)

  /** The classification file the LLM is told to export to. */
  function ClassifyOutputName(stem: string, now: string): string {
    MailKey(stem, now) + "_identifier.json"
  }

  /** `classify_mail` with `classified/` as it is before the run: `parsed` is the export
      file's content as `json.load` reads it afterwards (None when it cannot be parsed). */
  function ClassifyMail(stem: string, now: string, run: LlmRun, parsed: Option<Json>,
                        classified: set<string>): (c: Outcome)
    ensures c.success <==> Succeeded(run, ClassifyOutputName(stem, now), classified)
    ensures c.success <==> c.output == Some(ClassifyOutputName(stem, now))
    ensures c.data.Some? ==> c.success && c.data == parsed
    ensures c.success && parsed.Some? ==> c.data == parsed
  {
    if Succeeded(run, ClassifyOutputName(stem, now), classified) then
      Outcome(true, Some(ClassifyOutputName(stem, now)), parsed)
    else Outcome(false, None, None)
  }

  /** A mail whose stem holds an underscore is no longer pending once its classification
      has been exported. */
  lemma ClassifiedMailLeavesQueue(name: string, now: string, classified: set<string>)
    requires '_' in Stem(name)
    ensures !NeedsClassification(name, classified + {ClassifyOutputName(Stem(name), now)})
  {
    MailKeyAgreesWithKey(Stem(name), now);
  }

  /** A mail whose stem has a single segment is exported under the current time, not
      under its own key, so unless the clock reads as its stem it stays pending and is
      classified again by the next run. */
  lemma SingleSegmentStaysPending(name: string, now: string, classified: set<string>)
    requires '_' !in Stem(name) && now != Stem(name)
    requires NeedsClassification(name, classified)
    ensures NeedsClassification(name, classified + {ClassifyOutputName(Stem(name), now)})
  {
    MailKeyAgreesWithKey(Stem(name), now);
    SameSuffixCancels(Key(Stem(name)), MailKey(Stem(name), now), "_identifier.json");
  }

  lemma SameSuffixCancels(a: string, b: string, suffix: string)
    ensures a + suffix == b + suffix ==> a == b
  {
    if a + suffix == b + suffix {
      assert a == (a + suffix)[..|a|];
      assert b == (b + suffix)[..|b|];
    }
  }

  // ---------------------------------------------------------------------------
  // The run

  function ParsedAt(parsed: seq<Option<Json>>, i: nat): Option<Json> {
    if i < |parsed| then parsed[i] else None
  }

  /** Where `main`'s loop stands after some mails: successes, failures, the data kept,
      and `classified/` as the runs so far have left it. */
  datatype Tally = Tally(successes: nat, failures: nat, data: seq<Json>, classified: set<string>)

  /** The loop over the first `n` selected mails: the `i`-th one observes `runs[i]`,
      `parsed[i]` and the clock reading `clock[i]`; a successful classification with truthy
      data contributes that data. */
  function TallyOf(selected: seq<string>, clock: seq<string>, runs: seq<LlmRun>, parsed: seq<Option<Json>>,
                   classified: set<string>, n: nat): (t: Tally)
    requires n <= |selected|
    ensures t.successes + t.failures == n
    ensures classified <= t.classified
  {
    if n == 0 then Tally(0, 0, [], classified)
    else
      var t := TallyOf(selected, clock, runs, parsed, classified, n - 1);
      var stem := Stem(selected[n - 1]);
      var c := ClassifyMail(stem, NowAt(clock, n - 1), RunAt(runs, n - 1), ParsedAt(parsed, n - 1), t.classified);
      var keep := c.data.Some? && Truthy(c.data.value);
      Tally(t.successes + (if c.success then 1 else 0),
            t.failures + (if c.success then 0 else 1),
            t.data + (if keep then [c.data.value] else []),
            AfterRun(RunAt(runs, n - 1), ClassifyOutputName(stem, NowAt(clock, n - 1)), t.classified))
  }

  /** Only successful classifications contribute data, and only truthy data is kept. */
  lemma {:induction false} TallyDataKept(selected: seq<string>, clock: seq<string>, runs: seq<LlmRun>,
                                         parsed: seq<Option<Json>>, classified: set<string>, n: nat)
    requires n <= |selected|
    ensures var t := TallyOf(selected, clock, runs, parsed, classified, n);
            |t.data| <= t.successes && forall k :: 0 <= k < |t.data| ==> Truthy(t.data[k])
  {
    if n > 0 {
      TallyDataKept(selected, clock, runs, parsed, classified, n - 1);
    }
  }

  /** A run that does not exit with 0 is a failure. */
  lemma {:induction false} BadExitFails(selected: seq<string>, clock: seq<string>, runs: seq<LlmRun>,
                                        parsed: seq<Option<Json>>, classified: set<string>, n: nat, i: nat)
    requires i < n <= |selected| && RunAt(runs, i).ending != Exited(0)
    ensures TallyOf(selected, clock, runs, parsed, classified, n).failures > 0
  {
    if i < n - 1 {
      BadExitFails(selected, clock, runs, parsed, classified, n - 1, i);
    }
  }

  /** When every run exits 0 and writes its export, nothing fails. */
  lemma {:induction false} CleanRunsSucceed(selected: seq<string>, clock: seq<string>, runs: seq<LlmRun>,
                                            parsed: seq<Option<Json>>, classified: set<string>, n: nat)
    requires n <= |selected|
    requires forall i :: 0 <= i < n ==> RunAt(runs, i).ending == Exited(0) && RunAt(runs, i).exported
    ensures TallyOf(selected, clock, runs, parsed, classified, n).failures == 0
  {
    if n > 0 {
      CleanRunsSucceed(selected, clock, runs, parsed, classified, n - 1);
    }
  }

  /** Every export a run writes is in `classified/` afterwards. */
  lemma {:induction false} ExportsLand(selected: seq<string>, clock: seq<string>, runs: seq<LlmRun>,
                                       parsed: seq<Option<Json>>, classified: set<string>, n: nat, i: nat)
    requires i < n <= |selected| && RunAt(runs, i).exported
    ensures ClassifyOutputName(Stem(selected[i]), NowAt(clock, i)) in TallyOf(selected, clock, runs, parsed, classified, n).classified
  {
    if i < n - 1 {
      ExportsLand(selected, clock, runs, parsed, classified, n - 1, i);
    }
  }

  /** After the run, every selected mail whose stem holds an underscore and whose run
      wrote its export is no longer pending. */
  lemma ExportedMailsLeaveQueue(selected: seq<string>, clock: seq<string>, runs: seq<LlmRun>,
                                parsed: seq<Option<Json>>, classified: set<string>, i: nat)
    requires i < |selected| && RunAt(runs, i).exported && '_' in Stem(selected[i])
    ensures !NeedsClassification(selected[i],
                                 TallyOf(selected, clock, runs, parsed, classified, |selected|).classified)
  {
    ExportsLand(selected, clock, runs, parsed, classified, |selected|, i);
    MailKeyAgreesWithKey(Stem(selected[i]), NowAt(clock, i));
  }

  /** The classification run (`main`): selects from the pending mails, classifies each in
      turn, and reports counts, collected data and exit status. Nothing pending exits 0
      at once. */
  method ClassifyAll(listing: seq<string>, classified: set<string>, reclassify: bool,
                     latest: bool, limit: Option<int>, rank: string -> int, clock: seq<string>,
                     runs: seq<LlmRun>, parsed: seq<Option<Json>>)
    returns (exit: int, selected: seq<string>, successCount: nat, failedCount: nat,
             classifications: seq<Json>)
    ensures var pending := SortByRank(Pending(listing, classified, reclassify), rank);
            && (pending == [] ==> selected == [] && exit == 0)
            && (pending != [] ==> selected == Select(pending, latest, limit))
    ensures var t := TallyOf(selected, clock, runs, parsed, classified, |selected|);
            successCount == t.successes && failedCount == t.failures && classifications == t.data
    ensures successCount + failedCount == |selected|
    ensures exit == 0 || exit == 1
    ensures exit == 0 <==> failedCount == 0 && StatsDoNotRaise(classifications)
    ensures (exists i :: 0 <= i < |selected| && RunAt(runs, i).ending != Exited(0)) ==> exit == 1
    ensures (forall i :: 0 <= i < |selected| ==> RunAt(runs, i).ending == Exited(0) && RunAt(runs, i).exported) ==>
              (exit == 0 <==> StatsDoNotRaise(classifications))
  {
    var mails := GetUnclassifiedMails(listing, classified, reclassify, rank);
    if mails == [] {
      return 0, [], 0, 0, [];
    }
    selected := Select(mails, latest, limit);
    successCount, failedCount, classifications := ClassifyEach(selected, clock, runs, parsed, classified);
    var statsOk, types, urgencies := Statistics(classifications);
    exit := if statsOk then ExitCode(successCount, |selected|) else 1;
    if i :| 0 <= i < |selected| && RunAt(runs, i).ending != Exited(0) {
      BadExitFails(selected, clock, runs, parsed, classified, |selected|, i);
    }
    if forall i :: 0 <= i < |selected| ==> RunAt(runs, i).ending == Exited(0) && RunAt(runs, i).exported {
      CleanRunsSucceed(selected, clock, runs, parsed, classified, |selected|);
    }
  }

  /** The loop of `main` over the selected mails: one classification each, counted as a
      success or a failure, its data kept when there is any. */
  method ClassifyEach(selected: seq<string>, clock: seq<string>, runs: seq<LlmRun>, parsed: seq<Option<Json>>,
                      classified: set<string>)
    returns (successCount: nat, failedCount: nat, classifications: seq<Json>)
    ensures var t := TallyOf(selected, clock, runs, parsed, classified, |selected|);
            successCount == t.successes && failedCount == t.failures && classifications == t.data
  {
    successCount, failedCount, classifications := 0, 0, [];
    var dir := classified;
    var i := 0;
    while i < |selected|
      invariant 0 <= i <= |selected|
      invariant TallyOf(selected, clock, runs, parsed, classified, i) ==
                Tally(successCount, failedCount, classifications, dir)
    {
      TallyNext(selected, clock, runs, parsed, classified, i);
      var stem := Stem(selected[i]);
      var now := NowAt(clock, i);
      var c := ClassifyMail(stem, now, RunAt(runs, i), ParsedAt(parsed, i), dir);
      var keep := c.data.Some? && Truthy(c.data.value);
      successCount := successCount + (if c.success then 1 else 0);
      failedCount := failedCount + (if c.success then 0 else 1);
      classifications := classifications + (if keep then [c.data.value] else []);
      dir := AfterRun(RunAt(runs, i), ClassifyOutputName(stem, now), dir);
      i := i + 1;
    }
  }

  /** One more mail in the loop of `main`. */
  lemma TallyNext(selected: seq<string>, clock: seq<string>, runs: seq<LlmRun>, parsed: seq<Option<Json>>,
                  classified: set<string>, i: nat)
    requires i < |selected|
    ensures var t := TallyOf(selected, clock, runs, parsed, classified, i);
            var stem := Stem(selected[i]);
            var c := ClassifyMail(stem, NowAt(clock, i), RunAt(runs, i), ParsedAt(parsed, i), t.classified);
            var keep := c.data.Some? && Truthy(c.data.value);
            TallyOf(selected, clock, runs, parsed, classified, i + 1) ==
              Tally(t.successes + (if c.success then 1 else 0),
                    t.failures + (if c.success then 0 else 1),
                    t.data + (if keep then [c.data.value] else []),
                    AfterRun(RunAt(runs, i), ClassifyOutputName(stem, NowAt(clock, i)), t.classified))
  {
  }

  // ---------------------------------------------------------------------------
  // Statistics over the collected classifications

  /** `c.get(section, {}).get(key, default)`: None when `c` or the section is not an
      object (the call raises) or when the value cannot be a dictionary key. */
  function SectionValue(c: Json, section: string, key: string, default: Json): (v: Option<Json>)
    ensures v.Some? ==> !v.value.JArr? && !v.value.JObj?
  {
    if !c.JObj? then None
    else
      var s := if section in c.fields then c.fields[section] else JObj(map[]);
      if !s.JObj? then None
      else
        var value := if key in s.fields then s.fields[key] else default;
        if value.JArr? || value.JObj? then None else Some(value)
  }

  /** The classification type, `unknown` when it is not recorded. */
  function TypeOf(c: Json): Option<Json> {
    SectionValue(c, "mail_classification", "type", JStr("unknown"))
  }

  /** The urgency level, `unknown` when it is not recorded. */
  function UrgencyOf(c: Json): Option<Json> {
    SectionValue(c, "content_analysis", "urgency_level", JStr("unknown"))
  }

  /** `counts[v] = counts.get(v, 0) + 1` over the values: the dictionary is the multiset
      of the values, so its counts add up to the number of values. */
  method Histogram(values: seq<Json>) returns (counts: map<Json, nat>)
    ensures forall v :: v in counts <==> v in multiset(values)
    ensures forall v :: v in counts ==> counts[v] == multiset(values)[v]
  {
    counts := map[];
    var i := 0;
    while i < |values|
      invariant 0 <= i <= |values|
      invariant forall v :: v in counts <==> v in multiset(values[..i])
      invariant forall v :: v in counts ==> counts[v] == multiset(values[..i])[v]
    {
      assert values[..i + 1] == values[..i] + [values[i]];
      var old_count := if values[i] in counts then counts[values[i]] else 0;
      counts := counts[values[i] := old_count + 1];
      i := i + 1;
    }
    assert values[..i] == values;
  }

  /** The value of every classification, in order; None when one of them raises. */
  function ValuesOf(cs: seq<Json>, f: Json -> Option<Json>): (r: Option<seq<Json>>)
    ensures r.Some? ==> |r.value| == |cs| && forall k :: 0 <= k < |cs| ==> Some(r.value[k]) == f(cs[k])
    ensures r.None? <==> exists k :: 0 <= k < |cs| && f(cs[k]).None?
  {
    if |cs| == 0 then Some([])
    else
      var init := ValuesOf(cs[..|cs| - 1], f);
      var last := f(cs[|cs| - 1]);
      if init.None? || last.None? then None else Some(init.value + [last.value])
  }

  /** A value the summary can print with `f"{v:20s}"`: only a string can. */
  predicate Printable(v: Option<Json>) {
    v.Some? && v.value.JStr?
  }

  /** `c.get('workflow_routing', {}).get(...)` works: the classification is an object and
      its routing section, when present, is one too. */
  predicate RoutingReadable(c: Json) {
    c.JObj? && ("workflow_routing" !in c.fields || c.fields["workflow_routing"].JObj?)
  }

  /** The statistics block of `main` runs through: every type and urgency level can be
      read, used as a dictionary key and printed, and every routing section can be read.
      Otherwise it raises, and the script ends with status 1. */
  predicate StatsDoNotRaise(cs: seq<Json>) {
    forall k :: 0 <= k < |cs| ==> Printable(TypeOf(cs[k])) && Printable(UrgencyOf(cs[k])) && RoutingReadable(cs[k])
  }

  /** A classification whose type is null, a number or a boolean makes the summary raise. */
  lemma NonStringTypeRaises(cs: seq<Json>, k: nat, t: Json)
    requires k < |cs| && cs[k].JObj? && "mail_classification" in cs[k].fields
    requires cs[k].fields["mail_classification"] == JObj(map["type" := t])
    requires t.JNull? || t.JNum? || t.JBool?
    ensures !StatsDoNotRaise(cs)
  {
    assert !Printable(TypeOf(cs[k]));
  }

  /** The statistics block of `main`: whether it runs through, and the type and urgency
      histograms when it does. */
  method Statistics(classifications: seq<Json>) returns (ok: bool, types: map<Json, nat>, urgencies: map<Json, nat>)
    ensures ok <==> StatsDoNotRaise(classifications)
    ensures ok ==> var ts := ValuesOf(classifications, TypeOf);
            && ts.Some? && (forall t :: t in types <==> t in multiset(ts.value))
            && (forall t :: t in types ==> types[t] == multiset(ts.value)[t])
    ensures ok ==> var us := ValuesOf(classifications, UrgencyOf);
            && us.Some? && (forall u :: u in urgencies <==> u in multiset(us.value))
            && (forall u :: u in urgencies ==> urgencies[u] == multiset(us.value)[u])
  {
    types, urgencies := map[], map[];
    ok := true;
    var i := 0;
    while i < |classifications|
      invariant 0 <= i <= |classifications|
      invariant ok <==> StatsDoNotRaise(classifications[..i])
    {
      var c := classifications[i];
      if !(Printable(TypeOf(c)) && Printable(UrgencyOf(c)) && RoutingReadable(c)) {
        ok := false;
      }
      assert classifications[..i + 1][i] == c;
      assert forall k :: 0 <= k < i ==> classifications[..i + 1][k] == classifications[..i][k];
      i := i + 1;
    }
    assert classifications[..i] == classifications;
    if ok {
      types := TypeHistogram(classifications);
      urgencies := UrgencyHistogram(classifications);
    }
  }

  /** The type histogram: each type counted as often as it occurs, the counts adding up
      to the number of classifications that produced data. */
  method TypeHistogram(classifications: seq<Json>) returns (types: map<Json, nat>)
    requires ValuesOf(classifications, TypeOf).Some?
    ensures var ts := ValuesOf(classifications, TypeOf).value;
            && |multiset(ts)| == |classifications|
            && (forall t :: t in types <==> t in multiset(ts))
            && (forall t :: t in types ==> types[t] == multiset(ts)[t])
  {
    types := Histogram(ValuesOf(classifications, TypeOf).value);
  }

  /** The urgency histogram, counted the same way. */
  method UrgencyHistogram(classifications: seq<Json>) returns (urgencies: map<Json, nat>)
    requires ValuesOf(classifications, UrgencyOf).Some?
    ensures var us := ValuesOf(classifications, UrgencyOf).value;
            && |multiset(us)| == |classifications|
            && (forall u :: u in urgencies <==> u in multiset(us))
            && (forall u :: u in urgencies ==> urgencies[u] == multiset(us)[u])
  {
    urgencies := Histogram(ValuesOf(classifications, UrgencyOf).value);
  }
}
