// What the three batch scripts (classification, extraction, MIME-decoding extraction)
// have in common: how one run of the LLM client is observed, how the output key of a
// mail is chosen, how the mail listing is ordered oldest first, how `--latest` and
// `--limit` pick the mails to work on, and how the exit status is derived.

module Batch {
  import opened Common

  // ---------------------------------------------------------------------------
  // One run of the LLM client

  /** How `subprocess.run` of the LLM client ended: with an exit code, by hitting its
      timeout, or by raising before or while running. */
  datatype Ending = Exited(code: int) | TimedOut | Raised

  /** What a script observes of one LLM run: how it ended, and whether the client wrote
      its export file. */
  datatype LlmRun = LlmRun(ending: Ending, exported: bool)

  /** The run assumed when no observation is supplied: it raised and exported nothing. */
  const NoRun := LlmRun(Raised, false)

  /** The directory the export goes to, after the run. */
  function AfterRun(r: LlmRun, target: string, dir: set<string>): set<string> {
    if r.exported then dir + {target} else dir
  }

  /** A run counts as successful exactly when it exited with status 0 and the export file
      exists afterwards, whether this run wrote it or an earlier one left it there; a
      timeout or an exception is a failure whatever was written. */
  predicate Succeeded(r: LlmRun, target: string, dir: set<string>) {
    r.ending == Exited(0) && target in AfterRun(r, target, dir)
  }

  /** A run that exits 0 and writes its export always succeeds; a run that does not exit
      with 0 never does. */
  lemma SuccessRule(r: LlmRun, target: string, dir: set<string>)
    ensures r.ending == Exited(0) && r.exported ==> Succeeded(r, target, dir)
    ensures r.ending != Exited(0) ==> !Succeeded(r, target, dir)
    ensures Succeeded(r, target, dir) <==> r.ending == Exited(0) && (r.exported || target in dir)
  {
  }

  /** Files other than the target do not change whether a run succeeds. */
  lemma SucceededIgnoresOthers(r: LlmRun, target: string, dir: set<string>, extra: set<string>)
    requires target !in extra
    ensures Succeeded(r, target, dir + extra) == Succeeded(r, target, dir)
  {
  }

  /** The `i`-th observed run, or `NoRun` past the end of the observations. */
  function RunAt(runs: seq<LlmRun>, i: nat): LlmRun {
    if i < |runs| then runs[i] else NoRun
  }

  /** The formatted time `datetime.now()` reads when the `i`-th mail is processed (the
      clock is read once per mail); empty past the end of the readings. */
  function NowAt(clock: seq<string>, i: nat): string {
    if i < |clock| then clock[i] else ""
  }

  // ---------------------------------------------------------------------------
  // Output naming

  /** The key the scripts put in front of an output file: the first two `_`-separated
      segments of the mail's stem, or the current time (`now`, already formatted as
      `%Y%m%d_%H%M%S`) when the stem has a single segment. */
  function MailKey(stem: string, now: string): string {
    var parts := Split(stem, '_');
    if |parts| >= 2 then parts[0] + "_" + parts[1] else now
  }

  /** The scripts' key is the key every other component looks documents up by exactly
      when the stem holds an underscore, or the clock happens to read as the stem. */
  lemma MailKeyAgreesWithKey(stem: string, now: string)
    ensures MailKey(stem, now) == Key(stem) <==> '_' in stem || now == stem
  {
    KeyTwoForms(stem);
    SplitSingle(stem, '_');
  }

  // ---------------------------------------------------------------------------
  // Oldest first

  /** Ordered by `rank`, the timestamp `get_timestamp` reads from a mail's name (or its
      modification time when the name does not parse). */
  predicate SortedBy(s: seq<string>, rank: string -> int) {
    forall i, j :: 0 <= i < j < |s| ==> rank(s[i]) <= rank(s[j])
  }

  /** Inserts `x` before the first element of `s` that does not rank below it. */
  function Insert(x: string, s: seq<string>, rank: string -> int): seq<string> {
    if |s| == 0 then [x]
    else if rank(x) <= rank(s[0]) then [x] + s
    else [s[0]] + Insert(x, s[1..], rank)
  }

  /** `sorted(mails, key=get_timestamp)`: a stable sort by rank. */
  function SortByRank(s: seq<string>, rank: string -> int): seq<string> {
    if |s| == 0 then [] else Insert(s[0], SortByRank(s[1..], rank), rank)
  }

  lemma {:induction false} InsertPermutes(x: string, s: seq<string>, rank: string -> int)
    ensures multiset(Insert(x, s, rank)) == multiset(s) + multiset{x}
  {
    if |s| > 0 && rank(x) > rank(s[0]) {
      InsertPermutes(x, s[1..], rank);
      assert s == [s[0]] + s[1..];
    }
  }

  lemma {:induction false} InsertSorted(x: string, s: seq<string>, rank: string -> int)
    requires SortedBy(s, rank)
    ensures SortedBy(Insert(x, s, rank), rank)
  {
    if |s| > 0 && rank(x) > rank(s[0]) {
      InsertSorted(x, s[1..], rank);
      InsertPermutes(x, s[1..], rank);
      var t := Insert(x, s[1..], rank);
      forall k | 0 <= k < |t| ensures rank(s[0]) <= rank(t[k]) {
        assert t[k] in multiset(t);
        assert t[k] == x || t[k] in multiset(s[1..]);
        if t[k] != x {
          var m :| 0 <= m < |s[1..]| && s[1..][m] == t[k];
          assert s[m + 1] == t[k];
        }
      }
    }
  }

  /** The sort returns the same mails, each as often as before, ordered by rank. */
  lemma {:induction false} SortByRankCorrect(s: seq<string>, rank: string -> int)
    ensures multiset(SortByRank(s, rank)) == multiset(s)
    ensures SortedBy(SortByRank(s, rank), rank)
  {
    if |s| > 0 {
      SortByRankCorrect(s[1..], rank);
      InsertPermutes(s[0], SortByRank(s[1..], rank), rank);
      InsertSorted(s[0], SortByRank(s[1..], rank), rank);
      assert s == [s[0]] + s[1..];
    }
  }

  lemma {:induction false} InsertDistinct(x: string, s: seq<string>, rank: string -> int)
    requires Distinct(s) && x !in s
    ensures Distinct(Insert(x, s, rank))
  {
    if |s| > 0 && rank(x) > rank(s[0]) {
      InsertDistinct(x, s[1..], rank);
      InsertPermutes(x, s[1..], rank);
      var t := Insert(x, s[1..], rank);
      forall k | 0 <= k < |t| ensures t[k] != s[0] {
        assert t[k] in multiset(t);
        if t[k] != x {
          var m :| 0 <= m < |s[1..]| && s[1..][m] == t[k];
          assert s[m + 1] == t[k];
        }
      }
    }
  }

  /** A listing without repetitions stays without repetitions once sorted. */
  lemma {:induction false} SortByRankDistinct(s: seq<string>, rank: string -> int)
    requires Distinct(s)
    ensures Distinct(SortByRank(s, rank))
  {
    if |s| > 0 {
      SortByRankDistinct(s[1..], rank);
      SortByRankCorrect(s[1..], rank);
      var t := SortByRank(s[1..], rank);
      forall k | 0 <= k < |s[1..]| ensures s[1..][k] != s[0] {
        assert s[1..][k] == s[k + 1];
      }
      assert s[0] !in multiset(s[1..]);
      assert s[0] !in multiset(t);
      InsertDistinct(s[0], t, rank);
    }
  }

  // ---------------------------------------------------------------------------
  // --latest / --limit

  /** The mails a run works on, from a non-empty listing: `--latest` keeps only the last
      (newest); otherwise a non-zero `--limit n` keeps `mails[:n]` (Python slicing, so a
      negative `n` drops the last `-n`); no limit, or a limit of 0, keeps them all. */
  function Select(mails: seq<string>, latest: bool, limit: Option<int>): seq<string>
    requires |mails| > 0
  {
    if latest then [mails[|mails| - 1]]
    else if limit.Some? && limit.value != 0 then TakePy(mails, limit.value)
    else mails
  }

  /** Either the newest mail alone, or a run of the oldest ones: a prefix of the listing,
      as long as a positive limit allows, all of them without a limit. */
  lemma SelectSpec(mails: seq<string>, latest: bool, limit: Option<int>)
    requires |mails| > 0
    ensures var r := Select(mails, latest, limit);
            && (latest ==> r == [mails[|mails| - 1]])
            && (!latest ==> r == mails[..|r|])
            && (!latest && limit.Some? && limit.value > 0 ==>
                  |r| == if limit.value < |mails| then limit.value else |mails|)
            && (!latest && limit.Some? && limit.value < 0 ==>
                  |r| == if |mails| + limit.value < 0 then 0 else |mails| + limit.value)
            && (!latest && (limit.None? || limit.value == 0) ==> r == mails)
  {
  }

  /** Selection keeps the listing's order and never repeats a mail. */
  lemma {:induction false} SelectKeepsOrder(mails: seq<string>, latest: bool, limit: Option<int>, rank: string -> int)
    requires |mails| > 0
    ensures SortedBy(mails, rank) ==> SortedBy(Select(mails, latest, limit), rank)
    ensures Distinct(mails) ==> Distinct(Select(mails, latest, limit))
    ensures forall m :: m in Select(mails, latest, limit) ==> m in mails
  {
    var r := Select(mails, latest, limit);
    if !latest {
      assert r == mails[..|r|];
      forall m | m in r ensures m in mails {
        var k :| 0 <= k < |r| && r[k] == m;
        assert mails[k] == m;
      }
    }
  }

  // ---------------------------------------------------------------------------
  // Exit status

  /** 0 when every selected mail succeeded, 1 on partial success and on total failure. */
  function ExitCode(successCount: nat, total: nat): (code: int)
    ensures code == 0 || code == 1
    ensures code == 0 <==> successCount == total
  {
    if successCount == total then 0 else 1
  }
}
