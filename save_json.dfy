// The fallback save script: it finds the extraction a `mail_id` belongs to by scanning
// the problem documents in `processed/`, backs up each of the extraction's documents that
// exists, and then overwrites them with the edited versions.

module SaveJson {
  import opened Common

  // ---------------------------------------------------------------------------
  // Finding the timestamp

  /** A loaded document whose `mail_id` field is the given id. A document that does not
      parse, or that is not an object, makes `data.get` raise; the script skips it. */
  predicate MatchesMailId(doc: Option<Json>, mailId: string) {
    && doc.Some? && doc.value.JObj?
    && "mail_id" in doc.value.fields && doc.value.fields["mail_id"] == JStr(mailId)
  }

  /** The `parts[0]_parts[1]` timestamp of a file name's stem, when it has two segments. */
  function TimestampOf(name: string): Option<string> {
    var parts := Split(Stem(name), '_');
    if |parts| >= 2 then Some(parts[0] + "_" + parts[1]) else None
  }

  /** A listed problem file the search stops at. */
  predicate Hit(name: string, dir: map<string, Option<Json>>, mailId: string) {
    name in dir && MatchesMailId(dir[name], mailId) && TimestampOf(name).Some?
  }

  /** The timestamp of the first file of the listing that is a hit, in listing order. */
  function FirstTimestamp(files: seq<string>, dir: map<string, Option<Json>>, mailId: string): Option<string> {
    if |files| == 0 then None
    else if Hit(files[0], dir, mailId) then TimestampOf(files[0])
    else FirstTimestamp(files[1..], dir, mailId)
  }

  /** The search finds a timestamp exactly when some listed file is a hit, and then it is
      the timestamp of the first such file; a matching file whose stem has one segment is
      passed over. */
  lemma {:induction false} FirstTimestampSpec(files: seq<string>, dir: map<string, Option<Json>>, mailId: string)
    ensures FirstTimestamp(files, dir, mailId).Some? <==>
              exists i :: 0 <= i < |files| && Hit(files[i], dir, mailId)
    ensures FirstTimestamp(files, dir, mailId).Some? ==>
              exists i :: 0 <= i < |files| && Hit(files[i], dir, mailId) &&
                          FirstTimestamp(files, dir, mailId) == TimestampOf(files[i]) &&
                          forall j :: 0 <= j < i ==> !Hit(files[j], dir, mailId)
  {
    if |files| > 0 {
      FirstTimestampSpec(files[1..], dir, mailId);
      if Hit(files[0], dir, mailId) {
      } else {
        if FirstTimestamp(files, dir, mailId).Some? {
          var i :| 0 <= i < |files[1..]| && Hit(files[1..][i], dir, mailId) &&
                   FirstTimestamp(files[1..], dir, mailId) == TimestampOf(files[1..][i]) &&
                   forall j :: 0 <= j < i ==> !Hit(files[1..][j], dir, mailId);
          assert files[i + 1] == files[1..][i];
          forall j | 0 <= j < i + 1 ensures !Hit(files[j], dir, mailId) {
            if j > 0 {
              assert files[j] == files[1..][j - 1];
            }
          }
        }
        forall i | 0 <= i < |files| && Hit(files[i], dir, mailId)
          ensures exists k :: 0 <= k < |files[1..]| && Hit(files[1..][k], dir, mailId)
        {
          assert files[1..][i - 1] == files[i];
        }
      }
    }
  }

  /** Every `*_problem.json` name has a two-segment stem, whose timestamp is the key the
      other components use; so a matching problem file is never passed over. */
  lemma ProblemFileTimestamp(name: string)
    requires GlobStar(name, "_problem.json")
    ensures TimestampOf(name) == Some(Key(Stem(name)))
  {
    var n := |name|;
    assert name[n - 13..] == "_problem.json";
    assert name[n - 5] == '.';
    forall k | n - 5 < k < n ensures name[k] != '.' {
      assert name[k] == name[n - 13..][k - (n - 13)];
    }
    RFindIs(name, '.', n - 5);
    var stem := Stem(name);
    assert stem == name[..n - 5];
    assert stem[n - 13] == '_';
    SplitSingle(stem, '_');
    KeyTwoForms(stem);
  }

  // ---------------------------------------------------------------------------
  // Backing up and saving

  /** `{timestamp}_{kind}_{stamp}.json` in `backups/`, `stamp` being the time of the save. */
  function BackupName(ts: string, kind: string, stamp: string): string {
    ts + "_" + kind + "_" + stamp + ".json"
  }

  /** The three backups of one save never share a name. */
  lemma BackupNamesDiffer(ts: string, stamp: string)
    ensures BackupName(ts, "problem", stamp) != BackupName(ts, "solution", stamp)
    ensures BackupName(ts, "problem", stamp) != BackupName(ts, "asset", stamp)
    ensures BackupName(ts, "solution", stamp) != BackupName(ts, "asset", stamp)
  {
    assert |BackupName(ts, "problem", stamp)| == |ts| + |stamp| + 14;
    assert |BackupName(ts, "solution", stamp)| == |ts| + |stamp| + 15;
    assert |BackupName(ts, "asset", stamp)| == |ts| + |stamp| + 12;
  }

  /** `backups` after copying `kind`'s document of extraction `ts`, if it exists. */
  function BackUp(dir: map<string, Option<Json>>, backups: map<string, Option<Json>>,
                  ts: string, kind: string, stamp: string): map<string, Option<Json>> {
    if DocumentName(ts, kind) in dir then backups[BackupName(ts, kind, stamp) := dir[DocumentName(ts, kind)]]
    else backups
  }

  /** `backups` after the three copies. */
  function BackUpAll(dir: map<string, Option<Json>>, backups: map<string, Option<Json>>,
                     ts: string, stamp: string): map<string, Option<Json>> {
    BackUp(dir, BackUp(dir, BackUp(dir, backups, ts, "problem", stamp), ts, "solution", stamp), ts, "asset", stamp)
  }

  /** `processed/` after the writes: problem and asset always, the solution when truthy. */
  function Overwrite(dir: map<string, Option<Json>>, ts: string, problem: Json,
                     solution: Option<Json>, asset: Json): map<string, Option<Json>> {
    var d := dir[DocumentName(ts, "problem") := Some(problem)];
    var d' := if solution.Some? && Truthy(solution.value) then d[DocumentName(ts, "solution") := Some(solution.value)] else d;
    d'[DocumentName(ts, "asset") := Some(asset)]
  }

  /** After the backups, each of the three documents that existed has its previous
      content in `backups/` and a document that did not exist gets no backup; no other
      backup changes. */
  lemma BackUpAllKeepsPrevious(dir: map<string, Option<Json>>, backups: map<string, Option<Json>>, ts: string,
                               stamp: string, kind: string)
    requires kind == "problem" || kind == "solution" || kind == "asset"
    ensures var b := BackUpAll(dir, backups, ts, stamp);
            && (DocumentName(ts, kind) in dir ==>
                  BackupName(ts, kind, stamp) in b && b[BackupName(ts, kind, stamp)] == dir[DocumentName(ts, kind)])
            && (DocumentName(ts, kind) !in dir ==>
                  (BackupName(ts, kind, stamp) in b <==> BackupName(ts, kind, stamp) in backups))
            && (forall n :: (n in backups && n != BackupName(ts, "problem", stamp) && n != BackupName(ts, "solution", stamp) &&
                             n != BackupName(ts, "asset", stamp)) ==> n in b && b[n] == backups[n])
  {
    BackupNamesDiffer(ts, stamp);
  }

  /** After the writes, the problem and asset hold the new content, the solution holds it
      when it is truthy and is left as it was otherwise, and no other file changes. */
  lemma OverwriteSpec(dir: map<string, Option<Json>>, ts: string, problem: Json, solution: Option<Json>, asset: Json)
    ensures var d := Overwrite(dir, ts, problem, solution, asset);
            && d[DocumentName(ts, "problem")] == Some(problem)
            && d[DocumentName(ts, "asset")] == Some(asset)
            && (solution.Some? && Truthy(solution.value) ==> d[DocumentName(ts, "solution")] == Some(solution.value))
            && (!(solution.Some? && Truthy(solution.value)) ==>
                  (DocumentName(ts, "solution") in d <==> DocumentName(ts, "solution") in dir) &&
                  (DocumentName(ts, "solution") in dir ==> d[DocumentName(ts, "solution")] == dir[DocumentName(ts, "solution")]))
            && (forall n :: (n in dir && n != DocumentName(ts, "problem") && n != DocumentName(ts, "solution") &&
                             n != DocumentName(ts, "asset")) ==> n in d && d[n] == dir[n])
  {
    assert |DocumentName(ts, "problem")| != |DocumentName(ts, "solution")|;
    assert |DocumentName(ts, "problem")| != |DocumentName(ts, "asset")|;
    assert |DocumentName(ts, "solution")| != |DocumentName(ts, "asset")|;
  }

  /** A file given on the command line: missing, present but not JSON, or parsed. */
  datatype ArgFile = Absent | Unparseable | Parsed(doc: Json)

  /** How `main` loads the solution argument: no solution when the file does not exist,
      its content when it parses, and None (the script raises) when it does not. */
  function LoadSolution(f: ArgFile): (r: Option<Option<Json>>)
    ensures r == Some(None) <==> f == Absent
    ensures f.Parsed? ==> r == Some(Some(f.doc))
    ensures f == Unparseable ==> r.None?
  {
    match f
    case Absent => Some(None)
    case Unparseable => None
    case Parsed(j) => Some(Some(j))
  }

  /** The script's view of `processed/` and `backups/`, file name to content (None for a
      file that does not parse). */
  class Storage {
    var processed: map<string, Option<Json>>
    var backups: map<string, Option<Json>>

    constructor (processed: map<string, Option<Json>>, backups: map<string, Option<Json>>)
      ensures this.processed == processed && this.backups == backups
    {
      this.processed := processed;
      this.backups := backups;
    }

    /** `find_timestamp_from_mail_id` over `files`, the glob of `*_problem.json`. */
    method FindTimestampFromMailId(files: seq<string>, mailId: string) returns (ts: Option<string>)
      ensures ts == FirstTimestamp(files, processed, mailId)
      ensures ts.Some? ==> '_' in ts.value
    {
      var i := 0;
      while i < |files|
        invariant 0 <= i <= |files|
        invariant FirstTimestamp(files, processed, mailId) == FirstTimestamp(files[i..], processed, mailId)
      {
        assert files[i..][0] == files[i] && files[i..][1..] == files[i + 1..];
        var f := files[i];
        if f in processed && MatchesMailId(processed[f], mailId) {
          var parts := Split(Stem(f), '_');
          if |parts| >= 2 {
            ts := Some(parts[0] + "_" + parts[1]);
            assert ts.value[|parts[0]|] == '_';
            return;
          }
        }
        i := i + 1;
      }
      ts := None;
    }

    /** `save_json_files`: `files` is the glob of problem files and `stamp` the backup
        time. With the configuration missing, or no timestamp found, it exits 1 before
        writing anything; otherwise every existing document of the extraction is backed up
        before any is overwritten, and then the new documents are written. */
    method SaveJsonFiles(mailId: string, problem: Json, solution: Option<Json>, asset: Json,
                         files: seq<string>, configOk: bool, stamp: string)
      returns (exit: int, timestamp: Option<string>)
      modifies this
      ensures exit == 0 || exit == 1
      ensures configOk ==> timestamp == FirstTimestamp(files, old(processed), mailId)
      ensures !configOk ==> timestamp.None?
      ensures exit == 0 <==> timestamp.Some?
      ensures exit == 1 ==> processed == old(processed) && backups == old(backups)
      ensures exit == 0 ==>
                && backups == BackUpAll(old(processed), old(backups), timestamp.value, stamp)
                && processed == Overwrite(old(processed), timestamp.value, problem, solution, asset)
    {
      exit, timestamp := 1, None;
      if !configOk {
        return;
      }
      var ts := FindTimestampFromMailId(files, mailId);
      if ts.None? || ts.value == "" {
        timestamp := ts;
        return;
      }
      timestamp := ts;
      var t := ts.value;
      var kinds := ["problem", "solution", "asset"];
      var before := processed;
      for k := 0 to 3
        invariant processed == before
        invariant k == 0 ==> backups == old(backups)
        invariant k == 1 ==> backups == BackUp(before, old(backups), t, "problem", stamp)
        invariant k == 2 ==> backups == BackUp(before, BackUp(before, old(backups), t, "problem", stamp), t, "solution", stamp)
        invariant k == 3 ==> backups == BackUpAll(before, old(backups), t, stamp)
      {
        var target := DocumentName(t, kinds[k]);
        if target in processed {
          backups := backups[BackupName(t, kinds[k], stamp) := processed[target]];
        }
      }
      processed := processed[DocumentName(t, "problem") := Some(problem)];
      if solution.Some? && Truthy(solution.value) {
        processed := processed[DocumentName(t, "solution") := Some(solution.value)];
      }
      processed := processed[DocumentName(t, "asset") := Some(asset)];
      exit := 0;
    }

    /** `main`: fewer than four arguments, or a problem or asset file that is missing or
        not JSON, ends the run with status 1 before the save; a solution file that does not
        exist means there is no solution. */
    method Run(argc: nat, mailId: string, problemFile: ArgFile, solutionFile: ArgFile, assetFile: ArgFile,
                files: seq<string>, configOk: bool, stamp: string)
      returns (exit: int, saved: bool)
      modifies this
      ensures exit == 0 || exit == 1
      ensures saved <==> argc >= 5 && problemFile.Parsed? && assetFile.Parsed? && LoadSolution(solutionFile).Some?
      ensures exit == 0 ==> saved
      ensures saved && configOk ==>
                (exit == 0 <==> FirstTimestamp(files, old(processed), mailId).Some?)
      ensures saved && !configOk ==> exit == 1
      ensures exit == 1 ==> processed == old(processed) && backups == old(backups)
      ensures saved && exit == 0 ==>
                var ts := FirstTimestamp(files, old(processed), mailId);
                && configOk && ts.Some?
                && backups == BackUpAll(old(processed), old(backups), ts.value, stamp)
                && processed == Overwrite(old(processed), ts.value, problemFile.doc, LoadSolution(solutionFile).value, assetFile.doc)
    {
      exit, saved := 1, false;
      if argc < 5 || !problemFile.Parsed? {
        return;
      }
      var sol := LoadSolution(solutionFile);
      if sol.None? || !assetFile.Parsed? {
        return;
      }
      saved := true;
      var timestamp;
      exit, timestamp := SaveJsonFiles(mailId, problemFile.doc, sol.value, assetFile.doc, files, configOk, stamp);
    }
  }
}
