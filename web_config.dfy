/** The editor's request-side helpers: mail id validation and sanitising, the search for
    a mail's timestamp among the problem documents, loading a mail's documents, and the
    storage path the web side resolves. */
module WebConfig {
  import opened Common

  // ---------------------------------------------------------------------------
  // Mail id validation

  /** `YYYYMMDD_HHMMSS`: eight digits, an underscore, six digits. */
  predicate TimestampForm(s: string) {
    |s| == 15 && AllDigits(s[..8]) && s[8] == '_' && AllDigits(s[9..])
  }

  predicate IsLowerHex(ch: char) {
    IsDigit(ch) || 'a' <= ch <= 'f'
  }

  /** Exactly 32 characters from `[a-f0-9]`. */
  predicate HexForm(s: string) {
    |s| == 32 && forall k :: 0 <= k < |s| ==> IsLowerHex(s[k])
  }

  /** A PCRE pattern anchored with `$` (no `D` modifier) also matches when the subject
      carries one final newline. */
  predicate EndsAtDollar(s: string, form: string -> bool) {
    form(s) || (|s| > 0 && s[|s| - 1] == '\n' && form(s[..|s| - 1]))
  }

  /** `validate_mail_id` as written. */
  predicate ValidateMailId(s: string) {
    EndsAtDollar(s, TimestampForm) || EndsAtDollar(s, HexForm)
  }

  /** The anchors let one trailing newline through. */
  lemma TrailingNewlineAccepted()
    ensures ValidateMailId("20240101_120000\n")
    ensures !TimestampForm("20240101_120000\n") && !HexForm("20240101_120000\n")
  {
    var s := "20240101_120000\n";
    assert s[..|s| - 1] == "20240101_120000";
    assert TimestampForm("20240101_120000");
  }

  predicate IsIdChar(ch: char) {
    IsDigit(ch) || 'a' <= ch <= 'z' || 'A' <= ch <= 'Z' || ch == '_'
  }

  /** `preg_replace('/[^a-zA-Z0-9_]/', '', s)`. */
  function KeepIdChars(s: string): (r: string)
    ensures |r| <= |s|
    ensures forall k :: 0 <= k < |r| ==> IsIdChar(r[k])
  {
    if |s| == 0 then ""
    else if IsIdChar(s[0]) then [s[0]] + KeepIdChars(s[1..])
    else KeepIdChars(s[1..])
  }

  /** `sanitize_mail_id`: the id characters of the input, cut to 64. */
  function SanitizeMailId(s: string): (r: string)
    ensures |r| <= 64
    ensures forall k :: 0 <= k < |r| ==> IsIdChar(r[k])
    ensures StartsWith(KeepIdChars(s), r)
    ensures |r| == if |KeepIdChars(s)| <= 64 then |KeepIdChars(s)| else 64
  {
    var kept := KeepIdChars(s);
    if |kept| <= 64 then kept else kept[..64]
  }

  /** Every character of the input that is an id character survives, in order, up to the
      length limit; the others are gone. */
  lemma {:induction false} KeepIdCharsIsFilter(s: string, c: char)
    ensures c in KeepIdChars(s) <==> c in s && IsIdChar(c)
    decreases |s|
  {
    if |s| > 0 {
      KeepIdCharsIsFilter(s[1..], c);
      assert s == [s[0]] + s[1..];
    }
  }

  lemma {:induction false} KeepIdCharsFixed(s: string)
    requires forall k :: 0 <= k < |s| ==> IsIdChar(s[k])
    ensures KeepIdChars(s) == s
    decreases |s|
  {
    if |s| > 0 {
      KeepIdCharsFixed(s[1..]);
    }
  }

  /** Sanitising twice is sanitising once. */
  lemma SanitizeIdempotent(s: string)
    ensures SanitizeMailId(SanitizeMailId(s)) == SanitizeMailId(s)
  {
    KeepIdCharsFixed(SanitizeMailId(s));
  }

  /** On a sanitised id, which cannot contain a newline, validation accepts exactly the
      two forms. */
  lemma ValidateSanitizedIsExact(raw: string)
    ensures var s := SanitizeMailId(raw);
      ValidateMailId(s) <==> TimestampForm(s) || HexForm(s)
  {
    var s := SanitizeMailId(raw);
    if |s| > 0 {
      assert IsIdChar(s[|s| - 1]);
    }
  }

  /** `get_safe_mail_id`: the query parameter, else the form parameter; absent gives none,
      and so does a sanitised value that fails validation. */
  function GetSafeMailId(query: Option<string>, form: Option<string>): (r: Option<string>)
    ensures query.None? && form.None? ==> r.None?
    ensures r.Some? ==> TimestampForm(r.value) || HexForm(r.value)
    ensures r.Some? ==> r.value == SanitizeMailId(if query.Some? then query.value else form.value)
    ensures (query.Some? || form.Some?) && r.None? ==>
      !ValidateMailId(SanitizeMailId(if query.Some? then query.value else form.value))
  {
    var raw := if query.Some? then query else form;
    if raw.None? then None
    else
      var s := SanitizeMailId(raw.value);
      ValidateSanitizedIsExact(raw.value);
      if !ValidateMailId(s) then None else Some(s)
  }

  // ---------------------------------------------------------------------------
  // Finding a mail's timestamp

  /** A `*_problem.json` file as listed, with its decoded content when it decodes to an
      object. */
  datatype ProblemFile = ProblemFile(name: string, data: Option<map<string, Json>>)

  /** `$data && isset($data['mail_id']) && $data['mail_id'] === $mail_id`. */
  predicate HasMailId(f: ProblemFile, mailId: string) {
    f.data.Some? && "mail_id" in f.data.value && f.data.value["mail_id"] == JStr(mailId)
  }

  /** The capture of `/^(\d{8}_\d{6})_problem\.json$/`. */
  function NameTimestamp(name: string): (r: Option<string>)
    ensures r.Some? ==> TimestampForm(r.value) && StartsWith(name, r.value)
  {
    var body := if |name| > 0 && name[|name| - 1] == '\n' then name[..|name| - 1] else name;
    if |body| == 28 && TimestampForm(body[..15]) && body[15..] == "_problem.json" then Some(body[..15])
    else None
  }

  /** The timestamp of the first listed file with the id and a conforming name. */
  function FirstTimestamp(files: seq<ProblemFile>, mailId: string): Option<string> {
    if |files| == 0 then None
    else if HasMailId(files[0], mailId) && NameTimestamp(files[0].name).Some? then NameTimestamp(files[0].name)
    else FirstTimestamp(files[1..], mailId)
  }

  /** The result is the conforming timestamp of the first file carrying the id and a
      conforming name; none exactly when there is no such file. */
  lemma {:induction false} FirstTimestampIsFirst(files: seq<ProblemFile>, mailId: string)
    ensures FirstTimestamp(files, mailId).None? <==>
      forall i :: 0 <= i < |files| ==> !(HasMailId(files[i], mailId) && NameTimestamp(files[i].name).Some?)
    ensures FirstTimestamp(files, mailId).Some? ==> TimestampForm(FirstTimestamp(files, mailId).value)
    ensures FirstTimestamp(files, mailId).Some? ==>
      exists i :: 0 <= i < |files| && HasMailId(files[i], mailId)
        && FirstTimestamp(files, mailId) == NameTimestamp(files[i].name)
        && forall k :: 0 <= k < i ==> !(HasMailId(files[k], mailId) && NameTimestamp(files[k].name).Some?)
    decreases |files|
  {
    if |files| > 0 && !(HasMailId(files[0], mailId) && NameTimestamp(files[0].name).Some?) {
      var tail := files[1..];
      FirstTimestampIsFirst(tail, mailId);
      if FirstTimestamp(tail, mailId).Some? {
        var i :| 0 <= i < |tail| && HasMailId(tail[i], mailId)
          && FirstTimestamp(tail, mailId) == NameTimestamp(tail[i].name)
          && forall k :: 0 <= k < i ==> !(HasMailId(tail[k], mailId) && NameTimestamp(tail[k].name).Some?);
        assert files[i + 1] == tail[i];
        assert forall k :: 0 < k <= i ==> files[k] == tail[k - 1];
      } else {
        forall i | 0 <= i < |files| ensures !(HasMailId(files[i], mailId) && NameTimestamp(files[i].name).Some?) {
          if i > 0 { assert files[i] == tail[i - 1]; }
        }
      }
    }
  }

  /** `find_timestamp_from_mail_id` over the problem files in listing order. */
  method FindTimestampFromMailId(files: seq<ProblemFile>, mailId: string) returns (ts: Option<string>)
    ensures ts == FirstTimestamp(files, mailId)
  {
    if |files| == 0 {
      return None;
    }
    var i := 0;
    while i < |files|
      invariant 0 <= i <= |files|
      invariant FirstTimestamp(files[i..], mailId) == FirstTimestamp(files, mailId)
    {
      assert files[i..][0] == files[i] && files[i..][1..] == files[i + 1..];
      if HasMailId(files[i], mailId) {
        var m := NameTimestamp(files[i].name);
        if m.Some? {
          return m;
        }
      }
      i := i + 1;
    }
    return None;
  }

  // ---------------------------------------------------------------------------
  // Loading a mail's documents

  const Kinds: seq<string> := ["problem", "solution", "asset"]

  /** `get_json_files_for_timestamp`: the kinds whose document exists, with its name. */
  function ExistingFiles(ts: string, kinds: seq<string>, processed: set<string>): (r: seq<(string, string)>)
    ensures |r| <= |kinds|
  {
    if |kinds| == 0 then []
    else
      var kind := kinds[|kinds| - 1];
      ExistingFiles(ts, kinds[..|kinds| - 1], processed)
        + (if DocumentName(ts, kind) in processed then [(kind, DocumentName(ts, kind))] else [])
  }

  /** A kind is returned, with its document name, exactly when that document exists. */
  lemma {:induction false} ExistingFilesSpec(ts: string, kinds: seq<string>, processed: set<string>, kind: string, path: string)
    ensures (kind, path) in ExistingFiles(ts, kinds, processed) <==>
      kind in kinds && path == DocumentName(ts, kind) && path in processed
    decreases |kinds|
  {
    if |kinds| > 0 {
      var init := kinds[..|kinds| - 1];
      ExistingFilesSpec(ts, init, processed, kind, path);
      assert kinds == init + [kinds[|kinds| - 1]];
    }
  }

  method GetJsonFilesForTimestamp(ts: string, processed: set<string>) returns (files: seq<(string, string)>)
    ensures files == ExistingFiles(ts, Kinds, processed)
  {
    files := [];
    for i := 0 to |Kinds|
      invariant files == ExistingFiles(ts, Kinds[..i], processed)
    {
      assert Kinds[..i + 1][..i] == Kinds[..i];
      var path := DocumentName(ts, Kinds[i]);
      if path in processed {
        files := files + [(Kinds[i], path)];
      }
    }
    assert Kinds[..|Kinds|] == Kinds;
  }

  /** PHP truthiness of a decoded value: `"0"` is false as well. */
  predicate PhpTruthy(j: Json) {
    match j
    case JNull => false
    case JBool(b) => b
    case JNum(n) => n != 0
    case JStr(s) => s != "" && s != "0"
    case JArr(a) => a != []
    case JObj(m) => m != map[]
  }

  datatype MailData = MailData(timestamp: string, mailId: string, docs: seq<(string, Json)>)

  /** The documents of the listed files that decode to a truthy value, in order;
      `decoded` holds the files that decode without error. */
  function LoadedDocs(files: seq<(string, string)>, decoded: map<string, Json>): seq<(string, Json)> {
    if |files| == 0 then []
    else
      var f := files[|files| - 1];
      LoadedDocs(files[..|files| - 1], decoded)
        + (if f.1 in decoded && PhpTruthy(decoded[f.1]) then [(f.0, decoded[f.1])] else [])
  }

  function LoadData(mailId: string, files: seq<ProblemFile>, processed: set<string>, decoded: map<string, Json>): Option<MailData> {
    var ts := FirstTimestamp(files, mailId);
    if ts.None? || ts.value == "" || ts.value == "0" then None
    else
      var existing := ExistingFiles(ts.value, Kinds, processed);
      if existing == [] then None
      else
        var docs := LoadedDocs(existing, decoded);
        if forall k :: 0 <= k < |docs| ==> docs[k].0 != "problem" then None
        else Some(MailData(ts.value, mailId, docs))
  }

  /** `load_data_by_mail_id`. */
  method LoadDataByMailId(mailId: string, files: seq<ProblemFile>, processed: set<string>, decoded: map<string, Json>)
    returns (r: Option<MailData>)
    ensures r == LoadData(mailId, files, processed, decoded)
  {
    var ts := FindTimestampFromMailId(files, mailId);
    if ts.None? || ts.value == "" || ts.value == "0" {
      return None;
    }
    var existing := GetJsonFilesForTimestamp(ts.value, processed);
    if |existing| == 0 {
      return None;
    }
    var docs := [];
    var hasProblem := false;
    for i := 0 to |existing|
      invariant docs == LoadedDocs(existing[..i], decoded)
      invariant hasProblem <==> exists k :: 0 <= k < |docs| && docs[k].0 == "problem"
    {
      assert existing[..i + 1][..i] == existing[..i];
      var (kind, path) := existing[i];
      if path in decoded && PhpTruthy(decoded[path]) {
        var before := docs;
        docs := docs + [(kind, decoded[path])];
        assert forall k :: 0 <= k < |before| ==> docs[k] == before[k];
        assert docs[|before|].0 == kind;
        if kind == "problem" {
          hasProblem := true;
        }
      }
    }
    assert existing[..|existing|] == existing;
    if !hasProblem {
      return None;
    }
    return Some(MailData(ts.value, mailId, docs));
  }

  /** A document is loaded exactly when a listed file of its kind decodes to it and it is
      truthy. */
  lemma {:induction false} LoadedDocsSpec(files: seq<(string, string)>, decoded: map<string, Json>, kind: string, doc: Json)
    ensures (kind, doc) in LoadedDocs(files, decoded) <==>
      exists path :: (kind, path) in files && path in decoded && decoded[path] == doc && PhpTruthy(doc)
    decreases |files|
  {
    if |files| > 0 {
      var init := files[..|files| - 1];
      var last := files[|files| - 1];
      LoadedDocsSpec(init, decoded, kind, doc);
      assert files == init + [last];
      if (kind, doc) in LoadedDocs(init, decoded) {
        var path :| (kind, path) in init && path in decoded && decoded[path] == doc && PhpTruthy(doc);
        assert (kind, path) in files;
      }
      if exists path :: (kind, path) in files && path in decoded && decoded[path] == doc && PhpTruthy(doc) {
        var path :| (kind, path) in files && path in decoded && decoded[path] == doc && PhpTruthy(doc);
        if (kind, path) != last {
          assert (kind, path) in init;
        }
      }
    }
  }

  /** The document of `kind` for the timestamp exists, decodes, and is truthy. */
  predicate Loads(ts: string, kind: string, processed: set<string>, decoded: map<string, Json>) {
    var path := DocumentName(ts, kind);
    path in processed && path in decoded && PhpTruthy(decoded[path])
  }

  /** A loaded document of one of the three kinds is the decoding of that kind's existing
      file, and exactly the kinds whose file loads are present. */
  lemma LoadedKinds(ts: string, processed: set<string>, decoded: map<string, Json>, kind: string, doc: Json)
    ensures (kind, doc) in LoadedDocs(ExistingFiles(ts, Kinds, processed), decoded) <==>
      kind in Kinds && Loads(ts, kind, processed, decoded) && doc == decoded[DocumentName(ts, kind)]
  {
    var existing := ExistingFiles(ts, Kinds, processed);
    LoadedDocsSpec(existing, decoded, kind, doc);
    var path := DocumentName(ts, kind);
    ExistingFilesSpec(ts, Kinds, processed, kind, path);
    if (kind, doc) in LoadedDocs(existing, decoded) {
      var p :| (kind, p) in existing && p in decoded && decoded[p] == doc && PhpTruthy(doc);
      ExistingFilesSpec(ts, Kinds, processed, kind, p);
    }
  }

  /** A mail loads exactly when a timestamp is found for its id and its problem document
      exists, decodes and is truthy. A loaded mail names that timestamp and the id, and holds
      exactly the documents of the three kinds that load, each the decoding of its file. */
  lemma LoadDataSpec(mailId: string, files: seq<ProblemFile>, processed: set<string>, decoded: map<string, Json>)
    ensures var r := LoadData(mailId, files, processed, decoded);
      var ts := FirstTimestamp(files, mailId);
      && (r.None? <==> ts.None? || !Loads(ts.value, "problem", processed, decoded))
      && (r.Some? ==>
            && Some(r.value.timestamp) == ts
            && TimestampForm(r.value.timestamp)
            && r.value.mailId == mailId
            && (exists k :: 0 <= k < |r.value.docs| && r.value.docs[k].0 == "problem")
            && (forall kind, doc :: (kind, doc) in r.value.docs <==>
                  kind in Kinds && Loads(r.value.timestamp, kind, processed, decoded)
                  && doc == decoded[DocumentName(r.value.timestamp, kind)]))
  {
    FirstTimestampIsFirst(files, mailId);
    var ts := FirstTimestamp(files, mailId);
    if ts.Some? {
      var t := ts.value;
      var existing := ExistingFiles(t, Kinds, processed);
      var docs := LoadedDocs(existing, decoded);
      forall kind, doc
        ensures (kind, doc) in docs <==>
          kind in Kinds && Loads(t, kind, processed, decoded) && doc == decoded[DocumentName(t, kind)]
      {
        LoadedKinds(t, processed, decoded, kind, doc);
      }
      var pd := DocumentName(t, "problem");
      if Loads(t, "problem", processed, decoded) {
        assert ("problem", decoded[pd]) in docs;
        var k :| 0 <= k < |docs| && docs[k] == ("problem", decoded[pd]);
        assert existing != [];
      } else {
        forall k | 0 <= k < |docs| ensures docs[k].0 != "problem" {
          assert (docs[k].0, docs[k].1) in docs;
        }
      }
    }
  }

  // ---------------------------------------------------------------------------
  // Storage path

  /** The configured `storage.base_path` (default `./storage`); one not starting with
      '/' is taken relative to the mail agent root. */
  function ResolveStoragePath(root: string, configured: Option<string>): (r: string)
    ensures var base := if configured.Some? then configured.value else "./storage";
      if StartsWith(base, "/") then r == base else r == root + "/" + base
  {
    var base := if configured.Some? then configured.value else "./storage";
    if |base| > 0 && base[0] == '/' then base else root + "/" + base
  }

  /** With an absolute root the resolved path is absolute, and resolving it again changes
      nothing. */
  lemma ResolveIsIdempotent(root: string, configured: Option<string>)
    requires StartsWith(root, "/")
    ensures StartsWith(ResolveStoragePath(root, configured), "/")
    ensures ResolveStoragePath(root, Some(ResolveStoragePath(root, configured))) == ResolveStoragePath(root, configured)
  {
    var r := ResolveStoragePath(root, configured);
    assert r[0] == '/';
  }
}
