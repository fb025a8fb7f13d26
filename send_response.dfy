// The confirmation-mail script: who the reply goes to, the links it carries, how each
// extracted field is shown with its quality status, the list of fields the reporter is
// asked to complete, when the solution section appears, which extraction the mail is
// about, and how the run ends.

module SendResponse {
  import opened Common
  import opened JsonQuality

  // ---------------------------------------------------------------------------
  // Recipient

  /** Python `s[a:b]` for indices within the string: empty unless `a < b`. */
  function Slice(s: string, a: nat, b: nat): (r: string)
    requires a <= |s| && b <= |s|
    ensures a < b ==> r == s[a..b]
    ensures b <= a ==> r == ""
  {
    if a < b then s[a..b] else ""
  }

  /** The sender address as `extract_mail_info` takes it from the From header: with both
      `<` and `>` present, the text from after the first `<` up to the first `>`;
      otherwise the whole header. */
  function SenderOf(header: string): string {
    if '<' in header && '>' in header then Slice(header, Find(header, '<') + 1, Find(header, '>'))
    else header
  }

  /** The whole header when a bracket is missing; the bracketed address when the first
      `<` comes before the first `>`; and nothing at all when a `>` comes first. */
  lemma SenderSpec(header: string)
    ensures '<' !in header || '>' !in header ==> SenderOf(header) == header
    ensures var i, j := Find(header, '<'), Find(header, '>');
            '<' in header && '>' in header && i < j ==>
              SenderOf(header) == header[i + 1..j] && '>' !in SenderOf(header)
    ensures var i, j := Find(header, '<'), Find(header, '>');
            '<' in header && '>' in header && j < i ==> SenderOf(header) == ""
  {
    var i, j := Find(header, '<'), Find(header, '>');
    FindFirst(header, '>');
    if '<' in header && '>' in header && i < j {
      var addr := header[i + 1..j];
      forall k | 0 <= k < |addr| ensures addr[k] != '>' {
        assert addr[k] == header[i + 1 + k];
      }
    }
  }

  /** A `>` in the display name, before the address, leaves the recipient empty. */
  lemma SenderLostBehindDisplayName()
    ensures SenderOf("a>b <x@y>") == ""
  {
    var h := "a>b <x@y>";
    assert h[1] == '>' && h[0] != '>';
    assert h[4] == '<' && h[0] != '<' && h[1] != '<' && h[2] != '<' && h[3] != '<';
    assert Find(h, '>') == 1;
    assert Find(h, '<') == 4;
  }

  /** The address inside the last `<...>` pair: the text after the last `<` up to the
      first `>` after it; the whole header when there is no such pair. */
  function SenderAddress(header: string): (r: string)
    ensures '<' !in r
  {
    var i := RFind(header, '<');
    if i < 0 then SenderOfNoBracket(header)
    else
      AfterRFind(header, '<', i);
      var tail := header[i + 1..];
      var j := Find(tail, '>');
      if j < 0 then SenderOfNoBracket(header) else tail[..j]
  }

  /** The fallback when no address pair is found: the header itself, which has no `<`
      only when it has no pair either. */
  function SenderOfNoBracket(header: string): (r: string)
    ensures '<' !in header ==> r == header
    ensures '<' !in r
  {
    if '<' in header then Strip(Without(header, '<')) else header
  }

  /** `s` with every `c` removed. */
  function Without(s: string, c: char): (r: string)
    ensures c !in r
    ensures |r| <= |s|
  {
    if |s| == 0 then "" else Without(s[..|s| - 1], c) + (if s[|s| - 1] == c then "" else [s[|s| - 1]])
  }

  /** Whatever the display name holds, a header `display <addr>` yields `addr`. */
  lemma SenderAddressOfNamedHeader(display: string, addr: string)
    requires '<' !in addr && '>' !in addr
    ensures SenderAddress(display + "<" + addr + ">") == addr
  {
    var h := display + "<" + addr + ">";
    var i := |display|;
    assert h[i] == '<';
    forall k | i < k < |h| ensures h[k] != '<' {
      if k < |h| - 1 {
        assert h[k] == addr[k - i - 1];
      }
    }
    RFindIs(h, '<', i);
    var tail := h[i + 1..];
    assert tail == addr + ">";
    assert tail[|addr|] == '>';
    forall k | 0 <= k < |addr| ensures tail[k] != '>' {
      assert tail[k] == addr[k];
    }
    assert Find(tail, '>') == |addr|;
  }

  /** On a header whose display name holds no bracket, the corrected reading agrees with
      the one as written. */
  lemma SenderAddressAgrees(display: string, addr: string)
    requires '<' !in addr && '>' !in addr && '<' !in display && '>' !in display
    ensures SenderOf(display + "<" + addr + ">") == SenderAddress(display + "<" + addr + ">")
  {
    SenderAddressOfNamedHeader(display, addr);
    var h := display + "<" + addr + ">";
    var i := |display|;
    assert h[i] == '<';
    forall k | 0 <= k < i ensures h[k] != '<' && h[k] != '>' {
      assert h[k] == display[k];
    }
    assert Find(h, '<') == i;
    assert h[|h| - 1] == '>';
    forall k | 0 <= k < |h| - 1 ensures h[k] != '>' {
      if k > i {
        assert h[k] == addr[k - i - 1];
      }
    }
    assert Find(h, '>') == |h| - 1;
    assert h[i + 1..|h| - 1] == addr;
  }

  // ---------------------------------------------------------------------------
  // Links

  /** `get_editor_url`: the configured base URL without trailing slashes, then
      `/?mail_id=` and the id. */
  function EditorUrl(baseUrl: string, mailId: string): string {
    RStripChar(baseUrl, '/') + "/?mail_id=" + mailId
  }

  /** `get_confirm_url`: the same base, then `/confirm.php?mail_id=` and the id. */
  function ConfirmUrl(baseUrl: string, mailId: string): string {
    RStripChar(baseUrl, '/') + "/confirm.php?mail_id=" + mailId
  }

  function Slashes(n: nat): (s: string)
    ensures |s| == n && forall k :: 0 <= k < n ==> s[k] == '/'
  {
    if n == 0 then "" else Slashes(n - 1) + "/"
  }

  lemma {:induction false} StripSlashes(base: string, n: nat)
    ensures RStripChar(base + Slashes(n), '/') == RStripChar(base, '/')
  {
    if n > 0 {
      var s := base + Slashes(n);
      assert s[|s| - 1] == '/';
      assert s[..|s| - 1] == base + Slashes(n - 1);
      assert RStripChar(s, '/') == RStripChar(s[..|s| - 1], '/');
      StripSlashes(base, n - 1);
    } else {
      assert base + Slashes(n) == base;
    }
  }

  /** However many slashes the configured base URL ends with, the links are the same,
      and the base never ends with a slash where the path is joined on. */
  lemma UrlsIgnoreTrailingSlashes(base: string, n: nat, mailId: string)
    ensures EditorUrl(base + Slashes(n), mailId) == EditorUrl(base, mailId)
    ensures ConfirmUrl(base + Slashes(n), mailId) == ConfirmUrl(base, mailId)
    ensures var b := RStripChar(base, '/'); b == "" || b[|b| - 1] != '/'
  {
    StripSlashes(base, n);
  }

  /** The footer links: editor and confirm URLs for the problem's `mail_id`, or the
      placeholders `#edit` and `#confirm` when it is absent or `N/A`. */
  function FooterLinks(mailId: Option<string>, baseUrl: string): (string, string) {
    var id := if mailId.Some? then mailId.value else "N/A";
    if id != "N/A" then (EditorUrl(baseUrl, id), ConfirmUrl(baseUrl, id)) else ("#edit", "#confirm")
  }

  /** Placeholders exactly when there is no usable id; otherwise both links end with
      `mail_id=` and the id. */
  lemma FooterLinksSpec(mailId: Option<string>, baseUrl: string)
    ensures var links := FooterLinks(mailId, baseUrl);
            && (links == ("#edit", "#confirm") <==> mailId.None? || mailId.value == "N/A")
            && (mailId.Some? && mailId.value != "N/A" ==>
                  EndsWith(links.0, "mail_id=" + mailId.value) && EndsWith(links.1, "mail_id=" + mailId.value))
  {
    if mailId.Some? && mailId.value != "N/A" {
      var id := mailId.value;
      var b := RStripChar(baseUrl, '/');
      assert EditorUrl(baseUrl, id) == (b + "/?") + ("mail_id=" + id);
      assert ConfirmUrl(baseUrl, id) == (b + "/confirm.php?") + ("mail_id=" + id);
      assert |EditorUrl(baseUrl, id)| > 5;
    }
  }

  // ---------------------------------------------------------------------------
  // One field

  /** The status mark shown in front of a field value. */
  datatype Indicator = NoIndicator | CompleteMark | UnclearMark | MissingMark

  /** What `build_field_html` renders: the value shown, its CSS class and its mark. */
  datatype FieldView = FieldView(value: Json, css: string, indicator: Indicator)

  const NotRecognised: Json := JStr("[Nicht erkannt]")

  /** A value shown as not recognised whatever its status: falsy, `null` or `N/A`. */
  predicate Blank(value: Json) {
    !Truthy(value) || value == JStr("null") || value == JStr("N/A")
  }

  function BuildFieldHtml(value: Json, status: string): FieldView {
    if Blank(value) then FieldView(NotRecognised, "missing", MissingMark)
    else if status == "complete" then FieldView(value, "", CompleteMark)
    else if status == "unclear" then FieldView(value, "unclear", UnclearMark)
    else if status == "missing" then FieldView(NotRecognised, "missing", MissingMark)
    else FieldView(value, "", NoIndicator)
  }

  /** A blank value is shown as not recognised whatever the analysis says; any other value
      carries the mark of the first list of the analysis naming the field (complete, then
      missing, then unclear), is replaced only when that list is `missing`, and carries no
      mark when no list names it. */
  lemma FieldViewFollowsAnalysis(name: string, value: Json, a: Analysis)
    ensures var v := BuildFieldHtml(value, GetFieldStatus(name, a));
            && (Blank(value) ==> v == FieldView(NotRecognised, "missing", MissingMark))
            && (!Blank(value) ==>
                  && (v.indicator == CompleteMark <==> name in a.complete)
                  && (v.indicator == MissingMark <==> name !in a.complete && name in a.missing)
                  && (v.indicator == UnclearMark <==> name !in a.complete && name !in a.missing && name in a.unclear)
                  && (v.indicator == NoIndicator <==> name !in a.complete && name !in a.missing && name !in a.unclear)
                  && (v.value == if v.indicator == MissingMark then NotRecognised else value))
  {
  }

  // ---------------------------------------------------------------------------
  // Fields to complete

  /** The fields the summary can point the reporter to, with their label and anchor. */
  const FieldLabels: map<string, (string, string)> := map[
    "reporter_department" := ("Abteilung", "#problem"),
    "affected_users" := ("Betroffene Nutzer", "#problem"),
    "solution_approach" := ("Lösungsansatz", "#solution"),
    "solution_complexity" := ("Komplexität", "#solution"),
    "asset_version" := ("Software-Version", "#asset"),
    "asset_platform" := ("Plattform", "#asset"),
    "asset_deployment" := ("Deployment-Art", "#asset")
  ]

  /** One list item: a link to the field's anchor, labelled, with `suffix` after the label. */
  function Item(field: string, suffix: string): string
    requires field in FieldLabels
  {
    "<li><a href=\"" + FieldLabels[field].1 + "\">" + FieldLabels[field].0 + suffix + "</a></li>"
  }

  /** The items for the labelled fields among `fields`, in order. */
  function Items(fields: seq<string>, suffix: string): seq<string> {
    if |fields| == 0 then []
    else
      var last := fields[|fields| - 1];
      Items(fields[..|fields| - 1], suffix) + (if last in FieldLabels then [Item(last, suffix)] else [])
  }

  /** Every item belongs to a labelled field of the list and every labelled field of the
      list gets one; unlabelled fields are passed over. */
  lemma {:induction false} ItemsSpec(fields: seq<string>, suffix: string)
    ensures |Items(fields, suffix)| <= |fields|
    ensures forall it :: it in Items(fields, suffix) <==>
                         exists f :: f in fields && f in FieldLabels && it == Item(f, suffix)
    ensures Items(fields, suffix) == [] <==> forall f :: f in fields ==> f !in FieldLabels
  {
    if |fields| > 0 {
      var init := fields[..|fields| - 1];
      ItemsSpec(init, suffix);
      assert fields == init + [fields[|fields| - 1]];
      forall it | it in Items(fields, suffix)
        ensures exists f :: f in fields && f in FieldLabels && it == Item(f, suffix)
      {
        if it in Items(init, suffix) {
          var f :| f in init && f in FieldLabels && it == Item(f, suffix);
          assert f in fields;
        }
      }
    }
  }

  function Concat(items: seq<string>): string {
    if |items| == 0 then "" else Concat(items[..|items| - 1]) + items[|items| - 1]
  }

  /** The items of the summary: the labelled missing fields, then the labelled unclear
      ones with an `(unklar)` suffix. */
  method MissingItems(a: Analysis) returns (items: seq<string>)
    ensures items == Items(a.missing, "") + Items(a.unclear, " (unklar)")
  {
    items := [];
    for i := 0 to |a.missing|
      invariant items == Items(a.missing[..i], "")
    {
      assert a.missing[..i + 1][..i] == a.missing[..i];
      if a.missing[i] in FieldLabels {
        items := items + [Item(a.missing[i], "")];
      }
    }
    assert a.missing[..|a.missing|] == a.missing;
    var missingPart := items;
    for i := 0 to |a.unclear|
      invariant items == missingPart + Items(a.unclear[..i], " (unklar)")
    {
      assert a.unclear[..i + 1][..i] == a.unclear[..i];
      if a.unclear[i] in FieldLabels {
        items := items + [Item(a.unclear[i], " (unklar)")];
      }
    }
    assert a.unclear[..|a.unclear|] == a.unclear;
  }

  /** The list block of `build_quality_summary`: empty when no item is to be shown. */
  method MissingBlock(a: Analysis) returns (block: string)
    ensures var items := Items(a.missing, "") + Items(a.unclear, " (unklar)");
            && (block == "" <==> items == [])
            && (items != [] ==> block == "<ul class=\"missing-fields-list\">" + Concat(items) + "</ul>")
  {
    block := "";
    if a.missing != [] || a.unclear != [] {
      var items := MissingItems(a);
      if items != [] {
        block := "<ul class=\"missing-fields-list\">" + Concat(items) + "</ul>";
      }
    }
  }

  // ---------------------------------------------------------------------------
  // The solution section

  /** Whether `fill_template_v2` renders the solution section: `sol` is the solution
      document's `solution` object (`{}` when the document is missing or empty) and the
      section is shown iff its `steps` are truthy and have a positive length. None when
      evaluating that raises. */
  function ShowsSolution(solution: Option<map<string, Json>>): Option<bool> {
    var sol := if solution.Some? && solution.value != map[] then GetOr(solution.value, "solution", JObj(map[]))
               else JObj(map[]);
    if !sol.JObj? then None
    else
      var steps := GetOr(sol.fields, "steps", JArr([]));
      if !Truthy(steps) then Some(false)
      else if LenOf(steps).None? then None
      else Some(LenOf(steps).value > 0)
  }

  /** The section is shown exactly when the solution object has a non-empty steps value
      (a list, or a string or object); a missing or empty solution document never shows
      it. */
  lemma SolutionSectionSpec(solution: Option<map<string, Json>>)
    ensures solution.None? || solution.value == map[] ==> ShowsSolution(solution) == Some(false)
    ensures ShowsSolution(solution) == Some(true) <==>
              && solution.Some? && "solution" in solution.value && solution.value["solution"].JObj?
              && "steps" in solution.value["solution"].fields
              && var steps := solution.value["solution"].fields["steps"];
                 LenOf(steps).Some? && LenOf(steps).value > 0
  {
  }

  // ---------------------------------------------------------------------------
  // Which extraction, and how the run ends

  /** Python's string order: code point by code point, a proper prefix first. */
  predicate LexLe(a: string, b: string) {
    |a| == 0 || (|b| > 0 && (a[0] < b[0] || (a[0] == b[0] && LexLe(a[1..], b[1..]))))
  }

  lemma {:induction false} LexLeTotal(a: string, b: string)
    ensures LexLe(a, b) || LexLe(b, a)
  {
    if |a| > 0 && |b| > 0 && a[0] == b[0] {
      LexLeTotal(a[1..], b[1..]);
    }
  }

  lemma {:induction false} LexLeTransitive(a: string, b: string, c: string)
    requires LexLe(a, b) && LexLe(b, c)
    ensures LexLe(a, c)
  {
    if |a| > 0 && a[0] == b[0] && b[0] == c[0] {
      LexLeTransitive(a[1..], b[1..], c[1..]);
    }
  }

  /** `sorted(json_files, key=lambda p: p.stem)[-1]`: a problem file with the greatest
      stem, the last of them in listing order when stems tie. */
  method LatestProblem(files: seq<string>) returns (latest: string)
    requires |files| > 0
    ensures latest in files
    ensures forall f :: f in files ==> LexLe(Stem(f), Stem(latest))
  {
    latest := files[0];
    LexLeTotal(Stem(latest), Stem(latest));
    for i := 1 to |files|
      invariant latest in files[..i]
      invariant forall f :: f in files[..i] ==> LexLe(Stem(f), Stem(latest))
    {
      assert files[..i + 1] == files[..i] + [files[i]];
      LexLeTotal(Stem(latest), Stem(files[i]));
      LexLeTotal(Stem(files[i]), Stem(files[i]));
      if LexLe(Stem(latest), Stem(files[i])) {
        forall f | f in files[..i] ensures LexLe(Stem(f), Stem(files[i])) {
          LexLeTransitive(Stem(f), Stem(latest), Stem(files[i]));
        }
        latest := files[i];
      }
    }
    assert files[..|files|] == files;
  }

  /** The two directories the script touches. */
  class Responder {
    var processed: set<string>
    var sent: set<string>

    constructor (processed: set<string>, sent: set<string>)
      ensures this.processed == processed && this.sent == sent
    {
      this.processed := processed;
      this.sent := sent;
    }

    /** `main`: `listing` is the glob of `*_problem.json` in `processed/` (empty when the
        directory does not exist), `docs` the documents that load (by file name), and the
        booleans the outcome of loading the mail configuration and the template, of
        sending and of moving. The run keys on the latest problem file; it exits 1 when
        the configuration, the problem or asset document, the mail or the template is
        missing, when the analysis raises (a missing solution document among others) or
        the template filling raises, and when sending fails; once the mail is sent it
        exits 0, and moves the mail to `sent/` only when the move succeeds. */
    method Run(listing: seq<string>, docs: map<string, map<string, Json>>, configOk: bool,
                templateOk: bool, sendOk: bool, moveOk: bool)
      returns (exit: int, timestamp: Option<string>, mailFile: Option<string>, attempted: bool)
      requires forall n :: n in listing ==> n in processed && GlobStar(n, "_problem.json")
      modifies this`processed, this`sent
      ensures exit == 0 || exit == 1
      ensures timestamp.Some? <==> configOk && listing != []
      ensures timestamp.Some? ==>
                exists f :: f in listing && timestamp.value == Key(Stem(f)) &&
                            forall g :: g in listing ==> LexLe(Stem(g), Stem(f))
      ensures !configOk || listing == [] ==> exit == 1
      ensures mailFile.Some? ==>
                timestamp.Some? && mailFile.value in old(processed) && MailFor(timestamp.value, mailFile.value)
      ensures timestamp.Some? && !DocsLoaded(docs, timestamp.value) ==> mailFile.None? && exit == 1
      ensures timestamp.Some? && DocsLoaded(docs, timestamp.value) ==>
                (mailFile.Some? <==> exists n :: n in old(processed) && MailFor(timestamp.value, n))
      ensures attempted <==> mailFile.Some? && Sendable(docs, timestamp.value, templateOk)
      ensures exit == 0 <==> attempted && sendOk
      ensures exit == 0 && moveOk ==>
                processed == old(processed) - {mailFile.value} && sent == old(sent) + {mailFile.value}
      ensures !(exit == 0 && moveOk) ==> processed == old(processed) && sent == old(sent)
    {
      exit, timestamp, mailFile, attempted := 1, None, None, false;
      if !configOk || listing == [] {
        return;
      }
      var latest := LatestProblem(listing);
      var ts := Key(Stem(latest));
      timestamp := Some(ts);
      var problem := DocOf(docs, DocumentName(ts, "problem"));
      if problem.None? || problem.value == map[] {
        return;
      }
      var solution := DocOf(docs, DocumentName(ts, "solution"));
      var asset := DocOf(docs, DocumentName(ts, "asset"));
      if asset.None? || asset.value == map[] {
        return;
      }
      var candidates := set n | n in processed && MailFor(ts, n);
      if candidates == {} {
        forall n | n in processed ensures !MailFor(ts, n) {
          assert n !in candidates;
        }
        return;
      }
      var m :| m in candidates;
      mailFile := Some(m);
      var quality := AnalyzeQuality(problem.value, solution, asset.value);
      if quality.None? || !templateOk || !TemplateFills(problem.value, solution.value) {
        return;
      }
      attempted := true;
      if !sendOk {
        return;
      }
      exit := 0;
      if moveOk {
        processed := processed - {m};
        sent := sent + {m};
      }
    }
  }

  /** Everything between finding the mail and sending it works for extraction `ts`: the
      problem and asset documents load, the analysis does not raise (which needs the
      solution document), the template loads and filling it does not raise. */
  predicate Sendable(docs: map<string, map<string, Json>>, ts: string, templateOk: bool) {
    && DocsLoaded(docs, ts)
    && var problem := docs[DocumentName(ts, "problem")];
       var solution := DocOf(docs, DocumentName(ts, "solution"));
       && AnalyzeQuality(problem, solution, docs[DocumentName(ts, "asset")]).Some?
       && templateOk
       && solution.Some? && TemplateFills(problem, solution.value)
  }

  /** `fill_template_v2` runs to the end on documents the analysis accepted: the reporter
      name, the case id and the mail id it passes to `str.replace` and the severity and
      status it upper-cases are strings, every solution step is an object, and truthy
      prerequisites can be iterated. */
  predicate TemplateFills(problem: map<string, Json>, solution: map<string, Json>) {
    var reporter := SectionOf(problem, "reporter");
    var classification := SectionOf(problem, "classification");
    var sol := SectionOf(solution, "solution");
    && reporter.Some? && classification.Some? && sol.Some?
    && GetOr(reporter.value, "name", JStr("Benutzer")).JStr?
    && GetOr(classification.value, "severity", JStr("medium")).JStr?
    && GetOr(problem, "status", JStr("new")).JStr?
    && StepsRender(GetOr(sol.value, "steps", JArr([])), GetOr(sol.value, "prerequisites", JArr([])))
    && GetOr(problem, "id", JStr("N/A")).JStr?
    && GetOr(problem, "mail_id", JStr("N/A")).JStr?
  }

  /** The solution section renders: without steps it is left out; with steps, each step
      answers `.get` (an object) and truthy prerequisites are a string, list or object. */
  predicate StepsRender(steps: Json, prereqs: Json) {
    !Truthy(steps) ||
    (&& (steps.JArr? && forall k :: 0 <= k < |steps.items| ==> steps.items[k].JObj?)
     && (!Truthy(prereqs) || prereqs.JStr? || prereqs.JArr? || prereqs.JObj?))
  }

  /** The problem and asset documents of extraction `ts` load and are not empty. */
  predicate DocsLoaded(docs: map<string, map<string, Json>>, ts: string) {
    && DocumentName(ts, "problem") in docs && docs[DocumentName(ts, "problem")] != map[]
    && DocumentName(ts, "asset") in docs && docs[DocumentName(ts, "asset")] != map[]
  }

  /** The document stored under `name`, when it loads. */
  function DocOf(docs: map<string, map<string, Json>>, name: string): Option<map<string, Json>> {
    if name in docs then Some(docs[name]) else None
  }
}
