// The LLM request script: the client's settings, how the prompt and the request are
// assembled, how the model's answer is cleaned up and checked as JSON, and how the
// script chooses its prompt and its exit status.

module LlmRequest {
  import opened Common
  import Credentials

  // ---------------------------------------------------------------------------
  // Client settings

  /** What `LLMClient.__init__` keeps: base URL, model and API key of the provider. */
  datatype Settings = Settings(baseUrl: Json, model: Json, apiKey: Option<Json>)

  const DefaultBaseUrl := "http://localhost:11434"
  const DefaultModel := "llama3:8b"

  /** `d.get(k, default)` on a loaded object. */
  function Lookup(d: map<string, Json>, k: string, default: Json): Json {
    if k in d then d[k] else default
  }

  /** The settings for `provider` from the outcome of `get_llm_config()`: a missing `llm`
      entry reads as no configuration; any other error of the lookup, or an entry that is
      not an object, makes the constructor raise (None). */
  function ClientSettings(llm: Credentials.Lookup, provider: string): Option<Settings> {
    if llm.RuntimeErr? || llm.TypeErr? then None
    else
      var config := if llm.KeyErr? then JObj(map[]) else llm.value;
      if !config.JObj? then None
      else
        var pc := Lookup(config.fields, provider, JObj(map[]));
        if !pc.JObj? then None
        else
          Some(Settings(Lookup(pc.fields, "base_url", JStr(DefaultBaseUrl)),
                        Lookup(pc.fields, "model", JStr(DefaultModel)),
                        if "api_key" in pc.fields then Some(pc.fields["api_key"]) else None))
  }

  /** Without secrets the client cannot be built; without an `llm` entry, or without the
      provider in it, it talks to a local Ollama with `llama3:8b` and no key; configured
      values win over the defaults. */
  lemma ClientSettingsSpec(secrets: map<string, Json>, provider: string)
    ensures secrets == map[] ==> ClientSettings(Credentials.Get(secrets, "llm", None), provider).None?
    ensures secrets != map[] && "llm" !in secrets ==>
              ClientSettings(Credentials.Get(secrets, "llm", None), provider) ==
              Some(Settings(JStr(DefaultBaseUrl), JStr(DefaultModel), None))
    ensures secrets != map[] && "llm" in secrets && secrets["llm"].JObj? && provider in secrets["llm"].fields &&
            secrets["llm"].fields[provider].JObj? ==>
              var pc := secrets["llm"].fields[provider].fields;
              var s := ClientSettings(Credentials.Get(secrets, "llm", None), provider);
              s.Some? && ("base_url" in pc ==> s.value.baseUrl == pc["base_url"]) &&
              ("model" in pc ==> s.value.model == pc["model"])
  {
  }

  // ---------------------------------------------------------------------------
  // Cleaning the answer

  const Fence := "```"

  /** A fenced answer with more than two lines loses its first and last line and is
      stripped; anything else is kept as it is. */
  function CleanFences(g: string): string {
    if StartsWith(g, Fence) then
      var lines := Split(g, '\n');
      if |lines| > 2 then Strip(Join(lines[1..|lines| - 1], "\n")) else g
    else g
  }

  lemma {:induction false} SplitLastLine(body: string, close: string)
    requires '\n' !in close
    ensures Split(body + "\n" + close, '\n') == Split(body, '\n') + [close]
    decreases |body|
  {
    var i := Find(body, '\n');
    if i < 0 {
      SplitTwoLines(body, close);
    } else {
      SplitLastLine(body[i + 1..], close);
      SplitFirstLine(body, close, i);
    }
  }

  /** Two lines split into the two of them. */
  lemma SplitTwoLines(a: string, b: string)
    requires '\n' !in a && '\n' !in b
    ensures Split(a + "\n" + b, '\n') == Split(a, '\n') + [b]
  {
    FindPast(a, b, '\n');
    SplitAtFirst(a + "\n" + b, '\n', |a|);
    SplitSingle(b, '\n');
    SplitSingle(a, '\n');
  }

  /** The first line of `body` is split off alike with or without a line appended. */
  lemma SplitFirstLine(body: string, close: string, i: int)
    requires i == Find(body, '\n') && i >= 0
    requires Split(body[i + 1..] + "\n" + close, '\n') == Split(body[i + 1..], '\n') + [close]
    ensures Split(body + "\n" + close, '\n') == Split(body, '\n') + [close]
  {
    var head, rest := body[..i], body[i + 1..];
    BeforeFind(body, '\n', i);
    CutAt(body, i);
    SplitCons(head, rest, '\n');
    LineAppended(body, head, rest, close);
    SplitCons(head, rest + "\n" + close, '\n');
    ConsLast(Split(body + "\n" + close, '\n'), Split(body, '\n'), Split(rest, '\n'), head, close);
  }

  lemma LineAppended(body: string, head: string, rest: string, close: string)
    requires body == head + "\n" + rest
    ensures body + "\n" + close == head + "\n" + (rest + "\n" + close)
  {
  }

  lemma ConsLast(x: seq<string>, w: seq<string>, z: seq<string>, h: string, c: string)
    requires x == [h] + (z + [c]) && w == [h] + z
    ensures x == w + [c]
  {
  }

  /** An answer wrapped as an opening fence line, a body and a closing line comes back as
      the stripped body, whatever lines the body holds. */
  lemma CleanFencesUnwraps(open: string, body: string, close: string)
    requires StartsWith(open, Fence) && '\n' !in open && '\n' !in close
    ensures CleanFences(open + "\n" + body + "\n" + close) == Strip(body)
  {
    var g := open + "\n" + body + "\n" + close;
    assert g[..|Fence|] == open[..|Fence|];
    var inner := Split(body, '\n');
    SplitLastLine(open + "\n" + body, close);
    SplitCons(open, body, '\n');
    MiddleOf(Split(g, '\n'), open, inner, close);
    JoinSplit(body, '\n');
  }

  lemma MiddleOf(x: seq<string>, a: string, m: seq<string>, b: string)
    requires x == [a] + m + [b]
    ensures |x| == |m| + 2 && x[1..|x| - 1] == m
  {
  }

  /** An answer of one or two lines is never changed, even when it starts with a fence. */
  lemma ShortAnswerKept(a: string, b: string)
    requires '\n' !in a && '\n' !in b
    ensures CleanFences(a) == a
    ensures CleanFences(a + "\n" + b) == a + "\n" + b
  {
    SplitSingle(a, '\n');
    SplitLastLine(a, b);
  }

  /** The fallback JSON candidate: from the first `{` to the last `}`, when both exist and
      the first comes before the last. */
  function JsonCandidate(g: string): Option<string> {
    var start := Find(g, '{');
    var end := RFind(g, '}');
    if start != -1 && end != -1 && start < end then Some(g[start..end + 1]) else None
  }

  /** A candidate is a piece of the answer that opens with `{` and closes with `}`, with no
      `{` before it and no `}` after it; there is none exactly when no `{` precedes a `}`
      at the positions found. */
  lemma JsonCandidateSpec(g: string)
    ensures JsonCandidate(g).None? <==> '{' !in g || '}' !in g || Find(g, '{') > RFind(g, '}')
    ensures JsonCandidate(g).Some? ==>
              var c := JsonCandidate(g).value;
              var start := Find(g, '{');
              && |c| >= 2 && c[0] == '{' && c[|c| - 1] == '}'
              && 0 <= start && start + |c| <= |g| && g[start..start + |c|] == c
              && '{' !in g[..start] && '}' !in g[start + |c|..]
  {
    var start := Find(g, '{');
    var end := RFind(g, '}');
    if start != -1 && end != -1 {
      assert g[start] != g[end];
    }
    if start != -1 && end != -1 && start < end {
      var c := g[start..end + 1];
      BeforeFind(g, '{', start);
      AfterRFind(g, '}', end);
      assert c[0] == g[start] && c[|c| - 1] == g[end];
      assert start + |c| == end + 1;
    }
  }

  /** Text around a JSON object, with no `{` before it and no `}` after it, yields exactly
      that object. */
  lemma JsonCandidateFindsObject(pre: string, obj: string, post: string)
    requires '{' !in pre && '}' !in post
    requires |obj| >= 2 && obj[0] == '{' && obj[|obj| - 1] == '}'
    ensures JsonCandidate(pre + obj + post) == Some(obj)
  {
    var g := pre + obj + post;
    var a := |pre|;
    var b := |pre| + |obj| - 1;
    assert g[a] == '{' && g[b] == '}';
    forall k | 0 <= k < a ensures g[k] != '{' {
      assert g[k] == pre[k];
    }
    forall k | b < k < |g| ensures g[k] != '}' {
      assert g[k] == post[k - b - 1];
    }
    FindIs(g, '{', a);
    RFindIs(g, '}', b);
    assert g[a..b + 1] == obj;
  }

  // ---------------------------------------------------------------------------
  // Prompt and request

  const JsonSuffix := "\n\nIMPORTANT: Return ONLY valid JSON. No explanations. No markdown. Just JSON."

  /** Python's `f"{x}"` of an optional string: `None` prints as the word None. */
  function Show(s: Option<string>): string {
    if s.None? then "None" else s.value
  }

  /** A system prompt that counts (`if system_prompt:`). */
  predicate Given(system: Option<string>) {
    system.Some? && system.value != ""
  }

  /** The prompt as `generate` assembles it: with a schema, system prompt, a blank line,
      the prompt and the JSON instruction; without one, the system prompt and a blank line
      only when there is a system prompt. */
  function FullPromptAsWritten(system: Option<string>, prompt: string, schemaGiven: bool): string {
    if schemaGiven then Show(system) + "\n\n" + prompt + JsonSuffix
    else if Given(system) then system.value + "\n\n" + prompt
    else prompt
  }

  /** With a schema and no system prompt the model is told `None` in front of the prompt,
      six characters the corrected prompt does not have. */
  lemma NoneSentAsSystemPrompt(prompt: string)
    ensures FullPromptAsWritten(None, prompt, true) == "None\n\n" + prompt + JsonSuffix
    ensures |FullPromptAsWritten(None, prompt, true)| == |FullPrompt(None, prompt, true)| + 6
  {
  }

  /** The prompt with the system part only when there is a system prompt, and the JSON
      instruction only with a schema. */
  function FullPrompt(system: Option<string>, prompt: string, schemaGiven: bool): string {
    var head := if Given(system) then system.value + "\n\n" + prompt else prompt;
    if schemaGiven then head + JsonSuffix else head
  }

  /** The prompt opens with the system prompt and a blank line when there is one, and with
      the user prompt otherwise; it closes with the JSON instruction exactly when a schema
      is given; and it agrees with the prompt as written wherever that has a system prompt
      or no schema. */
  lemma FullPromptSpec(system: Option<string>, prompt: string, schemaGiven: bool)
    ensures Given(system) ==> StartsWith(FullPrompt(system, prompt, schemaGiven), system.value + "\n\n")
    ensures !Given(system) ==> StartsWith(FullPrompt(system, prompt, schemaGiven), prompt)
    ensures schemaGiven ==> EndsWith(FullPrompt(system, prompt, schemaGiven), prompt + JsonSuffix)
    ensures !schemaGiven ==> EndsWith(FullPrompt(system, prompt, schemaGiven), prompt)
    ensures Given(system) || !schemaGiven ==>
              FullPrompt(system, prompt, schemaGiven) == FullPromptAsWritten(system, prompt, schemaGiven)
  {
    var head := if Given(system) then system.value + "\n\n" + prompt else prompt;
    var r := FullPrompt(system, prompt, schemaGiven);
    if Given(system) {
      assert r == (system.value + "\n\n") + (prompt + if schemaGiven then JsonSuffix else "");
    }
    if schemaGiven {
      assert r == (if Given(system) then system.value + "\n\n" else "") + (prompt + JsonSuffix);
    } else {
      assert r == (if Given(system) then system.value + "\n\n" else "") + prompt;
    }
  }

  /** The request body sent to `/api/generate` (stream off; the sampling settings are
      not modelled). */
  datatype Request = Request(model: Json, prompt: string, format: Option<string>, system: Option<string>)

  /** A schema counts only when it loaded to something truthy (`if json_schema:`). */
  predicate SchemaGiven(schema: Option<Json>) {
    schema.Some? && Truthy(schema.value)
  }

  /** The request as `generate` builds it, with the prompt as written. */
  function BuildRequest(model: Json, system: Option<string>, prompt: string, schemaGiven: bool): Request {
    Request(model, FullPromptAsWritten(system, prompt, schemaGiven),
            if schemaGiven then Some("json") else None,
            if Given(system) && !schemaGiven then system else None)
  }

  /** The request asks for JSON output exactly when a schema is given, and carries the
      system prompt as its own field exactly when there is one and no schema (with a schema
      it is part of the prompt instead). Its prompt is the corrected one except with a
      schema and no system prompt, where it opens with `Show(system)` and a blank line. */
  lemma RequestSpec(model: Json, system: Option<string>, prompt: string, schemaGiven: bool)
    ensures var r := BuildRequest(model, system, prompt, schemaGiven);
            && (r.format.Some? <==> schemaGiven) && (r.format.Some? ==> r.format.value == "json")
            && (r.system.Some? <==> Given(system) && !schemaGiven)
            && (r.system.Some? ==> r.system == system)
            && (Given(system) && schemaGiven ==> StartsWith(r.prompt, system.value))
            && (Given(system) || !schemaGiven ==> r.prompt == FullPrompt(system, prompt, schemaGiven))
            && (!Given(system) && schemaGiven ==> r.prompt == Show(system) + "\n\n" + prompt + JsonSuffix)
  {
    FullPromptSpec(system, prompt, schemaGiven);
    if Given(system) && schemaGiven {
      assert StartsWith(system.value + "\n\n", system.value);
    }
  }

  // ---------------------------------------------------------------------------
  // Generating

  /** What `generate` returns: nothing, the cleaned text, or the JSON parsed from `source`
      printed again (the printing itself is not modelled). */
  datatype Generated = NoResponse | Text(text: string) | Reformatted(source: string)

  /** Whether `main` treats the answer as produced (`if response:`). */
  predicate Responded(g: Generated) {
    (g.Text? && g.text != "") || g.Reformatted?
  }

  /** The answer `generate` makes of a reply: nothing without one; without a schema the
      cleaned text; with a schema the cleaned text when it parses, else its JSON candidate
      when that parses, else nothing. */
  function Answer(reply: Option<string>, schemaGiven: bool, parses: string -> bool): (r: Generated)
    ensures reply.None? ==> r == NoResponse
    ensures r.Text? <==> reply.Some? && !schemaGiven
    ensures r.Reformatted? ==> schemaGiven && parses(r.source)
  {
    if reply.None? then NoResponse
    else
      var g := CleanFences(Strip(reply.value));
      if !schemaGiven then Text(g)
      else
        var c := JsonCandidate(g);
        if parses(g) then Reformatted(g)
        else if c.Some? && parses(c.value) then Reformatted(c.value)
        else NoResponse
  }

  /** `generate`: `connected` is the outcome of the connection test, `reply` the `response`
      field of a successful request (None on a failed, timed-out or raising request) and
      `parses` whether a text is valid JSON. */
  method Generate(model: Json, prompt: string, system: Option<string>, schema: Option<Json>,
                  connected: bool, reply: Option<string>, parses: string -> bool)
    returns (request: Option<Request>, result: Generated)
    ensures !connected ==> request.None? && result == NoResponse
    ensures connected ==> request == Some(BuildRequest(model, system, prompt, SchemaGiven(schema)))
    ensures connected ==> result == Answer(reply, SchemaGiven(schema), parses)
  {
    request, result := None, NoResponse;
    if !connected {
      return;
    }
    var schemaGiven := SchemaGiven(schema);
    var data := Request(model, FullPromptAsWritten(system, prompt, schemaGiven), None, None);
    if schemaGiven {
      data := data.(format := Some("json"));
    }
    if Given(system) && !schemaGiven {
      data := data.(system := system);
    }
    request := Some(data);
    if reply.None? {
      return;
    }
    var generated := CleanAnswer(reply.value);
    if schemaGiven {
      result := ParseAnswer(generated, parses);
    } else {
      result := Text(generated);
    }
  }

  /** The answer stripped, then freed of a surrounding code fence. */
  method CleanAnswer(reply: string) returns (generated: string)
    ensures generated == CleanFences(Strip(reply))
  {
    generated := Strip(reply);
    if StartsWith(generated, Fence) {
      var lines := Split(generated, '\n');
      if |lines| > 2 {
        generated := Strip(Join(lines[1..|lines| - 1], "\n"));
      }
    }
  }

  /** With a schema: the answer itself when it parses, else its JSON candidate when that
      parses, else nothing. */
  method ParseAnswer(generated: string, parses: string -> bool) returns (result: Generated)
    ensures var c := JsonCandidate(generated);
            result == if parses(generated) then Reformatted(generated)
                      else if c.Some? && parses(c.value) then Reformatted(c.value)
                      else NoResponse
    ensures result.Reformatted? ==> parses(result.source)
  {
    if parses(generated) {
      return Reformatted(generated);
    }
    var start := Find(generated, '{');
    var end := RFind(generated, '}');
    if start != -1 && end != -1 && start < end {
      var candidate := generated[start..end + 1];
      if parses(candidate) {
        return Reformatted(candidate);
      }
    }
    return NoResponse;
  }

  // ---------------------------------------------------------------------------
  // The script

  const MailPromptIntro := "Analyze the following email:\n\n"

  /** The user prompt: `--prompt` when given and not empty, otherwise the mail content
      after a fixed introduction; None when there is neither. */
  function UserPrompt(prompt: Option<string>, mail: Option<string>): (r: Option<string>)
    ensures r.None? <==> !Given(prompt) && !Given(mail)
    ensures Given(prompt) ==> r == prompt
    ensures !Given(prompt) && Given(mail) ==>
              StartsWith(r.value, MailPromptIntro) && r.value[|MailPromptIntro|..] == mail.value
  {
    if Given(prompt) then prompt
    else if Given(mail) then Some(MailPromptIntro + mail.value)
    else None
  }

  /** A file argument: not given, given but not loadable, or its content. */
  datatype FileArg = NotGiven | LoadFailed | Content(text: string)

  /** The loaded text of a given file argument; a given file that fails to load or is
      empty stops the script (None). */
  function LoadArg(f: FileArg): Option<Option<string>> {
    match f
    case NotGiven => Some(None)
    case LoadFailed => None
    case Content(t) => if t == "" then None else Some(Some(t))
  }

  /** `main`. `settings` is the constructed client (None when the constructor raises),
      `test` the `--test` flag, `schemaArg` the `--json` file (None: not given; Some(None):
      not loadable), and `saveOk` whether writing the export works. The script exits 0
      exactly when it asks the model and gets an answer, or passes the connection test in
      test mode; a failed export does not change that. */
  method Run(settings: Option<Settings>, test: bool, connected: bool, prompt: Option<string>,
              prePrompt: FileArg, mailbody: FileArg, schemaArg: Option<Option<Json>>,
              reply: Option<string>, parses: string -> bool, exportGiven: bool, saveOk: bool)
    returns (exit: int, request: Option<Request>, result: Generated, exported: bool)
    ensures exit == 0 || exit == 1
    ensures settings.None? ==> exit == 1 && request.None?
    ensures settings.Some? && test ==> request.None? && (exit == 0 <==> connected)
    ensures request.Some? <==>
              && settings.Some? && !test && connected
              && LoadArg(prePrompt).Some? && LoadArg(mailbody).Some?
              && UserPrompt(prompt, LoadArg(mailbody).value).Some?
              && (schemaArg.Some? ==> SchemaGiven(schemaArg.value))
    ensures request.None? ==> result == NoResponse
    ensures request.Some? ==>
              && settings.Some? && LoadArg(prePrompt).Some? && LoadArg(mailbody).Some?
              && UserPrompt(prompt, LoadArg(mailbody).value).Some?
              && result == Answer(reply, schemaArg.Some?, parses)
              && request.value == BuildRequest(settings.value.model, LoadArg(prePrompt).value,
                                               UserPrompt(prompt, LoadArg(mailbody).value).value,
                                               schemaArg.Some?)
    ensures (settings.Some? && !test && LoadArg(mailbody).Some? &&
             UserPrompt(prompt, LoadArg(mailbody).value).None?) ==> exit == 1 && request.None?
    ensures !test ==> (exit == 0 <==> settings.Some? && connected && request.Some? && Responded(result))
    ensures exported <==> !test && exit == 0 && exportGiven && saveOk
  {
    exit, request, result, exported := 1, None, NoResponse, false;
    if settings.None? {
      return;
    }
    var client := settings.value;
    if test {
      exit := if connected then 0 else 1;
      return;
    }
    var system := LoadArg(prePrompt);
    if system.None? {
      return;
    }
    var mail := LoadArg(mailbody);
    if mail.None? {
      return;
    }
    var userPrompt := UserPrompt(prompt, mail.value);
    if userPrompt.None? {
      return;
    }
    var schema: Option<Json> := None;
    if schemaArg.Some? {
      schema := schemaArg.value;
      if !SchemaGiven(schema) {
        return;
      }
    }
    request, result := Generate(client.model, userPrompt.value, system.value, schema, connected, reply, parses);
    if Responded(result) {
      exported := exportGiven && saveOk;
      exit := 0;
    }
  }
}
