/**
 * The persona analysis route (src/app/api/persona/route.ts): check that a
 * video URL or a text was given, answer with a fixed persona when no
 * generator key is configured, otherwise ask the generator, strip a Markdown
 * code fence from its answer, parse it and fill in the expected fields from
 * alternative names. Results from a video URL are also stored.
 */
module PersonaRoute {
  import opened Json
  import opened Text
  import opened Http
  import opened PersonaFence
  import opened PersonaNormalize

  /** The two prompts; their wording is not modelled, only which one is sent and what it embeds. */
  datatype Prompt = TextPrompt(textInput: Json) | VideoPrompt(videoUrl: Json)

  /** A row the handler asks to insert into persona_analyses. */
  datatype Insert = Insert(videoUrl: Json, result: Json)

  /**
   * What one request leads to: the answer, the prompt sent to the generator
   * (if any), and the row handed to the database (if any). The insert is
   * awaited inside its own try/catch, so its fate never reaches the answer.
   */
  datatype Outcome = Outcome(reply: Reply, prompt: Option<Prompt>, insert: Option<Insert>)

  const PreviewLimit: nat := 160

  const DemoBase: map<string, Json> := map[
    "tone" := JStr("High-energy but honest, with friendly storytelling and self-aware humor."),
    "style" := JStr("Fast cuts, on-screen text for key points, B\U{2011}roll of desk / timeline, and a clear narrative arc (problem \U{2192} experiment \U{2192} takeaway)."),
    "titleSuggestion" := JStr("I Automated My Entire Creator Workflow In One Weekend (Here\U{2019}s What Broke)"),
    "thumbnailIdea" := JStr("Creator looking overwhelmed in front of a cluttered timeline, bold text 'THIS FIXED EVERYTHING', neon pink/purple gradient background."),
    "scriptHook" := JStr("Okay, imagine you wake up tomorrow and your entire creator workflow runs itself \U{2013} no missed uploads, no 3am edits. That\U{2019}s basically what I tried this week\U{2026}"),
    "scriptIdeas" := JArr([
      JStr("My honest thoughts on AI tools (hot take alert)"),
      JStr("I automated my entire content calendar with AI (here\U{2019}s what broke)"),
      JStr("Behind the scenes: how I batch a month of videos in 5 days")]),
    "captionSuggestions" := JArr([
      JObj(map["text" := JStr("Spent 12hrs on this... worth it? \U{1F3A8}\U{2728}"), "match" := JNum("98")]),
      JObj(map["text" := JStr("POV: You finally crack the algorithm"), "match" := JNum("96")]),
      JObj(map["text" := JStr("This changed everything for me ngl"), "match" := JNum("94")])]),
    "improvementTips" := JStr("1. Hook: Make the first 3 seconds visually chaotic, then snap to a clean system with a bold on-screen promise.\n2. Pacing: Cut any clip that doesn\U{2019}t move the story forward in 2\U{2013}3 seconds.\n3. Retention: Tease the final result early (before/after metrics) and only reveal the full breakdown at the end.\n4. CTA: End with a specific next step \U{2013} download your template, watch the follow\U{2011}up, or comment with their current workflow problem."),
    "_demo" := JBool(true)]

  const UrlDemoText := "Inferred from URL only: this is likely a creator video about productivity / creator workflow. The exact content cannot be viewed, only the URL string."
  const TextDemoText := "Inferred from your text only: this is likely a creator video idea or script about productivity / creator workflow."

  /**
   * Whether the demo's preview throws: a textInput array longer than 160 is
   * sliced and written into a template literal, which throws when one of
   * the first 160 elements cannot be converted to a string.
   */
  predicate PreviewThrows(textInput: Option<Json>)
  {
    textInput.Some? && textInput.value.JArr? && |textInput.value.items| > PreviewLimit
    && StringThrows(JArr(textInput.value.items[..PreviewLimit]))
  }

  /**
   * The demo answer's sourceTextPreview: a text (or array) longer than 160 is
   * cut to its first 160 characters (or elements), written as a string and
   * followed by an ellipsis; anything else is kept as given, or "" when null
   * or missing.
   */
  function SourceTextPreview(textInput: Option<Json>): (r: Json)
    requires !PreviewThrows(textInput)
    ensures Nullish(textInput) ==> r == JStr("")
    ensures textInput.Some? && !textInput.value.JNull? && !(textInput.value.JStr? || textInput.value.JArr?) ==> r == textInput.value
    ensures r != Coalesce(textInput, JStr("")) ==> r.JStr? && |r.s| >= 1 && r.s[|r.s| - 1] == '\U{2026}'
  {
    if Present(textInput) && textInput.value.JStr? && |textInput.value.s| > PreviewLimit
    then JStr(textInput.value.s[..PreviewLimit] + "\U{2026}")
    else if Present(textInput) && textInput.value.JArr? && |textInput.value.items| > PreviewLimit
    then JStr(ToStr(JArr(textInput.value.items[..PreviewLimit])) + "\U{2026}")
    else Coalesce(textInput, JStr(""))
  }

  /** A text of at most 160 characters is shown whole; a longer one as its first 160 characters followed by an ellipsis. */
  lemma PreviewOfText(s: string)
    ensures |s| <= PreviewLimit ==> SourceTextPreview(Some(JStr(s))) == JStr(s)
    ensures |s| > PreviewLimit ==>
      var p := SourceTextPreview(Some(JStr(s))).s;
      |p| == PreviewLimit + 1 && p[..PreviewLimit] == s[..PreviewLimit] && p[PreviewLimit] == '\U{2026}'
  {
  }

  /**
   * The fixed persona answered when no generator key is configured: the
   * fixed fields, a text saying what it was inferred from, and the given
   * videoUrl, or without one the preview of the text.
   */
  function Demo(videoUrl: Option<Json>, textInput: Option<Json>): (r: Json)
    requires !Present(videoUrl) ==> !PreviewThrows(textInput)
    ensures r.JObj? && "_demo" in r.fields && r.fields["_demo"] == JBool(true)
    ensures Present(videoUrl) ==> "videoUrl" in r.fields && r.fields["videoUrl"] == videoUrl.value && "sourceTextPreview" !in r.fields
    ensures !Present(videoUrl) ==>
      "sourceTextPreview" in r.fields && r.fields["sourceTextPreview"] == SourceTextPreview(textInput) && "videoUrl" !in r.fields
  {
    assert "_demo" in DemoBase && "videoUrl" !in DemoBase && "sourceTextPreview" !in DemoBase;
    if Present(videoUrl)
    then JObj(DemoBase + map["text" := JStr(UrlDemoText), "videoUrl" := videoUrl.value])
    else JObj(DemoBase + map["text" := JStr(TextDemoText), "sourceTextPreview" := SourceTextPreview(textInput)])
  }

  /**
   * POST /api/persona. body is the parsed request body (None when it could
   * not be read or parsed, which the handler treats as `{}`), hasApiKey
   * whether GEMINI_API_KEY is set, generate the text generator and parse
   * JSON.parse (None when it throws). The demo and the prompt are built
   * outside any try, so a value their template literals cannot convert to
   * a string escapes the handler.
   */
  function Handle(body: Option<Json>, hasApiKey: bool, generate: Prompt -> Generation, parse: string -> Option<Json>): (o: Outcome)
    ensures o.reply.Reply? ==> o.reply.status == 200 || o.reply.status == 400 || o.reply.status == 500
    ensures o.reply.Unhandled? ==> o.prompt.None? && o.insert.None?
    ensures o.prompt.Some? ==> hasApiKey
  {
    var b := match body case Some(v) => v case None => JObj(map[]);
    if b.JNull? then Outcome(Unhandled, None, None)
    else
      var videoUrl := Get(b, "videoUrl");
      var textInput := Get(b, "textInput");
      if !Present(videoUrl) && !Present(textInput) then
        Outcome(Reply(400, JObj(map["error" := JStr("videoUrl or textInput is required")])), None, None)
      else if !hasApiKey then
        if !Present(videoUrl) && PreviewThrows(textInput) then Outcome(Unhandled, None, None)
        else
          var demo := Demo(videoUrl, textInput);
          Outcome(Reply(200, demo), None, if Present(videoUrl) then Some(Insert(videoUrl.value, demo)) else None)
      else
        var isTextMode := Present(textInput) && !Present(videoUrl);
        if StringThrows(if isTextMode then textInput.value else videoUrl.value) then Outcome(Unhandled, None, None)
        else
          var prompt := if isTextMode then TextPrompt(textInput.value) else VideoPrompt(videoUrl.value);
          match generate(prompt)
          case Threw(t) => Outcome(GeneratorFailed("persona", t), Some(prompt), None)
          case Generated(raw) =>
            var result := match parse(StripFence(raw))
              case Some(parsed) => Normalized(raw, parsed)
              case None => RawObject(raw);
            Outcome(Reply(200, result), Some(prompt), if Present(videoUrl) then Some(Insert(videoUrl.value, result)) else None)
  }

  /** The request's videoUrl and textInput, as the handler destructures them. */
  function Field(body: Option<Json>, key: string): Option<Json>
  {
    match body case Some(v) => Get(v, key) case None => None
  }

  /**
   * Whether the prompt template throws: it embeds the videoUrl when one is
   * given and the text otherwise, and throws when that value cannot be
   * converted to a string.
   */
  predicate PromptThrows(body: Option<Json>)
  {
    var videoUrl := Field(body, "videoUrl");
    var textInput := Field(body, "textInput");
    if Present(videoUrl) then StringThrows(videoUrl.value) else Present(textInput) && StringThrows(textInput.value)
  }

  /** Without a non-empty videoUrl or textInput the answer is 400, nothing is generated and nothing stored. */
  lemma MissingInputRejected(body: Option<Json>, hasApiKey: bool, generate: Prompt -> Generation, parse: string -> Option<Json>)
    requires body != Some(JNull)
    requires !Present(Field(body, "videoUrl")) && !Present(Field(body, "textInput"))
    ensures var o := Handle(body, hasApiKey, generate, parse);
      o.reply.Reply? && o.reply.status == 400 && o.prompt.None? && o.insert.None?
  {
  }

  /** The text prompt is used exactly when there is no videoUrl: a given videoUrl wins over a given text. */
  lemma TextModeOnlyWithoutUrl(body: Option<Json>, generate: Prompt -> Generation, parse: string -> Option<Json>)
    requires body != Some(JNull)
    requires Present(Field(body, "videoUrl")) || Present(Field(body, "textInput"))
    requires !PromptThrows(body)
    ensures var o := Handle(body, true, generate, parse);
      o.prompt.Some?
      && (o.prompt.value.TextPrompt? <==> !Present(Field(body, "videoUrl")))
      && (o.prompt.value.VideoPrompt? ==> o.prompt.value.videoUrl == Field(body, "videoUrl").value)
  {
  }

  /**
   * A row is stored only for a request with a videoUrl, and it holds exactly
   * the answer given; every successful answer to such a request is stored.
   */
  lemma StoredOnlyWithUrl(body: Option<Json>, hasApiKey: bool, generate: Prompt -> Generation, parse: string -> Option<Json>)
    ensures var o := Handle(body, hasApiKey, generate, parse);
      && (o.insert.Some? ==> (Present(Field(body, "videoUrl")) && o.insert.value.videoUrl == Field(body, "videoUrl").value
                              && o.reply.Reply? && o.reply.status == 200 && o.insert.value.result == o.reply.body))
      && (o.reply.Reply? && o.reply.status == 200 && Present(Field(body, "videoUrl")) ==> o.insert.Some?)
  {
  }

  /** Output that JSON.parse rejects after cleaning is answered with `{ raw }` and status 200. */
  lemma UnparseableGivesRaw(body: Option<Json>, generate: Prompt -> Generation, parse: string -> Option<Json>, raw: string)
    requires body != Some(JNull)
    requires Present(Field(body, "videoUrl")) || Present(Field(body, "textInput"))
    requires !PromptThrows(body)
    requires forall p :: generate(p) == Generated(raw)
    requires parse(StripFence(raw)) == None
    ensures Handle(body, true, generate, parse).reply == Reply(200, RawObject(raw))
  {
    var b := match body case Some(v) => v case None => JObj(map[]);
    var videoUrl, textInput := Get(b, "videoUrl"), Get(b, "textInput");
    var isTextMode := Present(textInput) && !Present(videoUrl);
    assert !StringThrows(if isTextMode then textInput.value else videoUrl.value);
    var prompt := if isTextMode then TextPrompt(textInput.value) else VideoPrompt(videoUrl.value);
    assert generate(prompt) == Generated(raw);
  }

  /** Output that parses after cleaning is answered with its normalised form, status 200. */
  lemma ParsedGivesNormalized(body: Option<Json>, generate: Prompt -> Generation, parse: string -> Option<Json>, raw: string, parsed: Json)
    requires body != Some(JNull)
    requires Present(Field(body, "videoUrl")) || Present(Field(body, "textInput"))
    requires !PromptThrows(body)
    requires forall p :: generate(p) == Generated(raw)
    requires parse(StripFence(raw)) == Some(parsed)
    ensures Handle(body, true, generate, parse).reply == Reply(200, Normalized(raw, parsed))
  {
    var b := match body case Some(v) => v case None => JObj(map[]);
    var videoUrl, textInput := Get(b, "videoUrl"), Get(b, "textInput");
    var isTextMode := Present(textInput) && !Present(videoUrl);
    assert !StringThrows(if isTextMode then textInput.value else videoUrl.value);
    var prompt := if isTextMode then TextPrompt(textInput.value) else VideoPrompt(videoUrl.value);
    assert generate(prompt) == Generated(raw);
  }

  /** A generator failure is answered with status 500 and its details, and nothing is stored. */
  lemma FailureIs500(body: Option<Json>, generate: Prompt -> Generation, parse: string -> Option<Json>, t: Thrown)
    requires body != Some(JNull)
    requires Present(Field(body, "videoUrl")) || Present(Field(body, "textInput"))
    requires !PromptThrows(body)
    requires forall p :: generate(p) == Threw(t)
    ensures var o := Handle(body, true, generate, parse);
      o.reply == Reply(500, JObj(map["error" := JStr("Failed to call Gemini for persona"), "details" := JStr(Details(t))]))
      && o.insert.None?
  {
    var b := match body case Some(v) => v case None => JObj(map[]);
    var videoUrl, textInput := Get(b, "videoUrl"), Get(b, "textInput");
    var isTextMode := Present(textInput) && !Present(videoUrl);
    assert !StringThrows(if isTextMode then textInput.value else videoUrl.value);
    var prompt := if isTextMode then TextPrompt(textInput.value) else VideoPrompt(videoUrl.value);
    assert generate(prompt) == Threw(t);
    assert "Failed to call Gemini for " + "persona" == "Failed to call Gemini for persona";
  }

  /** Without a generator key the fixed demo persona, marked `_demo: true`, is answered with status 200. */
  lemma DemoWithoutKey(body: Option<Json>, generate: Prompt -> Generation, parse: string -> Option<Json>)
    requires body != Some(JNull)
    requires Present(Field(body, "videoUrl")) || Present(Field(body, "textInput"))
    requires Present(Field(body, "videoUrl")) || !PreviewThrows(Field(body, "textInput"))
    ensures var o := Handle(body, false, generate, parse);
      o.reply == Reply(200, Demo(Field(body, "videoUrl"), Field(body, "textInput"))) && o.prompt.None?
      && o.reply.body.fields["_demo"] == JBool(true)
  {
  }

  /**
   * With a key set, a videoUrl (or, without one, a text) that is an object
   * with its own "toString" makes the prompt template throw: nothing is
   * generated, stored or answered.
   */
  lemma UnconvertibleInputUnhandled(body: Option<Json>, generate: Prompt -> Generation, parse: string -> Option<Json>)
    requires body != Some(JNull)
    requires PromptThrows(body)
    ensures Handle(body, true, generate, parse) == Outcome(Unhandled, None, None)
  {
  }

  /** Without a key, a text array longer than 160 whose first elements cannot be converted makes the demo preview throw. */
  lemma UnconvertiblePreviewUnhandled(body: Option<Json>, generate: Prompt -> Generation, parse: string -> Option<Json>)
    requires body != Some(JNull)
    requires !Present(Field(body, "videoUrl")) && PreviewThrows(Field(body, "textInput"))
    ensures Handle(body, false, generate, parse) == Outcome(Unhandled, None, None)
  {
  }
}
