/**
 * The growth strategist route (src/app/api/growth-strategist/route.ts): read
 * a channel URL from the request, falling back to a placeholder; answer with
 * a fixed strategy when no generator key is configured; otherwise ask the
 * generator and answer with its JSON, with a JSON object recovered from
 * between its outermost braces, or with the raw text. Every answer with
 * status 200 is also stored together with the channel.
 */
module GrowthRoute {
  import opened Json
  import opened Text
  import opened Http

  const Placeholder := "unknown-channel"

  /** The prompt: its wording is not modelled, only the channel it names, as the template literal writes it. */
  datatype Prompt = StrategyPrompt(channelUrl: string)

  /** A row handed to growth_strategies. */
  datatype Insert = Insert(channelUrl: Json, result: Json)

  datatype Outcome = Outcome(reply: Reply, prompt: Option<Prompt>, insert: Option<Insert>)

  /**
   * The channelUrl property of the request body; undefined when the body is
   * empty, is not JSON, or is JSON null (reading a property of null throws,
   * and the handler catches it).
   */
  function RequestedChannel(bodyText: string, parse: string -> Option<Json>): Option<Json>
  {
    if bodyText == "" then None
    else match parse(bodyText)
      case None => None
      case Some(v) => if v.JNull? then None else Get(v, "channelUrl")
  }

  /** The channel the handler works with: the requested one when truthy, else the placeholder. */
  function Channel(bodyText: string, parse: string -> Option<Json>): (c: Json)
    ensures Truthy(c)
    ensures c == JStr(Placeholder) || Some(c) == RequestedChannel(bodyText, parse)
  {
    var requested := RequestedChannel(bodyText, parse);
    if Present(requested) then requested.value else JStr(Placeholder)
  }

  /** A truthy channelUrl is used as given; anything else (missing, empty, null, false, 0, a body that is not JSON) gives the placeholder. */
  lemma ChannelFallback(bodyText: string, parse: string -> Option<Json>)
    ensures var requested := RequestedChannel(bodyText, parse);
      (Present(requested) ==> Channel(bodyText, parse) == requested.value)
      && (!Present(requested) ==> Channel(bodyText, parse) == JStr(Placeholder))
  {
  }

  /** The fixed strategy answered when no generator key is configured. */
  const Demo: Json := JObj(map[
    "whatToPost" := JStr("Short, high-retention explainers and behind-the-scenes clips that double-down on your strongest performing topics."),
    "duration" := JStr("8\U{2013}12 minutes for long-form explainers, 35\U{2013}55 seconds for shorts/reels with a clear A \U{2192} B transformation."),
    "postingTime" := JStr("Weekdays 4\U{2013}7 PM in your audience's primary time zone, plus 1 weekend upload for experimentation."),
    "emotionalTone" := JStr("Confident, playful, and slightly opinionated \U{2013} speak like a trusted friend who has receipts, not a lecturer."),
    "collabSuggestion" := JStr("Pair with adjacent-niche creators for 2-part collabs (your channel = depth, their channel = social proof / reaction)."),
    "trendingTopics" := JArr([
      JObj(map["topic" := JStr("AI productivity tools"), "growth" := JStr("+320% this week"), "trend" := JStr("up")]),
      JObj(map["topic" := JStr("Workflow optimization"), "growth" := JStr("+185% this week"), "trend" := JStr("up")]),
      JObj(map["topic" := JStr("Content batching"), "growth" := JStr("-12% this week"), "trend" := JStr("down")])]),
    "bestTimes" := JArr([
      JObj(map["day" := JStr("Monday"), "time" := JStr("2:00 PM"), "engagement" := JStr("High")]),
      JObj(map["day" := JStr("Wednesday"), "time" := JStr("6:00 PM"), "engagement" := JStr("Very High")]),
      JObj(map["day" := JStr("Friday"), "time" := JStr("12:00 PM"), "engagement" := JStr("Medium")])]),
    "audienceSentiment" := JObj(map[
      "positivePercent" := JNum("78"),
      "breakdown" := JArr([
        JObj(map["emoji" := JStr("\U{1F60D}"), "label" := JStr("Love it"), "percent" := JNum("45")]),
        JObj(map["emoji" := JStr("\U{1F44D}"), "label" := JStr("Like it"), "percent" := JNum("33")]),
        JObj(map["emoji" := JStr("\U{1F914}"), "label" := JStr("Curious"), "percent" := JNum("22")])])]),
    "growthScore" := JObj(map[
      "overall" := JNum("8.7"),
      "delta" := JStr("+2.3"),
      "metrics" := JArr([
        JObj(map["label" := JStr("Engagement"), "value" := JNum("9.2")]),
        JObj(map["label" := JStr("Consistency"), "value" := JNum("8.5")]),
        JObj(map["label" := JStr("Reach"), "value" := JNum("8.9")]),
        JObj(map["label" := JStr("Quality"), "value" := JNum("8.2")])])]),
    "_demo" := JBool(true)])

  /**
   * The text from the first "{" to the last "}" of the generator's answer,
   * when both occur and the last "}" comes after the first "{".
   */
  function BraceSpan(raw: string): (inner: Option<string>)
    ensures inner.Some? <==> '{' in raw && '}' in raw && LastIndexOf(raw, '}') > IndexOf(raw, '{')
    ensures inner.Some? ==>
      && |inner.value| >= 2 && inner.value[0] == '{' && inner.value[|inner.value| - 1] == '}'
      && exists i :: 0 <= i <= |raw| - |inner.value| && raw[i..i + |inner.value|] == inner.value && '{' !in raw[..i]
  {
    var first := IndexOf(raw, '{');
    var last := LastIndexOf(raw, '}');
    if first != -1 && last != -1 && last > first then
      var inner := raw[first..last + 1];
      assert raw[first..first + |inner|] == inner;
      assert '{' !in raw[..first] by {
        assert forall j :: 0 <= j < first ==> raw[..first][j] == raw[j];
      }
      Some(inner)
    else None
  }

  /** With a first "{" at first and a last "}" at last after it, the span is the text between them, both included. */
  lemma BraceSpanAt(raw: string, first: nat, last: nat)
    requires first < last < |raw| && raw[first] == '{' && raw[last] == '}'
    requires forall j :: 0 <= j < first ==> raw[j] != '{'
    requires forall j :: last < j < |raw| ==> raw[j] != '}'
    ensures BraceSpan(raw) == Some(raw[first..last + 1])
  {
    IndexOfFirst(raw, '{', first);
    LastIndexOfLast(raw, '}', last);
  }

  /**
   * An object embedded in prose (nothing before it holds "{", nothing after
   * it holds "}") is cut out exactly.
   */
  lemma {:induction false} BraceSpanOfEmbedded(before: string, inner: string, after: string)
    requires '{' !in before && '}' !in after
    ensures BraceSpan(before + "{" + inner + "}" + after) == Some("{" + inner + "}")
  {
    var raw := before + "{" + inner + "}" + after;
    var n := |before| + |inner| + 1;
    assert raw[|before|..n + 1] == "{" + inner + "}";
    assert raw[|before|] == '{' && raw[n] == '}';
    assert forall j :: 0 <= j < |before| ==> raw[j] == before[j];
    assert forall j :: n < j < |raw| ==> raw[j] == after[j - n - 1];
    BraceSpanAt(raw, |before|, n);
  }

  /**
   * POST /api/growth-strategist. bodyText is the request text, hasApiKey
   * whether GEMINI_API_KEY is set, generate the text generator and parse
   * JSON.parse (None when it throws). The prompt's template literal is built
   * outside any try, so a channel it cannot convert to a string escapes the
   * handler.
   */
  function Handle(bodyText: string, hasApiKey: bool, generate: Prompt -> Generation, parse: string -> Option<Json>): (o: Outcome)
    ensures o.reply.Unhandled? <==> hasApiKey && StringThrows(Channel(bodyText, parse))
    ensures o.prompt.Some? <==> hasApiKey && !StringThrows(Channel(bodyText, parse))
    ensures o.insert.Some? ==> o.insert.value.channelUrl == Channel(bodyText, parse)
  {
    var channel := Channel(bodyText, parse);
    if !hasApiKey then Outcome(Reply(200, Demo), None, Some(Insert(channel, Demo)))
    else if StringThrows(channel) then Outcome(Unhandled, None, None)
    else
      var prompt := StrategyPrompt(ToStr(channel));
      match generate(prompt)
      case Threw(t) => Outcome(GeneratorFailed("growth strategist", t), Some(prompt), None)
      case Generated(raw) =>
        match parse(raw)
        case Some(parsed) => Outcome(Reply(200, parsed), Some(prompt), Some(Insert(channel, parsed)))
        case None =>
          var recovered := match BraceSpan(raw) case Some(inner) => parse(inner) case None => None;
          var result := Coalesce(recovered, RawObject(raw));
          Outcome(Reply(200, result), Some(prompt), Some(Insert(channel, result)))
  }

  /** Output that parses as JSON is answered unchanged, whatever its shape, and stored with the channel. */
  lemma ParsedAnsweredUnchanged(bodyText: string, generate: Prompt -> Generation, parse: string -> Option<Json>, raw: string, parsed: Json)
    requires !StringThrows(Channel(bodyText, parse))
    requires forall p :: generate(p) == Generated(raw)
    requires parse(raw) == Some(parsed)
    ensures var o := Handle(bodyText, true, generate, parse);
      o.reply == Reply(200, parsed) && o.insert == Some(Insert(Channel(bodyText, parse), parsed))
  {
  }

  /**
   * Output that does not parse is answered with status 200: with the object
   * between its outermost braces when that parses to something other than
   * null, and with `{ raw }` otherwise.
   */
  lemma UnparsedRecovery(bodyText: string, generate: Prompt -> Generation, parse: string -> Option<Json>, raw: string)
    requires !StringThrows(Channel(bodyText, parse))
    requires forall p :: generate(p) == Generated(raw)
    requires parse(raw) == None
    ensures var o := Handle(bodyText, true, generate, parse);
      var span := BraceSpan(raw);
      o.reply.Reply? && o.reply.status == 200
      && (span.Some? && !Nullish(parse(span.value)) ==> o.reply.body == parse(span.value).value)
      && (span.None? || Nullish(parse(span.value)) ==> o.reply.body == RawObject(raw))
  {
  }

  /** JSON wrapped in prose or a code fence is recovered when the span between its braces parses. */
  lemma EmbeddedObjectRecovered(bodyText: string, generate: Prompt -> Generation, parse: string -> Option<Json>,
                                before: string, inner: string, after: string, v: Json)
    requires '{' !in before && '}' !in after
    requires !StringThrows(Channel(bodyText, parse))
    requires forall p :: generate(p) == Generated(before + "{" + inner + "}" + after)
    requires parse(before + "{" + inner + "}" + after) == None
    requires parse("{" + inner + "}") == Some(v) && v != JNull
    ensures Handle(bodyText, true, generate, parse).reply == Reply(200, v)
  {
    BraceSpanOfEmbedded(before, inner, after);
  }

  /** Without a generator key the fixed strategy, marked `_demo: true`, is answered and stored with the channel. */
  lemma DemoWithoutKey(bodyText: string, generate: Prompt -> Generation, parse: string -> Option<Json>)
    ensures var o := Handle(bodyText, false, generate, parse);
      o.reply == Reply(200, Demo) && o.prompt.None? && o.insert == Some(Insert(Channel(bodyText, parse), Demo))
      && Demo.fields["_demo"] == JBool(true)
  {
  }

  /** A generator failure is answered with status 500 and its details, and nothing is stored. */
  lemma FailureIs500(bodyText: string, generate: Prompt -> Generation, parse: string -> Option<Json>, t: Thrown)
    requires !StringThrows(Channel(bodyText, parse))
    requires forall p :: generate(p) == Threw(t)
    ensures var o := Handle(bodyText, true, generate, parse);
      o.reply == Reply(500, JObj(map["error" := JStr("Failed to call Gemini for growth strategist"), "details" := JStr(Details(t))]))
      && o.insert.None?
  {
    assert "Failed to call Gemini for " + "growth strategist" == "Failed to call Gemini for growth strategist";
  }

  /**
   * The handler answers unless a key is set and the channel cannot be
   * converted to a string; every answer has status 200 or 500, and every
   * answer with status 200 is stored, with the channel the prompt named and
   * exactly the answered body.
   */
  lemma EveryAnswerStored(bodyText: string, hasApiKey: bool, generate: Prompt -> Generation, parse: string -> Option<Json>)
    ensures var o := Handle(bodyText, hasApiKey, generate, parse);
      (o.reply.Unhandled? <==> hasApiKey && StringThrows(Channel(bodyText, parse)))
      && (o.reply.Reply? ==> o.reply.status == 200 || o.reply.status == 500)
      && (o.reply.Reply? && o.reply.status == 200 <==> o.insert.Some?)
      && (o.insert.Some? ==> o.insert.value.result == o.reply.body && Truthy(o.insert.value.channelUrl))
      && (o.prompt.Some? ==> !StringThrows(Channel(bodyText, parse)) && o.prompt.value.channelUrl == ToStr(Channel(bodyText, parse)))
  {
  }

  /**
   * A channelUrl that is an object with its own "toString" makes the prompt
   * template throw when a key is set: nothing is generated, stored or
   * answered. Without a key the demo is answered and stored as usual.
   */
  lemma UnconvertibleChannelUnhandled(bodyText: string, generate: Prompt -> Generation, parse: string -> Option<Json>, fields: map<string, Json>)
    requires bodyText != "" && parse(bodyText) == Some(JObj(map["channelUrl" := JObj(fields)]))
    requires "toString" in fields
    ensures Handle(bodyText, true, generate, parse) == Outcome(Unhandled, None, None)
    ensures Handle(bodyText, false, generate, parse).reply == Reply(200, Demo)
  {
    assert Channel(bodyText, parse) == JObj(fields);
  }
}
