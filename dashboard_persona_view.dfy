/**
 * What the persona engine panel shows from the persona it holds
 * (src/genz/components/Dashboard.tsx, PersonaEngineContent): the script
 * ideas and the caption suggestions, each with fixed defaults when the
 * persona has no non-empty list of them.
 */
module DashboardPersonaView {
  import opened Json

  const DefaultScriptIdeas: seq<Json> := [
    JStr("My honest thoughts on AI tools (hot take alert)"),
    JStr("Why I switched to this editing workflow"),
    JStr("Behind the scenes: how I plan content")]

  /** A shown caption: its text and its match score (as String() writes the number). */
  datatype Caption = Caption(text: string, score: string)

  /** The score a caption gets when its entry carries none. */
  const DefaultScore := "95"

  /**
   * The default captions. The first one's text holds the characters the
   * source file spells it with, which are a mis-decoded emoji pair.
   */
  const DefaultCaptions: seq<Caption> := [
    Caption("Spent 12hrs on this... worth it? \U{F8FF}\U{00FC}\U{00E9}\U{00AE}\U{201A}\U{00FA}\U{00AE}", "98"),
    Caption("POV: You finally crack the algorithm", "96"),
    Caption("This changed everything for me ngl", "94")]

  /** `persona?.[key]` when it is a non-empty array: its elements. */
  function NonEmptyList(persona: Json, key: string): (items: Option<seq<Json>>)
    ensures items.Some? <==> Get(persona, key).Some? && Get(persona, key).value.JArr? && |Get(persona, key).value.items| > 0
    ensures items.Some? ==> Get(persona, key) == Some(JArr(items.value))
  {
    var v := Get(persona, key);
    if v.Some? && v.value.JArr? && |v.value.items| > 0 then Some(v.value.items) else None
  }

  /**
   * The script ideas shown: the persona's scriptIdeas when that is a
   * non-empty array (its elements taken as they are), else the defaults.
   */
  function ScriptIdeas(persona: Json): (ideas: seq<Json>)
  {
    var items := NonEmptyList(persona, "scriptIdeas");
    if items.Some? then items.value else DefaultScriptIdeas
  }

  /** Script ideas come from the persona exactly when it holds a non-empty array of them; there is always at least one. */
  lemma ScriptIdeasSource(persona: Json)
    ensures |ScriptIdeas(persona)| > 0
    ensures var v := Get(persona, "scriptIdeas");
      (v.Some? && v.value.JArr? && |v.value.items| > 0 ==> ScriptIdeas(persona) == v.value.items)
      && (!(v.Some? && v.value.JArr? && |v.value.items| > 0) ==> ScriptIdeas(persona) == DefaultScriptIdeas)
  {
  }

  /** The caption shown for one entry; None for a null entry, whose `.text` read throws while rendering. */
  function CaptionOf(c: Json): (r: Option<Caption>)
    ensures r.None? <==> c.JNull?
  {
    match c
    case JNull => None
    case JStr(s) => Some(Caption(s, DefaultScore))
    case _ =>
      var text := Get(c, "text");
      var matched := Get(c, "match");
      var score := Get(c, "score");
      Some(Caption(
        if text.Some? && text.value.JStr? then text.value.s else "",
        if matched.Some? && matched.value.JNum? then matched.value.text
        else if score.Some? && score.value.JNum? then score.value.text
        else DefaultScore))
  }

  /** A string becomes its own text with score 95. */
  lemma StringCaption(s: string)
    ensures CaptionOf(JStr(s)) == Some(Caption(s, "95"))
  {
  }

  /**
   * An object keeps a string text (else ""), and its score is a numeric
   * match, else a numeric score, else 95.
   */
  lemma ObjectCaption(fields: map<string, Json>)
    ensures var r := CaptionOf(JObj(fields)).value;
      && (r.text == if "text" in fields && fields["text"].JStr? then fields["text"].s else "")
      && ("match" in fields && fields["match"].JNum? ==> r.score == fields["match"].text)
      && (!("match" in fields && fields["match"].JNum?) && "score" in fields && fields["score"].JNum? ==> r.score == fields["score"].text)
      && (!("match" in fields && fields["match"].JNum?) && !("score" in fields && fields["score"].JNum?) ==> r.score == "95")
  {
  }

  /** The caption of `{ text, match }` written with a string text and a numeric match is that text and that match. */
  lemma CaptionRoundTrip(c: Caption)
    ensures CaptionOf(JObj(map["text" := JStr(c.text), "match" := JNum(c.score)])) == Some(c)
  {
  }

  /**
   * The captions shown: the persona's captionSuggestions, entry by entry,
   * when that is a non-empty array, else the defaults. None when an entry is
   * null, for which the render throws.
   */
  function CaptionSuggestions(persona: Json): (r: Option<seq<Caption>>)
    ensures r.Some? ==> |r.value| > 0
  {
    var items := NonEmptyList(persona, "captionSuggestions");
    if items.None? then Some(DefaultCaptions)
    else if JNull in items.value then None
    else Some(seq(|items.value|, i requires 0 <= i < |items.value| => CaptionOf(items.value[i]).value))
  }

  /**
   * Captions come entry by entry from a non-empty list the persona holds,
   * the defaults stand in when it holds none, and only a null entry stops
   * the render.
   */
  lemma CaptionSuggestionsSource(persona: Json)
    ensures var items := NonEmptyList(persona, "captionSuggestions");
      var r := CaptionSuggestions(persona);
      && (items.None? ==> r == Some(DefaultCaptions))
      && (items.Some? ==> (r.None? <==> exists i :: 0 <= i < |items.value| && items.value[i].JNull?))
      && (items.Some? && r.Some? ==>
            |r.value| == |items.value| && forall i :: 0 <= i < |items.value| ==> Some(r.value[i]) == CaptionOf(items.value[i]))
  {
    var items := NonEmptyList(persona, "captionSuggestions");
    if items.Some? {
      if JNull in items.value {
        var i :| 0 <= i < |items.value| && items.value[i] == JNull;
        assert items.value[i].JNull?;
      }
    }
  }
}
