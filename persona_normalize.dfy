/**
 * How the persona route turns the parsed generator output into its answer
 * (src/app/api/persona/route.ts): the expected fields are filled in from
 * alternative names the generator may have used, and every field of the
 * parsed output is kept as it came.
 */
module PersonaNormalize {
  import opened Json
  import opened Http

  /** The response fields filled in from alternative names, in the handler's order of preference. */
  const AliasTable: map<string, seq<string>> := map[
    "text" := ["text", "summary", "description"],
    "tone" := ["tone", "tone_analysis", "emotion"],
    "style" := ["style", "style_analysis", "persona", "creator_style"],
    "titleSuggestion" := ["titleSuggestion", "title"],
    "thumbnailIdea" := ["thumbnailIdea", "thumbnail"],
    "scriptHook" := ["scriptHook", "hook"],
    "improvementTips" := ["improvementTips", "tips", "suggestions"]]

  /** The property reads `parsed.name` for each alternative name, in order. */
  function Lookups(parsed: Json, names: seq<string>): (xs: seq<Option<Json>>)
    ensures |xs| == |names| && forall i :: 0 <= i < |names| ==> xs[i] == Get(parsed, names[i])
  {
    seq(|names|, i requires 0 <= i < |names| => Get(parsed, names[i]))
  }

  /** The `??` chain over the alternative names of a field. */
  function Aliased(parsed: Json, names: seq<string>): Option<Json>
  {
    FirstDefined(Lookups(parsed, names))
  }

  /** The fields the alias chains yield; a chain that ends in undefined adds no field to the JSON answer. */
  function Aliases(parsed: Json): map<string, Json>
  {
    map k | k in AliasTable && Aliased(parsed, AliasTable[k]).Some? :: Aliased(parsed, AliasTable[k]).value
  }

  /**
   * The answer built from a parsed generator output: `{ raw }` when it is
   * not an object, otherwise the alias fields overridden by every field of
   * the parsed value itself (the spread comes last).
   */
  function Normalized(raw: string, parsed: Json): Json
  {
    if !Truthy(parsed) || !(parsed.JObj? || parsed.JArr?) then RawObject(raw)
    else JObj(Aliases(parsed) + SpreadFields(parsed))
  }

  /** A parsed value that is not an object (null, a number, a string, a boolean) is answered with `{ raw }`. */
  lemma NonObjectGivesRaw(raw: string, parsed: Json)
    requires !(parsed.JObj? || parsed.JArr?)
    ensures Normalized(raw, parsed) == RawObject(raw)
  {
  }

  /**
   * Every field of a parsed object appears in the answer with its own
   * value, null included; the other fields are exactly the alias fields
   * that found a value.
   */
  lemma ParsedFieldsWin(raw: string, fields: map<string, Json>)
    ensures var r := Normalized(raw, JObj(fields));
      r.JObj? && (forall k :: k in fields ==> k in r.fields && r.fields[k] == fields[k])
      && (forall k :: k in r.fields && k !in fields ==> k in AliasTable && Aliased(JObj(fields), AliasTable[k]) == Some(r.fields[k]))
  {
  }

  /**
   * A field the parsed object lacks takes the first alternative name whose
   * value is neither null nor absent, and is left out when there is none.
   */
  lemma AliasFallback(raw: string, fields: map<string, Json>, key: string)
    requires key in AliasTable && key !in fields
    ensures var r := Normalized(raw, JObj(fields)).fields;
      var names := AliasTable[key];
      && (key in r <==> exists i :: 0 <= i < |names| && !Nullish(Get(JObj(fields), names[i])))
      && (key in r ==> r[key] != JNull)
      && (key in r ==> exists i :: (0 <= i < |names| && Get(JObj(fields), names[i]) == Some(r[key])
                                     && forall j :: 0 <= j < i ==> Nullish(Get(JObj(fields), names[j]))))
  {
    AliasField(raw, fields, key);
    var xs := Lookups(JObj(fields), AliasTable[key]);
    if FirstDefined(xs).Some? {
      FirstDefinedIsFirst(xs);
    }
  }

  /** text falls back to summary, then description, when the parsed object has no text field. */
  lemma TextFallsBackToSummary(raw: string, fields: map<string, Json>)
    requires "text" !in fields
    ensures var r := Normalized(raw, JObj(fields)).fields;
      && (!Nullish(Get(JObj(fields), "summary")) ==> "text" in r && r["text"] == fields["summary"])
      && (Nullish(Get(JObj(fields), "summary")) && !Nullish(Get(JObj(fields), "description")) ==> "text" in r && r["text"] == fields["description"])
      && (Nullish(Get(JObj(fields), "summary")) && Nullish(Get(JObj(fields), "description")) ==> "text" !in r)
  {
    var xs := Lookups(JObj(fields), AliasTable["text"]);
    assert AliasTable["text"] == ["text", "summary", "description"];
    assert Aliased(JObj(fields), AliasTable["text"]) == FirstDefined(xs);
    assert xs == [None, Get(JObj(fields), "summary"), Get(JObj(fields), "description")];
    assert xs[1..] == [Get(JObj(fields), "summary"), Get(JObj(fields), "description")];
    assert xs[1..][1..] == [Get(JObj(fields), "description")];
    if Nullish(Get(JObj(fields), "summary")) {
      assert FirstDefined(xs) == FirstDefined(xs[1..]) == FirstDefined(xs[1..][1..]);
    }
    AliasField(raw, fields, "text");
  }

  /** A field the parsed object lacks is in the answer exactly when its alias chain finds a value, and holds that value. */
  lemma AliasField(raw: string, fields: map<string, Json>, key: string)
    requires key in AliasTable && key !in fields
    ensures var r := Normalized(raw, JObj(fields)).fields;
      var a := Aliased(JObj(fields), AliasTable[key]);
      (key in r <==> a.Some?) && (key in r ==> r[key] == a.value)
  {
  }
}
