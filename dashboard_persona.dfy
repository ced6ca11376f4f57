/**
 * The persona engine panel of the dashboard (src/genz/components/Dashboard.tsx,
 * PersonaEngineContent): "generate more" asks the persona route again and
 * merges the answer into the persona on screen. The handler is split at its
 * await into BeginGenerateMore (the input guard and the request) and
 * FinishGenerateMore (reading the response and the merge).
 */
module DashboardPersona {
  import opened Json
  import opened Text
  import opened DashboardFetch

  datatype InputMode = VideoMode | TextMode

  /** Which list the user asked for more of. */
  datatype ListKind = Scripts | Captions

  const NeedVideo := "Paste a video URL first."
  const NeedText := "Paste some text or describe your style first."
  const MoreFallback := "Failed to generate more ideas"

  /** The persona fields that the answer overwrites whenever it defines them. */
  const ScalarKeys: set<string> := {"text", "tone", "style", "titleSuggestion", "thumbnailIdea", "scriptHook", "improvementTips"}

  function ListKey(kind: ListKind): string
  {
    match kind case Scripts => "scriptIdeas" case Captions => "captionSuggestions"
  }

  /** `{ ...(prev ?? {}) }`: the fields the merge starts from. */
  function Base(prev: Json): map<string, Json>
  {
    if prev.JNull? then map[] else SpreadFields(prev)
  }

  /**
   * Field k of the merged persona, key by key: a scalar field the answer
   * defines (null included) takes the answer's value; the requested list
   * takes the answer's value when that is an array; every other field keeps
   * what the persona had.
   */
  function MergedField(prev: Json, kind: ListKind, data: Json, k: string): Option<Json>
  {
    var incoming := Get(data, k);
    if k in ScalarKeys && incoming.Some? then incoming
    else if k == ListKey(kind) && incoming.Some? && incoming.value.JArr? then incoming
    else if k in Base(prev) then Some(Base(prev)[k])
    else None
  }

  /** The persona after the merge, as an object whose every field is the one MergedField gives. */
  function Merged(prev: Json, kind: ListKind, data: Json): (next: Json)
    ensures next.JObj?
    ensures forall k :: Get(next, k) == MergedField(prev, kind, data, k)
  {
    var keys := Base(prev).Keys + (if data.JObj? then data.fields.Keys else {});
    JObj(map k | k in keys && MergedField(prev, kind, data, k).Some? :: MergedField(prev, kind, data, k).value)
  }

  /** Only the requested list is replaced, and only by an array. */
  lemma MergeReplacesOnlyRequestedList(prev: Json, kind: ListKind, data: Json)
    ensures var listed := Get(data, ListKey(kind));
      var kept := if ListKey(kind) in Base(prev) then Some(Base(prev)[ListKey(kind)]) else None;
      Get(Merged(prev, kind, data), ListKey(kind)) == (if listed.Some? && listed.value.JArr? then listed else kept)
    ensures var other := ListKey(if kind == Scripts then Captions else Scripts);
      Get(Merged(prev, kind, data), other) == (if other in Base(prev) then Some(Base(prev)[other]) else None)
  {
  }

  /** A scalar field is overwritten exactly when the answer defines it, with null too. */
  lemma MergeOverwritesDefinedScalars(prev: Json, kind: ListKind, data: Json, k: string)
    requires k in ScalarKeys
    ensures Get(data, k).Some? ==> Get(Merged(prev, kind, data), k) == Get(data, k)
    ensures Get(data, k).None? ==> Get(Merged(prev, kind, data), k) == (if k in Base(prev) then Some(Base(prev)[k]) else None)
  {
  }

  /** Every other field of the persona is kept as it was, and no other field of the answer is taken over. */
  lemma MergeKeepsOtherFields(prev: Json, kind: ListKind, data: Json, k: string)
    requires k !in ScalarKeys && k != ListKey(kind)
    ensures Get(Merged(prev, kind, data), k) == (if k in Base(prev) then Some(Base(prev)[k]) else None)
  {
  }

  /** An object persona keeps all its fields' values except the ones the merge may overwrite. */
  lemma MergeOfObjectPersona(fields: map<string, Json>, kind: ListKind, data: Json)
    ensures var next := Merged(JObj(fields), kind, data);
      forall k :: k in fields && k !in ScalarKeys && k != ListKey(kind) ==> k in next.fields && next.fields[k] == fields[k]
    ensures var next := Merged(JObj(fields), kind, data);
      forall k :: k in fields ==> k in next.fields
  {
    var next := Merged(JObj(fields), kind, data);
    forall k | k in fields
      ensures k in next.fields
      ensures k !in ScalarKeys && k != ListKey(kind) ==> next.fields[k] == fields[k]
    {
      assert Get(next, k) == MergedField(JObj(fields), kind, data, k);
    }
  }

  /** How the handler reads the response of the second request. */
  datatype MoreOutcome =
    | Merge(data: Json)      // the answer, to be merged
    | Failed(message: string) // the message of the error the handler catches
    | RenderThrows           // a null answer: the state updater reads a property of null and throws outside the handler

  /**
   * engineMessage is the text of the error the JavaScript engine throws
   * when a body is not JSON, or an error body is null or its error or
   * details cannot be converted to a string.
   */
  function SettleMore(response: Response, engineMessage: string): (o: MoreOutcome)
    ensures o.Merge? <==> response.Responded? && response.ok && response.body.Some? && !response.body.value.JNull?
    ensures o.Merge? ==> o.data == response.body.value
    ensures o.RenderThrows? <==> response == Responded(true, Some(JNull))
    ensures response.Responded? && !response.ok && response.body.Some? && response.body.value.JObj?
            && Nullish(Get(response.body.value, "error")) && !Present(Get(response.body.value, "details"))
            ==> o == Failed(MoreFallback)
  {
    match response
    case FetchFailed(m) => Failed(m)
    case Responded(ok, body) =>
      if !ok then
        var data := FailureBody(body);
        if data.JNull? || FailureTextThrows(data) then Failed(engineMessage) else Failed(FailureText(data, MoreFallback, ": "))
      else if body.None? then Failed(engineMessage)
      else if body.value.JNull? then RenderThrows
      else Merge(body.value)
  }

  /** The request body: the URL in video mode, the text otherwise, each as typed. */
  function RequestBody(mode: InputMode, videoUrl: string, textInput: string): Json
  {
    if mode == VideoMode then JObj(map["videoUrl" := JStr(videoUrl)]) else JObj(map["textInput" := JStr(textInput)])
  }

  /** The input guard: the error shown when the input of the current mode is blank. */
  function InputError(mode: InputMode, videoUrl: string, textInput: string): (e: Option<string>)
    ensures e.None? <==> !AllSpace(if mode == VideoMode then videoUrl else textInput)
  {
    TrimEmptyIffAllSpace(videoUrl);
    TrimEmptyIffAllSpace(textInput);
    if mode == VideoMode then (if Trim(videoUrl) == "" then Some(NeedVideo) else None)
    else if Trim(textInput) == "" then Some(NeedText) else None
  }

  class PersonaPanel {
    var mode: InputMode
    var videoUrl: string
    var textInput: string
    var loading: bool
    var error: Option<string>
    /** The persona on screen; JNull while there is none. */
    var persona: Json

    constructor ()
      ensures mode == VideoMode && videoUrl == "" && textInput == "" && !loading && error.None? && persona == JNull
    {
      mode := VideoMode;
      videoUrl := "";
      textInput := "";
      loading := false;
      error := None;
      persona := JNull;
    }

    /**
     * handleGenerateMore up to its fetch: clear the error; when the input of
     * the current mode is blank, show the matching error and stop; otherwise
     * start loading and send that input.
     */
    method BeginGenerateMore() returns (request: Option<Json>)
      modifies this
      ensures mode == old(mode) && videoUrl == old(videoUrl) && textInput == old(textInput) && persona == old(persona)
      ensures var e := InputError(mode, videoUrl, textInput);
        (e.Some? ==> request.None? && error == e && loading == old(loading))
        && (e.None? ==> request == Some(RequestBody(mode, videoUrl, textInput)) && loading && error.None?)
    {
      error := None;
      var m, v, t := mode, videoUrl, textInput;
      if m == VideoMode {
        if Trim(v) == "" {
          assert InputError(m, v, t) == Some(NeedVideo);
          error := Some(NeedVideo);
          return None;
        }
      } else {
        if Trim(t) == "" {
          assert InputError(m, v, t) == Some(NeedText);
          error := Some(NeedText);
          return None;
        }
      }
      assert InputError(m, v, t).None?;
      loading := true;
      request := Some(RequestBody(m, v, t));
    }

    /**
     * handleGenerateMore after its fetch. An answer is merged into the
     * persona field by field as the state updater does it; a failure sets
     * the error; a null answer leaves the state as it is and reports that
     * the updater throws. Loading stops in every case.
     */
    method FinishGenerateMore(kind: ListKind, response: Response, engineMessage: string) returns (threw: bool)
      modifies this
      ensures mode == old(mode) && videoUrl == old(videoUrl) && textInput == old(textInput) && !loading
      ensures match SettleMore(response, engineMessage)
        case Merge(data) => persona == Merged(old(persona), kind, data) && error == old(error) && !threw
        case Failed(message) => persona == old(persona) && error == Some(message) && !threw
        case RenderThrows => persona == old(persona) && error == old(error) && threw
    {
      threw := false;
      var outcome := SettleMore(response, engineMessage);
      match outcome {
        case Failed(message) =>
          error := Some(message);
        case RenderThrows =>
          threw := true;
        case Merge(data) =>
          var next := MergeInto(persona, kind, data);
          persona := next;
      }
      loading := false;
    }
  }

  /** The state updater of the merge: copy the persona, then overwrite field by field. */
  method MergeInto(prev: Json, kind: ListKind, data: Json) returns (next: Json)
    ensures next == Merged(prev, kind, data)
  {
    var fields := CopyWithList(prev, kind, data);
    ghost var done: set<string> := {};
    WithListIsListStage(prev, kind, data);
    OverwriteStep(fields, prev, kind, data, done, "text");
    if Get(data, "text").Some? { fields := fields["text" := Get(data, "text").value]; }
    done := done + {"text"};
    OverwriteStep(fields, prev, kind, data, done, "tone");
    if Get(data, "tone").Some? { fields := fields["tone" := Get(data, "tone").value]; }
    done := done + {"tone"};
    OverwriteStep(fields, prev, kind, data, done, "style");
    if Get(data, "style").Some? { fields := fields["style" := Get(data, "style").value]; }
    done := done + {"style"};
    OverwriteStep(fields, prev, kind, data, done, "titleSuggestion");
    if Get(data, "titleSuggestion").Some? { fields := fields["titleSuggestion" := Get(data, "titleSuggestion").value]; }
    done := done + {"titleSuggestion"};
    OverwriteStep(fields, prev, kind, data, done, "thumbnailIdea");
    if Get(data, "thumbnailIdea").Some? { fields := fields["thumbnailIdea" := Get(data, "thumbnailIdea").value]; }
    done := done + {"thumbnailIdea"};
    OverwriteStep(fields, prev, kind, data, done, "scriptHook");
    if Get(data, "scriptHook").Some? { fields := fields["scriptHook" := Get(data, "scriptHook").value]; }
    done := done + {"scriptHook"};
    OverwriteStep(fields, prev, kind, data, done, "improvementTips");
    if Get(data, "improvementTips").Some? { fields := fields["improvementTips" := Get(data, "improvementTips").value]; }
    done := done + {"improvementTips"};
    AllScalarKeys();
    next := JObj(fields);
    SameFieldsMerged(fields, prev, kind, data);
  }

  /** The first steps of the updater: copy the persona, then replace the requested list when the answer holds an array for it. */
  method CopyWithList(prev: Json, kind: ListKind, data: Json) returns (fields: map<string, Json>)
    ensures fields == WithList(prev, kind, data)
  {
    fields := Base(prev);
    if kind == Scripts && Get(data, "scriptIdeas").Some? && Get(data, "scriptIdeas").value.JArr? {
      fields := fields["scriptIdeas" := Get(data, "scriptIdeas").value];
    }
    if kind == Captions && Get(data, "captionSuggestions").Some? && Get(data, "captionSuggestions").value.JArr? {
      fields := fields["captionSuggestions" := Get(data, "captionSuggestions").value];
    }
  }

  function WithList(prev: Json, kind: ListKind, data: Json): map<string, Json>
  {
    var incoming := Get(data, ListKey(kind));
    if incoming.Some? && incoming.value.JArr? then Base(prev)[ListKey(kind) := incoming.value] else Base(prev)
  }

  lemma WithListIsListStage(prev: Json, kind: ListKind, data: Json)
    ensures Overwritten(WithList(prev, kind, data), prev, kind, data, {})
  {
  }

  lemma AllScalarKeys()
    ensures {} + {"text"} + {"tone"} + {"style"} + {"titleSuggestion"} + {"thumbnailIdea"} + {"scriptHook"} + {"improvementTips"} == ScalarKeys
  {
  }

  /** The merge before its scalar steps: the base with the requested list replaced when the answer holds an array. */
  function ListStage(prev: Json, kind: ListKind, data: Json, k: string): Option<Json>
  {
    var incoming := Get(data, k);
    if k == ListKey(kind) && incoming.Some? && incoming.value.JArr? then incoming
    else if k in Base(prev) then Some(Base(prev)[k])
    else None
  }

  /** The fields once the scalar keys in done have had their step. */
  ghost predicate Overwritten(fields: map<string, Json>, prev: Json, kind: ListKind, data: Json, done: set<string>)
  {
    forall k :: Get(JObj(fields), k) == (if k in done && Get(data, k).Some? then Get(data, k) else ListStage(prev, kind, data, k))
  }

  /** One scalar step: key is overwritten when the answer defines it, and no other field moves. */
  lemma OverwriteStep(fields: map<string, Json>, prev: Json, kind: ListKind, data: Json, done: set<string>, key: string)
    requires Overwritten(fields, prev, kind, data, done)
    ensures var stepped := if Get(data, key).Some? then fields[key := Get(data, key).value] else fields;
      Overwritten(stepped, prev, kind, data, done + {key})
  {
  }

  /** An object whose fields agree with MergedField key by key is the merged persona. */
  lemma SameFieldsMerged(fields: map<string, Json>, prev: Json, kind: ListKind, data: Json)
    requires Overwritten(fields, prev, kind, data, ScalarKeys)
    ensures JObj(fields) == Merged(prev, kind, data)
  {
    var m := Merged(prev, kind, data);
    forall k ensures (k in fields <==> k in m.fields) && (k in fields ==> fields[k] == m.fields[k]) {
      assert Get(JObj(fields), k) == Get(m, k);
    }
    assert fields == m.fields;
  }
}
