/**
 * The chat route (src/app/api/chat/route.ts): keep the well-formed messages
 * of the request, answer with a canned reply quoting the last user message
 * when no generator key is configured, otherwise send the transcript to the
 * generator and answer with its trimmed reply.
 */
module ChatRoute {
  import opened Json
  import opened Text
  import opened Http

  datatype Role = User | Assistant | System

  /** A message the handler keeps: a recognised role and string content. */
  datatype ChatMessage = ChatMessage(role: Role, content: string)

  /** The role named by a JSON value, if it names one. */
  function RoleOf(v: Option<Json>): (r: Option<Role>)
    ensures r.Some? <==> v == Some(JStr("user")) || v == Some(JStr("assistant")) || v == Some(JStr("system"))
  {
    if v == Some(JStr("user")) then Some(User)
    else if v == Some(JStr("assistant")) then Some(Assistant)
    else if v == Some(JStr("system")) then Some(System)
    else None
  }

  function RoleName(r: Role): string
  {
    match r
    case User => "user"
    case Assistant => "assistant"
    case System => "system"
  }

  /** The message a well-formed entry stands for: a truthy value whose content is a string and whose role is one of the three. */
  function Decode(m: Json): (r: Option<ChatMessage>)
    ensures r.Some? <==> Truthy(m) && Get(m, "content").Some? && Get(m, "content").value.JStr? && RoleOf(Get(m, "role")).Some?
  {
    var content := Get(m, "content");
    var role := RoleOf(Get(m, "role"));
    if Truthy(m) && content.Some? && content.value.JStr? && role.Some?
    then Some(ChatMessage(role.value, content.value.s))
    else None
  }

  /** The entries of the messages array that pass the filter, in order. */
  function Keep(items: seq<Json>): (r: seq<ChatMessage>)
    ensures |r| <= |items|
  {
    if items == [] then []
    else
      var d := Decode(items[|items| - 1]);
      Keep(items[..|items| - 1]) + (if d.Some? then [d.value] else [])
  }

  /** `safeMessages`: the filtered array, or nothing when messages is not an array. */
  function SafeMessages(messages: Option<Json>): seq<ChatMessage>
  {
    if messages.Some? && messages.value.JArr? then Keep(messages.value.items) else []
  }

  /** The filter works entry by entry: filtering a concatenation concatenates the filtered parts. */
  lemma {:induction false} KeepConcat(a: seq<Json>, b: seq<Json>)
    ensures Keep(a + b) == Keep(a) + Keep(b)
    decreases |b|
  {
    if b == [] {
      assert a + b == a;
    } else {
      var b' := b[..|b| - 1];
      var d := Decode(b[|b| - 1]);
      var tail := if d.Some? then [d.value] else [];
      assert (a + b)[..|a + b| - 1] == a + b';
      assert (a + b)[|a + b| - 1] == b[|b| - 1];
      assert Keep(a + b) == Keep(a + b') + tail;
      assert Keep(b) == Keep(b') + tail;
      KeepConcat(a, b');
    }
  }

  /** Each entry is kept exactly when it is well-formed, as the message it stands for. */
  lemma KeepOne(m: Json)
    ensures Keep([m]) == (if Decode(m).Some? then [Decode(m).value] else [])
  {
    assert [m][..0] == [];
  }

  /** The JSON object a client sends for a message: its role and its content. */
  function ToJson(m: ChatMessage): Json
  {
    JObj(map["role" := JStr(RoleName(m.role)), "content" := JStr(m.content)])
  }

  function EncodeAll(msgs: seq<ChatMessage>): (r: seq<Json>)
    ensures |r| == |msgs|
  {
    if msgs == [] then [] else EncodeAll(msgs[..|msgs| - 1]) + [ToJson(msgs[|msgs| - 1])]
  }

  /** Every message a client sends as `{ role, content }` passes the filter unchanged. */
  lemma {:induction false} KeepEncoded(msgs: seq<ChatMessage>)
    ensures Keep(EncodeAll(msgs)) == msgs
  {
    if msgs != [] {
      var init := msgs[..|msgs| - 1];
      var last := msgs[|msgs| - 1];
      KeepEncoded(init);
      var e := EncodeAll(msgs);
      assert e == EncodeAll(init) + [ToJson(last)];
      assert e[..|e| - 1] == EncodeAll(init);
      DecodeToJson(last);
      assert Keep(e) == Keep(EncodeAll(init)) + [last];
      assert msgs == init + [last];
    }
  }

  /** Decoding what a client sends for a message gives the message back. */
  lemma DecodeToJson(m: ChatMessage)
    ensures Decode(ToJson(m)) == Some(m)
  {
    var j := ToJson(m);
    assert Get(j, "content") == Some(JStr(m.content));
    assert Get(j, "role") == Some(JStr(RoleName(m.role)));
  }

  /** A messages field that is not an array (missing, null, an object, a string) leaves no history. */
  lemma NonArrayGivesNoHistory(messages: Option<Json>)
    requires messages.None? || !messages.value.JArr?
    ensures SafeMessages(messages) == []
  {
  }

  /** `lastUser`: the content of the last kept message from the user. */
  function LastUser(msgs: seq<ChatMessage>): (r: Option<string>)
    ensures r.None? <==> forall i :: 0 <= i < |msgs| ==> msgs[i].role != User
  {
    if msgs == [] then None
    else if msgs[|msgs| - 1].role == User then Some(msgs[|msgs| - 1].content)
    else
      var r := LastUser(msgs[..|msgs| - 1]);
      assert forall i :: 0 <= i < |msgs| - 1 ==> msgs[i] == msgs[..|msgs| - 1][i];
      r
  }

  /** What lastUser finds is the content of a user message after which no user message follows. */
  lemma {:induction false} LastUserIsLast(msgs: seq<ChatMessage>)
    requires LastUser(msgs).Some?
    ensures exists i :: 0 <= i < |msgs| && msgs[i] == ChatMessage(User, LastUser(msgs).value)
                        && forall j :: i < j < |msgs| ==> msgs[j].role != User
  {
    var last := |msgs| - 1;
    if msgs[last].role == User {
      assert msgs[last] == ChatMessage(User, LastUser(msgs).value);
    } else {
      var init := msgs[..last];
      LastUserIsLast(init);
      var i :| 0 <= i < |init| && init[i] == ChatMessage(User, LastUser(init).value)
               && forall j :: i < j < |init| ==> init[j].role != User;
      assert msgs[i] == init[i];
      forall j | i < j < |msgs| ensures msgs[j].role != User {
        if j < last { assert msgs[j] == init[j]; }
      }
    }
  }

  const DemoGreeting := "Hi! I'm CreatorOS AI in demo mode. Ask me about content ideas, audience growth, or brand deals, and I'll walk you through example strategies."
  const DemoPreamble := "Demo mode: I can't call the real AI in this environment, but based on your question, I'd suggest breaking it into clear steps and focusing on one platform or feature at a time. You asked: \""

  /** The canned reply: the last user message quoted, trimmed, when it is not blank, else the greeting. */
  function DemoReply(lastUser: Option<string>): (reply: string)
    ensures lastUser.Some? && Trim(lastUser.value) != "" ==>
      reply == DemoPreamble + Trim(lastUser.value) + "\""
    ensures lastUser.None? || AllSpace(lastUser.value) ==> reply == DemoGreeting
  {
    if lastUser.Some? && Trim(lastUser.value) != "" then DemoPreamble + Trim(lastUser.value) + "\"" else
      assert lastUser.Some? ==> AllSpace(lastUser.value) by {
        if lastUser.Some? { TrimEmptyIffAllSpace(lastUser.value); }
      }
      DemoGreeting
  }

  function Speaker(r: Role): string
  {
    match r
    case User => "User"
    case Assistant => "Assistant"
    case System => "System"
  }

  /** One transcript line: the speaker, a colon, a space and the content. */
  function HistoryLine(m: ChatMessage): (line: string)
    ensures |line| > |m.content| && line[|line| - |m.content|..] == m.content
  {
    Speaker(m.role) + ": " + m.content
  }

  /** `historyText`: the transcript lines joined by "\n". */
  function HistoryText(msgs: seq<ChatMessage>): string
  {
    Join(seq(|msgs|, i requires 0 <= i < |msgs| => HistoryLine(msgs[i])), "\n")
  }

  /** A non-empty line list joins to a non-empty text. */
  lemma {:induction false} JoinNonEmpty(lines: seq<string>, sep: string)
    requires |lines| >= 1 && forall i :: 0 <= i < |lines| ==> lines[i] != ""
    ensures Join(lines, sep) != ""
  {
    if |lines| > 1 {
      assert |Join(lines, sep)| >= |lines[0]|;
    }
  }

  /** The transcript is empty exactly when no message was kept, which is when the prompt says "(no prior messages)". */
  lemma HistoryEmptyIff(msgs: seq<ChatMessage>)
    ensures HistoryText(msgs) == "" <==> msgs == []
  {
    if msgs != [] {
      var lines := seq(|msgs|, i requires 0 <= i < |msgs| => HistoryLine(msgs[i]));
      JoinNonEmpty(lines, "\n");
    }
  }

  /** The transcript of messages without line breaks splits back into one line per message, in order. */
  lemma TranscriptLines(msgs: seq<ChatMessage>)
    requires msgs != []
    requires forall i :: 0 <= i < |msgs| ==> '\n' !in msgs[i].content
    ensures var lines := Split(HistoryText(msgs), '\n');
      |lines| == |msgs| && forall i :: 0 <= i < |msgs| ==> lines[i] == Speaker(msgs[i].role) + ": " + msgs[i].content
  {
    var lines := seq(|msgs|, i requires 0 <= i < |msgs| => HistoryLine(msgs[i]));
    forall i | 0 <= i < |msgs| ensures '\n' !in lines[i] {
      var s := Speaker(msgs[i].role) + ": ";
      assert '\n' !in s;
      assert lines[i] == s + msgs[i].content;
    }
    SplitJoin(lines, '\n');
  }

  /** A one-message transcript is that message's line. */
  lemma HistoryOfOne(m: ChatMessage)
    ensures HistoryText([m]) == Speaker(m.role) + ": " + m.content
  {
  }

  /** Adding a message adds its line after a line break. */
  lemma HistorySnoc(msgs: seq<ChatMessage>, m: ChatMessage)
    requires msgs != []
    ensures HistoryText(msgs + [m]) == HistoryText(msgs) + "\n" + HistoryLine(m)
  {
    var lines := seq(|msgs|, i requires 0 <= i < |msgs| => HistoryLine(msgs[i]));
    var all := seq(|msgs + [m]|, i requires 0 <= i < |msgs + [m]| => HistoryLine((msgs + [m])[i]));
    assert all == lines + [HistoryLine(m)];
    JoinSnoc(lines, HistoryLine(m), "\n");
  }

  /** Joining with one more part appends the separator and the part. */
  lemma {:induction false} JoinSnoc(parts: seq<string>, last: string, sep: string)
    requires parts != []
    ensures Join(parts + [last], sep) == Join(parts, sep) + sep + last
  {
    if |parts| > 1 {
      assert (parts + [last])[1..] == parts[1..] + [last];
      JoinSnoc(parts[1..], last, sep);
    }
  }

  /** The prompt: its wording is not modelled, only the transcript it embeds. */
  datatype Prompt = ChatPrompt(transcript: string)

  /** The transcript as the prompt embeds it. */
  function Transcript(msgs: seq<ChatMessage>): string
  {
    var h := HistoryText(msgs);
    if h == "" then "(no prior messages)" else h
  }

  /** The prompt says "(no prior messages)" exactly when no message was kept, and otherwise embeds their lines. */
  lemma TranscriptOfHistory(msgs: seq<ChatMessage>)
    ensures msgs == [] ==> Transcript(msgs) == "(no prior messages)"
    ensures msgs != [] ==> Transcript(msgs) == HistoryText(msgs) && HistoryText(msgs) != ""
  {
    HistoryEmptyIff(msgs);
  }

  /**
   * POST /api/chat. body is the parsed request body (None when it is not
   * JSON, which the handler treats as `{}`; JSON null makes the destructuring
   * throw).
   */
  function Handle(body: Option<Json>, hasApiKey: bool, generate: Prompt -> Generation): (r: Reply)
    ensures r.Unhandled? <==> body == Some(JNull)
    ensures r.Reply? ==> r.status == 200 || r.status == 500 || r.status == 502
    ensures r.Reply? && !hasApiKey ==> r.status == 200
  {
    var b := match body case Some(v) => v case None => JObj(map[]);
    if b.JNull? then Unhandled
    else
      var msgs := SafeMessages(Get(b, "messages"));
      if !hasApiKey then
        Reply(200, JObj(map["reply" := JStr(DemoReply(LastUser(msgs))), "demo" := JBool(true)]))
      else
        match generate(ChatPrompt(Transcript(msgs)))
        case Threw(t) => GeneratorFailed("chat", t)
        case Generated(raw) =>
          var reply := Trim(raw);
          if reply == "" then Reply(502, JObj(map["error" := JStr("Gemini returned an empty reply")]))
          else Reply(200, JObj(map["reply" := JStr(reply)]))
  }

  /** With a generator, a blank reply is answered with 502 and any other with its trimmed text. */
  lemma ReplyTrimmedOr502(body: Option<Json>, generate: Prompt -> Generation, raw: string)
    requires body != Some(JNull)
    requires forall p :: generate(p) == Generated(raw)
    ensures AllSpace(raw) ==> Handle(body, true, generate) == Reply(502, JObj(map["error" := JStr("Gemini returned an empty reply")]))
    ensures !AllSpace(raw) ==> Handle(body, true, generate) == Reply(200, JObj(map["reply" := JStr(Trim(raw))]))
  {
    TrimEmptyIffAllSpace(raw);
  }

  /** A generator failure is answered with 500 and its details. */
  lemma FailureIs500(body: Option<Json>, generate: Prompt -> Generation, t: Thrown)
    requires body != Some(JNull)
    requires forall p :: generate(p) == Threw(t)
    ensures Handle(body, true, generate) == Reply(500, JObj(map["error" := JStr("Failed to call Gemini for chat"), "details" := JStr(Details(t))]))
  {
    assert "Failed to call Gemini for " + "chat" == "Failed to call Gemini for chat";
  }

  /** Without a generator key the canned reply is answered, marked `demo: true`. */
  lemma DemoWithoutKey(body: Option<Json>, generate: Prompt -> Generation)
    requires body != Some(JNull)
    ensures var b := match body case Some(v) => v case None => JObj(map[]);
      var msgs := SafeMessages(Get(b, "messages"));
      Handle(body, false, generate) == Reply(200, JObj(map["reply" := JStr(DemoReply(LastUser(msgs))), "demo" := JBool(true)]))
  {
  }
}
