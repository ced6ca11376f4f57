/**
 * The assistant chat panel of the dashboard (src/genz/components/Dashboard.tsx,
 * the Enter-key and button handlers): a send is split at its one await into
 * BeginSend, which appends the user's message and builds the request, and
 * FinishSend, which appends the reply or records the error.
 */
module DashboardChat {
  import opened Json
  import opened Text
  import opened ChatRoute
  import opened DashboardFetch

  /** A message in the panel's list: the route's roles plus a display id. */
  datatype PanelMessage = PanelMessage(id: string, role: Role, content: string)

  const Welcome := PanelMessage("welcome", Assistant,
    "Hi! " + "I'm your AI assistant. I can help you generate content ideas, analyze your audience, find brand deals, and connect with creators.")
  const ReplyFallback := "I'm here, " + "but I couldn't generate a proper response. Try asking in a different way."
  const FailureFallback := "Failed to reach CreatorOS AI."

  /** A content the panel shows: not empty, with no white space at either end. */
  predicate Tidy(s: string)
  {
    s != "" && !IsSpace(s[0]) && !IsSpace(s[|s| - 1])
  }

  /** Tidy texts are exactly the non-empty texts trim() leaves alone. */
  lemma TidyIffTrimmed(s: string)
    ensures Tidy(s) <==> s != "" && Trim(s) == s
  {
    TrimIdempotent(s);
    if Tidy(s) {
      TrimKeepsUnpadded(s);
    }
  }

  /** What one send ends in: the assistant's reply, or the message of the error it threw. */
  datatype Settlement = Answered(reply: string) | Failed(message: string)

  /**
   * How the handler reads the response. engineMessage is the text of the
   * error the JavaScript engine throws when the body of an ok response is
   * not JSON, is null, or has a reply that is neither a string nor nullish,
   * and when an error body is null or its error or details cannot be
   * converted to a string.
   */
  function Settle(response: Response, engineMessage: string): (s: Settlement)
    ensures s.Answered? ==> Tidy(s.reply)
    ensures s.Answered? <==> response.Responded? && response.ok && response.body.Some? && !response.body.value.JNull?
                             && (Nullish(Get(response.body.value, "reply")) || Get(response.body.value, "reply").value.JStr?)
  {
    match response
    case FetchFailed(m) => Failed(m)
    case Responded(ok, body) =>
      if !ok then
        var data := FailureBody(body);
        if data.JNull? || FailureTextThrows(data) then Failed(engineMessage) else Failed(FailureText(data, FailureFallback, " "))
      else if body.None? || body.value.JNull? then Failed(engineMessage)
      else
        var reply := Get(body.value, "reply");
        if Nullish(reply) then
          FallbackTidy();
          Answered(ReplyFallback)
        else if reply.value.JStr? then
          var t := Trim(reply.value.s);
          TrimIdempotent(reply.value.s);
          if t == "" then
            FallbackTidy();
            Answered(ReplyFallback)
          else Answered(t)
        else Failed(engineMessage)
  }

  lemma FallbackTidy()
    ensures Tidy(ReplyFallback) && Tidy(Welcome.content)
  {
    assert ReplyFallback[0] == 'I' && ReplyFallback[|ReplyFallback| - 1] == '.';
    assert Welcome.content[0] == 'H' && Welcome.content[|Welcome.content| - 1] == '.';
  }

  /** A reply string is shown trimmed, and the fixed fallback replaces a blank or missing one. */
  lemma SettleReply(data: Json, engineMessage: string)
    requires data.JObj?
    ensures var s := Settle(Responded(true, Some(data)), engineMessage);
      var reply := Get(data, "reply");
      (Nullish(reply) ==> s == Answered(ReplyFallback))
      && (reply.Some? && reply.value.JStr? && !AllSpace(reply.value.s) ==> s == Answered(Trim(reply.value.s)))
      && (reply.Some? && reply.value.JStr? && AllSpace(reply.value.s) ==> s == Answered(ReplyFallback))
  {
    var reply := Get(data, "reply");
    if reply.Some? && reply.value.JStr? {
      TrimEmptyIffAllSpace(reply.value.s);
    }
  }

  /** The `{ role, content }` list the panel posts, for the route's filter. */
  function AsChat(msgs: seq<PanelMessage>): (r: seq<ChatMessage>)
    ensures |r| == |msgs| && forall i :: 0 <= i < |msgs| ==> r[i] == ChatMessage(msgs[i].role, msgs[i].content)
  {
    seq(|msgs|, i requires 0 <= i < |msgs| => ChatMessage(msgs[i].role, msgs[i].content))
  }

  /** The request body: `{ messages: [...] }`. */
  function Payload(msgs: seq<PanelMessage>): Json
  {
    JObj(map["messages" := JArr(EncodeAll(AsChat(msgs)))])
  }

  /**
   * Every message the panel sends passes the route's filter, in order, and
   * the last user message the route sees is the one just typed.
   */
  lemma RouteSeesWhatWasSent(msgs: seq<PanelMessage>, typed: PanelMessage)
    requires typed.role == User
    ensures SafeMessages(Get(Payload(msgs + [typed]), "messages")) == AsChat(msgs + [typed])
    ensures LastUser(SafeMessages(Get(Payload(msgs + [typed]), "messages"))) == Some(typed.content)
  {
    KeepEncoded(AsChat(msgs + [typed]));
  }

  class AssistantChat {
    var messages: seq<PanelMessage>
    var input: string
    var sending: bool
    var error: Option<string>

    /** Every message shown is tidy and the welcome message comes first. */
    predicate Valid()
      reads this
    {
      |messages| >= 1 && messages[0] == Welcome && forall i :: 0 <= i < |messages| ==> Tidy(messages[i].content)
    }

    constructor ()
      ensures Valid() && messages == [Welcome] && input == "" && !sending && error.None?
    {
      messages := [Welcome];
      input := "";
      sending := false;
      error := None;
      FallbackTidy();
    }

    /** The input field's change handler. */
    method Type(text: string)
      modifies this
      ensures input == text && messages == old(messages) && sending == old(sending) && error == old(error)
    {
      input := text;
    }

    /** Whether a send goes ahead: the trimmed input is not empty and no send is in flight. */
    predicate CanSend()
      reads this
    {
      Trim(input) != "" && !sending
    }

    /**
     * The handler up to its fetch: append the trimmed input as a user message
     * with id "user-<now>", clear the input and the error, mark the panel as
     * sending, and post every message so far followed by the new one.
     */
    method BeginSend(now: nat) returns (request: Option<Json>)
      requires Valid()
      modifies this
      ensures Valid()
      ensures !old(CanSend()) ==> request.None? && messages == old(messages) && input == old(input)
                                  && sending == old(sending) && error == old(error)
      ensures old(CanSend()) ==>
        var typed := PanelMessage("user-" + NatToStr(now), User, Trim(old(input)));
        request == Some(Payload(old(messages) + [typed])) && messages == old(messages) + [typed]
        && input == "" && sending && error.None?
    {
      if Trim(input) == "" || sending {
        return None;
      }
      var typed := PanelMessage("user-" + NatToStr(now), User, Trim(input));
      var toSend := messages + [typed];
      request := Some(Payload(toSend));
      messages := messages + [typed];
      input := "";
      error := None;
      sending := true;
    }

    /**
     * The handler after its fetch: on an answer, append it as an assistant
     * message with id "assistant-<now>"; on an error, record its message.
     * Either way the panel stops sending.
     */
    method FinishSend(response: Response, now: nat, engineMessage: string)
      requires Valid()
      modifies this
      ensures Valid() && !sending && input == old(input)
      ensures Settle(response, engineMessage).Answered? ==>
        messages == old(messages) + [PanelMessage("assistant-" + NatToStr(now), Assistant, Settle(response, engineMessage).reply)]
        && error == old(error)
      ensures Settle(response, engineMessage).Failed? ==>
        messages == old(messages) && error == Some(Settle(response, engineMessage).message)
    {
      var s := Settle(response, engineMessage);
      match s {
        case Answered(reply) =>
          messages := messages + [PanelMessage("assistant-" + NatToStr(now), Assistant, reply)];
        case Failed(message) =>
          error := Some(message);
      }
      sending := false;
    }
  }

  /** A full round: one user message and then either one assistant message or an error, and the panel is idle again. */
  method SendRound(chat: AssistantChat, now: nat, later: nat, response: Response, engineMessage: string)
    returns (request: Option<Json>)
    requires chat.Valid() && chat.CanSend()
    modifies chat
    ensures chat.Valid() && !chat.sending && chat.input == ""
    ensures request.Some?
    ensures Settle(response, engineMessage).Answered? ==>
      chat.messages == old(chat.messages) + [PanelMessage("user-" + NatToStr(now), User, Trim(old(chat.input))),
                                             PanelMessage("assistant-" + NatToStr(later), Assistant, Settle(response, engineMessage).reply)]
      && chat.error.None?
    ensures Settle(response, engineMessage).Failed? ==>
      chat.messages == old(chat.messages) + [PanelMessage("user-" + NatToStr(now), User, Trim(old(chat.input)))]
      && chat.error == Some(Settle(response, engineMessage).message)
  {
    ghost var before := chat.messages;
    request := chat.BeginSend(now);
    ghost var middle := chat.messages;
    chat.FinishSend(response, later, engineMessage);
    ghost var s := Settle(response, engineMessage);
    if s.Answered? {
      ghost var typed := PanelMessage("user-" + NatToStr(now), User, Trim(old(chat.input)));
      ghost var answer := PanelMessage("assistant-" + NatToStr(later), Assistant, s.reply);
      assert middle == before + [typed];
      assert chat.messages == middle + [answer];
      AppendTwo(before, typed, answer);
    }
  }

  /** Appending two elements one after the other is appending the pair. */
  lemma AppendTwo<T>(s: seq<T>, x: T, y: T)
    ensures s + [x] + [y] == s + [x, y]
  {
  }
}
