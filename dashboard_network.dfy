/**
 * The creator network panel of the dashboard (src/genz/components/Dashboard.tsx,
 * CreatorNetworkContent): a creator is picked, a message typed, and sending
 * records the message in the shared message history.
 */
module DashboardNetwork {
  import opened Json
  import opened Text
  import opened MessageLibrary

  /** The record appendMessage is asked for: a "sent" message to a creator, tagged as coming from the network panel. */
  function SentDraft(recipient: string, text: string): (d: Draft)
    ensures d.participantName == recipient && d.content == text
  {
    Draft(recipient, Some("creator"), text, Some("sent"), Some("creator-network"))
  }

  /** The text of the simulated answer the panel files for the creator shortly after a send. */
  const AutoReply := "Thanks for reaching out! " + "This is a prototype reply from the Creator Network. We'll get back to you soon."

  /** The record the delayed callback asks appendMessage for: the creator's "received" answer. */
  function ReplyDraft(recipient: string): (d: Draft)
    ensures d.participantName == recipient && d.content == AutoReply
  {
    Draft(recipient, Some("creator"), AutoReply, Some("received"), Some("creator-network"))
  }

  /** The send guard: the trimmed message is not empty and a creator (by a non-empty name) is selected. */
  predicate WillSend(message: string, selected: Option<string>)
  {
    Trim(message) != "" && selected.Some? && selected.value != ""
  }

  class CreatorNetworkPanel {
    /** The message history the panel writes to. */
    const store: MessageStore
    var message: string
    var selected: Option<string>
    var showModal: bool

    constructor (store: MessageStore)
      ensures this.store == store && message == "" && selected.None? && !showModal
    {
      this.store := store;
      message := "";
      selected := None;
      showModal := false;
    }

    /** The "Message" button of a creator card: select that creator and open the modal. */
    method Compose(name: string)
      modifies this
      ensures selected == Some(name) && showModal && message == old(message)
    {
      selected := Some(name);
      showModal := true;
    }

    /** The text area's change handler. */
    method Type(text: string)
      modifies this
      ensures message == text && selected == old(selected) && showModal == old(showModal)
    {
      message := text;
    }

    /**
     * handleSendMessage. Without a trimmed message or a selected creator
     * nothing changes (only a toast is shown). Otherwise the trimmed text is
     * appended to the history as a "sent" message to that creator with role
     * "creator" and source "creator-network", and the panel is reset.
     * issued is the id and timestamp the new record gets; stamps and writeOk
     * are what the history's load and save meet.
     */
    method SendMessage(issued: Stamp, stamps: nat -> Stamp, writeOk: bool)
      requires WillSend(message, selected) ==> JStr(issued.id) !in Ids(Load(store.slot, stamps))
      modifies this, store
      ensures !old(WillSend(message, selected)) ==>
        store.slot == old(store.slot) && message == old(message) && selected == old(selected) && showModal == old(showModal)
      ensures old(WillSend(message, selected)) ==>
        var m := NewMessage(SentDraft(old(selected).value, Trim(old(message))), issued);
        store.slot == AfterAppend(old(store.slot), m, stamps, writeOk)
        && message == "" && selected.None? && !showModal
    {
      var trimmed := Trim(message);
      if trimmed == "" || selected.None? || selected.value == "" {
        return;
      }
      Deliver(selected.value, trimmed, issued, stamps, writeOk);
    }

    /** The send once the guard has passed: append the message to the history, then reset the panel. */
    method Deliver(recipient: string, text: string, issued: Stamp, stamps: nat -> Stamp, writeOk: bool)
      requires JStr(issued.id) !in Ids(Load(store.slot, stamps))
      modifies this, store
      ensures store.slot == AfterAppend(old(store.slot), NewMessage(SentDraft(recipient, text), issued), stamps, writeOk)
      ensures message == "" && selected.None? && !showModal
    {
      var m := store.AppendMessage(SentDraft(recipient, text), issued, stamps, writeOk);
      message := "";
      showModal := false;
      selected := None;
    }

    /**
     * The callback the send schedules with a 400 ms timer: the simulated
     * answer of the creator the message went to is appended to the history.
     * The panel's own state is not touched.
     */
    method ReplyArrives(recipient: string, issued: Stamp, stamps: nat -> Stamp, writeOk: bool)
      requires JStr(issued.id) !in Ids(Load(store.slot, stamps))
      modifies store
      ensures store.slot == AfterAppend(old(store.slot), NewMessage(ReplyDraft(recipient), issued), stamps, writeOk)
    {
      var m := store.AppendMessage(ReplyDraft(recipient), issued, stamps, writeOk);
    }
  }

  /**
   * What a send records: a well-formed "sent" message from the creator
   * network to the selected creator, holding the trimmed text; with working
   * storage it is the last record the library loads afterwards.
   */
  lemma SentMessageReachesLibrary(s: Slot, recipient: string, text: string, issued: Stamp, before: nat -> Stamp, after: nat -> Stamp)
    requires s.Available? && WillSend(text, Some(recipient))
    ensures var m := NewMessage(SentDraft(recipient, Trim(text)), issued);
      && m.participantName == recipient && m.content == Trim(text)
      && m.participantRole == JStr("creator") && m.direction == JStr("sent") && m.source == JStr("creator-network")
      && WellFormed(m)
      && EndsWith(Load(AfterAppend(s, m, before, true), after), [m])
  {
    var m := NewMessage(SentDraft(recipient, Trim(text)), issued);
    assert EndsWith(Load(s, before), []);
    AppendExtendsTail(s, m, [], before, after);
    assert [] + [m] == [m];
  }

  /**
   * A send followed by its simulated answer, with working storage: the
   * history ends with the sent message and then the creator's "received"
   * answer holding the fixed reply text, both addressed to that creator.
   */
  lemma ConversationReachesLibrary(s: Slot, recipient: string, text: string, sentStamp: Stamp, replyStamp: Stamp,
                                   st1: nat -> Stamp, st2: nat -> Stamp, st3: nat -> Stamp)
    requires s.Available? && WillSend(text, Some(recipient))
    ensures var sent := NewMessage(SentDraft(recipient, Trim(text)), sentStamp);
      var reply := NewMessage(ReplyDraft(recipient), replyStamp);
      && reply.participantName == recipient && reply.content == AutoReply
      && reply.direction == JStr("received") && reply.source == JStr("creator-network")
      && EndsWith(Load(AfterAppend(AfterAppend(s, sent, st1, true), reply, st2, true), st3), [sent, reply])
  {
    var sent := NewMessage(SentDraft(recipient, Trim(text)), sentStamp);
    var reply := NewMessage(ReplyDraft(recipient), replyStamp);
    assert AutoReply[0] == 'T';
    TwoAppendsInOrder(s, sent, reply, st1, st2, st3);
  }
}
