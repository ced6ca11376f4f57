/**
 * The client-side message history shared by the Creator Network panel and the
 * Library page (src/genz/utils/messageLibrary.ts). One localStorage key holds
 * the whole history as a JSON list; every operation reads the list in full,
 * changes it in memory and writes it back in full.
 */
module MessageLibrary {
  import opened Json

  /** The one storage key the history lives under. */
  const StorageKey := "creatoros_message_library_v1"

  /**
   * The text stored under the key, as JSON.parse sees it: nothing there (or
   * the empty string, which `!raw` rejects the same way), text JSON.parse
   * rejects, or text it turns into a value. Writing a value stores text that
   * parses back to that value.
   */
  datatype Stored = Missing | Garbled | Holds(value: Json)

  /** localStorage as the library sees it: unusable outside a browser, or the content of the key. */
  datatype Slot = Unavailable | Available(stored: Stored)

  /** What one call of crypto.randomUUID() and one of new Date().toISOString() answer. */
  datatype Stamp = Stamp(id: string, createdAt: string)

  /**
   * A history record. The name and the content are strings (String() of what
   * was stored); the other fields keep whatever JSON value the stored entry
   * held, recognised or not, and get a fallback only when it was null or absent.
   */
  datatype Message = Message(
    id: Json,
    participantName: string,
    participantRole: Json,
    content: string,
    direction: Json,
    createdAt: Json,
    source: Json)

  /** The argument of appendMessage; an omitted optional field is None. */
  datatype Draft = Draft(
    participantName: string,
    participantRole: Option<string>,
    content: string,
    direction: Option<string>,
    source: Option<string>)

  const DefaultRole := JStr("creator")
  const DefaultDirection := JStr("sent")
  const DefaultSource := JStr("library")

  /** A stored entry loadMessages keeps: an object whose participantName and content are both truthy. */
  predicate IsRecordEntry(entry: Json)
  {
    entry.JObj? && Present(Get(entry, "participantName")) && Present(Get(entry, "content"))
  }

  /**
   * A kept entry whose name or content String() cannot convert (an object
   * with its own "toString", or an array holding one): the map callback
   * throws on it, and the whole load ends in the catch.
   */
  predicate EntryThrows(entry: Json)
  {
    IsRecordEntry(entry)
    && (StringThrows(Get(entry, "participantName").value) || StringThrows(Get(entry, "content").value))
  }

  /** No entry of the list makes the map callback throw. */
  predicate NoEntryThrows(entries: seq<Json>)
  {
    forall i :: 0 <= i < |entries| ==> !EntryThrows(entries[i])
  }

  /** `field ?? fallback` as the normaliser applies it: a present value is kept, whatever it is. */
  predicate DefaultedFrom(field: Json, stored: Option<Json>, fallback: Json)
  {
    (!Nullish(stored) ==> field == stored.value) && (Nullish(stored) ==> field == fallback)
  }

  /**
   * The callback loadMessages maps over the parsed list: null for anything
   * that is not an object with a truthy name and content, otherwise the
   * record with defaults filled in. An array passes the `typeof` test but
   * has no participantName, so it is rejected as well. Defined for the
   * entries it does not throw on; Load deals with the others.
   */
  function Normalize(entry: Json, issued: Stamp): (r: Option<Message>)
    requires !EntryThrows(entry)
    ensures r.Some? <==> IsRecordEntry(entry)
  {
    if !Truthy(entry) || !(entry.JObj? || entry.JArr?) then None
    else
      var name := Get(entry, "participantName");
      var content := Get(entry, "content");
      if !Present(name) || !Present(content) then None
      else
        Some(Message(
          id := Coalesce(Get(entry, "id"), JStr(issued.id)),
          participantName := ToStr(name.value),
          participantRole := Coalesce(Get(entry, "participantRole"), DefaultRole),
          content := ToStr(content.value),
          direction := Coalesce(Get(entry, "direction"), DefaultDirection),
          createdAt := Coalesce(Get(entry, "createdAt"), JStr(issued.createdAt)),
          source := Coalesce(Get(entry, "source"), DefaultSource)))
  }

  /**
   * A kept entry becomes a record with the string forms of its name and
   * content; every other field keeps its stored value whenever that is
   * neither null nor absent, recognised or not, and only otherwise gets its
   * default: role "creator", direction "sent", source "library", and a
   * generated id and timestamp.
   */
  lemma NormalizeFillsDefaults(entry: Json, issued: Stamp)
    requires IsRecordEntry(entry) && !EntryThrows(entry)
    ensures var r := Normalize(entry, issued).value;
      && r.participantName == ToStr(Get(entry, "participantName").value)
      && r.content == ToStr(Get(entry, "content").value)
      && DefaultedFrom(r.id, Get(entry, "id"), JStr(issued.id))
      && DefaultedFrom(r.participantRole, Get(entry, "participantRole"), DefaultRole)
      && DefaultedFrom(r.direction, Get(entry, "direction"), DefaultDirection)
      && DefaultedFrom(r.createdAt, Get(entry, "createdAt"), JStr(issued.createdAt))
      && DefaultedFrom(r.source, Get(entry, "source"), DefaultSource)
  {
  }

  /**
   * The map-then-filter of loadMessages over the parsed list. The entry at
   * position i draws its generated id and timestamp from stamps(i).
   */
  function LoadEntries(entries: seq<Json>, stamps: nat -> Stamp): (r: seq<Message>)
    requires NoEntryThrows(entries)
    ensures |r| <= |entries|
  {
    if |entries| == 0 then []
    else
      var n := |entries| - 1;
      var front := LoadEntries(entries[..n], stamps);
      match Normalize(entries[n], stamps(n))
      case Some(m) => front + [m]
      case None => front
  }

  /**
   * loadMessages: the normalised list, or the empty list when storage is
   * unusable, empty, unparseable or not a list, or when the map callback
   * throws on some entry.
   */
  function Load(slot: Slot, stamps: nat -> Stamp): (r: seq<Message>)
    ensures r != [] ==> slot.Available? && slot.stored.Holds? && slot.stored.value.JArr? && NoEntryThrows(slot.stored.value.items)
  {
    match slot
    case Unavailable => []
    case Available(Missing) => []
    case Available(Garbled) => []
    case Available(Holds(v)) => if v.JArr? && NoEntryThrows(v.items) then LoadEntries(v.items, stamps) else []
  }

  /** The positions of the entries loadMessages keeps, in ascending order. */
  function Survivors(entries: seq<Json>): (r: seq<nat>)
    ensures forall k :: 0 <= k < |r| ==> r[k] < |entries| && IsRecordEntry(entries[r[k]])
    ensures forall k, l :: 0 <= k < l < |r| ==> r[k] < r[l]
    ensures forall i :: 0 <= i < |entries| && IsRecordEntry(entries[i]) ==> i in r
  {
    if |entries| == 0 then []
    else
      var n := |entries| - 1;
      var front := Survivors(entries[..n]);
      assert forall i :: 0 <= i < n ==> entries[..n][i] == entries[i];
      if IsRecordEntry(entries[n]) then front + [n] else front
  }

  /**
   * The list loadMessages returns is exactly the normalised surviving
   * entries, in their stored order: one record per record-shaped entry and
   * none for any other.
   */
  lemma {:induction false} LoadKeepsSurvivorsInOrder(entries: seq<Json>, stamps: nat -> Stamp)
    requires NoEntryThrows(entries)
    ensures var r := LoadEntries(entries, stamps); var s := Survivors(entries);
      |r| == |s| && forall k :: 0 <= k < |r| ==> Some(r[k]) == Normalize(entries[s[k]], stamps(s[k]))
  {
    if |entries| > 0 {
      var n := |entries| - 1;
      var front := entries[..n];
      assert forall i :: 0 <= i < n ==> front[i] == entries[i];
      LoadKeepsSurvivorsInOrder(front, stamps);
      var r0, s0 := LoadEntries(front, stamps), Survivors(front);
      if IsRecordEntry(entries[n]) {
        var m := Normalize(entries[n], stamps(n)).value;
        assert LoadEntries(entries, stamps) == r0 + [m];
        assert Survivors(entries) == s0 + [n];
      } else {
        assert LoadEntries(entries, stamps) == r0;
        assert Survivors(entries) == s0;
      }
    }
  }

  /** The JSON object saveMessages writes for one record. */
  function ToJson(m: Message): Json
  {
    JObj(map[
      "id" := m.id,
      "participantName" := JStr(m.participantName),
      "participantRole" := m.participantRole,
      "content" := JStr(m.content),
      "direction" := m.direction,
      "createdAt" := m.createdAt,
      "source" := m.source])
  }

  /** The list saveMessages writes; names and content are stored as strings, so reading it back never throws. */
  function Encode(msgs: seq<Message>): (r: seq<Json>)
    ensures |r| == |msgs|
    ensures NoEntryThrows(r)
  {
    if |msgs| == 0 then []
    else
      var e := ToJson(msgs[|msgs| - 1]);
      assert !EntryThrows(e);
      Encode(msgs[..|msgs| - 1]) + [e]
  }

  /** A record that survives being saved and loaded again unchanged. */
  predicate WellFormed(m: Message)
  {
    m.participantName != "" && m.content != ""
    && m.id != JNull && m.participantRole != JNull && m.direction != JNull
    && m.createdAt != JNull && m.source != JNull
  }

  /** Normalising the saved form of a well-formed record gives the record back, whatever the stamp. */
  lemma NormalizeSavedRecord(m: Message, issued: Stamp)
    requires WellFormed(m)
    ensures Normalize(ToJson(m), issued) == Some(m)
  {
  }

  /** Saving a list of well-formed records and loading it again gives the same list. */
  lemma {:induction false} LoadSavedList(msgs: seq<Message>, stamps: nat -> Stamp)
    requires forall k :: 0 <= k < |msgs| ==> WellFormed(msgs[k])
    ensures LoadEntries(Encode(msgs), stamps) == msgs
  {
    if |msgs| > 0 {
      var init, last := msgs[..|msgs| - 1], msgs[|msgs| - 1];
      assert init + [last] == msgs;
      forall k | 0 <= k < |init|
        ensures WellFormed(init[k])
      {
        assert init[k] == msgs[k];
      }
      LoadSavedList(init, stamps);
      LoadSavedAppend(init, last, stamps);
    }
  }

  /**
   * Saving a list with one well-formed record at the end and loading it
   * again gives what the list without it would load, then that record:
   * whatever the earlier entries hold, the last one comes back last.
   */
  lemma LoadSavedAppend(msgs: seq<Message>, m: Message, stamps: nat -> Stamp)
    requires WellFormed(m)
    ensures LoadEntries(Encode(msgs + [m]), stamps) == LoadEntries(Encode(msgs), stamps) + [m]
  {
    assert (msgs + [m])[..|msgs|] == msgs;
    assert Encode(msgs + [m]) == Encode(msgs) + [ToJson(m)];
    NormalizeSavedRecord(m, stamps(|msgs|));
  }

  /** What saveMessages leaves in the slot: nothing changes when storage is unusable or the write fails. */
  function Saved(slot: Slot, msgs: seq<Message>, writeOk: bool): Slot
  {
    if slot.Unavailable? || !writeOk then slot else Available(Holds(JArr(Encode(msgs))))
  }

  /** Saving well-formed records to working storage and loading them again gives the same list. */
  lemma SavedLoadsBack(slot: Slot, msgs: seq<Message>, stamps: nat -> Stamp)
    requires slot.Available?
    requires forall k :: 0 <= k < |msgs| ==> WellFormed(msgs[k])
    ensures Load(Saved(slot, msgs, true), stamps) == msgs
  {
    LoadSavedList(msgs, stamps);
  }

  /** Whether removeMessagesForParticipant keeps a record: a role that is given and non-empty must also match for it to go. */
  predicate KeptBy(m: Message, name: string, role: Option<string>)
    ensures !KeptBy(m, name, role) ==> m.participantName == name
    ensures role.None? || role == Some("") ==> (KeptBy(m, name, role) <==> m.participantName != name)
  {
    m.participantName != name || (role.Some? && role.value != "" && m.participantRole != JStr(role.value))
  }

  /** The filter of removeMessagesForParticipant. */
  function Retain(msgs: seq<Message>, name: string, role: Option<string>): (r: seq<Message>)
    ensures |r| <= |msgs|
  {
    if |msgs| == 0 then []
    else
      var front := Retain(msgs[..|msgs| - 1], name, role);
      if KeptBy(msgs[|msgs| - 1], name, role) then front + [msgs[|msgs| - 1]] else front
  }

  /** A record is in the filtered list exactly when it was in the list and the filter keeps it. */
  lemma {:induction false} RetainMembers(msgs: seq<Message>, name: string, role: Option<string>)
    ensures forall m :: m in Retain(msgs, name, role) <==> m in msgs && KeptBy(m, name, role)
  {
    if |msgs| > 0 {
      var n := |msgs| - 1;
      RetainMembers(msgs[..n], name, role);
      assert msgs == msgs[..n] + [msgs[n]];
    }
  }

  /** Filtering distributes over concatenation, so kept records stay in their order. */
  lemma {:induction false} RetainSplits(a: seq<Message>, b: seq<Message>, name: string, role: Option<string>)
    ensures Retain(a + b, name, role) == Retain(a, name, role) + Retain(b, name, role)
  {
    if |b| > 0 {
      var n := |b| - 1;
      RetainSplits(a, b[..n], name, role);
      assert (a + b)[..|a + b| - 1] == a + b[..n];
    } else {
      assert a + b == a;
    }
  }

  /** Without a role, no record of that participant is left. */
  lemma RemoveAllOfName(msgs: seq<Message>, name: string)
    ensures forall m :: m in Retain(msgs, name, None) ==> m.participantName != name
  {
    RetainMembers(msgs, name, None);
  }

  /** With a role, the participant's records under any other role stay, as do everyone else's. */
  lemma RemoveSparesOtherRoles(msgs: seq<Message>, name: string, role: string)
    requires role != ""
    ensures forall m :: (m in msgs && (m.participantName != name || m.participantRole != JStr(role))
      ==> m in Retain(msgs, name, Some(role)))
    ensures forall m :: m in Retain(msgs, name, Some(role)) ==> m.participantName != name || m.participantRole != JStr(role)
  {
    RetainMembers(msgs, name, Some(role));
  }

  /** The record appendMessage creates: a issued id and timestamp, the given name and content, and defaults for omitted fields. */
  function NewMessage(d: Draft, issued: Stamp): (m: Message)
    ensures m.participantName == d.participantName && m.content == d.content
    ensures m.participantRole == JStr(if d.participantRole.Some? then d.participantRole.value else "creator")
    ensures m.direction == JStr(if d.direction.Some? then d.direction.value else "sent")
    ensures m.source == JStr(if d.source.Some? then d.source.value else "library")
    ensures m.id == JStr(issued.id) && m.createdAt == JStr(issued.createdAt)
    ensures WellFormed(m) <==> d.participantName != "" && d.content != ""
  {
    Message(
      id := JStr(issued.id),
      participantName := d.participantName,
      participantRole := JStr(match d.participantRole case Some(r) => r case None => "creator"),
      content := d.content,
      direction := JStr(match d.direction case Some(x) => x case None => "sent"),
      createdAt := JStr(issued.createdAt),
      source := JStr(match d.source case Some(s) => s case None => "library"))
  }

  /** A draft with an empty name or content is stored, and then dropped by the next load. */
  lemma EmptyDraftDroppedOnLoad(msgs: seq<Message>, d: Draft, issued: Stamp, stamps: nat -> Stamp)
    requires d.participantName == "" || d.content == ""
    ensures LoadEntries(Encode(msgs + [NewMessage(d, issued)]), stamps) == LoadEntries(Encode(msgs), stamps)
  {
    var m := NewMessage(d, issued);
    assert (msgs + [m])[..|msgs|] == msgs;
    assert Encode(msgs + [m]) == Encode(msgs) + [ToJson(m)];
    assert Normalize(ToJson(m), stamps(|msgs|)) == None by {
      assert !Present(Get(ToJson(m), "participantName")) || !Present(Get(ToJson(m), "content"));
    }
  }

  /** The slot after appendMessage: the loaded list with the new record at the end, saved. */
  function AfterAppend(slot: Slot, m: Message, stamps: nat -> Stamp, writeOk: bool): Slot
  {
    Saved(slot, Load(slot, stamps) + [m], writeOk)
  }

  /** h ends with t. */
  predicate EndsWith(h: seq<Message>, t: seq<Message>)
  {
    |h| >= |t| && h[|h| - |t|..] == t
  }

  /** Adding the same record to both ends keeps (and only keeps) an ending. */
  lemma EndsWithSnoc(h: seq<Message>, t: seq<Message>, x: Message)
    ensures EndsWith(h + [x], t + [x]) <==> EndsWith(h, t)
  {
    if |h| >= |t| {
      var tail := (h + [x])[|h + [x]| - |t + [x]|..];
      assert tail == h[|h| - |t|..] + [x];
      assert tail[..|t|] == h[|h| - |t|..];
    }
  }

  /** Well-formed records at the end of a saved list are still at its end when it is loaded again. */
  lemma {:induction false} SavedTailSurvives(l: seq<Message>, t: seq<Message>, stamps: nat -> Stamp)
    requires EndsWith(l, t)
    requires forall k :: 0 <= k < |t| ==> WellFormed(t[k])
    ensures EndsWith(LoadEntries(Encode(l), stamps), t)
  {
    if |t| > 0 {
      var n := |l| - 1;
      var front, x, u := l[..n], l[n], t[..|t| - 1];
      assert t[|t| - 1] == l[|l| - |t|..][|t| - 1] == x;
      assert l == front + [x] && t == u + [x];
      assert forall k :: 0 <= k < |u| ==> u[k] == t[k];
      EndsWithSnoc(front, u, x);
      SavedTailSurvives(front, u, stamps);
      LoadSavedAppend(front, x, stamps);
      EndsWithSnoc(LoadEntries(Encode(front), stamps), u, x);
    }
  }

  /** An append to working storage puts the record after whatever well-formed tail the history had. */
  lemma AppendExtendsTail(s: Slot, m: Message, t: seq<Message>, before: nat -> Stamp, after: nat -> Stamp)
    requires s.Available? && WellFormed(m)
    requires EndsWith(Load(s, before), t)
    requires forall k :: 0 <= k < |t| ==> WellFormed(t[k])
    ensures EndsWith(Load(AfterAppend(s, m, before, true), after), t + [m])
  {
    var l := Load(s, before);
    assert Load(AfterAppend(s, m, before, true), after) == LoadEntries(Encode(l + [m]), after);
    SavedTailSurvives(l, t, after);
    LoadSavedAppend(l, m, after);
    EndsWithSnoc(LoadEntries(Encode(l), after), t, m);
  }

  /** Two appends in turn leave their records as the last two of the history. */
  lemma TwoAppendsInOrder(s0: Slot, m1: Message, m2: Message, st1: nat -> Stamp, st2: nat -> Stamp, st3: nat -> Stamp)
    requires s0.Available? && WellFormed(m1) && WellFormed(m2)
    ensures EndsWith(Load(AfterAppend(AfterAppend(s0, m1, st1, true), m2, st2, true), st3), [m1, m2])
  {
    AppendExtendsTail(s0, m1, [], st1, st2);
    assert [] + [m1] == [m1];
    AppendExtendsTail(AfterAppend(s0, m1, st1, true), m2, [m1], st2, st3);
    assert [m1] + [m2] == [m1, m2];
  }

  /**
   * Appending three well-formed records in turn to working storage leaves
   * them as the last three records of the history, in that order.
   */
  lemma ThreeAppendsInOrder(
    s0: Slot, m1: Message, m2: Message, m3: Message,
    st1: nat -> Stamp, st2: nat -> Stamp, st3: nat -> Stamp, st4: nat -> Stamp)
    requires s0.Available?
    requires WellFormed(m1) && WellFormed(m2) && WellFormed(m3)
    ensures var s3 := AfterAppend(AfterAppend(AfterAppend(s0, m1, st1, true), m2, st2, true), m3, st3, true);
      var h := Load(s3, st4);
      |h| >= 3 && h[|h| - 3..] == [m1, m2, m3]
  {
    var s2 := AfterAppend(AfterAppend(s0, m1, st1, true), m2, st2, true);
    TwoAppendsInOrder(s0, m1, m2, st1, st2, st3);
    AppendExtendsTail(s2, m3, [m1, m2], st3, st4);
    assert [m1, m2] + [m3] == [m1, m2, m3];
  }

  /** The ids of a list of records. */
  function Ids(msgs: seq<Message>): (r: seq<Json>)
    ensures |r| == |msgs| && forall k :: 0 <= k < |msgs| ==> r[k] == msgs[k].id
  {
    if |msgs| == 0 then [] else Ids(msgs[..|msgs| - 1]) + [msgs[|msgs| - 1].id]
  }

  predicate DistinctIds(msgs: seq<Message>)
  {
    forall i, j :: 0 <= i < j < |msgs| ==> msgs[i].id != msgs[j].id
  }

  /** A record whose id is issued keeps the ids of the history distinct. */
  lemma AppendKeepsIdsDistinct(msgs: seq<Message>, m: Message)
    requires DistinctIds(msgs) && m.id !in Ids(msgs)
    ensures DistinctIds(msgs + [m])
  {
    forall i | 0 <= i < |msgs| ensures msgs[i].id != m.id {
      assert Ids(msgs)[i] == msgs[i].id;
    }
  }

  /** The one storage slot and the operations that read, change and rewrite it. */
  class MessageStore {
    var slot: Slot

    constructor (initial: Slot)
      ensures slot == initial
    {
      slot := initial;
    }

    /** loadMessages; stamps answers the id and timestamp generated for an entry without one. */
    method LoadMessages(stamps: nat -> Stamp) returns (msgs: seq<Message>)
      ensures msgs == Load(slot, stamps)
      ensures |msgs| <= (if slot.Available? && slot.stored.Holds? && slot.stored.value.JArr? then |slot.stored.value.items| else 0)
    {
      msgs := Load(slot, stamps);
    }

    /** saveMessages: overwrites the whole list; a write error (writeOk false) is swallowed and changes nothing. */
    method SaveMessages(msgs: seq<Message>, writeOk: bool)
      modifies this
      ensures slot == Saved(old(slot), msgs, writeOk)
      ensures old(slot).Unavailable? || !writeOk ==> slot == old(slot)
    {
      if slot.Unavailable? {
        return;
      }
      if writeOk {
        slot := Available(Holds(JArr(Encode(msgs))));
      }
    }

    /** removeMessagesForParticipant: load, keep what the filter keeps, save. */
    method RemoveMessagesForParticipant(name: string, role: Option<string>, stamps: nat -> Stamp, writeOk: bool)
      modifies this
      ensures slot == Saved(old(slot), Retain(Load(old(slot), stamps), name, role), writeOk)
    {
      var existing := LoadMessages(stamps);
      var filtered := Retain(existing, name, role);
      SaveMessages(filtered, writeOk);
    }

    /**
     * appendMessage: load, add the new record at the end, save, start the
     * mirror insert without waiting for it, and return the record. issued is
     * what crypto.randomUUID() and the clock answer for the new record; the
     * id it gives is assumed not to be in use.
     */
    method AppendMessage(d: Draft, issued: Stamp, stamps: nat -> Stamp, writeOk: bool) returns (m: Message)
      requires JStr(issued.id) !in Ids(Load(slot, stamps))
      modifies this
      ensures m == NewMessage(d, issued)
      ensures slot == AfterAppend(old(slot), m, stamps, writeOk)
      ensures DistinctIds(Load(old(slot), stamps)) ==> DistinctIds(Load(old(slot), stamps) + [m])
    {
      var existing := LoadMessages(stamps);
      m := NewMessage(d, issued);
      var next := existing + [m];
      SaveMessages(next, writeOk);
      if DistinctIds(existing) {
        AppendKeepsIdsDistinct(existing, m);
      }
    }
  }

  /**
   * One stored entry whose name is an object with its own "toString" makes
   * the whole load come back empty, although a well-formed entry before it
   * loads on its own.
   */
  lemma UnconvertibleNameEmptiesLoad(stamps: nat -> Stamp)
    ensures var good := JObj(map["participantName" := JStr("Ava"), "content" := JStr("hi")]);
      var bad := JObj(map["participantName" := JObj(map["toString" := JNum("1")]), "content" := JStr("x")]);
      |Load(Available(Holds(JArr([good]))), stamps)| == 1 && Load(Available(Holds(JArr([good, bad]))), stamps) == []
  {
    var good := JObj(map["participantName" := JStr("Ava"), "content" := JStr("hi")]);
    var bad := JObj(map["participantName" := JObj(map["toString" := JNum("1")]), "content" := JStr("x")]);
    assert EntryThrows([good, bad][1]);
    assert [good][..0] == [];
  }

  /** An entry whose participantName is an empty array passes the truthiness test and is kept with the empty string as its name. */
  lemma EmptyArrayNameKept(issued: Stamp)
    ensures var e := JObj(map["participantName" := JArr([]), "content" := JStr("hi")]);
      Normalize(e, issued).Some? && Normalize(e, issued).value.participantName == ""
  {
    var e := JObj(map["participantName" := JArr([]), "content" := JStr("hi")]);
    assert ToStr(JArr([])) == "";
  }
}
