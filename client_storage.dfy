/**
 * The browser's saved conversation list. `localStorage` is an object with
 * two slots: the serialized session list (absent, unreadable, or a list)
 * and the active session id. Finding, replacing and filtering entries are
 * functions over the list; the operations that write the slots are methods.
 */
module ClientStorage {
  import opened Wrappers

  /** The roles a message in the browser can have. */
  datatype MessageRole = User | Assistant

  /** A message as the browser keeps it. */
  datatype Message = Message(role: MessageRole, content: string, timestamp: Option<string>)

  /** A saved conversation; the dates are kept as the ISO strings stored. */
  datatype StoredSession = StoredSession(id: string, name: string, messages: seq<Message>, createdAt: string, updatedAt: string)

  /** The sessions slot: nothing (or the empty string) stored, text that does not parse, or a parsed list. */
  datatype Slot = Absent | Unreadable | Holds(list: seq<StoredSession>)

  /** An entry of the session sidebar. */
  datatype SessionListItem = SessionListItem(id: string, name: string, lastMessage: string, updatedAt: string, messageCount: int)

  /** `getSessions` on a slot: the stored list, or the empty list when there is none or it cannot be parsed. */
  function Decoded(slot: Slot): (list: seq<StoredSession>)
    ensures slot.Holds? ==> list == slot.list
    ensures !slot.Holds? ==> list == []
  {
    if slot.Holds? then slot.list else []
  }

  /** No two entries share an id. */
  predicate UniqueIds(list: seq<StoredSession>) {
    forall i, j :: 0 <= i < j < |list| ==> list[i].id != list[j].id
  }

  /** `list.find(s => s.id === id)`: the first entry with that id. */
  function FindById(list: seq<StoredSession>, id: string): (found: Option<StoredSession>)
    ensures found.None? <==> forall i :: 0 <= i < |list| ==> list[i].id != id
    ensures found.Some? ==>
              && found.value.id == id
              && exists i :: 0 <= i < |list| && list[i] == found.value && forall j :: 0 <= j < i ==> list[j].id != id
  {
    if list == [] then None
    else if list[0].id == id then Some(list[0])
    else
      var rest := FindById(list[1..], id);
      if rest.Some? then
        var i :| 0 <= i < |list[1..]| && list[1..][i] == rest.value && forall j :: 0 <= j < i ==> list[1..][j].id != id;
        assert list[i + 1] == rest.value;
        rest
      else rest
  }

  /** `saveSession` on a list: the first entry with the same id replaced in place, else the session appended. */
  function Upsert(list: seq<StoredSession>, s: StoredSession): (r: seq<StoredSession>)
    ensures |r| == |list| || |r| == |list| + 1
  {
    if list == [] then [s]
    else if list[0].id == s.id then [s] + list[1..]
    else [list[0]] + Upsert(list[1..], s)
  }

  /** `list.filter(s => s.id !== id)`. */
  function RemoveId(list: seq<StoredSession>, id: string): (r: seq<StoredSession>)
    ensures |r| <= |list|
  {
    if list == [] then []
    else (if list[0].id == id then [] else [list[0]]) + RemoveId(list[1..], id)
  }

  /** The position of the first entry with that id, or -1 (the value `findIndex` computes). */
  function FirstIndex(list: seq<StoredSession>, id: string): (index: int)
    ensures -1 <= index < |list|
    ensures index == -1 <==> forall i :: 0 <= i < |list| ==> list[i].id != id
    ensures index >= 0 ==> list[index].id == id && forall j :: 0 <= j < index ==> list[j].id != id
  {
    if list == [] then -1
    else if list[0].id == id then 0
    else
      var rest := FirstIndex(list[1..], id);
      if rest == -1 then -1 else rest + 1
  }

  /** `findIndex`: the position of the first entry with that id, or -1. */
  method FindIndex(list: seq<StoredSession>, id: string) returns (index: int)
    ensures index == FirstIndex(list, id)
  {
    var i := 0;
    while i < |list|
      invariant 0 <= i <= |list|
      invariant forall j :: 0 <= j < i ==> list[j].id != id
    {
      if list[i].id == id {
        return i;
      }
      i := i + 1;
    }
    return -1;
  }

  /** Saving a session whose id is not in the list appends it at the end. */
  lemma {:induction false} UpsertAppends(list: seq<StoredSession>, s: StoredSession)
    requires forall i :: 0 <= i < |list| ==> list[i].id != s.id
    ensures Upsert(list, s) == list + [s]
  {
    if list != [] {
      assert forall i :: 0 <= i < |list[1..]| ==> list[1..][i].id != s.id by {
        forall i | 0 <= i < |list[1..]| ensures list[1..][i].id != s.id {
          assert list[1..][i] == list[i + 1];
        }
      }
      UpsertAppends(list[1..], s);
      assert list + [s] == [list[0]] + (list[1..] + [s]);
    }
  }

  /** Saving a session whose id first occurs at `k` replaces entry `k` and nothing else. */
  lemma {:induction false} UpsertReplaces(list: seq<StoredSession>, s: StoredSession, k: int)
    requires 0 <= k < |list| && list[k].id == s.id
    requires forall j :: 0 <= j < k ==> list[j].id != s.id
    ensures Upsert(list, s) == list[k := s]
  {
    if k > 0 {
      assert list[0].id != s.id;
      assert forall j :: 0 <= j < k - 1 ==> list[1..][j].id != s.id by {
        forall j | 0 <= j < k - 1 ensures list[1..][j].id != s.id {
          assert list[1..][j] == list[j + 1];
        }
      }
      UpsertReplaces(list[1..], s, k - 1);
      assert list[k := s] == [list[0]] + list[1..][k - 1 := s];
    }
  }

  /** After saving a session, looking its id up gives exactly that session. */
  lemma {:induction false} GetAfterSave(list: seq<StoredSession>, s: StoredSession)
    ensures FindById(Upsert(list, s), s.id) == Some(s)
  {
    if list != [] && list[0].id != s.id {
      GetAfterSave(list[1..], s);
      assert Upsert(list, s)[1..] == Upsert(list[1..], s);
    }
  }

  /** Saving never changes what another id looks up to. */
  lemma {:induction false} SaveLeavesOthers(list: seq<StoredSession>, s: StoredSession, id: string)
    requires id != s.id
    ensures FindById(Upsert(list, s), id) == FindById(list, id)
  {
    if list != [] && list[0].id != s.id {
      SaveLeavesOthers(list[1..], s, id);
      assert Upsert(list, s)[1..] == Upsert(list[1..], s);
    }
  }

  /** Saving keeps ids unique in a list whose ids were unique. */
  lemma {:induction false} SaveKeepsIdsUnique(list: seq<StoredSession>, s: StoredSession)
    requires UniqueIds(list)
    ensures UniqueIds(Upsert(list, s))
  {
    var index := FirstIndex(list, s.id);
    if index < 0 {
      UpsertAppends(list, s);
    } else {
      UpsertReplaces(list, s, index);
    }
  }

  /** Saving the same session twice gives the same list as saving it once. */
  lemma {:induction false} SaveIdempotent(list: seq<StoredSession>, s: StoredSession)
    ensures Upsert(Upsert(list, s), s) == Upsert(list, s)
  {
    if list != [] && list[0].id != s.id {
      SaveIdempotent(list[1..], s);
      assert Upsert(list, s)[0] == list[0];
      assert Upsert(list, s)[1..] == Upsert(list[1..], s);
    }
  }

  /** After deleting an id no entry has it, and every other entry is kept (for the order, see `DeleteKeepsOrder`). */
  lemma {:induction false} DeleteRemovesAll(list: seq<StoredSession>, id: string)
    ensures forall i :: 0 <= i < |RemoveId(list, id)| ==> RemoveId(list, id)[i].id != id
    ensures FindById(RemoveId(list, id), id).None?
    ensures forall x :: x in list && x.id != id ==> x in RemoveId(list, id)
    ensures forall x :: x in RemoveId(list, id) ==> x in list
  {
    if list != [] {
      DeleteRemovesAll(list[1..], id);
      var head := if list[0].id == id then [] else [list[0]];
      assert RemoveId(list, id) == head + RemoveId(list[1..], id);
      forall x | x in list && x.id != id ensures x in RemoveId(list, id) {
        if x != list[0] {
          assert x in list[1..];
        }
      }
    }
  }

  /** Deleting an id that is not stored leaves the list as it was. */
  lemma {:induction false} DeleteUnknownKeeps(list: seq<StoredSession>, id: string)
    requires forall i :: 0 <= i < |list| ==> list[i].id != id
    ensures RemoveId(list, id) == list
  {
    if list != [] {
      assert forall i :: 0 <= i < |list[1..]| ==> list[1..][i].id != id by {
        forall i | 0 <= i < |list[1..]| ensures list[1..][i].id != id {
          assert list[1..][i] == list[i + 1];
        }
      }
      DeleteUnknownKeeps(list[1..], id);
      assert list == [list[0]] + list[1..];
    }
  }

  /** In a list with unique ids, deleting the id stored at `k` removes entry `k` and keeps the rest in order. */
  lemma {:induction false} DeleteKeepsOrder(list: seq<StoredSession>, id: string, k: int)
    requires UniqueIds(list) && 0 <= k < |list| && list[k].id == id
    ensures RemoveId(list, id) == list[..k] + list[k + 1..]
  {
    var tail := list[1..];
    assert UniqueIds(tail) by {
      forall i, j | 0 <= i < j < |tail| ensures tail[i].id != tail[j].id {
        assert tail[i] == list[i + 1] && tail[j] == list[j + 1];
      }
    }
    if k == 0 {
      assert forall i :: 0 <= i < |tail| ==> tail[i].id != id by {
        forall i | 0 <= i < |tail| ensures tail[i].id != id {
          assert tail[i] == list[i + 1];
        }
      }
      DeleteUnknownKeeps(tail, id);
    } else {
      DeleteKeepsOrder(tail, id, k - 1);
      assert list[..k] + list[k + 1..] == [list[0]] + (tail[..k - 1] + tail[k..]);
    }
  }

  const NameLength: nat := 30
  const PreviewLength: nat := 50
  const Ellipsis: string := "..."

  /** `generateSessionName`: at most thirty characters kept, with an ellipsis when cut. */
  function SessionName(firstMessage: string): (name: string)
    ensures |name| <= NameLength + |Ellipsis|
    ensures |firstMessage| <= NameLength ==> name == firstMessage
    ensures |firstMessage| > NameLength ==>
              |name| == NameLength + |Ellipsis| && name[..NameLength] == firstMessage[..NameLength] && name[NameLength..] == Ellipsis
  {
    if |firstMessage| <= NameLength then firstMessage else firstMessage[..NameLength] + Ellipsis
  }

  /** A preview: at most fifty characters, with an ellipsis exactly when the content is longer. */
  function Preview(content: string): (preview: string)
    ensures |content| <= PreviewLength ==> preview == content
    ensures |content| > PreviewLength ==>
              |preview| == PreviewLength + |Ellipsis| && preview[..PreviewLength] == content[..PreviewLength] && preview[PreviewLength..] == Ellipsis
    ensures |content| > PreviewLength <==> |preview| > PreviewLength
  {
    content[..if |content| < PreviewLength then |content| else PreviewLength] +
    (if |content| > PreviewLength then Ellipsis else "")
  }

  /**
   * `toSessionListItem`: the count of messages and the last message's
   * preview; with no messages the preview is the text `undefined`.
   */
  function ToSessionListItem(stored: StoredSession): (item: SessionListItem)
    ensures item.id == stored.id && item.name == stored.name && item.updatedAt == stored.updatedAt
    ensures item.messageCount == |stored.messages|
    ensures stored.messages == [] ==> item.lastMessage == "undefined"
    ensures stored.messages != [] ==> item.lastMessage == Preview(stored.messages[|stored.messages| - 1].content)
  {
    var lastMessage := if |stored.messages| > 0 then Some(stored.messages[|stored.messages| - 1].content) else None;
    SessionListItem(stored.id, stored.name,
      if lastMessage.Some? then Preview(lastMessage.value) else "undefined",
      stored.updatedAt, |stored.messages|)
  }

  /** The browser's `localStorage`, reduced to the two keys the application uses. */
  class LocalStorage {
    /** The value under `apology_sessions`. */
    var sessions: Slot
    /** The value under `apology_active_session`. */
    var activeId: Option<string>

    constructor(sessions: Slot, activeId: Option<string>)
      ensures this.sessions == sessions && this.activeId == activeId
    {
      this.sessions := sessions;
      this.activeId := activeId;
    }

    /** `getSessions`. */
    method GetSessions() returns (list: seq<StoredSession>)
      ensures sessions.Holds? ==> list == sessions.list
      ensures !sessions.Holds? ==> list == []
    {
      if sessions.Holds? {
        list := sessions.list;
      } else {
        list := [];
      }
    }

    /** `saveSessions`: the list is written back. */
    method SaveSessions(list: seq<StoredSession>)
      modifies this
      ensures sessions == Holds(list) && activeId == old(activeId)
    {
      sessions := Holds(list);
    }

    /** `getSession`: the first stored session with that id, or none. */
    method GetSession(id: string) returns (found: Option<StoredSession>)
      ensures found == FindById(Decoded(sessions), id)
      ensures found.Some? ==> found.value.id == id && found.value in Decoded(sessions)
    {
      var list := GetSessions();
      found := FindById(list, id);
    }

    /** `saveSession`: the first entry with the session's id is replaced in place, otherwise the session is appended. */
    method SaveSession(s: StoredSession)
      modifies this
      ensures sessions == Holds(Upsert(Decoded(old(sessions)), s)) && activeId == old(activeId)
    {
      var list := GetSessions();
      var index := FindIndex(list, s.id);
      if index >= 0 {
        UpsertReplaces(list, s, index);
        list := list[index := s];
      } else {
        UpsertAppends(list, s);
        list := list + [s];
      }
      SaveSessions(list);
    }

    /** `deleteSession`: every entry with that id is filtered out and the rest written back. */
    method DeleteSession(id: string)
      modifies this
      ensures sessions == Holds(RemoveId(Decoded(old(sessions)), id)) && activeId == old(activeId)
    {
      var list := GetSessions();
      SaveSessions(RemoveId(list, id));
    }

    /** `getActiveSessionId`. */
    method GetActiveSessionId() returns (id: Option<string>)
      ensures id == activeId
    {
      id := activeId;
    }

    /** `setActiveSessionId`. */
    method SetActiveSessionId(id: string)
      modifies this
      ensures activeId == Some(id) && sessions == old(sessions)
    {
      activeId := Some(id);
    }

    /** `clearActiveSessionId`. */
    method ClearActiveSessionId()
      modifies this
      ensures activeId == None && sessions == old(sessions)
    {
      activeId := None;
    }
  }
}
