/**
 * The in-memory session service as an object: a map updated in place, with
 * its insertion order kept beside it. Every method is proved against the
 * functions of `SessionModel`, whose properties are proved there.
 */
module SessionStore {
  import opened Wrappers
  import opened ChatTypes
  import opened IdSeqs
  import opened SessionModel

  class SessionService {
    /** The keys of the `Map`, in the order it iterates them. */
    var order: seq<string>
    /** The `Map` itself. */
    var sessions: map<string, Session>

    /** The object's state as a store value. */
    function State(): Store
      reads this
    {
      Store(order, sessions)
    }

    /** The invariant every public method keeps: well formed and within capacity. */
    ghost predicate Valid()
      reads this
    {
      SessionModel.Valid(State())
    }

    constructor()
      ensures State() == EmptyStore && Valid()
    {
      order := [];
      sessions := map[];
    }

    /** `getOrCreateSession`: a new session is inserted and cleanup runs; the session is returned in both cases. */
    method GetOrCreateSession(id: string, now: int) returns (s: Session)
      requires Valid()
      modifies this
      ensures State() == AfterGetOrCreate(old(State()), id, now) && Valid()
      ensures s == SessionFor(old(State()), id, now)
    {
      if id in sessions {
        s := sessions[id];
      } else {
        ghost var st := State();
        s := NewSession(id, now);
        order := order + [id];
        sessions := sessions[id := s];
        InsertWellFormed(st, id, now);
        CleanupOldSessions(now);
        OperationsKeepValid(st, id, ChatMessage(User, ""), now);
      }
    }

    /** `addMessage`: appends to the session's transcript and stamps it; the returned session carries the message even if cleanup evicted it. */
    method AddMessage(id: string, m: ChatMessage, now: int) returns (s: Session)
      requires Valid()
      modifies this
      ensures State() == AfterAddMessage(old(State()), id, m, now) && Valid()
      ensures s.id == id && s.messages == MessagesOf(old(State()), id) + [m] && s.updatedAt == now
    {
      ghost var st := State();
      s := GetOrCreateSession(id, now);
      s := s.(messages := s.messages + [m], updatedAt := now);
      if id in sessions {
        sessions := sessions[id := s];
      }
      OperationsKeepValid(st, id, m, now);
    }

    /** `getMessages`: the transcript of a stored session, or the empty list. */
    method GetMessages(id: string) returns (ms: seq<ChatMessage>)
      ensures id in sessions ==> ms == sessions[id].messages
      ensures id !in sessions ==> ms == []
    {
      if id in sessions {
        ms := sessions[id].messages;
      } else {
        ms := [];
      }
    }

    /** `clearSession`. */
    method ClearSession(id: string, now: int)
      requires Valid()
      modifies this
      ensures State() == AfterClear(old(State()), id, now) && Valid()
    {
      if id in sessions {
        sessions := sessions[id := sessions[id].(messages := [], updatedAt := now)];
      }
    }

    /** `deleteSession`: reports whether the id was stored. */
    method DeleteSession(id: string) returns (existed: bool)
      requires Valid()
      modifies this
      ensures existed <==> id in old(sessions)
      ensures State() == AfterDelete(old(State()), id) && Valid()
    {
      existed := id in sessions;
      order := Without(order, {id});
      sessions := sessions - {id};
      RemoveAllWellFormed(old(State()), {id});
    }

    /** `getAllSessionIds`: every stored id once, in insertion order. */
    method GetAllSessionIds() returns (ids: seq<string>)
      requires Valid()
      ensures ids == order && Distinct(ids)
      ensures forall x :: x in ids <==> x in sessions
    {
      ids := order;
    }

    /** `getSessionCount`: the number of stored sessions, which never exceeds the capacity. */
    method GetSessionCount() returns (n: nat)
      requires Valid()
      ensures n == |sessions| && n == |order| && n <= MaxSessions
    {
      SizeIsOrderLength(State());
      n := |sessions|;
    }

    /** `getSessionInfo`. */
    method GetSessionInfo(id: string) returns (s: Option<Session>)
      requires Valid()
      ensures s.Some? <==> id in sessions
      ensures s.Some? ==> s.value == sessions[id] && s.value.id == id
    {
      if id in sessions {
        s := Some(sessions[id]);
      } else {
        s := None;
      }
    }

    /** `cleanupOldSessions`: at or below capacity nothing happens; otherwise expired sessions go, then the oldest. */
    method CleanupOldSessions(now: int)
      requires WellFormed(State())
      modifies this
      ensures State() == CleanedUp(old(State()), now)
    {
      SizeIsOrderLength(State());
      if |sessions| <= MaxSessions {
        return;
      }
      DeleteExpired(now);
      SizeIsOrderLength(State());
      if |sessions| > MaxSessions {
        DeleteOldest();
      }
    }

    /** Phase one of the cleanup: every session idle for longer than the time to live is deleted. */
    method DeleteExpired(now: int)
      requires WellFormed(State())
      modifies this
      ensures State() == DropExpired(old(State()), now) && WellFormed(State())
    {
      var expired := ExpiredSessionIds(now);
      DeleteAll(expired);
      RemoveAllWellFormed(old(State()), Elements(expired));
    }

    /** Phase two of the cleanup: the entries sorted oldest first, and the first `size - MaxSessions` deleted. */
    method DeleteOldest()
      requires WellFormed(State()) && |order| >= MaxSessions
      modifies this
      ensures State() == DropOldest(old(State()))
    {
      SizeIsOrderLength(State());
      var byAge := OldestFirst(order, sessions);
      var victims := byAge[..|sessions| - MaxSessions];
      assert Elements(victims) == OldestVictims(State());
      DeleteAll(victims);
    }

    /** The ids of the sessions idle for longer than the time to live, in iteration order. */
    method ExpiredSessionIds(now: int) returns (expired: seq<string>)
      requires WellFormed(State())
      ensures expired == ExpiredIds(order, sessions, now)
      ensures forall x :: x in expired <==> x in sessions && now - sessions[x].updatedAt > SessionTtl
    {
      expired := [];
      var i := 0;
      while i < |order|
        invariant 0 <= i <= |order|
        invariant expired == ExpiredIds(order[..i], sessions, now)
      {
        var id := order[i];
        assert order[..i + 1][..i] == order[..i];
        if now - sessions[id].updatedAt > SessionTtl {
          expired := expired + [id];
        }
        i := i + 1;
      }
      assert order[..i] == order;
    }

    /** Deletes every id of `ids` from the map. */
    method DeleteAll(ids: seq<string>)
      modifies this
      ensures State() == RemoveAll(old(State()), Elements(ids))
    {
      var j := 0;
      assert Elements(ids[..0]) == {};
      WithoutNothing(order, {});
      assert sessions - {} == sessions;
      while j < |ids|
        invariant 0 <= j <= |ids|
        invariant State() == RemoveAll(old(State()), Elements(ids[..j]))
      {
        RemoveAllTwice(old(State()), Elements(ids[..j]), {ids[j]});
        assert Elements(ids[..j + 1]) == Elements(ids[..j]) + {ids[j]} by {
          assert ids[..j + 1] == ids[..j] + [ids[j]];
        }
        order := Without(order, {ids[j]});
        sessions := sessions - {ids[j]};
        j := j + 1;
      }
      assert ids[..j] == ids;
    }
  }
}
