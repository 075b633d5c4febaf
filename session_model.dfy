/**
 * The session store as a value: the ids in the order the map received them
 * (a JavaScript `Map` iterates in insertion order) and the map itself, with
 * every operation as a function from the old store to the new one, and the
 * two-phase eviction (time to live, then least recently updated).
 */
module SessionModel {
  import opened Wrappers
  import opened ChatTypes
  import opened IdSeqs

  /** The capacity above which an insert triggers eviction. */
  const MaxSessions: nat := 100

  /** Time to live of an idle session: 24 hours, in milliseconds. */
  const SessionTtl: int := 24 * 60 * 60 * 1000

  /** A conversation: its id, its transcript and two millisecond timestamps. */
  datatype Session = Session(id: string, messages: seq<ChatMessage>, createdAt: int, updatedAt: int)

  /** The store: ids in insertion order, and the sessions by id. */
  datatype Store = Store(order: seq<string>, sessions: map<string, Session>)

  const EmptyStore: Store := Store([], map[])

  /** The order lists each stored id exactly once, and each session is stored under its own id. */
  predicate WellFormed(st: Store) {
    && Distinct(st.order)
    && (forall id :: id in st.sessions ==> id in st.order)
    && (forall id :: id in st.order ==> id in st.sessions)
    && (forall id :: id in st.sessions ==> st.sessions[id].id == id)
  }

  /** A well-formed store within capacity. */
  predicate Valid(st: Store) {
    WellFormed(st) && |st.order| <= MaxSessions
  }

  /** No session was updated after `now` (the clock never ran backwards). */
  predicate NoFutureUpdates(st: Store, now: int) {
    forall id :: id in st.sessions ==> st.sessions[id].updatedAt <= now
  }

  /** The map's size is the length of the order. */
  lemma {:induction false} SizeIsOrderLength(st: Store)
    requires WellFormed(st)
    ensures |st.sessions| == |st.order|
  {
    DistinctCard(st.order);
    assert st.sessions.Keys == Elements(st.order);
  }

  /** `sessions.get(id)`. */
  function Lookup(st: Store, id: string): Option<Session> {
    if id in st.sessions then Some(st.sessions[id]) else None
  }

  /** `getMessages(id)`: the transcript, or the empty list for an unknown id. */
  function MessagesOf(st: Store, id: string): seq<ChatMessage> {
    if id in st.sessions then st.sessions[id].messages else []
  }

  /** A session as `getOrCreateSession` builds it: no messages, both timestamps `now`. */
  function NewSession(id: string, now: int): Session {
    Session(id, [], now, now)
  }

  /** The session `getOrCreateSession` returns: the stored one, or a new one. */
  function SessionFor(st: Store, id: string, now: int): Session {
    if id in st.sessions then st.sessions[id] else NewSession(id, now)
  }

  // ---------------------------------------------------------------- eviction

  /** The time of the last update, for ids that are stored. */
  function UpdatedAt(sessions: map<string, Session>, id: string): int {
    if id in sessions then sessions[id].updatedAt else 0
  }

  /** Idle for strictly longer than the time to live. */
  predicate IsExpired(sessions: map<string, Session>, id: string, now: int) {
    id in sessions && now - sessions[id].updatedAt > SessionTtl
  }

  /** The expired ids among `ids`, in the order of `ids`. */
  function ExpiredIds(ids: seq<string>, sessions: map<string, Session>, now: int): (r: seq<string>)
    ensures forall x :: x in r <==> x in ids && IsExpired(sessions, x, now)
  {
    if ids == [] then []
    else
      var last := ids[|ids| - 1];
      ExpiredIds(ids[..|ids| - 1], sessions, now) + (if IsExpired(sessions, last, now) then [last] else [])
  }

  /** Deleting a set of ids from the map. */
  function RemoveAll(st: Store, d: set<string>): Store {
    Store(Without(st.order, d), st.sessions - d)
  }

  lemma RemoveAllWellFormed(st: Store, d: set<string>)
    requires WellFormed(st)
    ensures WellFormed(RemoveAll(st, d))
  {
    WithoutDistinct(st.order, d);
  }

  /** Deleting one set of ids and then another is deleting both. */
  lemma RemoveAllTwice(st: Store, d: set<string>, e: set<string>)
    ensures RemoveAll(RemoveAll(st, d), e) == RemoveAll(st, d + e)
  {
    WithoutWithout(st.order, d, e);
    assert (st.sessions - d) - e == st.sessions - (d + e);
  }

  /** Phase one: every expired session is deleted. */
  function DropExpired(st: Store, now: int): Store {
    RemoveAll(st, Elements(ExpiredIds(st.order, st.sessions, now)))
  }

  /** `ids` ordered by last update, oldest first. */
  predicate OldestFirstOrder(ids: seq<string>, sessions: map<string, Session>) {
    forall i, j :: 0 <= i < j < |ids| ==> UpdatedAt(sessions, ids[i]) <= UpdatedAt(sessions, ids[j])
  }

  /** Places `id` before the first element updated no earlier than it. */
  function InsertByAge(id: string, sorted: seq<string>, sessions: map<string, Session>): (r: seq<string>)
    ensures multiset(r) == multiset(sorted) + multiset{id}
    ensures |r| == |sorted| + 1
  {
    if sorted == [] || UpdatedAt(sessions, id) <= UpdatedAt(sessions, sorted[0]) then [id] + sorted
    else
      assert sorted == [sorted[0]] + sorted[1..];
      [sorted[0]] + InsertByAge(id, sorted[1..], sessions)
  }

  /**
   * The ids sorted by last update, oldest first; ids updated at the same
   * time keep their relative order, as the stable `Array.prototype.sort` does.
   */
  function OldestFirst(ids: seq<string>, sessions: map<string, Session>): (r: seq<string>)
    ensures multiset(r) == multiset(ids)
    ensures |r| == |ids|
  {
    if ids == [] then []
    else
      assert ids == [ids[0]] + ids[1..];
      InsertByAge(ids[0], OldestFirst(ids[1..], sessions), sessions)
  }

  lemma {:induction false} InsertByAgeSorted(id: string, sorted: seq<string>, sessions: map<string, Session>)
    requires OldestFirstOrder(sorted, sessions)
    ensures OldestFirstOrder(InsertByAge(id, sorted, sessions), sessions)
  {
    if sorted != [] && UpdatedAt(sessions, id) > UpdatedAt(sessions, sorted[0]) {
      var tail := sorted[1..];
      InsertByAgeSorted(id, tail, sessions);
      var rest := InsertByAge(id, tail, sessions);
      forall k | 0 <= k < |rest| ensures UpdatedAt(sessions, sorted[0]) <= UpdatedAt(sessions, rest[k]) {
        assert rest[k] in multiset(rest);
        if rest[k] != id {
          assert rest[k] in multiset(tail);
          var m :| 0 <= m < |tail| && tail[m] == rest[k];
          assert sorted[m + 1] == rest[k];
        }
      }
    }
  }

  lemma {:induction false} InsertByAgeDistinct(id: string, sorted: seq<string>, sessions: map<string, Session>)
    requires Distinct(sorted) && id !in sorted
    ensures Distinct(InsertByAge(id, sorted, sessions))
  {
    if sorted != [] && UpdatedAt(sessions, id) > UpdatedAt(sessions, sorted[0]) {
      var tail := sorted[1..];
      InsertByAgeDistinct(id, tail, sessions);
      var rest := InsertByAge(id, tail, sessions);
      assert sorted[0] !in tail;
      assert sorted[0] !in multiset(rest);
    }
  }

  lemma {:induction false} OldestFirstSorted(ids: seq<string>, sessions: map<string, Session>)
    ensures OldestFirstOrder(OldestFirst(ids, sessions), sessions)
  {
    if ids != [] {
      OldestFirstSorted(ids[1..], sessions);
      InsertByAgeSorted(ids[0], OldestFirst(ids[1..], sessions), sessions);
    }
  }

  lemma {:induction false} OldestFirstDistinct(ids: seq<string>, sessions: map<string, Session>)
    requires Distinct(ids)
    ensures Distinct(OldestFirst(ids, sessions))
  {
    if ids != [] {
      OldestFirstDistinct(ids[1..], sessions);
      var rest := OldestFirst(ids[1..], sessions);
      assert ids[0] !in ids[1..];
      assert ids[0] !in multiset(rest);
      InsertByAgeDistinct(ids[0], rest, sessions);
    }
  }

  /** An element inserted no later than the last element leaves the last element last. */
  lemma {:induction false} InsertByAgeKeepsLast(id: string, sorted: seq<string>, sessions: map<string, Session>)
    requires sorted != []
    requires UpdatedAt(sessions, id) <= UpdatedAt(sessions, sorted[|sorted| - 1])
    ensures InsertByAge(id, sorted, sessions)[|sorted|] == sorted[|sorted| - 1]
  {
    if UpdatedAt(sessions, id) > UpdatedAt(sessions, sorted[0]) {
      InsertByAgeKeepsLast(id, sorted[1..], sessions);
    }
  }

  /** The last id, if updated no earlier than any other, stays last after sorting. */
  lemma {:induction false} OldestFirstKeepsNewestLast(ids: seq<string>, sessions: map<string, Session>)
    requires ids != []
    requires forall i :: 0 <= i < |ids| ==> UpdatedAt(sessions, ids[i]) <= UpdatedAt(sessions, ids[|ids| - 1])
    ensures OldestFirst(ids, sessions)[|ids| - 1] == ids[|ids| - 1]
  {
    if |ids| > 1 {
      var tail := ids[1..];
      assert forall i :: 0 <= i < |tail| ==> tail[i] == ids[i + 1];
      OldestFirstKeepsNewestLast(tail, sessions);
      InsertByAgeKeepsLast(ids[0], OldestFirst(tail, sessions), sessions);
    }
  }

  /** Phase two: the `size - MaxSessions` sessions that come first when sorted oldest first. */
  function OldestVictims(st: Store): set<string>
    requires |st.order| >= MaxSessions
  {
    Elements(OldestFirst(st.order, st.sessions)[..|st.order| - MaxSessions])
  }

  /** Phase two: the oldest sessions are deleted until the size is back to the capacity. */
  function DropOldest(st: Store): Store
    requires |st.order| >= MaxSessions
  {
    RemoveAll(st, OldestVictims(st))
  }

  /** `cleanupOldSessions`: nothing at or below capacity; else phase one, then phase two if still over. */
  function CleanedUp(st: Store, now: int): Store {
    if |st.order| <= MaxSessions then st
    else
      var afterTtl := DropExpired(st, now);
      if |afterTtl.order| <= MaxSessions then afterTtl else DropOldest(afterTtl)
  }

  /** The victims of phase two are stored ids, as many as the size exceeds the capacity. */
  lemma OldestVictimsCount(st: Store)
    requires Distinct(st.order) && |st.order| >= MaxSessions
    ensures |OldestVictims(st)| == |st.order| - MaxSessions
    ensures OldestVictims(st) <= Elements(st.order)
  {
    var sorted := OldestFirst(st.order, st.sessions);
    var k := |st.order| - MaxSessions;
    OldestFirstDistinct(st.order, st.sessions);
    var victims := sorted[..k];
    assert Distinct(victims) by {
      forall i, j | 0 <= i < j < |victims| ensures victims[i] != victims[j] {
        assert victims[i] == sorted[i] && victims[j] == sorted[j];
      }
    }
    DistinctCard(victims);
    forall x | x in victims ensures x in Elements(st.order) {
      assert x in multiset(sorted);
    }
  }

  /** Phase two deletes exactly enough sessions to bring the size down to the capacity. */
  lemma DropOldestSize(st: Store)
    requires WellFormed(st) && |st.order| >= MaxSessions
    ensures |DropOldest(st).order| == MaxSessions
  {
    var victims := OldestVictims(st);
    OldestVictimsCount(st);
    assert victims * Elements(st.order) == victims;
    WithoutCard(st.order, victims);
  }

  /** Every session phase two deletes was updated no later than every session it keeps. */
  lemma DropOldestTakesOldest(st: Store, x: string, y: string)
    requires WellFormed(st) && |st.order| >= MaxSessions
    requires x in st.order && x !in DropOldest(st).order && y in DropOldest(st).order
    ensures UpdatedAt(st.sessions, x) <= UpdatedAt(st.sessions, y)
  {
    var sorted := OldestFirst(st.order, st.sessions);
    var k := |st.order| - MaxSessions;
    OldestFirstSorted(st.order, st.sessions);
    assert x in sorted[..k];
    var i :| 0 <= i < k && sorted[..k][i] == x;
    assert y in multiset(sorted);
    var j :| 0 <= j < |sorted| && sorted[j] == y;
    assert k <= j;
  }

  /** Phase one keeps exactly the sessions idle for at most the time to live, in their order. */
  lemma DropExpiredKeeps(st: Store, now: int)
    requires WellFormed(st)
    ensures WellFormed(DropExpired(st, now))
    ensures forall x :: x in DropExpired(st, now).order <==>
              x in st.order && now - st.sessions[x].updatedAt <= SessionTtl
    ensures forall x :: x in DropExpired(st, now).sessions ==> DropExpired(st, now).sessions[x] == st.sessions[x]
  {
    RemoveAllWellFormed(st, Elements(ExpiredIds(st.order, st.sessions, now)));
  }

  /** Cleanup keeps the store well formed and, when it runs, leaves at most the capacity: all the live sessions if they fit. */
  lemma CleanupBounds(st: Store, now: int)
    requires WellFormed(st)
    ensures WellFormed(CleanedUp(st, now))
    ensures |st.order| > MaxSessions ==>
              |CleanedUp(st, now).order| ==
              if |DropExpired(st, now).order| > MaxSessions then MaxSessions else |DropExpired(st, now).order|
  {
    if |st.order| > MaxSessions {
      var afterTtl := DropExpired(st, now);
      DropExpiredKeeps(st, now);
      if |afterTtl.order| > MaxSessions {
        DropOldestSize(afterTtl);
        RemoveAllWellFormed(afterTtl, OldestVictims(afterTtl));
      }
    }
  }

  /** Cleanup only deletes: the result is the store with some set of ids removed, the rest in their order. */
  lemma CleanupOnlyDeletes(st: Store, now: int)
    ensures exists d :: CleanedUp(st, now) == RemoveAll(st, d)
  {
    if |st.order| <= MaxSessions {
      WithoutNothing(st.order, {});
      assert st.sessions - {} == st.sessions;
      assert CleanedUp(st, now) == RemoveAll(st, {});
    } else {
      var e := Elements(ExpiredIds(st.order, st.sessions, now));
      var afterTtl := DropExpired(st, now);
      if |afterTtl.order| > MaxSessions {
        RemoveAllTwice(st, e, OldestVictims(afterTtl));
        assert CleanedUp(st, now) == RemoveAll(st, e + OldestVictims(afterTtl));
      } else {
        assert CleanedUp(st, now) == RemoveAll(st, e);
      }
    }
  }

  /** When cleanup runs, no expired session survives it; a session idle for exactly the time to live is not expired. */
  lemma CleanupDropsExpired(st: Store, now: int)
    requires WellFormed(st) && |st.order| > MaxSessions
    ensures forall x :: x in CleanedUp(st, now).order ==> x in st.order && now - st.sessions[x].updatedAt <= SessionTtl
    ensures |DropExpired(st, now).order| <= MaxSessions ==>
              forall x :: x in CleanedUp(st, now).order <==> x in st.order && now - st.sessions[x].updatedAt <= SessionTtl
  {
    DropExpiredKeeps(st, now);
  }

  /** Cleanup never deletes an unexpired session while keeping one updated earlier. */
  lemma CleanupEvictsOldest(st: Store, now: int, x: string, y: string)
    requires WellFormed(st)
    requires x in st.order && x !in CleanedUp(st, now).order && !IsExpired(st.sessions, x, now)
    requires y in CleanedUp(st, now).order
    ensures st.sessions[x].updatedAt <= st.sessions[y].updatedAt
  {
    var afterTtl := DropExpired(st, now);
    DropExpiredKeeps(st, now);
    assert x in afterTtl.order;
    DropOldestTakesOldest(afterTtl, x, y);
  }

  // --------------------------------------------------------------- operations

  /** `getOrCreateSession(id)`: an existing id changes nothing; a new one is appended and then cleanup runs. */
  function AfterGetOrCreate(st: Store, id: string, now: int): Store {
    if id in st.sessions then st
    else CleanedUp(Store(st.order + [id], st.sessions[id := NewSession(id, now)]), now)
  }

  /** `addMessage(id, message)`: the session from `getOrCreateSession` gets the message and a new update time. */
  function AfterAddMessage(st: Store, id: string, m: ChatMessage, now: int): Store {
    var created := AfterGetOrCreate(st, id, now);
    var s := SessionFor(st, id, now);
    if id in created.sessions then
      Store(created.order, created.sessions[id := s.(messages := s.messages + [m], updatedAt := now)])
    else created
  }

  /** `clearSession(id)`: an existing transcript is emptied and the update time bumped; an unknown id changes nothing. */
  function AfterClear(st: Store, id: string, now: int): Store {
    if id in st.sessions then Store(st.order, st.sessions[id := st.sessions[id].(messages := [], updatedAt := now)])
    else st
  }

  /** `deleteSession(id)`. */
  function AfterDelete(st: Store, id: string): Store {
    RemoveAll(st, {id})
  }

  /** Inserting a new id keeps the store well formed. */
  lemma InsertWellFormed(st: Store, id: string, now: int)
    requires WellFormed(st) && id !in st.sessions
    ensures WellFormed(Store(st.order + [id], st.sessions[id := NewSession(id, now)]))
  {
  }

  /** Every operation keeps the store valid: in particular it never holds more than `MaxSessions`. */
  lemma OperationsKeepValid(st: Store, id: string, m: ChatMessage, now: int)
    requires Valid(st)
    ensures Valid(AfterGetOrCreate(st, id, now))
    ensures Valid(AfterAddMessage(st, id, m, now))
    ensures Valid(AfterClear(st, id, now))
    ensures Valid(AfterDelete(st, id))
  {
    if id !in st.sessions {
      InsertWellFormed(st, id, now);
      CleanupBounds(Store(st.order + [id], st.sessions[id := NewSession(id, now)]), now);
    }
    RemoveAllWellFormed(st, {id});
  }

  /** An existing id: `getOrCreateSession` returns the stored session and changes nothing. */
  lemma GetOrCreateExisting(st: Store, id: string, now: int)
    requires id in st.sessions
    ensures AfterGetOrCreate(st, id, now) == st && SessionFor(st, id, now) == st.sessions[id]
  {
  }

  /**
   * A new id survives its own insertion when no stored session was updated
   * after `now`: it is the newest and the last inserted, so it sorts last.
   */
  lemma NewSessionSurvives(st: Store, id: string, now: int)
    requires Valid(st) && id !in st.sessions && NoFutureUpdates(st, now)
    ensures id in AfterGetOrCreate(st, id, now).sessions
    ensures AfterGetOrCreate(st, id, now).sessions[id] == NewSession(id, now)
  {
    var grown := Store(st.order + [id], st.sessions[id := NewSession(id, now)]);
    InsertWellFormed(st, id, now);
    if |grown.order| > MaxSessions {
      var afterTtl := DropExpired(grown, now);
      NewestSurvivesExpiry(st, id, now);
      if |afterTtl.order| > MaxSessions {
        NewestIsNoVictim(afterTtl, id);
      }
    }
  }

  /** Phase one keeps a session just created at `now`, which stays last in the order and is the newest. */
  lemma NewestSurvivesExpiry(st: Store, id: string, now: int)
    requires Valid(st) && id !in st.sessions && NoFutureUpdates(st, now)
    ensures var afterTtl := DropExpired(Store(st.order + [id], st.sessions[id := NewSession(id, now)]), now);
            && WellFormed(afterTtl)
            && afterTtl.order != [] && afterTtl.order[|afterTtl.order| - 1] == id
            && id in afterTtl.sessions && afterTtl.sessions[id] == NewSession(id, now)
            && forall x :: x in afterTtl.sessions ==> afterTtl.sessions[x].updatedAt <= now
  {
    var grown := Store(st.order + [id], st.sessions[id := NewSession(id, now)]);
    InsertWellFormed(st, id, now);
    DropExpiredKeeps(grown, now);
    var e := Elements(ExpiredIds(grown.order, grown.sessions, now));
    assert id !in e;
    WithoutAppend(st.order, id, e);
  }

  /** With exactly one session too many, the last-inserted, newest one is not among the victims of phase two. */
  lemma NewestIsNoVictim(st: Store, id: string)
    requires WellFormed(st) && |st.order| == MaxSessions + 1
    requires st.order[|st.order| - 1] == id && id in st.sessions
    requires forall x :: x in st.sessions ==> st.sessions[x].updatedAt <= st.sessions[id].updatedAt
    ensures id in DropOldest(st).sessions && DropOldest(st).sessions[id] == st.sessions[id]
  {
    var ids := st.order;
    forall i | 0 <= i < |ids| ensures UpdatedAt(st.sessions, ids[i]) <= UpdatedAt(st.sessions, ids[|ids| - 1]) {
      assert ids[i] in st.sessions;
    }
    OldestFirstKeepsNewestLast(ids, st.sessions);
    OldestFirstDistinct(ids, st.sessions);
    var sorted := OldestFirst(ids, st.sessions);
    assert sorted[..1] == [sorted[0]];
    assert id !in OldestVictims(st);
  }

  /** `addMessage` appends exactly one message at the end and bumps the update time; other sessions are untouched. */
  lemma AddMessageAppends(st: Store, id: string, m: ChatMessage, now: int)
    requires Valid(st) && (id in st.sessions || NoFutureUpdates(st, now))
    ensures id in AfterAddMessage(st, id, m, now).sessions
    ensures MessagesOf(AfterAddMessage(st, id, m, now), id) == MessagesOf(st, id) + [m]
    ensures AfterAddMessage(st, id, m, now).sessions[id].updatedAt == now
    ensures id in st.sessions ==>
              AfterAddMessage(st, id, m, now).order == st.order &&
              forall x :: x != id ==> Lookup(AfterAddMessage(st, id, m, now), x) == Lookup(st, x)
  {
    if id !in st.sessions {
      NewSessionSurvives(st, id, now);
    }
  }

  /** A chat turn: the user's message then the reply, appended in that order, and nothing else in the transcript changes. */
  lemma TurnAppendsTwo(st: Store, id: string, user: ChatMessage, reply: ChatMessage, now: int)
    requires Valid(st) && (id in st.sessions || NoFutureUpdates(st, now))
    ensures MessagesOf(AfterAddMessage(AfterAddMessage(st, id, user, now), id, reply, now), id) == MessagesOf(st, id) + [user, reply]
  {
    AddMessageAppends(st, id, user, now);
    var mid := AfterAddMessage(st, id, user, now);
    OperationsKeepValid(st, id, user, now);
    AddMessageAppends(mid, id, reply, now);
  }

  /** `clearSession` empties an existing transcript, is a no-op for an unknown id, and clearing twice leaves it empty. */
  lemma ClearEmpties(st: Store, id: string, now: int, later: int)
    ensures MessagesOf(AfterClear(st, id, now), id) == []
    ensures id !in st.sessions ==> AfterClear(st, id, now) == st
    ensures id in st.sessions ==> AfterClear(st, id, now).sessions[id].updatedAt == now
    ensures forall x :: x != id ==> Lookup(AfterClear(st, id, now), x) == Lookup(st, x)
    ensures MessagesOf(AfterClear(AfterClear(st, id, now), id, later), id) == []
  {
  }

  /** `deleteSession` reports whether the id was stored; afterwards it is gone and the others are untouched, in order. */
  lemma DeleteRemoves(st: Store, id: string)
    requires WellFormed(st)
    ensures id !in AfterDelete(st, id).sessions && id !in AfterDelete(st, id).order
    ensures forall x :: x != id ==> Lookup(AfterDelete(st, id), x) == Lookup(st, x)
    ensures id !in st.sessions ==> AfterDelete(st, id) == st
    ensures id in st.sessions ==> |AfterDelete(st, id).order| == |st.order| - 1
  {
    if id !in st.sessions {
      WithoutNothing(st.order, {id});
      assert st.sessions - {id} == st.sessions;
    } else {
      WithoutCard(st.order, {id});
      assert {id} * Elements(st.order) == {id};
    }
  }

  /** Below capacity an insertion runs no cleanup at all, so even an expired session stays stored. */
  lemma ExpiredSurvivesBelowCapacity(st: Store, id: string, stale: string, now: int)
    requires Valid(st) && |st.order| < MaxSessions && id !in st.sessions
    requires stale in st.sessions && IsExpired(st.sessions, stale, now)
    ensures stale in AfterGetOrCreate(st, id, now).sessions
    ensures AfterGetOrCreate(st, id, now).sessions[stale] == st.sessions[stale]
  {
  }

  /** At capacity with nothing expired, inserting a new id leaves exactly `MaxSessions` sessions. */
  lemma FullStoreStaysFull(st: Store, id: string, now: int)
    requires Valid(st) && |st.order| == MaxSessions && id !in st.sessions
    requires forall x :: x in st.sessions ==> !IsExpired(st.sessions, x, now)
    ensures |AfterGetOrCreate(st, id, now).order| == MaxSessions
  {
    var grown := Store(st.order + [id], st.sessions[id := NewSession(id, now)]);
    InsertWellFormed(st, id, now);
    DropExpiredKeeps(grown, now);
    var e := Elements(ExpiredIds(grown.order, grown.sessions, now));
    assert e == {};
    WithoutNothing(grown.order, e);
    CleanupBounds(grown, now);
  }
}
