/**
 * The chat routes: each handler reads the request, calls the session store
 * and the gateway, and builds the JSON reply. Identifiers a handler would
 * generate (a UUID) and the wall clock are parameters.
 */
module ChatRoutes {
  import opened Wrappers
  import opened ChatTypes
  import opened IdSeqs
  import opened SessionModel
  import opened SessionStore
  import opened LlmService
  import ErrorMiddleware

  /** How many of the latest stored messages go to the model as context. */
  const HistoryWindow: nat := 10

  /** The body of `POST /message`. */
  datatype MessageBody = MessageBody(message: string, style: Option<ApologyStyle>, sessionId: Option<string>)

  /** The reply of `POST /message`. */
  datatype MessageReply = MessageReply(
    sessionId: string, reply: string, emotion: string, style: ApologyStyle, tokensUsed: int, timestamp: string)

  /** The reply of `GET /history`; the timestamps are absent for an unknown session. */
  datatype HistoryReply = HistoryReply(
    sessionId: string, messages: seq<ChatMessage>, messageCount: int, createdAt: Option<int>, updatedAt: Option<int>)

  /** The reply of `DELETE /history`; the id is absent when neither the query nor the body gave one. */
  datatype ClearReply = ClearReply(sessionId: Option<string>, message: string)

  /** The reply of `DELETE /session`: the deletion, or a 404 for an unknown session. */
  datatype DeleteReply =
    | Deleted(sessionId: string, message: string)
    | Missing(reply: ErrorMiddleware.HttpReply)

  /** The reply of `GET /sessions`. */
  datatype SessionsReply = SessionsReply(sessions: seq<string>, count: int)

  /** `history.slice(-10)`: the last ten messages, or all of them when there are fewer. */
  function ContextWindow(history: seq<ChatMessage>): (window: seq<ChatMessage>)
    ensures |window| == if |history| < HistoryWindow then |history| else HistoryWindow
    ensures window == history[|history| - |window|..]
  {
    if |history| <= HistoryWindow then history else history[|history| - HistoryWindow..]
  }

  /** After a turn, the next context window ends with that turn's two messages, and keeps its length bound. */
  lemma WindowEndsWithLastTurn(history: seq<ChatMessage>, user: ChatMessage, reply: ChatMessage)
    ensures var w := ContextWindow(history + [user, reply]);
            |w| >= 2 && w[|w| - 2..] == [user, reply] && |w| <= HistoryWindow
  {
  }

  /** The session id of `DELETE /history` and `DELETE /session`: the query's when non-empty, else the body's. */
  function RouteSessionId(query: Option<string>, body: Option<string>): (id: Option<string>)
    ensures query.Some? && query.value != "" ==> id == query
    ensures (query.None? || query.value == "") ==> id == body
  {
    if query.Some? && query.value != "" then query else body
  }

  /** The apology request `POST /message` makes for the stored transcript. */
  function TurnRequest(body: MessageBody, stored: seq<ChatMessage>): ApologyRequest {
    ApologyRequest(body.message, None, body.style, Some(ContextWindow(stored)))
  }

  /**
   * `POST /message`: the client's session id or a fresh one; the model sees
   * at most the last ten stored messages; only on success are the user's
   * message and the reply stored, in that order. A failure is rethrown
   * for the error middleware and leaves the store as it was.
   */
  method PostMessage(
    store: SessionService, gateway: LlmGateway, body: MessageBody, freshId: string,
    now: int, timestamp: string, endpoint: Endpoint)
    returns (r: Result<MessageReply, LLMError>)
    requires store.Valid()
    modifies store
    ensures store.Valid()
    ensures var id := OrText(body.sessionId, freshId);
            var outcome := Apology(gateway.config, gateway.client, TurnRequest(body, MessagesOf(old(store.State()), id)), endpoint);
            && (outcome.Failure? ==> r == Failure(outcome.error) && store.State() == old(store.State()))
            && (outcome.Success? ==>
                  && r == Success(MessageReply(id, outcome.value.reply, outcome.value.emotion, outcome.value.style,
                                               outcome.value.tokensUsed, timestamp))
                  && store.State() == AfterAddMessage(AfterAddMessage(old(store.State()), id, ChatMessage(User, body.message), now),
                                                      id, ChatMessage(Assistant, outcome.value.reply), now))
    ensures var id := OrText(body.sessionId, freshId);
            r.Success? && (id in old(store.sessions) || NoFutureUpdates(old(store.State()), now)) ==>
              MessagesOf(store.State(), id) ==
              MessagesOf(old(store.State()), id) + [ChatMessage(User, body.message), ChatMessage(Assistant, r.value.reply)]
  {
    var sessionId := OrText(body.sessionId, freshId);
    var history := store.GetMessages(sessionId);
    var response := gateway.GenerateApology(ApologyRequest(body.message, None, body.style, Some(ContextWindow(history))), endpoint);
    if response.Failure? {
      return Failure(response.error);
    }
    StoreTurn(store, sessionId, ChatMessage(User, body.message), ChatMessage(Assistant, response.value.reply), now);
    r := Success(MessageReply(sessionId, response.value.reply, response.value.emotion, response.value.style,
                              response.value.tokensUsed, timestamp));
  }

  /** The two `addMessage` calls of a successful turn: the user's message, then the reply, appended in that order. */
  method StoreTurn(store: SessionService, id: string, user: ChatMessage, reply: ChatMessage, now: int)
    requires store.Valid()
    modifies store
    ensures store.Valid()
    ensures store.State() == AfterAddMessage(AfterAddMessage(old(store.State()), id, user, now), id, reply, now)
    ensures id in old(store.sessions) || NoFutureUpdates(old(store.State()), now) ==>
              MessagesOf(store.State(), id) == MessagesOf(old(store.State()), id) + [user, reply]
  {
    ghost var st := store.State();
    var _ := store.AddMessage(id, user, now);
    var _ := store.AddMessage(id, reply, now);
    if id in st.sessions || NoFutureUpdates(st, now) {
      TurnAppendsTwo(st, id, user, reply, now);
    }
  }

  /** `GET /history`: the transcript, its length, and the timestamps of a stored session. */
  method GetHistory(store: SessionService, sessionId: string) returns (reply: HistoryReply)
    requires store.Valid()
    ensures reply.sessionId == sessionId && reply.messages == MessagesOf(store.State(), sessionId)
    ensures reply.messageCount == |reply.messages|
    ensures reply.createdAt.Some? <==> sessionId in store.sessions
    ensures reply.updatedAt.Some? <==> sessionId in store.sessions
    ensures sessionId in store.sessions ==>
              reply.createdAt == Some(store.sessions[sessionId].createdAt) &&
              reply.updatedAt == Some(store.sessions[sessionId].updatedAt)
  {
    var messages := store.GetMessages(sessionId);
    var info := store.GetSessionInfo(sessionId);
    reply := HistoryReply(sessionId, messages, |messages|,
      if info.Some? then Some(info.value.createdAt) else None,
      if info.Some? then Some(info.value.updatedAt) else None);
  }

  /** `DELETE /history`: clears the session named by the query or the body; always a success reply. */
  method ClearHistory(store: SessionService, query: Option<string>, bodyId: Option<string>, now: int)
    returns (reply: ClearReply)
    requires store.Valid()
    modifies store
    ensures store.Valid()
    ensures reply == ClearReply(RouteSessionId(query, bodyId), "History cleared successfully")
    ensures RouteSessionId(query, bodyId).Some? ==> store.State() == AfterClear(old(store.State()), RouteSessionId(query, bodyId).value, now)
    ensures RouteSessionId(query, bodyId).None? ==> store.State() == old(store.State())
  {
    var sessionId := RouteSessionId(query, bodyId);
    if sessionId.Some? {
      store.ClearSession(sessionId.value, now);
    }
    reply := ClearReply(sessionId, "History cleared successfully");
  }

  /** `DELETE /session`: deletes the session named by the query or the body; 404 when there was none. */
  method DeleteSessionRoute(store: SessionService, query: Option<string>, bodyId: Option<string>)
    returns (reply: DeleteReply)
    requires store.Valid()
    modifies store
    ensures store.Valid()
    ensures var id := RouteSessionId(query, bodyId);
            && (id.Some? && id.value in old(store.sessions) ==>
                  reply == Deleted(id.value, "Session deleted successfully") && store.State() == AfterDelete(old(store.State()), id.value))
            && (id.None? || id.value !in old(store.sessions) ==>
                  reply == Missing(ErrorMiddleware.HttpReply(ErrorMiddleware.NotFound, ErrorMiddleware.ErrorBody("Not Found", "Session not found")))
                  && store.State() == old(store.State()))
  {
    var sessionId := RouteSessionId(query, bodyId);
    var deleted := false;
    if sessionId.Some? {
      deleted := store.DeleteSession(sessionId.value);
      DeleteRemoves(old(store.State()), sessionId.value);
    }
    if deleted {
      reply := Deleted(sessionId.value, "Session deleted successfully");
    } else {
      reply := Missing(ErrorMiddleware.HttpReply(ErrorMiddleware.NotFound, ErrorMiddleware.ErrorBody("Not Found", "Session not found")));
    }
  }

  /** `GET /sessions`: every stored id once, in insertion order, with their number, which never exceeds the capacity. */
  method ListSessions(store: SessionService) returns (reply: SessionsReply)
    requires store.Valid()
    ensures reply.sessions == store.order && Distinct(reply.sessions)
    ensures forall x :: x in reply.sessions <==> x in store.sessions
    ensures reply.count == |reply.sessions| == |store.sessions| && reply.count <= MaxSessions
  {
    var ids := store.GetAllSessionIds();
    var n := store.GetSessionCount();
    reply := SessionsReply(ids, |ids|);
  }
}
