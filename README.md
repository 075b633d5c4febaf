# Apology chat: a verified model of the backend core and the browser session list

This project models, in Dafny, the logic of a small chat application that
forwards a user's message to a local OpenAI-compatible LLM endpoint and
answers with an "apology" in one of three styles (gentle, formal,
empathetic), keeping per-session transcripts.

The modelled parts are:

- **Session store** (`session_model.dfy`, `session_store.dfy`). The
  backend's in-memory map from session id to transcript. `SessionService` is
  a class whose fields are the map and the order in which the map received
  its keys. Each method is proved equal to a function of `SessionModel`. The
  two-phase eviction is modelled as the code runs it. It starts only when an
  insert pushes the size above 100. Phase one removes every session idle for
  strictly more than 24 hours. Phase two removes the oldest sessions by last
  update until 100 remain, using a stable sort.
- **Prompt builder** (`prompts.dfy`, `text.dfy`). The system prompt is the
  base text, a blank line and the style overlay. Emotion detection is a
  first-match substring search over an ordered keyword table. The prompt
  texts and keywords are copied verbatim. `Text.Includes` models
  `String.prototype.includes`.
- **LLM gateway** (`llm_service.dfy`). Covers the constructor's defaulting,
  `updateConfig`'s merge and client rebuild, and the request body that lets a
  request's model override the configured one. Covers the messages
  `generateApology` sends, the shaping of a completion into an apology, and
  the ordered error classifier `handleError`. The network is a function
  parameter from the client used (its base URL and timeout) and the body
  sent to what came back, so every lemma speaks of the exact body sent and
  of the client it went through.
- **Error middleware** (`error_middleware.dfy`). A total function from a
  thrown error to one (status, body) pair. The statuses are those defined in
  sections 15.5.1, 15.5.5, 15.6.1, 15.6.3, 15.6.4 and 15.6.5 of RFC 9110.
- **Chat routes** (`chat_routes.dfy`). The five handlers are methods over
  the session store object and the gateway object.
- **Browser session list** (`client_storage.dfy`). `localStorage` is a class
  with two slots. Find, upsert and filter over the stored list are functions.
  `saveSession` is a method with a `findIndex` loop, proved equal to the
  upsert function. The name and preview truncation helpers are functions.

Shared pieces: `wrappers.dfy` (`Option`, `Result`), `chat_types.dfy` (the
backend's `ChatMessage`, `ApologyStyle` and the tagged `LLMError`, plus a
`Thrown` datatype for what a `catch` can receive), and `id_seqs.dfy`
(distinct id sequences and removal of a set of ids).

Two behaviours of the code are worth stating:

- `cleanupOldSessions` (`backend/src/services/session.service.ts:95-98`)
  returns at once unless the map holds more than 100 sessions, so the TTL
  pass runs only above capacity too: a store of at most 99 keeps expired
  sessions across an insertion (`SessionModel.ExpiredSurvivesBelowCapacity`).
- The comment at `backend/src/services/llm.service.ts:198` says the client
  is recreated "if baseURL changed", but line 199 tests whether the patch
  carries a truthy `baseURL`. So `updateConfig({ baseURL: '' })` sets the
  configured base URL to `""` and keeps posting through the old client
  (`LlmService.UpdateWithoutBaseUrlKeepsClient`). A patch that repeats the
  current URL rebuilds the client although nothing changed
  (`LlmService.UpdateWithBaseUrlRebuildsClient`). A timeout-only update
  leaves the client on the old timeout
  (`LlmService.TimeoutOnlyUpdateLeavesClientStale`).

## Model

| member | source | states |
|---|---|---|
| SessionStore.SessionService.constructor | backend/src/services/session.service.ts:16-18 | a new service holds no session and satisfies the invariant (distinct ids, map and order agree, at most 100) |
| SessionStore.SessionService.GetOrCreateSession | backend/src/services/session.service.ts:23-40 | the new state is `AfterGetOrCreate` of the old one and the invariant is kept; the returned session is the stored one, or a new one with that id, no messages and both timestamps `now` |
| SessionStore.SessionService.AddMessage | backend/src/services/session.service.ts:45-50 | the new state is `AfterAddMessage`; the returned session carries the old transcript plus the message and `updatedAt = now`, even when cleanup evicted it |
| SessionStore.SessionService.GetMessages | backend/src/services/session.service.ts:55-58 | a stored session's transcript, `[]` for an unknown id, and no change of state |
| SessionStore.SessionService.ClearSession | backend/src/services/session.service.ts:63-69 | the new state is `AfterClear`: an existing transcript emptied and stamped, an unknown id ignored |
| SessionStore.SessionService.DeleteSession | backend/src/services/session.service.ts:74-76 | returns true exactly when the id was stored; the new state is the old one without that id |
| SessionStore.SessionService.GetAllSessionIds | backend/src/services/session.service.ts:81-83 | every stored id exactly once, in insertion order |
| SessionStore.SessionService.GetSessionCount | backend/src/services/session.service.ts:88-90 | the map's size, which equals the number of ids and never exceeds 100 |
| SessionStore.SessionService.GetSessionInfo | backend/src/services/session.service.ts:127-129 | the stored session under that id, whose own id is that id, or none |
| SessionStore.SessionService.CleanupOldSessions | backend/src/services/session.service.ts:95-122 | the new state is `CleanedUp(old, now)` |
| SessionStore.SessionService.ExpiredSessionIds | backend/src/services/session.service.ts:100-109 | the loop collects, in iteration order, exactly the ids whose session has been idle strictly longer than 24 h |
| SessionStore.SessionService.DeleteExpired | backend/src/services/session.service.ts:111-112 | the new state is the old one without the expired ids, still well formed |
| SessionStore.SessionService.DeleteOldest | backend/src/services/session.service.ts:115-121 | the new state is the old one without the first `size - 100` ids of the oldest-first order |
| SessionStore.SessionService.DeleteAll | backend/src/services/session.service.ts:112 | deleting ids one by one removes exactly that set from the map and from the order |
| SessionModel.SizeIsOrderLength | backend/src/services/session.service.ts:88-90 | in a well-formed store the map's size is the number of ids in the order |
| SessionModel.ExpiredIds | backend/src/services/session.service.ts:103-109 | an id is collected exactly when it is listed and its session is expired |
| SessionModel.IsExpired | backend/src/services/session.service.ts:105-106 | idle strictly longer than 24 hours; see CleanupDropsExpired, ExpiredSurvivesBelowCapacity |
| SessionModel.DropExpired | backend/src/services/session.service.ts:100-112 | phase one: every expired id removed; see DropExpiredKeeps |
| SessionModel.OldestVictims | backend/src/services/session.service.ts:115-120 | the first `size - 100` ids of the stable sort; see OldestVictimsCount, DropOldestTakesOldest |
| SessionModel.DropOldest | backend/src/services/session.service.ts:115-121 | phase two: the victims removed; see DropOldestSize, DropOldestTakesOldest |
| SessionModel.CleanedUp | backend/src/services/session.service.ts:95-122 | `cleanupOldSessions`: nothing at or below 100, else phase one and, if still over, phase two; see CleanupBounds, CleanupOnlyDeletes, CleanupDropsExpired, CleanupEvictsOldest |
| SessionModel.OldestFirst | backend/src/services/session.service.ts:116-117 | the sort is a permutation of the ids |
| SessionModel.OldestFirstSorted | backend/src/services/session.service.ts:116-117 | the sort orders ids by ascending `updatedAt` |
| SessionModel.OldestFirstDistinct | backend/src/services/session.service.ts:116-117 | sorting distinct ids keeps them distinct |
| SessionModel.OldestFirstKeepsNewestLast | backend/src/services/session.service.ts:116-117 | the last-inserted id, if updated no earlier than any other, stays last (ties keep their order) |
| SessionModel.DropOldestSize | backend/src/services/session.service.ts:115-121 | phase two leaves exactly 100 sessions |
| SessionModel.OldestVictimsCount | backend/src/services/session.service.ts:116-119 | phase two selects exactly `size - 100` distinct stored ids |
| SessionModel.DropOldestTakesOldest | backend/src/services/session.service.ts:116-120 | every session phase two deletes was updated no later than every session it keeps |
| SessionModel.DropExpiredKeeps | backend/src/services/session.service.ts:100-112 | phase one keeps exactly the sessions idle for at most 24 h, unchanged, and the store stays well formed |
| SessionModel.CleanupBounds | backend/src/services/session.service.ts:95-121 | cleanup keeps the store well formed; when it runs it leaves `min(100, live sessions)` |
| SessionModel.CleanupOnlyDeletes | backend/src/services/session.service.ts:95-121 | cleanup only removes: the result is the store minus some set of ids, the rest in order |
| SessionModel.CleanupDropsExpired | backend/src/services/session.service.ts:103-112 | when cleanup runs no expired session survives, and a session idle for exactly 24 h is kept if phase one suffices |
| SessionModel.CleanupEvictsOldest | backend/src/services/session.service.ts:103-121 | no unexpired session is evicted while a session updated earlier is kept |
| SessionModel.ExpiredSurvivesBelowCapacity | backend/src/services/session.service.ts:95-98 | below capacity an insertion runs no cleanup, so an expired session stays |
| SessionModel.InsertWellFormed | backend/src/services/session.service.ts:26-33 | inserting a new id keeps ids distinct and the map and order in agreement |
| SessionModel.AfterGetOrCreate | backend/src/services/session.service.ts:23-40 | the store after `getOrCreateSession`; see GetOrCreateExisting, NewSessionSurvives, OperationsKeepValid |
| SessionModel.AfterAddMessage | backend/src/services/session.service.ts:45-50 | the store after `addMessage`; see AddMessageAppends, TurnAppendsTwo |
| SessionModel.AfterClear | backend/src/services/session.service.ts:63-69 | the store after `clearSession`; see ClearEmpties |
| SessionModel.AfterDelete | backend/src/services/session.service.ts:74-76 | the store after `deleteSession`; see DeleteRemoves |
| SessionModel.MessagesOf | backend/src/services/session.service.ts:55-58 | the stored transcript or `[]`; see AddMessageAppends, ClearEmpties |
| SessionModel.OperationsKeepValid | backend/src/services/session.service.ts:17-76 | every operation keeps the store well formed with at most 100 sessions |
| SessionModel.GetOrCreateExisting | backend/src/services/session.service.ts:23-39 | an existing id returns the stored session and changes nothing |
| SessionModel.NewSessionSurvives | backend/src/services/session.service.ts:26-39 | a new id, with no session updated after `now`, is stored as a fresh session after its own insertion's cleanup |
| SessionModel.NewestSurvivesExpiry | backend/src/services/session.service.ts:103-112 | the TTL phase keeps the session just created, last in the order and the newest of those kept |
| SessionModel.NewestIsNoVictim | backend/src/services/session.service.ts:115-121 | with one session too many, the last-inserted newest session is not evicted and is kept unchanged |
| SessionModel.AddMessageAppends | backend/src/services/session.service.ts:45-50 | the transcript gains exactly the message at its end and `updatedAt = now`; for an existing id the order and every other session are unchanged |
| SessionModel.ClearEmpties | backend/src/services/session.service.ts:63-69 | the transcript is empty afterwards (also after clearing twice), an unknown id changes nothing, others are untouched |
| SessionModel.DeleteRemoves | backend/src/services/session.service.ts:74-76 | the id is gone, others are untouched, an unknown id changes nothing, a known one shrinks the store by one |
| SessionModel.FullStoreStaysFull | backend/src/services/session.service.ts:115-121 | at 100 sessions with none expired, inserting a new id leaves exactly 100 |
| SessionModel.TurnAppendsTwo | backend/src/routes/chat.routes.ts:32-40 | two `addMessage` calls append the user's message then the reply, nothing else |
| Prompts.SystemPrompt | backend/src/prompts/apology.prompts.ts:77-82 | the prompt is the base text, then a blank line, then the style's overlay |
| Prompts.SystemPromptOrDefault | backend/src/prompts/apology.prompts.ts:77 | the default parameter: an omitted style gives the gentle prompt; see DefaultPromptIsGentle |
| Prompts.Overlay | backend/src/prompts/apology.prompts.ts:79 | the style's overlay text from the prompt table; see PromptsDiffer |
| Prompts.DefaultPromptIsGentle | backend/src/prompts/apology.prompts.ts:77 | an omitted style gives the gentle prompt |
| Prompts.PromptStartsWithBase | backend/src/prompts/apology.prompts.ts:78-81 | every prompt starts with the base text |
| Prompts.PromptsDiffer | backend/src/prompts/apology.prompts.ts:26-43 | the three styles give three different prompts |
| Prompts.StyleExampleFor | backend/src/prompts/apology.prompts.ts:85-87 | each style has a non-empty example exchange |
| Prompts.StyleExamplesDiffer | backend/src/prompts/apology.prompts.ts:85-87 | two different styles never share an example user turn |
| Prompts.FirstMatch | backend/src/prompts/apology.prompts.ts:104-111 | the result is `neutral` or a label of the table |
| Prompts.Matches | backend/src/prompts/apology.prompts.ts:106 | `keywords.some(k => message.includes(k))` for one entry; see FirstMatchIsFirst, TiredBeforeAnnoyed |
| Prompts.DetectEmotion | backend/src/prompts/apology.prompts.ts:104-111 | the result is `neutral` or one of the ten labels |
| Prompts.FirstMatchIsFirst | backend/src/prompts/apology.prompts.ts:105-108 | in a table with distinct labels, label `i` is returned exactly when entry `i` matches and no earlier entry does |
| Prompts.FirstMatchNeutral | backend/src/prompts/apology.prompts.ts:105-110 | `neutral` is returned exactly when no entry matches |
| Prompts.TableIsWellFormed | backend/src/prompts/apology.prompts.ts:90-101 | the keyword table has distinct labels and no empty keyword |
| Prompts.NoEmptyKeyword | backend/src/prompts/apology.prompts.ts:90-101 | no keyword is the empty string |
| Prompts.DetectEmotionIsFirstMatch | backend/src/prompts/apology.prompts.ts:104-108 | a label is detected exactly when one of its keywords occurs and none of an earlier label's does |
| Prompts.DetectEmotionNeutral | backend/src/prompts/apology.prompts.ts:104-110 | `neutral` exactly when no keyword of any label occurs |
| Prompts.EmptyMessageIsNeutral | backend/src/prompts/apology.prompts.ts:104-110 | the empty message is `neutral` |
| Prompts.TiredBeforeAnnoyed | backend/src/prompts/apology.prompts.ts:91-92 | every message containing both a tired and an annoyed keyword is `tired`, never `annoyed` |
| Prompts.GentleExampleIsTired | backend/src/prompts/apology.prompts.ts:48 | the gentle example message contains a tired keyword and an annoyed keyword, and is detected as `tired` |
| Text.IncludesIff | backend/src/prompts/apology.prompts.ts:106 | `includes` holds exactly when the keyword occurs at some position |
| Text.Includes | backend/src/prompts/apology.prompts.ts:106 | `String.prototype.includes` as a scan of suffixes; see IncludesIff |
| LlmService.DefaultsApply | backend/src/services/llm.service.ts:20-26 | with no override and no environment each field takes its default |
| LlmService.InitialConfig | backend/src/services/llm.service.ts:20-26 | the constructor's `override || env || default` per field; see DefaultsApply, TruthyOverridesWin, FalsyOverridesIgnored |
| LlmService.TruthyOverridesWin | backend/src/services/llm.service.ts:20-26 | a truthy override wins for every field |
| LlmService.FalsyOverridesIgnored | backend/src/services/llm.service.ts:20-26 | an override of `0` or `""` acts as if absent |
| LlmService.MergeReplacesGivenKeys | backend/src/services/llm.service.ts:195-196 | every given key takes the patch's value, falsy values included; every absent key keeps the old value; merging twice equals merging once |
| LlmService.MergeConfig | backend/src/services/llm.service.ts:196 | the spread `{ ...config, ...patch }`; see MergeReplacesGivenKeys |
| LlmService.ClientAfterUpdate | backend/src/services/llm.service.ts:198-207 | the client is rebuilt from the merged configuration only for a truthy base URL; see TimeoutOnlyUpdateLeavesClientStale, UpdateWithoutBaseUrlKeepsClient |
| LlmService.TimeoutOnlyUpdateLeavesClientStale | backend/src/services/llm.service.ts:195-207 | after a timeout-only update the client keeps the old timeout |
| LlmService.UpdateWithoutBaseUrlKeepsClient | backend/src/services/llm.service.ts:195-207 | after an update without a truthy base URL the next apology is still posted through the old client, with a body from the merged configuration |
| LlmService.UpdateWithBaseUrlRebuildsClient | backend/src/services/llm.service.ts:195-207 | after an update with a truthy base URL the next apology goes through a client with that URL and the merged timeout |
| LlmService.RequestModelOverridesConfig | backend/src/services/llm.service.ts:84-90 | a model in the request replaces the configured one; messages are sent as given |
| LlmService.WireBody | backend/src/services/llm.service.ts:86-89 | `{ model: config.model, ...request }`; see RequestModelOverridesConfig |
| LlmService.HandleErrorIdempotent | backend/src/services/llm.service.ts:127-131 | classifying an already classified error returns it unchanged |
| LlmService.HandleError | backend/src/services/llm.service.ts:127-190 | the ordered classification of anything thrown; see TransportClassification, StatusOnlyOnApiErrors, RefusedTakesPrecedence, HandleErrorIdempotent |
| LlmService.LooksRefused | backend/src/services/llm.service.ts:135-137 | the connection-refused test on code and message; see TransportClassification |
| LlmService.LooksTimedOut | backend/src/services/llm.service.ts:157-159 | the timeout test on code and message; see TransportClassification |
| LlmService.TransportClassification | backend/src/services/llm.service.ts:133-175 | refused, then response present, then timeout, else network error, each as an if-and-only-if; only the response case carries its status |
| LlmService.StatusOnlyOnApiErrors | backend/src/services/llm.service.ts:127-189 | only `API_ERROR` carries a status; only non-transport values become `UNKNOWN_ERROR`, keeping their message or the fixed one |
| LlmService.RefusedTakesPrecedence | backend/src/services/llm.service.ts:135-154 | code `ECONNREFUSED` is a refused connection even when a response is present |
| LlmService.ApologyMessages | backend/src/services/llm.service.ts:49-59 | system prompt first, the history unchanged, the user's message last; length is history + 2 |
| LlmService.EffectiveStyle | backend/src/services/llm.service.ts:43 | the destructuring default: an omitted style is gentle; see ApologySuccess |
| LlmService.EffectiveEmotion | backend/src/services/llm.service.ts:46 | `params.emotion || detectEmotion(message)`; see ApologySuccess |
| LlmService.ApologyBodySent | backend/src/services/llm.service.ts:43-66 | the body sent carries the configured model, temperature and max tokens and the messages above for the effective style |
| LlmService.ApologySuccess | backend/src/services/llm.service.ts:43-73 | success exactly when a response with a choice came back; reply and token total pass through; style defaults to gentle; a non-empty emotion is echoed |
| LlmService.ApologyFailure | backend/src/services/llm.service.ts:62-76 | a transport failure is classified once; an empty choice list is an `UNKNOWN_ERROR` |
| LlmService.Apology | backend/src/services/llm.service.ts:41-77 | `generateApology` as a function of configuration, client, request and endpoint; see ApologySuccess, ApologyFailure |
| LlmService.ShapeApology | backend/src/services/llm.service.ts:68-76 | the first choice's content with the token total, or the classified error; see ApologySuccess, ApologyFailure |
| LlmService.CompletionOutcome | backend/src/services/llm.service.ts:84-95 | the response of a delivered post, or the classified error; see ChatCompletion, ApologyFailure |
| LlmService.LlmGateway.constructor | backend/src/services/llm.service.ts:18-36 | the configuration is the defaulted one and the client is built from it |
| LlmService.LlmGateway.UpdateConfig | backend/src/services/llm.service.ts:195-208 | the configuration is the merge; the client is rebuilt only for a truthy base URL |
| LlmService.LlmGateway.GetConfig | backend/src/services/llm.service.ts:213-215 | returns the active configuration |
| LlmService.LlmGateway.ChatCompletion | backend/src/services/llm.service.ts:82-96 | posts the merged body once through the current client; a response is returned, a failure classified |
| LlmService.LlmGateway.GenerateApology | backend/src/services/llm.service.ts:41-77 | the result is the one the apology lemmas describe for the active configuration |
| ErrorMiddleware.StatusForLlmError | backend/src/middleware/error.middleware.ts:46-59 | 503, 504, 502 and 500 by code; `API_ERROR` relays a non-zero status, else 502 |
| ErrorMiddleware.ErrorHandler | backend/src/middleware/error.middleware.ts:7-41 | `LLMError`, then validation error (400), then 500; a generic error's message is the hidden text in production and the error's own message elsewhere |
| ErrorMiddleware.NotFoundHandler | backend/src/middleware/error.middleware.ts:64-73 | always 404 naming the method and the path |
| ErrorMiddleware.StatusesAreKnown | backend/src/middleware/error.middleware.ts:16-59 | every status is 400, 500, 502, 503, 504 or a relayed non-zero upstream status |
| ErrorMiddleware.LlmErrorsNotRedacted | backend/src/middleware/error.middleware.ts:16-22 | an `LLMError` reply is the same in every environment and carries the real message |
| ErrorMiddleware.TransportFailureStatus | backend/src/middleware/error.middleware.ts:46-59 | end to end, a refused connection is 503, an upstream response relays its status (502 for zero), a timeout is 504, anything else 502 |
| ChatRoutes.ContextWindow | backend/src/routes/chat.routes.ts:28 | the last `min(10, n)` messages, as a suffix |
| ChatRoutes.WindowEndsWithLastTurn | backend/src/routes/chat.routes.ts:22-40 | after a turn the next window ends with that turn's two messages |
| ChatRoutes.RouteSessionId | backend/src/routes/chat.routes.ts:89 | the query's id when non-empty, otherwise the body's |
| ChatRoutes.TurnRequest | backend/src/routes/chat.routes.ts:25-29 | the apology request with the last ten stored messages as history; see PostMessage, WindowEndsWithLastTurn |
| ChatRoutes.PostMessage | backend/src/routes/chat.routes.ts:14-55 | the gateway sees the last ten stored messages; on failure the error is rethrown and the store is unchanged; on success user then assistant are appended and the reply echoes id, reply, emotion, style and tokens |
| ChatRoutes.StoreTurn | backend/src/routes/chat.routes.ts:31-39 | the store after both `addMessage` calls; the transcript grows by the user's message then the reply |
| ChatRoutes.GetHistory | backend/src/routes/chat.routes.ts:61-81 | the transcript and its length; timestamps exactly for a stored session |
| ChatRoutes.ClearHistory | backend/src/routes/chat.routes.ts:87-101 | always a success reply; the named session is cleared |
| ChatRoutes.DeleteSessionRoute | backend/src/routes/chat.routes.ts:107-128 | deleted reply when the id existed, otherwise 404 `Session not found` and no change |
| ChatRoutes.ListSessions | backend/src/routes/chat.routes.ts:134-145 | all ids once, in order, with their count, at most 100 |
| ClientStorage.Decoded | frontend/src/utils/storage.ts:18-26 | the stored list, or `[]` when nothing is stored or it does not parse |
| ClientStorage.FindById | frontend/src/utils/storage.ts:42-45 | the first entry with that id, or none exactly when no entry has it |
| ClientStorage.FirstIndex | frontend/src/utils/storage.ts:52 | the first position holding that id, or -1 exactly when none does |
| ClientStorage.FindIndex | frontend/src/utils/storage.ts:52 | the loop finds that position |
| ClientStorage.Upsert | frontend/src/utils/storage.ts:50-61 | the list keeps its length or grows by one |
| ClientStorage.RemoveId | frontend/src/utils/storage.ts:68 | the filtered list is no longer than the original |
| ClientStorage.UpsertAppends | frontend/src/utils/storage.ts:56-58 | an id not present is appended at the end |
| ClientStorage.UpsertReplaces | frontend/src/utils/storage.ts:52-55 | the first entry with the id is replaced in place, every other entry unchanged |
| ClientStorage.GetAfterSave | frontend/src/utils/storage.ts:42-61 | after saving, looking the id up gives the saved session |
| ClientStorage.SaveLeavesOthers | frontend/src/utils/storage.ts:50-61 | saving never changes the lookup of another id |
| ClientStorage.SaveKeepsIdsUnique | frontend/src/utils/storage.ts:50-61 | unique ids stay unique |
| ClientStorage.SaveIdempotent | frontend/src/utils/storage.ts:50-61 | saving twice equals saving once |
| ClientStorage.DeleteRemovesAll | frontend/src/utils/storage.ts:66-70 | no entry with the id remains, the lookup is then none, other entries all stay |
| ClientStorage.DeleteUnknownKeeps | frontend/src/utils/storage.ts:66-70 | deleting an absent id changes nothing |
| ClientStorage.DeleteKeepsOrder | frontend/src/utils/storage.ts:66-70 | with unique ids, deleting removes exactly the entry at its position and keeps the order |
| ClientStorage.SessionName | frontend/src/utils/storage.ts:113-119 | up to 30 characters unchanged; longer inputs keep their first 30 plus `...`; at most 33 |
| ClientStorage.Preview | frontend/src/utils/storage.ts:104 | up to 50 characters unchanged; longer content becomes its first 50 characters followed by `...` |
| ClientStorage.ToSessionListItem | frontend/src/utils/storage.ts:96-108 | count of messages; preview of the last message, or the text `undefined` when there is none |
| ClientStorage.LocalStorage.GetSessions | frontend/src/utils/storage.ts:18-26 | the stored list, `[]` when absent or unparsable |
| ClientStorage.LocalStorage.SaveSessions | frontend/src/utils/storage.ts:31-37 | the list is stored; the active id is untouched |
| ClientStorage.LocalStorage.GetSession | frontend/src/utils/storage.ts:42-45 | the first stored session with that id, which is in the stored list |
| ClientStorage.LocalStorage.SaveSession | frontend/src/utils/storage.ts:50-61 | the stored list becomes the upsert of the old one |
| ClientStorage.LocalStorage.DeleteSession | frontend/src/utils/storage.ts:66-70 | the stored list becomes the old one filtered |
| ClientStorage.LocalStorage.GetActiveSessionId | frontend/src/utils/storage.ts:75-77 | the active id slot |
| ClientStorage.LocalStorage.SetActiveSessionId | frontend/src/utils/storage.ts:82-84 | the active id is set; the session list is untouched |
| ClientStorage.LocalStorage.ClearActiveSessionId | frontend/src/utils/storage.ts:89-91 | the active id is removed; the session list is untouched |

## Left out

- Network I/O: the axios `post` and `get` calls, `healthCheck` and `getModels` are not modelled. The endpoint is a function parameter of the client settings and the body; how a base URL or a timeout changes the outcome is left to that function.
- The wall clock and `uuidv4` are parameters. Each operation uses one instant `now`, where the source may read the clock several times and see slightly different instants (an `addMessage` on a new id reads it three times, four when the insertion triggers cleanup).
- Concurrency: the `await` between reading a transcript and appending to it lets requests interleave. The handlers are modelled one at a time.
- Aliasing: `getOrCreateSession`, `addMessage`, `getMessages` and `getSessionInfo` return the live session object or its array. Later mutation through those references is not modelled; values are copied.
- `temperature` is a Dafny `real`. `parseFloat`/`parseInt` of environment text, `NaN` and floating-point rounding are not modelled. The environment gives already-parsed numbers or nothing.
- `LlmService.MergeConfig`: a key given explicitly as `undefined` is treated as absent. In JavaScript such a key would overwrite the old value with `undefined`.
- Strings are sequences of Dafny characters. JavaScript lengths and `substring` count UTF-16 code units, so the 30- and 50-character cuts differ for text outside the Basic Multilingual Plane.
- `tokensUsed` and the `usage` counts are integers. The JSON number passed through may be fractional (the repository's mock server sends sums of `length / 4`); such values are not modelled.
- `console.error` in `errorHandler` is not modelled. A thrown value that is not an `Error` (no `name`, no `message`) reaching `errorHandler` is not modelled either: `ServerError` has no case for it, where the source would reply 500 with no message.
- Responses whose `usage` is missing, 2xx bodies without a `choices` array (where `choices[0]` would throw a `TypeError` that `handleError` turns into `UNKNOWN_ERROR`), and JSON that parses to something other than a list of sessions, are not modelled.
- `new Date(updatedAt)` in `toSessionListItem` is not modelled: the date is kept as its stored string.
- The timestamp fields the chat handler adds (`toISOString`) are a string parameter.
- A `localStorage.setItem` that throws (storage quota exceeded) is not modelled. `saveSessions` always writes.
- The style field of a request is an enumeration. An unknown style string would give a prompt ending in `undefined`. The validation middleware that rejects such strings is not part of this model.
- The server bootstrap, the API wrappers of the browser, the React components, the mock LLM server and the test scripts are not part of this model.
