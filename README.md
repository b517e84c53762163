# NapLink client runtime, modelled in Dafny

NapLink is a TypeScript client for the OneBot 11 protocol as NapCat serves
it over a WebSocket. This project models the runtime core of that client and
proves properties of the model:

- the connection manager and its socket handlers (connect, single-flight
  connect promises, connect timeouts, close handling, reconnect with
  exponential backoff, heartbeat);
- the API client (request ids, the table of pending requests and its timers,
  response settlement, retries, the stale-request sweep);
- inbound dispatch (responses vs. events, dropped heartbeat replies) and the
  event router's name hierarchy with its catch-all listeners;
- configuration merging and the error taxonomy;
- the chunked `upload_file_stream` upload and media hydration.

Each Dafny file holds one module. The modules follow the source files:

- `errors.dfy`: src/types/errors.ts;
- `config.dfy`: src/types/config.ts and src/utils/merge-config.ts;
- `logger.dfy`: src/utils/logger.ts;
- `connection_state.dfy`: src/core/connection/state.ts;
- `url.dfy`, `state_handler.dfy`, `close_handler.dfy`, `retry_handler.dfy`, `heartbeat_runner.dfy`: url.ts, state-handler.ts, close-handler.ts, retry-handler.ts and heartbeat-runner.ts in src/core/connection/;
- `manager.dfy`: src/core/connection/manager.ts together with src/core/connection/handlers.ts;
- `heartbeat.dfy`, `reconnect.dfy`: src/core/heartbeat.ts, src/core/reconnect.ts;
- `request_builder.dfy`, `retry.dfy`, `response_registry.dfy`: request-builder.ts, retry.ts and response-registry.ts in src/core/api/;
- `api_client.dfy`: src/core/api-client.ts;
- `dispatcher.dfy`, `event_router.dfy`: src/core/dispatcher.ts, src/core/event-router.ts;
- `upload_stream.dfy`: src/core/upload/stream.ts;
- `stream_api.dfy`: src/api/onebot/stream.ts;
- `media.dfy`: src/api/onebot/media.ts.

Three files have no source file of their own. `base.dfy` holds shared
vocabulary (options, results, bytes, decimal text, Node's timer delay).
`json.dfy` holds JSON values and the JavaScript operations on them.
`base64.dfy` holds the base64 encoding `Buffer` performs.

The modules that keep state in place are classes:

- `Logger.DefaultLogger`
- `Heartbeat.HeartbeatService`
- `Reconnect.ReconnectService`
- `ResponseRegistry.Registry`
- `ApiClient.Client`
- `Manager.ConnectionManager`
- `EventRouter.Router`

The other modules are functions over datatypes plus lemmas. Loops in the
source are methods with loop invariants:

- the retry loop;
- the table sweeps;
- chunk iteration;
- the upload's call sequence;
- media hydration.

The WebSocket library, timers, the clock, `randomUUID`, SHA-256 digests, the
file system and the server's replies are outside the program. They appear as
parameters:

- A clock reading is an argument `now`.
- An armed timer is an entry in a map to its due time. The environment fires
  a timer by calling the matching event method.
- A socket is a value recording its ready state, the frames sent on it and
  the `close` calls made on it.
- A server reply is an oracle function from the call to its outcome.
- A promise is a number; its settlements are recorded in a log.

JavaScript semantics are written out where they matter:

- `??`, truthiness, `?.`, `||` defaults;
- property assignment that appends a new key;
- `Buffer.slice` clamping, `Math.ceil`, POSIX `path.basename`;
- `String(n)` in template strings;
- Node's clamp of a timer delay to 1 ms when it is undefined or out of range.

Known behaviours of the code are modelled as written:

- A heartbeat timeout calls `disconnect(4000, ...)`, which sets
  DISCONNECTED. The close event that follows therefore never reconnects, even
  though the log line at src/core/heartbeat.ts:46 says a reconnect is
  triggered.
- `send` on a socket that is still CONNECTING reports code -1. This comes from
  `readyState || -1`.
- When a newer socket has replaced an older one, a handler of the older
  socket that clears "the" connect timeout clears the newer socket's timeout.
- `startHeartbeat` does not stop the service it replaces.

## Model

| member | source | states |
|---|---|---|
| Base.TimerDelay | src/core/api/response-registry.ts:39-42 | a timer delay that is undefined, below 1 or above 2^31-1 ms is 1 ms, and any other delay is kept, so a refresh with the unset request timeout re-arms for 1 ms |
| Base.ParseNatToString | src/core/api-client.ts:145 | the decimal text of a counter reads back as the counter |
| Base.NatToStringInjective | src/core/api-client.ts:145 | distinct counters render as distinct decimal strings |
| Json.Set | src/api/onebot/media.ts:39-40 | after `obj.key = x` the key reads `x`, every other key reads as before, and a non-object is unchanged |
| Errors.ToJsonInjective | src/types/errors.ts:21-28 | `toJSON` loses nothing: two NapLink errors with the same name, message, code and details are the same error |
| Errors.Code | src/types/errors.ts:35-111 | each class has its fixed code, and every code starts with `E_` |
| Errors.ApiErrorMessagePrecedence | src/types/errors.ts:59-72 | an ApiError's message is a non-empty wording, else a non-empty message, else the default text naming the action; the details keep the action and retcode |
| Errors.CodeDeterminesClass | src/types/errors.ts:35-111 | two NapLink errors with the same code are of the same class |
| Errors.IsRetryable | src/core/api/retry.ts:25-28 | the retry loop retries exactly the failures whose code is E_API_TIMEOUT or E_API_FAILED |
| Logger.RankOfName | src/utils/logger.ts:17-23 | exactly the five level names map to a rank, and 'off' maps to the highest |
| Logger.RanksOrdered | src/utils/logger.ts:6-12 | debug < info < warn < error < off, and distinct levels have distinct ranks |
| Logger.PassesUpward | src/utils/logger.ts:70-72 | a level that passes the filter lets every higher level pass too |
| Logger.OffSuppressesEverything | src/utils/logger.ts:43-72 | with level 'off' no debug, info, warn or error message passes |
| Logger.DefaultLogger.constructor | src/utils/logger.ts:32-34 | the filter starts at the named level (default 'info') and nothing has been written |
| Logger.DefaultLogger.SetLevel | src/utils/logger.ts:39-41 | the filter becomes the named level and earlier output is untouched |
| Logger.DefaultLogger.ShouldLog | src/utils/logger.ts:70-72 | the filter is a threshold: a level that is written lets every higher level be written; under 'off' only the off level itself would pass |
| Logger.DefaultLogger.Log | src/utils/logger.ts:43-65 | a message is written, once, exactly when its level passes the filter |
| Config.MergeConfig | src/utils/merge-config.ts:8-49 | a missing or empty url fails with InvalidConfigError('connection.url', ...), and otherwise the url and token are kept as given |
| Config.MergeIdempotent | src/utils/merge-config.ts:13-48 | merging a merged configuration again changes nothing |
| Config.MergeDefaults | src/utils/merge-config.ts:17-47 | with only a url, every other field takes `DEFAULT_CONFIG`'s value: 30000 ms timeout and ping interval, get_status heartbeat, reconnect enabled with 10 attempts and backoff 1000/60000/x2, level 'info', API 30000 ms and 3 retries |
| Config.MergeKeepsGivenValues | src/utils/merge-config.ts:17-46 | every given field is kept rather than defaulted, 0 and `false` included: connection timeout, ping interval, heartbeat action, reconnect enabled, max attempts, the three backoff fields, logging level, API timeout and retries |
| Config.MergeDefaultsPerField | src/utils/merge-config.ts:17-46 | field by field, a value left out, or a whole section left out, takes its `DEFAULT_CONFIG` value, whatever the other fields say |
| Url.BuildWebSocketUrl | src/core/connection/url.ts:3-10 | an absent or empty token leaves the url unchanged; otherwise the result is the url, then `&` if the url has a `?` and `?` if not, then `access_token=` and the token |
| Url.TokenUrlHasQuery | src/core/connection/url.ts:5-9 | a url with a token always carries a query |
| RequestBuilder.BuildRequestPayload | src/core/api/request-builder.ts:6-15 | the frame has exactly the keys action, params and echo, in that order, holding the given values |
| StateHandler.HandleConnectionStateChange | src/core/connection/state-handler.ts:10-33 | 'state_change' with the new state comes first, and only CONNECTING raises nothing else |
| StateHandler.StateSignals | src/core/connection/state-handler.ts:15-31 | each state's complete signal list: connect (plus connection:restored after a reconnect), disconnect, reconnecting, or none |
| StateHandler.RestoredIff | src/core/connection/state-handler.ts:19-25 | 'connection:restored' is raised iff the state is CONNECTED and the change came from a reconnect |
| CloseHandler.HandleCloseEvent | src/core/connection/close-handler.ts:17-46 | the heartbeat is stopped first; the reconnect decision is taken iff the code is not 1000 and the state is not DISCONNECTED, and otherwise the state becomes DISCONNECTED |
| CloseHandler.NoReconnectAfterDisconnect | src/core/connection/close-handler.ts:24-45 | a close arriving after DISCONNECTED never reconnects, whatever its code |
| RetryHandler.HandleReconnect | src/core/connection/retry-handler.ts:15-47 | true iff attempts remain and one was scheduled; RECONNECTING then schedule exactly when attempts remain; DISCONNECTED, and the exhaustion callback at most once, on failure |
| HeartbeatRunner.HeartbeatInterval | src/core/connection/heartbeat-runner.ts:15-20 | a heartbeat runs iff the ping interval is positive and a non-empty action is configured, with that interval |
| HeartbeatRunner.PingEcho | src/core/connection/heartbeat-runner.ts:29 | every ping echo starts with `heartbeat_` |
| HeartbeatRunner.PingPayload | src/core/connection/heartbeat-runner.ts:26-30 | the ping has the keys action, params and echo; params defaults to `{}` when null or undefined |
| Heartbeat.TickStep | src/core/heartbeat.ts:34-51 | a tick counts a miss iff more than three intervals have passed since the last pong, and times out iff it is overdue and the count reaches three |
| Heartbeat.GivesUpOnThirdMiss | src/core/heartbeat.ts:33-56 | without a pong, the service times out iff three ticks in all have been overdue, and every tick before that one pings |
| Heartbeat.HeartbeatService.constructor | src/core/heartbeat.ts:7-18 | no timer is armed and the counters are zero |
| Heartbeat.HeartbeatService.Start | src/core/heartbeat.ts:23-57 | a non-positive interval changes nothing; otherwise the pong time is now, the miss count is 0 and a new interval is armed, while an earlier one stays armed |
| Heartbeat.HeartbeatService.Tick | src/core/heartbeat.ts:33-56 | the miss count and the action follow TickStep, and a timeout stops the latest interval |
| Heartbeat.HeartbeatService.Stop | src/core/heartbeat.ts:62-68 | the latest interval is cleared and nothing else changes |
| Heartbeat.HeartbeatService.RecordPong | src/core/heartbeat.ts:73-77 | the pong time is now, the miss count is 0 and the timers are untouched |
| Heartbeat.HeartbeatService.IsActive | src/core/heartbeat.ts:82-84 | an active service always has its interval armed; Start makes it active and Stop inactive |
| Reconnect.NextBackoff | src/core/reconnect.ts:63-66 | the next backoff is the current one times the multiplier, capped at the maximum |
| Reconnect.BackoffClosedForm | src/core/reconnect.ts:63-66 | for a config with 0 <= initial <= max and multiplier >= 1: after k failures the backoff is min(initial * multiplier^k, max) |
| Reconnect.BackoffMonotone | src/core/reconnect.ts:63-66 | for a config with 0 <= initial <= max and multiplier >= 1: the backoff never shrinks from one failure to the next and never exceeds the maximum |
| Reconnect.SettledAllBackoff | src/core/reconnect.ts:55-69 | after a run of reconnect continuations the backoff is the one reached by the failures since the last success |
| Reconnect.SettledAllBounded | src/core/reconnect.ts:33-69 | reconnect continuations never count an attempt beyond maxAttempts, and a run ending in a success leaves the count 0, the backoff initial and no timer held |
| Reconnect.ReconnectService.constructor | src/core/reconnect.ts:8-18 | no attempt made, backoff at its initial value, no timer armed |
| Reconnect.ReconnectService.HasRemainingAttempts | src/core/reconnect.ts:20-22 | with a maximum of zero or less no attempt is ever left |
| Reconnect.ReconnectService.Schedule | src/core/reconnect.ts:33-73 | schedules iff reconnecting is enabled and attempts remain; then it counts the attempt and arms a timer due after the current backoff, without clearing an earlier timer |
| Reconnect.ReconnectService.Fire | src/core/reconnect.ts:54-55 | the timer that runs is disarmed and the attempt count and backoff are unchanged |
| Reconnect.ReconnectService.AttemptSettled | src/core/reconnect.ts:55-69 | is the step Settled: a success resets attempts and backoff and clears the latest timer; a failure raises the backoff and then schedules iff enabled and attempts remain, arming a timer due after the raised backoff, and otherwise leaves attempts, timers and the held handle alone |
| Reconnect.ReconnectService.Reset | src/core/reconnect.ts:79-83 | attempts 0, backoff initial, and the latest timer cleared |
| Reconnect.ReconnectService.Cancel | src/core/reconnect.ts:88-93 | only the latest timer is cleared |
| Retry.RetryDelay | src/core/api/retry.ts:34 | the wait after a failed attempt is between 1 and 5 s, and 5 s from the fifth attempt on |
| Retry.DelaysGrow | src/core/api/retry.ts:34 | the waits between retries never shrink and stay at most 5 s |
| Retry.WithRetry | src/core/api/retry.ts:4-43 | at most retries+1 attempts; every attempt but the last failed with a retryable error; the result is the last attempt's, which succeeded, was the final one or failed with a non-retryable error; the waits are RetryDelay's; a negative retry count throws undefined without calling |
| ResponseRegistry.RejectAllRejectsEach | src/core/api/response-registry.ts:73-79 | clearing rejects every pending request once, in insertion order, with the same reason |
| ResponseRegistry.KeepFreshMembers | src/core/api/response-registry.ts:81-88 | the sweep keeps exactly the entries that are not older than the maximum age |
| ResponseRegistry.StaleEffectsCount | src/core/api/response-registry.ts:81-88 | each stale entry yields one notice and one rejection, and a kept entry yields none |
| ResponseRegistry.RemoveStaleMembers | src/core/api/response-registry.ts:81-88 | the sweep removes exactly the stale entries and leaves the others as they were |
| ResponseRegistry.WithoutDistinct | src/core/api/response-registry.ts:64-71 | taking a key out of the insertion order keeps it duplicate-free and removes exactly that key |
| ResponseRegistry.Registry.constructor | src/core/api/response-registry.ts:15-16 | an empty table with no timers |
| ResponseRegistry.Registry.Add | src/core/api/response-registry.ts:18-31 | arms a timeout for the entry and stores it under its echo, so that `get` then returns it; an entry already stored there is replaced and its timer stays armed |
| ResponseRegistry.Registry.Refresh | src/core/api/response-registry.ts:33-44 | an unknown echo changes nothing; otherwise the old timer is cleared, a new one is armed with the entry's own timeoutMs and createdAt becomes now |
| ResponseRegistry.Registry.Take | src/core/api/response-registry.ts:64-71 | removes the entry, clears its timer and returns it, and returns nothing for an unknown echo; `get` then finds nothing |
| ResponseRegistry.Registry.Resolve | src/core/api/response-registry.ts:46-53 | an entry that exists is removed, its timer cleared and its promise resolved with the data; an unknown echo settles nothing |
| ResponseRegistry.Registry.Reject | src/core/api/response-registry.ts:55-62 | an entry that exists is removed, its timer cleared and its promise rejected with the error; an unknown echo settles nothing |
| ResponseRegistry.Registry.Fire | src/core/api/response-registry.ts:19-22 | a timeout deletes whatever is stored under its echo and rejects the request it was armed for with ApiTimeoutError |
| ResponseRegistry.Registry.ClearAll | src/core/api/response-registry.ts:73-79 | every timer of the table is cleared, every request rejected in order, and the table emptied |
| ResponseRegistry.Registry.CleanupStale | src/core/api/response-registry.ts:81-88 | the stale entries are reported, rejected with a timeout naming maxAge/2, and removed, in order; the others stay |
| ResponseRegistry.Registry.Visit | src/core/api/response-registry.ts:83-86 | one entry of the sweep: reported, rejected and removed if stale, left alone otherwise |
| ApiClient.RequestId | src/core/api-client.ts:144-146 | every request id starts with `naplink_`, so none looks like a heartbeat echo |
| ApiClient.RequestIdInjective | src/core/api-client.ts:145 | two request ids are equal only when clock and counter were, so distinct counters give distinct ids |
| ApiClient.IssueKeeps | src/core/api-client.ts:144-146 | a counter value not used before yields an id not issued before |
| ApiClient.Settlement | src/core/api-client.ts:62-78 | a response resolves with its data iff status is 'ok' or retcode is 0, and otherwise rejects with ApiError(action, retcode, message, wording) |
| ApiClient.SettlementRejects | src/core/api-client.ts:65-78 | a failed response rejects with an ApiError that the retry loop retries, whose message follows wording, message, default |
| ApiClient.RetcodeZeroSucceeds | src/core/api-client.ts:62 | retcode 0 succeeds whatever the status says |
| ApiClient.Call | src/core/api-client.ts:33-48 | every attempt uses the call's timeout option, else the configured one; the retry loop runs with the call's retries option, else the configured count, so an explicit `retries: 0` makes exactly one attempt; the result is WithRetry's |
| ApiClient.SweepNamesApiTimeout | src/core/api-client.ts:152-161 | the sweep's timeout error names the API timeout itself |
| ApiClient.Client.constructor | src/core/api-client.ts:19-25 | empty table, counter 0, and the one-minute sweep armed |
| ApiClient.Client.GenerateRequestId | src/core/api-client.ts:144-146 | returns an id never issued before and advances the counter |
| ApiClient.Client.SendRequest | src/core/api-client.ts:98-132 | the request is registered under a fresh id, displacing nothing; when connected its frame is sent; when not connected it is rejected with ConnectionClosedError(-1, ...), and when `send` throws it is rejected with the thrown error; a rejected request is taken out again. A sent request keeps one new timer, due at now + TimerDelay(timeout) and carrying its echo, promise, action and timeout (so it later rejects with ApiTimeoutError(action, timeout)); a rejected one leaves the timer table as it was |
| ApiClient.Client.Register | src/core/api-client.ts:104-118 | a fresh id and promise, and the request stored under that id; a new timer handle, due at now + TimerDelay(timeout), is armed for its echo, promise, action and timeout |
| ApiClient.Client.TrySend | src/core/api-client.ts:121-130 | sends the frame while connected, keeping the entry and its timer; otherwise rejects with a connection-closed error; a `send` that throws rejects with its error; a rejected entry is removed and its timer cleared |
| ApiClient.Client.HandleResponse | src/core/api-client.ts:54-79 | the matching request is taken out and settled as Settlement says; an unknown or repeated echo changes nothing |
| ApiClient.Client.Destroy | src/core/api-client.ts:84-93 | every pending request is rejected in order, the table and its timers are emptied and the sweep stops |
| ApiClient.Client.Sweep | src/core/api-client.ts:152-161 | requests older than twice the API timeout are rejected and removed, exactly their timers are cleared, and the sweep is re-armed a minute later |
| ApiClient.Client.OnRequestTimeout | src/core/api/response-registry.ts:19-22 | a request's timeout removes it, disarms that timer only, and rejects it with ApiTimeoutError of the timer's action and timeout |
| Dispatcher.Dispatch | src/core/dispatcher.ts:16-34 | a frame that failed to parse or is null is caught; a truthy echo is a response unless it starts with `heartbeat_`, and then it is dropped; anything else is an event |
| Dispatcher.IsHeartbeatEcho | src/core/dispatcher.ts:23 | a heartbeat echo is always truthy, so it reaches the heartbeat check inside the response branch |
| Dispatcher.PingRepliesDropped | src/core/dispatcher.ts:23-25 | the reply to every ping is dropped |
| Dispatcher.RequestRepliesAnswered | src/core/dispatcher.ts:21-26 | the reply to every API request reaches handleResponse with its echo |
| EventRouter.MetaEventNames | src/core/event-router.ts:89-98 | `meta_event`, `meta_event.<type>`, plus `meta_event.lifecycle.<sub_type>` exactly for lifecycle events |
| EventRouter.MessageNames | src/core/event-router.ts:103-130 | always three names, kind, kind.message_type and kind.message_type.sub_type, even for a missing property |
| EventRouter.TypedNames | src/core/event-router.ts:135-162 | kind and kind.type, plus kind.type.sub_type exactly for a truthy sub_type |
| EventRouter.RouteNames | src/core/event-router.ts:43-84 | a frame without a truthy post_type emits nothing; every other frame emits 'raw' last |
| EventRouter.RouteShapes | src/core/event-router.ts:58-80 | a message emits its three names and then 'raw'; an unknown post type emits only 'unknown' and 'raw' |
| EventRouter.EmitCalls | src/core/event-router.ts:26-37 | one call per catch-all listener, then the named listeners last |
| EventRouter.CatchAllFirst | src/core/event-router.ts:26-37 | every catch-all listener runs before the named listeners, in registration order, with the event name and frame |
| EventRouter.NamedEventsOfEmit | src/core/event-router.ts:36 | one emit reaches the named listeners exactly once, under its name |
| EventRouter.EmitAllNamesInOrder | src/core/event-router.ts:167-172 | the named listeners hear the names in list order, once each, whatever catch-all listeners exist |
| EventRouter.EmitAllLength | src/core/event-router.ts:167-172 | each name costs one call per catch-all listener plus one named call |
| EventRouter.Router.constructor | src/core/event-router.ts:8-13 | no catch-all listener and no call yet |
| EventRouter.Router.OnAny | src/core/event-router.ts:18-21 | the listener is appended to the catch-all listeners |
| EventRouter.Router.Emit | src/core/event-router.ts:26-37 | the calls made are EmitCalls's |
| EventRouter.Router.Route | src/core/event-router.ts:43-84 | the frame's route names are emitted in turn |
| EventRouter.Router.EmitEvents | src/core/event-router.ts:167-172 | the given names are emitted in turn |
| Manager.ConnectTimeoutOfMerged | src/core/connection/handlers.ts:27 | merging keeps an explicit connect timeout of 0, but the connect timer still waits 30000 ms; an absent timeout waits the default, any other is used as given |
| Manager.NotOpenCodes | src/core/connection/manager.ts:137-141 | the code of a refused send is never OPEN, and it is -1 both for a missing socket and for one still connecting |
| Manager.Promises.Start | src/core/connection/manager.ts:47 | a new connect promise is created and held as the one in flight |
| Manager.Promises.Settle | src/core/connection/manager.ts:49-53 | a promise keeps its first outcome, no other promise's outcome changes, and the `finally` forgets the settled promise |
| Manager.SettleKeepsFirst | src/core/connection/manager.ts:60-105 | settling a promise a second time changes nothing |
| Manager.SettlingEndsFlight | src/core/connection/manager.ts:41-53 | while a promise is in flight it is unsettled, and settling it ends the flight |
| Manager.ConnectTimeouts.Arm | src/core/connection/manager.ts:106 | a new connect timeout is armed and held as the latest |
| Manager.ConnectTimeouts.ClearLatest | src/core/connection/manager.ts:196-201 | only the latest connect timeout is cleared |
| Manager.ConnectTimeouts.Ran | src/core/connection/handlers.ts:28-34 | a timeout that runs is disarmed and the held handle stays |
| Manager.ClearingHitsLatestOnly | src/core/connection/manager.ts:196-201 | with no newer socket a socket's own timeout is cleared; after a newer socket armed one, clearing leaves the older timeout armed |
| Manager.ContinuationsSplitWaiters | src/core/reconnect.ts:54-69 | each settled waiter gets one continuation, and exactly the unsettled waiters keep waiting |
| Manager.ConnectionManager.constructor | src/core/connection/manager.ts:19-34 | DISCONNECTED, no socket, no promise, no timer, no heartbeat |
| Manager.ConnectionManager.IsConnected | src/core/connection/manager.ts:157-162 | while connected the held socket is open, so `send` reaches it; outside CONNECTED it is false. OnOpen of the held socket makes it true, and Disconnect and OnClose make it false |
| Manager.ConnectionManager.SetState | src/core/connection/manager.ts:167-173 | the state is set, and the observer hears of it only when it changed |
| Manager.ConnectionManager.StopHeartbeat | src/core/connection/manager.ts:178-183 | the held service is stopped and dropped |
| Manager.ConnectionManager.StartHeartbeat | src/core/connection/manager.ts:80-89 | without an interval there is no service; otherwise a fresh, started service with that interval replaces the held one, which is not stopped |
| Manager.ConnectionManager.Send | src/core/connection/manager.ts:136-145 | succeeds iff the held socket is open and the library's `send` does not throw, and then the frame goes out; a socket that is not open fails with ConnectionClosedError(NotOpenCode, ...), a throwing `send` fails with its error, and then nothing is sent |
| Manager.ConnectionManager.Connect | src/core/connection/manager.ts:39-107 | while a connect is in flight every caller gets its promise and nothing changes; otherwise CONNECTING, a new promise, and either an immediate rejection when the socket cannot be created or a new held socket with its connect timeout armed |
| Manager.ConnectionManager.Disconnect | src/core/connection/manager.ts:115-131 | the latest reconnect timer is cancelled, the heartbeat stopped, the held socket closed with the code and reason (a throwing close is caught) and dropped, and the state DISCONNECTED |
| Manager.ConnectionManager.OnOpen | src/core/connection/handlers.ts:36-43 | the socket is open, the held connect timeout cleared, the state CONNECTED, the reconnect state reset (Restarted: attempt 0, initial backoff, the held reconnect timer cleared), a heartbeat started when configured, and the socket's promise resolved; the observer is told CONNECTED once, unless the manager already was |
| Manager.ConnectionManager.OnError | src/core/connection/handlers.ts:45-51 | the held connect timeout is cleared and the socket's promise rejected with ConnectionError('WebSocket 错误', event) |
| Manager.PlanNotices | src/core/connection/retry-handler.ts:15-47 | the observer notifications of the manager's reconnect (ReconnectNotices) are exactly the state changes of the steps of the `handleReconnect` plan, with `setState` (src/core/connection/manager.ts:167-172) reporting only a changed state |
| Manager.ConnectionManager.HandleReconnect | src/core/connection/retry-handler.ts:15-47 | RECONNECTING with a reconnect armed iff reconnecting is enabled and attempts remain, and DISCONNECTED otherwise; the reconnect state becomes Scheduled of the old one (attempt counted, timer armed after the current backoff and held); the observer is told ReconnectNotices: DISCONNECTED when no attempts remain, otherwise RECONNECTING and then DISCONNECTED when the schedule is refused |
| Manager.ConnectionManager.OnClose | src/core/connection/close-handler.ts:17-46 | the socket is closed, the timeout cleared, the heartbeat stopped, and a reconnect scheduled iff the code is not 1000, the state was not DISCONNECTED, reconnecting is enabled and attempts remain; the reconnect state then becomes Scheduled of the old one, and on a normal or post-disconnect close it is unchanged; on a normal or post-disconnect close the observer is told DISCONNECTED unless it already was, and on the reconnect path it is told ReconnectNotices |
| Manager.ConnectionManager.OnMessage | src/core/connection/handlers.ts:58-65 | every frame counts as a pong for the held heartbeat and is handed to onMessage |
| Manager.ConnectionManager.OnConnectTimeout | src/core/connection/handlers.ts:28-34 | a socket that is not open when its timeout runs is closed and its promise rejected with the timeout message; an open socket is left alone |
| Manager.ConnectionManager.OnReconnectTimer | src/core/reconnect.ts:54-56 | the timer is disarmed and nothing else in the reconnect state changes; `connect()` runs with all of Connect's effects (the in-flight promise reused, or the CONNECTING notice, a new promise and either the creation failure or a new held socket with its connect timeout armed); the continuation waits for the promise |
| Manager.ConnectionManager.RunContinuations | src/core/reconnect.ts:55-69 | every waiting continuation whose promise settled runs, in order, and only the unsettled ones keep waiting; the reconnect state afterwards is SettledAll over the settled outcomes |
| Manager.ConnectionManager.OnHeartbeatTick | src/core/connection/manager.ts:188-191 | a ping goes out as PingPayload when the socket is open and `send` does not throw; after the third miss the manager disconnects: the held socket gets close(4000, '心跳超时') unless close throws, the latest reconnect timer is cancelled, and it ends DISCONNECTED |
| UploadStream.BasenameOfJoin | src/core/upload/stream.ts:28-34 | the base name of `dir/name` is `name`, so a temporary file uploads under its own name |
| UploadStream.BasenameOfName | src/core/upload/stream.ts:20 | a name without '/' is its own base name |
| UploadStream.PrepareStreamSource | src/core/upload/stream.ts:14-39 | a path is read in place with its stat size; a buffer is read from memory as `upload.bin` unless renamed; a stream is read from its temp file, the only source with a cleanup |
| UploadStream.DerivedNamesHaveNoSlash | src/core/upload/stream.ts:18-39 | without an override, no derived file name contains '/' |
| UploadStream.Slice | src/core/upload/stream.ts:51 | `buf.slice` clamps both ends to the buffer's length |
| UploadStream.CeilDiv | src/api/onebot/stream.ts:30 | the least k with k * chunkSize >= size |
| UploadStream.CeilUnique | src/api/onebot/stream.ts:30 | the ceiling is the only number with that property |
| UploadStream.ChunksJoin | src/core/upload/stream.ts:47-54 | the chunks, joined, are the buffer up to its size |
| UploadStream.ChunksCount | src/core/upload/stream.ts:47-54 | there are ceil(size / chunkSize) chunks |
| UploadStream.ChunksFull | src/core/upload/stream.ts:47-54 | every chunk but the last is full, and the last holds between 1 and chunkSize bytes |
| UploadStream.NoChunksWhenEmpty | src/core/upload/stream.ts:49 | an empty buffer yields no chunk |
| UploadStream.IterateChunks | src/core/upload/stream.ts:41-55 | the loop yields exactly the chunks, which join to the buffer and number ceil(size / chunkSize) |
| Base64.EncodeLength | src/api/onebot/stream.ts:40 | every started group of three bytes takes four characters |
| Base64.DecodeEncode | src/api/onebot/stream.ts:40 | decoding a chunk's base64 text gives the chunk back |
| Base64.EncodeInjective | src/api/onebot/stream.ts:40 | distinct chunks are sent as distinct texts |
| Base64.EncodeExamples | src/api/onebot/stream.ts:40 | the test vectors of section 10 of RFC 4648 for "f", "fo" and "foo" |
| StreamApi.EncodeAllDecodes | src/api/onebot/stream.ts:40 | each chunk is encoded on its own, in order, and each text decodes back to exactly its chunk |
| StreamApi.Header | src/api/onebot/stream.ts:24-30 | the stream id and digest default to the UUID and computed hash, the chunk count is ceil(size / chunkSize) with chunkSize the option or else 256 KiB, and size, name, retention and verify_only come from the source and options |
| StreamApi.UploadFileStream | src/api/onebot/stream.ts:23-65 | the calls made are a prefix of the plan, every reply but the last succeeded, the result is the last reply, and stopping early means failure; the temp file is removed iff the upload succeeded and there is one |
| StreamApi.SendAll | src/api/onebot/stream.ts:32-61 | the optional reset, then the chunks, then the completion, each awaited; the first failure ends the upload with its error |
| StreamApi.SendChunks | src/api/onebot/stream.ts:36-56 | chunk i goes out as the i-th chunk call, and the first failing call ends the loop with its error |
| StreamApi.PlanShape | src/api/onebot/stream.ts:32-61 | reset first exactly when requested, chunk i with index i next, completion last |
| StreamApi.ChunkFieldsRead | src/api/onebot/stream.ts:38-46 | the seven mandatory fields of a chunk payload read back |
| StreamApi.ChunkPayload | src/api/onebot/stream.ts:38-53 | a chunk payload carries the seven fields, file_retention exactly when given and verify_only exactly when true |
| StreamApi.OptionalFieldsRead | src/api/onebot/stream.ts:47-52 | the two optional fields read back exactly when they are set |
| StreamApi.ChunkCallsAreNotControl | src/api/onebot/stream.ts:32-61 | a chunk call is neither the reset nor the completion call |
| StreamApi.UploadCarriesBuffer | src/api/onebot/stream.ts:27-56 | a buffer upload's chunks join to the buffer, number the announced total, and each decodes from its base64 text |
| StreamApi.ElevenBytesExample | tests/api.test.ts:148-168 | 11 bytes in chunks of 4 with reset take five calls: reset, three chunk calls announcing three chunks with the optional fields, completion |
| StreamApi.ElevenBytesHeader | tests/api.test.ts:148-168 | the eleven-byte upload announces three chunks of an 11-byte file |
| StreamApi.ElevenBytesChunks | tests/api.test.ts:148-168 | eleven bytes split into 4, 4 and 3 |
| StreamApi.StatusCall | src/api/onebot/stream.ts:67-69 | the status call sends only `{ stream_id }` |
| Media.Fallback | src/api/onebot/media.ts:45-59 | get_record as mp3 for record and audio, get_image for image, nothing for video and file |
| Media.Lookup | src/api/onebot/media.ts:36-59 | a URL found is always truthy |
| Media.WriteUrl | src/api/onebot/media.ts:39-40 | url and file both become the URL, and every other field is unchanged |
| Media.Considered | src/api/onebot/media.ts:26-30 | only an object segment with a type and data is considered |
| Media.HydrateSegment | src/api/onebot/media.ts:25-64 | a segment costs a lookup iff it is a media segment whose `file ?? file_id` still needs one; at most two lookups are made; a segment with no lookup is unchanged |
| Media.HydrateAllAt | src/api/onebot/media.ts:25-65 | in the batch every segment ends up exactly as if it were hydrated alone, with its own lookups |
| Media.HydrateMedia | src/api/onebot/media.ts:22-66 | a non-array is returned as it is; otherwise each segment is hydrated on its own, with its own lookups |
| Media.SkippedSegments | src/api/onebot/media.ts:26-33 | a non-media segment, or one whose id is missing or already a URL, is unchanged and costs no lookup |
| Media.GetFileFirst | src/api/onebot/media.ts:36-59 | a looked-up segment asks get_file first, and at most one more lookup follows |
| Media.LookupOrder | src/api/onebot/media.ts:36-59 | the fallback is asked exactly when get_file succeeded without a URL and the kind has one |
| Media.LookupUrl | src/api/onebot/media.ts:36-59 | the URL is get_file's when it found one, else the fallback's, and nothing after a failure |
| Media.ErrorsSwallowed | src/api/onebot/media.ts:60-62 | a failing lookup leaves the segment as it was |
| Media.OnlyUrlAndFile | src/api/onebot/media.ts:26-59 | hydration changes only url and file of the segment's data, both to the same truthy URL |
| Media.UrlIdsAreKept | src/api/onebot/media.ts:33 | an id that is already an http://, https:// or file:// URL, or is not a string, is never looked up |

## Left out

- I/O is outside the model: the WebSocket library, JSON serialisation of outgoing frames, `JSON.parse`, the file system (`fs.stat`, read streams, temp-file creation and `unlink`). Sockets, the parse outcome, stat sizes, temp paths and the chunks a file read stream yields are inputs.
- `Date.now()`, `randomUUID()` and SHA-256 digests are parameters. The digest is never computed.
- Logging output is not modelled beyond `DefaultLogger`'s level filter. The `logger.debug`/`info`/`warn`/`error` calls in the other files are omitted, including media's debug log of failed lookups.
- Concurrency: each timer callback, event handler and `await` continuation is one method that the environment calls. Media hydration handles segments one after another instead of with `Promise.all`; each segment touches only its own `data`, and aliasing of the same `data` object between segments is not modelled.
- ApiClient.Call: the outcome of each attempt is an oracle. The promise plumbing that links an attempt to `sendRequest` with the effective timeout is not modelled.
- ApiClient.Client.TrySend: `JSON.stringify` of a frame cannot throw on a JSON value of the model (no cycles, no BigInt), so only a throwing `ws.send` reaches the `catch`.
- `callStream` and its `onPacket`/`onEnd`/`onError` hooks are not modelled. The pending entries created by `sendRequest` never carry them.
- ResponseRegistry.Registry.Refresh: `sendRequest` never sets `timeoutMs`, so a refresh re-arms with an undefined delay, which Node runs after 1 ms. The model does the same via TimerDelay.
- Config.MergeConfig: the backoff multiplier is a natural number; fractional multipliers are not modelled. `CleanupStale`'s `maxAge / 2` uses integer division.
- Reconnect.BackoffClosedForm: assumes 0 <= initial <= max and multiplier >= 1, which `mergeConfig` does not check (src/utils/merge-config.ts:28-36); with initial above max the first delay exceeds max, and with multiplier 0 the delay drops to 0 after one failure. NextBackoff and the reconnect service themselves take any config.
- Reconnect.BackoffMonotone: assumes the same 0 <= initial <= max and multiplier >= 1, which the merged config does not enforce.
- Numbers in JSON values are integers; floating point is not modelled.
- StreamApi.UploadFileStream: requires a positive chunk size. With chunkSize 0 or negative, the Buffer loop of `iterateChunks` (src/core/upload/stream.ts:47-52) never advances on a non-empty buffer and does not terminate. An empty buffer skips that loop, and a path source hands the size to `createReadStream` as `highWaterMark`; neither case is modelled for such a chunk size.
- StreamApi.StatusCall follows the source, which sends only `{ stream_id }`. The expectation at tests/api.test.ts:170-172 is not followed.
- The catch blocks around route and dispatch are modelled only as far as the frame is absent or null, and so only `JSON.parse` failures and null frames are caught. Exceptions thrown by listeners are not modelled, except in `emit`, where a throwing catch-all listener is caught.
- Manager.ConnectionManager.OnClose: the manager does not pass `onMaxAttemptsReached` to `handleCloseEvent`, so exhausted reconnects emit no extra signal. A close with no preceding error or timeout leaves the connect promise pending, as in the source.
- StreamApi.UploadFileStream: when a call fails, the temp-file cleanup is skipped, as in the source.
- The `NapLink` facade (src/naplink.ts), the typed OneBot wrappers (message, group, account, files, system, napcat, delegates) and the examples are not part of this model. They forward to `call` with fixed action names.
- State observers: NapLink passes a two-argument observer, but the manager calls it with one argument. StateHandler.HandleConnectionStateChange models the `wasReconnecting` flag as an input.
