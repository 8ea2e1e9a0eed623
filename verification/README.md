# Verification of the OCPP 1.6J client

A Dafny model of the client stack in `json_wo/`: frames and payloads, the session that correlates calls with replies,
the WebSocket write pipeline, the reconnect controller, the client loop that composes them, the server-side router, and
the lock-free metrics. Each is a small state machine driven by asynchronous events; the proofs are about every
interleaving and every run of those events. `dafny verify dfyconfig.toml` checks the whole project.

## How it is built

The objects of the source that update their fields are classes here (`Session`, `WsClient`, `ReconnectController`,
`Router`, `Metrics`, `Atomic`, `ClientLoop`), with the same methods, branches and constants. Each method of the first six
is proved to take the object's abstract value to what a step function says. A `ClientLoop` holds only the current
transport and session of a loop whose earlier ones may still be busy; each of its handlers is proved to take an object
that shows a state of the loop to one that shows the state after the corresponding event (`Shows`, `FrontOf`).

The theorems are about runs of the step functions. A run is a sequence of states and the events between them; a result
for `states[n]` with `n` arbitrary holds in every reachable state.

| file | models |
|---|---|
| `Json.dfy` | JSON values and the accessors that may throw, as `Result` |
| `OcppModel.dfy` | `ocpp_model.hpp`, `ocpp_model.cpp`: frames, payloads and their codec |
| `Router.dfy` | `router.hpp`, `router.cpp`: dispatch of a received text to a typed handler |
| `Metrics.dfy` | `metrics.cpp`: `update_max` under any interleaving with relaxed atomics, and the write counters |
| `Backoff.dfy` | `compute_backoff_` in `reconnect.hpp`: 64-bit shifts, clamping and jitter |
| `Reconnect.dfy` | `reconnect.hpp`: the controller, with timers and connects that complete later or at once |
| `WsClient.dfy` | `ws_client.hpp`: the strand, the bounded queue, one write in flight, and the close that waits for it |
| `Session.dfy` | `session.hpp`: the steps a session takes, and the class whose handlers are made of them |
| `SessionRuns.dfy` | what holds of a session in every interleaving of its steps |
| `CallbackRuns.dfy` | what each callback is given, and what becomes of each call's timer and line, in every interleaving |
| `HeartBeatRuns.dfy` | the heartbeat interval and the heartbeat timers in every interleaving |
| `SessionHandlers.dfy` | histories of whole handlers, as on a single-threaded io_context |
| `BootGate.dfy` | when a session is Ready, and when its heartbeat timers send |
| `GateRuns.dfy` | the same gate where threads interleave, and when closes and boot replies get in each other's way |
| `Registrations.dfy` | exactly once for each call made, with message ids that may repeat |
| `ReplyOrder.dfy` | replies in any order have the same effect |
| `EndToEnd.dfy` | a session and a router joined by a network that loses, duplicates and reorders texts |
| `ClientLoop.dfy` | `client_loop.cpp`: one controller, and a fresh transport and session for every connection |
| `LoopRuns.dfy` | what holds of the composed loop through any number of closes and reconnects |
| `LoopSessions.dfy` | each session of the loop takes a run of its own; its boot call and its heartbeat |
| `LoopNetwork.dfy` | the composed loop and a router joined by such a network |

In `Session.dfy` the unit of interleaving is what one thread does while it holds the lock, or one callback run after it
is released. A timer is waiting, expired with its handler queued, fired, or cancelled while it waited; cancelling does
nothing to a queued handler, so exactly-once rests on the erasure from the pending table. A callback that sends calls
is modelled by sends that may come at any later step.

## Where the code and its documentation disagree

The model follows the code.

- `tentative_close` tests `writes_in_flight_ != 0` (`ws_client.hpp:392`) where its comment says `== 0` (`ws_client.hpp:381`).
  The guard is a parameter. As documented, the close starts exactly when it is pending and the pipeline is idle; as
  written, it never starts (`CloseStartsExactlyWhen`).
- `transport_max_writes_in_flight()` is documented to reach 1 (`ws_client.hpp:440-446`) but is sampled after the
  decrement (`ws_client.hpp:323-326`) and is always 0 (`PipelineIsBoundedFifo`). The metric observed at
  `ws_client.hpp:316` does reach 1.
- The comment on `compute_backoff_` gives 2^(n-2) for n >= 2 (`reconnect.hpp:358`); the code gives 2^(n-1), and
  `CommentAgreesExactlyWhen` says when the two agree. With a zero initial delay the code jumps from 0 to the cap once the
  shift passes 63 (`BaseDelayIsCappedDoubling`).
- The documented result is at most the cap (`reconnect.hpp:371`), but the jitter comes after the clamp. No delay exceeds
  the cap if and only if `jitter_ratio * max_backoff` is less than one millisecond (`CapIsKeptExactlyWhen`, and over whole
  runs `RunsKeepCapExactlyWhen`); with draws that never reach 1, if and only if it is at most one millisecond
  (`CapIsKeptBelowOneExactlyWhen`, `RunsKeepCapBelowOneExactlyWhen`). `RatioHoldsFrom7` gives the bases at which rounding
  breaks the ratio of 0.6 between successive delays.
- `online_` is never cleared, so `can_send` holds on a connection whose own boot has not been accepted
  (`CanSendExactlyWhen`, and the run of `CanSendUnbooted`).
- `start()` during a backoff starts an attempt and leaves the backoff scheduled; a close after it does not advance
  `attempt_`. `CloseSchedulesOneBackoff` gives the condition in terms a caller can see, `StartDuringBackoff` a run; the
  client loop starts once, so there it cannot occur.
- The router's documentation keeps the unique id in every FormationViolation (`router.hpp:63-64`). `IdIsKeptExactlyWhen`
  says which replies keep it, and `IdIsLost` gives two Calls that lose it. A Call whose id is not a string is answered,
  even with a CallResult, under the empty id (`ResultExactlyWhenConfirmed`).
- Closing an open connection runs its connect completion a second time, with false (`client_loop.cpp:129-140`), so the
  controller counts a failure for an attempt it had counted a success: started + closes of open connections =
  succeeded + failed + outstanding (`RunKeepsLoop`).
- With several threads a boot call sent before a close can make the session Ready after it: the close may come between
  taking the boot's callback out of the table and running it (the run of `LateBootCallbackPassesTheGate`), or the whole
  reply may be handled after `on_close` has written the state and before it takes the lock (`session.hpp:431-434`; the run
  of `EarlyStateWritePassesTheGate`). `GateFailsExactlyWhen` and `ReadyAndGate` give the exact condition in terms of these
  two windows; with whole handlers the gate holds (`ReadyExactlyWhenBooted`).
- `stop()` is documented to end in `Closing` (`readme.md:25`). During a backoff it does nothing (`StopDuringBackoff`); an
  attempt under way, or a connection when there is no `async_close`, goes on as if it had not been called
  (`StopDoesNotEnd`); and on an open connection it is undone, by a backoff, if and only if the close it asked for completes
  before the transport reports the close (`StopEndsExactlyWhen`). In the client loop a close always undoes it: the handler
  takes the controller out of `Closing` before it reports (`StopIsUndoneInLoop`).
- Payloads are documented to be JSON objects (`ocpp_model.cpp:64-76`), and the boot call sends the legacy array
  (`CallsOnTheWire`, `BootCallComesFirst`). Its decoder takes both, and leaves both fields blank for a payload that is
  neither (`RequestDecodesExactlyWhen`).
- The close handler uses the session without a test (`client_loop.cpp:138`), and a close finds none exactly when no
  transport has opened yet (`CloseFindsNoSessionExactlyWhen`): the first handshake may be the one that fails
  (`FirstHandshakeFindsNoSession`).

## Assumptions

- Message ids are fresh, except in `Registrations.dfy`: there any id may repeat, and a call whose id is already pending
  is lost, because `send_call` ignores the result of `emplace` (`session.hpp:264`).
- Every transport completes its connect attempt and reports at most one close. Resolve and connect errors report
  nothing (`ws_client.hpp:151-162`), so such an attempt stays outstanding in the model as in the code.
- In the loop's runs a transport closes only once the loop has made a session; without one the handler has no defined
  outcome.
- The router's `send` does not throw, and handlers throw only `std::exception`.
- Message texts are valid UTF-8, so serialising a frame does not throw.

## Model

| member | source | states |
|---|---|---|
| SessionRuns.ExactlyOnce | json_wo/include/session.hpp:262-452 | in every interleaving each call is pending or claimed, not both, claimed once; no two callback runs are for one call; when none is still to run, each call not pending has had its callback run |
| Registrations.ExactlyOncePerCall | json_wo/include/session.hpp:262-452 | the same for each call made, whatever ids are used and however often: it is lost, pending or claimed with its own id and callback, exactly one of these, and no two callback runs are for the same call |
| Registrations.LostExactlyWhenRepeated | json_wo/include/session.hpp:262-264 | a call is lost if and only if its id was pending at the moment it was made, and then for good |
| Registrations.FreshStepsAreSteps | json_wo/include/session.hpp:239-452 | the steps of a session with fresh ids are among the wider steps of those runs |
| LoopRuns.NoDoubleSend | json_wo/include/session.hpp:284 | over any run of the loop, an id given to a transport, or written, by some moment is then and later at no other transport and no other place |
| BootGate.ReadyExactlyWhenBooted | json_wo/include/session.hpp:476-542 | over whole handlers: Ready if and only if a boot call sent since the last close was accepted, with no `on_transport_connected` since the acceptance |
| GateRuns.ReadyExactlyWhenBootRan | json_wo/include/session.hpp:429-542 | in every interleaving: Ready if and only if a boot acceptance has been run, with no `on_close` begun and no `on_transport_connected` since |
| GateRuns.GateFailsExactlyWhen | json_wo/include/session.hpp:344-452 | for a boot call registered, claimed and run: an `on_close` began since its registration if and only if the window of one, from its state write to its locked section, overlaps the time from the claim to the callback |
| GateRuns.ReadyAndGate | json_wo/include/session.hpp:344-542 | in every interleaving: Ready if and only if some boot call was registered, claimed and run with nothing to undo it; the gate is open if and only if for one such call no such windows overlap |
| GateRuns.ReadyMeansGateOpen | json_wo/include/session.hpp:429-542 | where no such windows overlap, Ready means exactly that the gate is open |
| GateRuns.LateBootCallbackPassesTheGate | json_wo/include/session.hpp:429-452 | a run of six steps in which a whole close comes between claim and callback, after which the session is Ready and the gate not open |
| GateRuns.EarlyStateWritePassesTheGate | json_wo/include/session.hpp:431-434 | a run of six steps in which the boot is claimed and run between the state write and the lock of one close: Ready and at rest after it, and the gate not open |
| GateRuns.WindowIsRunning | json_wo/include/session.hpp:429-441 | an `on_close` counts as in progress exactly from its state write to its locked section |
| Reconnect.NeverSticksNorDoubles | json_wo/include/reconnect.hpp:312-344 | in every reachable state: Connecting iff one attempt is outstanding, Connected iff a connection is open, scheduled iff one backoff timer is live, Disconnected after a start implies that timer, started = succeeded + failed + outstanding |
| Metrics.QuiescentMaximum | json_wo/metrics.cpp:30-40 | when all concurrent calls have returned, the target is the maximum of the initial value and all arguments |
| EndToEnd.ResultsComeFromTheHandler | json_wo/include/session.hpp:239-384 | over a lossy, duplicating, reordering network, a callback given a CallResult belongs to a call whose own action and payload the handler ran on, and one such run returned it |
| LoopNetwork.ResultsComeFromTheHandler | json_wo/client_loop.cpp:106-147 | the same for the whole loop, where replies to an earlier session's calls may reach the current one: a callback of any session that is given a CallResult belongs to a call of that session, and a run of its own handler on its own payload returned it |
| EndToEnd.NoProtocolError | json_wo/include/session.hpp:373-381 | if each handler's Conf is the ExpectedResponse of its Req, no ProtocolError reaches a callback, and handlers run on exactly the request values that were sent |
| EndToEnd.ServerAnswers | json_wo/router.cpp:66-75 | the router answers a call's line under its id, and a CallResult comes from a run of the handler of that call's action on its payload |
| LoopRuns.OneCloseOneReconnect | json_wo/client_loop.cpp:129-140 | a close arms one backoff timer where there was none, takes one index, reports a transport error and then offline, and gives every call pending in the current session exactly one claim, for ConnectionClosed |
| LoopRuns.StopIsUndoneInLoop | json_wo/client_loop.cpp:129-160 | after `stop()` of an open connection, its close leaves a reconnect scheduled all the same |
| LoopRuns.RunKeepsLoop | json_wo/client_loop.cpp:95-142 | in every reachable state only the last transport is alive, the controller's state is that transport's, a started and disconnected loop has one backoff timer, and the attempts are accounted for |
| LoopRuns.RunKeepsWire | json_wo/client_loop.cpp:106-121 | each session has its own transport, which was given exactly that session's lines; no id is used by two sessions; each session and each pipeline keeps its own invariants |
| LoopRuns.OnlineExactlyWhen | json_wo/client_loop.cpp:229-253 | each accepted boot of any session arms one resume timer, and the controller is online if and only if one of them has fired |
| LoopRuns.DelaysInTheLoop | json_wo/include/reconnect.hpp:439-457 | the loop's i-th backoff uses index i, whatever connections lie between, within the jitter bounds of its delay |
| LoopRuns.CloseFindsNoSessionExactlyWhen | json_wo/client_loop.cpp:129-140 | the close of a live transport finds no session if and only if no transport has opened yet |
| LoopRuns.FirstHandshakeFindsNoSession | json_wo/include/ws_client.hpp:167-173 | a run of one event after which the handshake's failure would find none |
| LoopRuns.CloseAndCallIsSteps | json_wo/client_loop.cpp:129-140 | what the object's close handler does is the close of its transport, then each pending call's callback in order, all steps of the loop |
| WsClient.PipelineIsBoundedFifo | json_wo/include/ws_client.hpp:263-336 | in every reachable state: accepted = completed ++ queue, issued is a prefix of accepted, in flight is 1 iff the queue is nonempty, at most 1001 queued, enqueued - completed = depth = queue length, counters never wrap |
| WsClient.RefinesFifo | json_wo/include/ws_client.hpp:263-336 | every step is one step of a bounded FIFO, or none |
| WsClient.NothingLostOrInvented | json_wo/include/ws_client.hpp:263-286 | every message given to `send` is waiting on the strand, accepted or refused, and exactly one of these |
| WsClient.WrittenAtMostOnce | json_wo/include/ws_client.hpp:305-336 | messages with distinct ids are accepted and written at most once each, and nothing else is written |
| WsClient.WrittenInOrder | json_wo/include/ws_client.hpp:263-336 | messages are accepted and written in the order in which they were given to `send` |
| WsClient.MaxDepthIsLongest | json_wo/include/ws_client.hpp:274-281 | the maximum depth reported is the length of the longest queue there has been |
| WsClient.CloseStartsExactlyWhen | json_wo/include/ws_client.hpp:390-409 | documented guard: a close starts iff it is pending and the queue empty; guard as written: never; at most one close, never beside an outstanding write; empty queue implies nothing in flight |
| WsClient.PendingCloseDrains | json_wo/include/ws_client.hpp:266-268 | once a close is pending nothing joins the queue, and the pipeline is idle after exactly as many completions as messages were queued |
| SessionRuns.RunKeepsInv | json_wo/include/session.hpp:239-452 | in every interleaving the ledgers, timers, accounts, lines and callback frames stay consistent; a pending call always has a timer that will still resolve it |
| CallbackRuns.CallbackHistory | json_wo/include/session.hpp:344-452 | in every interleaving each callback taken was passed to the call of its id, and was taken by a reply of that id, its own timer or a close: a reply is given as it came, unless it is a result not of the type that call expects, which is a ProtocolError naming that type; a timeout is given Timeout and a close ConnectionClosed, under the call's id |
| CallbackRuns.ReplyExactly | json_wo/include/session.hpp:344-406 | a reply to a pending call takes its callback and no other, one to no pending call only counts as unmatched, and a Call does nothing |
| CallbackRuns.TimerHistory | json_wo/include/session.hpp:268-281 | in every interleaving a call's timer is armed if and only if the call is pending and the timer has not run out, cancelled if and only if the call was resolved before it ran out, and otherwise queued until its handler counts |
| CallbackRuns.ResolvedInTimeNeverTimesOut | json_wo/include/session.hpp:268-281 | a call resolved before its timer ran out never counts as a timeout afterwards |
| CallbackRuns.LineHistory | json_wo/include/session.hpp:239-285 | a call's line waits from its registration until it is handed over, and has been handed over from then on |
| HeartBeatRuns.AcceptanceExactlyWhen | json_wo/include/session.hpp:510-521 | a reply is a boot acceptance with a given interval if and only if it is a result whose payload is an object or array with a time, that interval and the status Accepted |
| HeartBeatRuns.IntervalHistory | json_wo/include/session.hpp:512-521 | in every interleaving the session's interval is that of the last boot acceptance it ran, and 0 before the first |
| HeartBeatRuns.BeatExactly | json_wo/include/session.hpp:176-204 | what each step does to the heartbeat timers: starting leaves the new one alone armed, running out queues its handler, and the handler calls HeartBeat and rearms if and only if the session is Ready |
| HeartBeatRuns.HeartBeatHistory | json_wo/include/session.hpp:176-204 | the interval of a heartbeat timer, waiting or queued, is the one it was started with |
| LoopSessions.SessionRunInLoop | json_wo/client_loop.cpp:106-147 | in every run of the loop each session takes a run of its own steps, which the loop's events determine, so the results about those runs hold of it |
| LoopSessions.BootCallComesFirst | json_wo/include/session.hpp:476-511 | the first line of every session is its boot call, as it goes out |
| LoopSessions.IntervalInLoop | json_wo/include/session.hpp:512-521 | over any run of the loop a session's interval is that of the last boot acceptance it ran itself, and otherwise 0 |
| LoopSessions.HeartBeatStartsOnline | json_wo/client_loop.cpp:276-280 | when a resume timer fires, the current session has exactly one timer armed, a new one, with the interval of the last boot acceptance it ran; if that is not positive, or there was none, nothing changes |
| SessionRuns.ClaimsOnlyGrow | json_wo/include/session.hpp:344-452 | a claim, once made, is never changed or withdrawn |
| SessionRuns.AccountsBalance | json_wo/include/session.hpp:262-452 | calls = pending + resolved by reply, timeout and close; replies = resolved by reply + unmatched; timeouts_total = resolved by timeout + late + under way; closed failures = callbacks run for a close |
| SessionRuns.OneHeartBeatTimer | json_wo/include/session.hpp:176-204 | at most one heartbeat timer is armed |
| SessionHandlers.HistoryKeepsInv | json_wo/include/session.hpp:239-452 | histories of whole handlers keep every invariant and leave nothing half done |
| SessionHandlers.AccountsBetweenHandlers | json_wo/include/session.hpp:433-448 | between handlers the accounts balance exactly, with connection_closed_failures_total = resolved by close and one callback run per claim |
| BootGate.HandlerPhase | json_wo/include/session.hpp:429-542 | what each handler does to the session's state, and that only boot sends leave boot calls pending |
| BootGate.HeartBeatsOnlyWhenBooted | json_wo/include/session.hpp:176-204 | a heartbeat timer sends if and only if the gate is open; then it arms the next one with its own interval, and otherwise none |
| ReplyOrder.ManyReplies | json_wo/include/session.hpp:344-406 | the combined effect of replies to different calls: which stay pending, which outcomes, how many unmatched |
| ReplyOrder.RepliesAreAnswers | json_wo/include/session.hpp:344-406 | of replies to different calls, those that find their call take its callback, in the order of arrival, and give it the reply, or a ProtocolError for a result of the wrong type |
| ReplyOrder.OrderDoesNotMatter | json_wo/include/session.hpp:344-406 | any permutation of replies with distinct ids leaves the same pending table, outcomes and unmatched count |
| Reconnect.ScheduledBesideExactlyWhen | json_wo/include/reconnect.hpp:160-165 | a reconnect is scheduled beside an attempt or a connection if and only if a start() was called while a backoff ran, and since then the state has not been Disconnected and the timer has not fired |
| Reconnect.CloseSchedulesOneBackoff | json_wo/include/reconnect.hpp:205-229 | a close leaves one backoff timer and advances the attempt number, except exactly when such a start() overlaps the connection |
| Reconnect.StartDuringBackoff | json_wo/include/reconnect.hpp:160-165 | a run in which a start() during a backoff costs the next close its attempt number |
| Reconnect.CanSendExactlyWhen | json_wo/include/reconnect.hpp:259-261 | `can_send` holds if and only if a connection is open and some resume timer fired at some time before |
| Reconnect.CanSendUnbooted | json_wo/include/reconnect.hpp:205-261 | a run that ends with `can_send` true on a connection for which no boot was reported |
| Reconnect.SignalsInOrder | json_wo/include/reconnect.hpp:23-60 | what the observers are told over any run: attempts, a connection, its on_closed and at once its on_offline, and again; the last of it fits the state, and the last disconnect reason is that of the last close |
| Reconnect.StopEndsExactlyWhen | json_wo/include/reconnect.hpp:167-180 | after `stop()` on an open connection, whatever follows but another start or stop, a backoff is announced if and only if the close asked for completed before the transport reported the close; otherwise no attempt is started |
| Reconnect.StopDuringBackoff | json_wo/include/reconnect.hpp:167-169 | `stop()` during a backoff changes nothing, and the next attempt is made |
| Reconnect.StopDoesNotEnd | json_wo/include/reconnect.hpp:167-180 | an attempt under way at `stop()` may still connect or back off, and without `async_close` a connection's close is followed by a reconnect |
| Reconnect.DelaysOverALife | json_wo/include/reconnect.hpp:439-457 | the i-th backoff ever announced uses index i, whatever successes lie between, within the jitter bounds of its delay |
| Reconnect.LaterDelaysDoNotCollapse | json_wo/include/reconnect.hpp:378-402 | with r = 1/5 and at least 7 ms of initial delay and cap, no backoff is below 0.6 times an earlier one |
| Reconnect.RunsKeepCapExactlyWhen | json_wo/include/reconnect.hpp:371-402 | over every run of every controller with a policy, no backoff exceeds the cap if and only if the jitter of the cap is less than one millisecond |
| Reconnect.RunsKeepCapBelowOneExactlyWhen | json_wo/include/reconnect.hpp:371-402 | with draws below 1, if and only if it is at most one millisecond |
| Reconnect.SynchronousRetriesEndConnected | json_wo/include/reconnect.hpp:312-344 | with timers that run at once, k failures and a success end Connected, with k backoffs at consecutive indices, k+1 attempts, k failures, nothing scheduled |
| Backoff.BaseDelayIsCappedDoubling | json_wo/include/reconnect.hpp:379-394 | the shift-and-compare code is min(cap, initial * 2^max(0, attempt-1)) over unbounded integers if and only if initial >= 1, attempt <= 64 or cap is 0 |
| Backoff.BaseDelayDoubles | json_wo/include/reconnect.hpp:378-394 | with an initial delay, attempts 0 and 1 give min(initial, cap) and each later one min(cap, twice the one before) |
| Backoff.CommentAgreesExactlyWhen | json_wo/include/reconnect.hpp:351-394 | the comment's formula agrees with the code if and only if its value has reached the cap, or there is no initial delay and the shift is below the width |
| Backoff.DoublingMonotone | json_wo/include/reconnect.hpp:351-361 | delays never shrink as the attempt grows, and never pass the cap |
| Backoff.CapIsAbsorbing | json_wo/include/reconnect.hpp:383-390 | once at the cap, every later delay is the cap |
| Backoff.BaseDelayBelowCap | json_wo/include/reconnect.hpp:379-394 | no delay before jitter exceeds the cap, whatever the initial delay |
| Backoff.JitterBounds | json_wo/include/reconnect.hpp:396-401 | the jittered delay lies in [floor((1-r)d), (1+r)d] |
| Backoff.StaysWithinExactlyWhen | json_wo/include/reconnect.hpp:396-401 | a jittered delay stays within a given cap for every draw if and only if its longest stretch does |
| Backoff.StaysWithinBelowOneExactlyWhen | json_wo/include/reconnect.hpp:396-401 | the same for draws below 1, where the stretch may exceed the cap by up to one millisecond |
| Backoff.CapIsKeptExactlyWhen | json_wo/include/reconnect.hpp:371-402 | for a policy, no attempt and no draw gives a delay above the cap if and only if the jitter of the cap is less than one millisecond |
| Backoff.CapIsKeptBelowOneExactlyWhen | json_wo/include/reconnect.hpp:371-402 | with draws below 1, if and only if it is at most one millisecond |
| Backoff.RatioHoldsFrom7 | json_wo/include/reconnect.hpp:396-401 | with r = 1/5, no delay from a base no smaller is below 0.6 times another, if and only if the base is not 1, 2 or 6 ms |
| Metrics.NeverDecreases | json_wo/metrics.cpp:30-40 | over any interleaving of any number of `update_max` calls, stale relaxed reads and spurious failures included, the target never decreases |
| Metrics.CallGuarantee | json_wo/metrics.cpp:30-40 | a call that has returned left the target at its value or above; its non-spurious retries are at most value - first read |
| Metrics.Atomic.UpdateMax | json_wo/metrics.cpp:30-40 | the loop ends once interference does, with the maximum of its argument and of everything that interfered before it ended |
| Metrics.Metrics.TransportOnWriteEnqueued | json_wo/metrics.cpp:42-46 | counts one message, sets the gauge, and raises the maximum depth, whatever other threads do to it meanwhile |
| Router.Router.HandleIncoming | json_wo/router.cpp:31-90 | exactly one reply is sent for every text, table and handler behaviour |
| Router.Router.Invoke | json_wo/include/router.hpp:121-141 | one reply for every payload and every behaviour of the handler: its confirmation, its error, or what was thrown |
| Router.ReplyParses | json_wo/router.cpp:31-103 | every reply is accepted by `parse_frame`, as a CallResult or CallError |
| Router.ResultExactlyWhenConfirmed | json_wo/router.cpp:43-75 | a CallResult is sent if and only if the text is a four-element Call whose string action has a handler that decodes and confirms it, and it carries that confirmation |
| Router.AddressedCallIsAnswered | json_wo/router.cpp:66-80 | a Call with string id and action is answered under its own id, with NotImplemented if and only if its action has no handler |
| Router.IdIsKeptExactlyWhen | json_wo/router.cpp:37-88 | a reply keeps the id if and only if the array has at least three elements, a string id, a number or a boolean for its type, and, as a Call of four elements, a string action; every other reply has the empty id |
| Router.IdIsLost | json_wo/router.cpp:84-88 | two Calls with a string id answered under the empty id, and a shorter one that keeps it |
| Router.ErrorExactlyWhen | json_wo/router.cpp:43-88 | ProtocolError if and only if the type is a number other than 2, NotImplemented if and only if an addressed Call's action has no handler, InternalError if and only if the handler refuses, with its words, and every other error is a FormationViolation; no error carries details |
| Router.FormationViolationSays | json_wo/router.cpp:37-88 | the words of a FormationViolation for a malformed text, a wrong shape, a wrong length and an exception of the handler |
| OcppModel.ParseExactlyWhen | json_wo/ocpp_model.cpp:241-270 | exactly which arrays `parse_frame` takes for which frame |
| OcppModel.RequestDecodesExactlyWhen | json_wo/ocpp_model.cpp:78-225 | exactly which payloads decode to which request: a BootNotification from an object with both fields, whatever others it has, from an array that starts with them, or blank from anything else |
| OcppModel.ConfirmationDecodesExactlyWhen | json_wo/ocpp_model.cpp:105-235 | exactly which payloads decode to which confirmation, the object and the array form of the boot confirmation included |
| OcppModel.CallsOnTheWire | json_wo/ocpp_model.cpp:90-219 | the arrays in which the three calls go out |
| OcppModel.ResultsOnTheWire | json_wo/ocpp_model.cpp:95-230 | the arrays in which the three results go out |
| OcppModel.ParseUndoesEncode | json_wo/ocpp_model.cpp:241-270 | `parse_frame` undoes `to_json` for exactly the frames whose type number fits their variant |
| OcppModel.EncodeUndoesParse | json_wo/ocpp_model.cpp:6-56 | `to_json` undoes `parse_frame` exactly when the array had no surplus element and an exact integer type |
| OcppModel.RequestRoundTrip | json_wo/ocpp_model.cpp:187-225 | each request type decodes what it encodes |
| OcppModel.ValidatorAcceptsExpected | json_wo/include/ocpp_model.hpp:65-105 | a call's validator accepts an encoded confirmation if and only if it is of the `ExpectedResponse` type, and then decodes it back |
| ClientLoop.ClientLoop.Begin | json_wo/client_loop.cpp:318-330 | start shows the loop after one attempt, on a fresh transport or failed at once |
| ClientLoop.ClientLoop.HandleBackoff | json_wo/client_loop.cpp:149-173 | the backoff timer shows the loop after the next attempt, or none if the reconnect was called off |
| ClientLoop.ClientLoop.HandleConnected | json_wo/client_loop.cpp:113-123 | the connected transport shows the loop with a fresh session, the controller Connected, and the boot call given to that transport |
| ClientLoop.ClientLoop.HandleOnline | json_wo/client_loop.cpp:276-294 | the resume timer shows the loop online; if a boot gave the current session a positive interval, it owns a new timer armed with it, and otherwise its timers are as they were |
| ClientLoop.ClientLoop.HandleClosed | json_wo/client_loop.cpp:127-142 | the closed transport shows the loop after its three reports, with the callback of every pending call run |
| Reconnect.ReconnectController.TransportClosed | json_wo/include/reconnect.hpp:205-229 | observers told; Disconnected; a reconnect scheduled unless the controller was closing |
| Reconnect.ReconnectController.BootAccepted | json_wo/include/reconnect.hpp:235-258 | online after the resume timer, or at once without timers |
| Reconnect.ReconnectController.StopNow | json_wo/include/reconnect.hpp:167-180 | a controller that is not idle asks for a close, if it can, and calls off any scheduled reconnect |
| Reconnect.ReconnectController.CloseDone | json_wo/include/reconnect.hpp:174-176 | the close it asked for is done, and it is Disconnected |
| Reconnect.ReconnectController.TryReconnectNow | json_wo/include/reconnect.hpp:312-344 | an idle controller starts one attempt, which may complete before the call returns |
| Reconnect.ReconnectController.Complete | json_wo/include/reconnect.hpp:330-341 | success opens the transport; failure counts it and schedules a reconnect |
| Reconnect.ReconnectController.Schedule | json_wo/include/reconnect.hpp:439-470 | unless one is scheduled, announces the backoff of the next index and arms one timer |
| Reconnect.ReconnectController.BackoffExpired | json_wo/include/reconnect.hpp:456-464 | a timer whose reconnect was called off does nothing; otherwise the next attempt starts |
| WsClient.WsClient.EnqueueText | json_wo/include/ws_client.hpp:266-284 | refused when a close is pending or more than 1000 are queued; otherwise queued and counted, and written at once if no write is in progress |
| WsClient.WsClient.WriteCompletion | json_wo/include/ws_client.hpp:317-335 | the head leaves the queue, and the next write starts or a pending close is tried |
| WsClient.WsClient.TryClose | json_wo/include/ws_client.hpp:390-409 | starts a close when the guard, in either reading, allows it |
| Session.Session.Send | json_wo/include/session.hpp:239-285 | the call is registered with its timer, then its line handed over |
| Session.StoredExactlyWhenFresh | json_wo/include/session.hpp:262-284 | a call is stored if and only if its id is not already pending for something else; its line is sent either way |
| Session.Session.Run | json_wo/include/session.hpp:508-542 | the claimed callback runs; an accepted boot makes the session Ready, sets the interval and signals |
| Session.Session.HandleFrame | json_wo/include/session.hpp:344-406 | a reply resolves its pending call once, or counts as unmatched; the callback runs with the reply, or with the ProtocolError of a result that fails validation; a Call is ignored |
| Session.Session.TimerHandler | json_wo/include/session.hpp:268-281 | counts a timeout first, then resolves the call if it is still pending |
| Session.Session.CollectPending | json_wo/include/session.hpp:435-439 | each pending id is noted once, each waiting timer of a pending call is cancelled, and no other timer changes |
| Session.Session.HandleClose | json_wo/include/session.hpp:429-452 | every pending call gets its callback run once with ConnectionClosed, in the order collected |
| Session.Session.HeartBeatExpired | json_wo/include/session.hpp:179-203 | sends a HeartBeat and arms the next timer with the same interval when Ready, and does nothing otherwise |

## Left out

- Sockets, name resolution, handshakes, pings, the read loop and `force_drop`: only the events they deliver are modelled.
- JSON text: parsing and printing are the library's; the model starts from the parsed tree or the parse failure.
- Exception texts of the JSON library, which the model abbreviates; two errors that differ only in them are one error here.
- Casts of floating-point numbers to `int` outside its range, which C++ leaves undefined; the model keeps the low 32 bits.
- Message id generation and the random generator: fresh ids, and an arbitrary real in [0, 1] for each jitter draw.
- Backoff.JitterBounds: the arithmetic is over reals, truncated to milliseconds as the code does; float rounding is not modelled.
- Backoff.StaysWithinExactlyWhen: over reals, as above.
- Backoff.StaysWithinBelowOneExactlyWhen: over reals, as above.
- Backoff.CapIsKeptExactlyWhen: over reals, as above.
- Backoff.CapIsKeptBelowOneExactlyWhen: over reals, as above.
- Backoff.RatioHoldsFrom7: over reals, as above; the ratio is exactly one fifth, where the code has the nearest float.
- Reconnect.DelaysOverALife: over reals, as above.
- Reconnect.LaterDelaysDoNotCollapse: over reals, as above.
- Reconnect.RunsKeepCapExactlyWhen: over reals, as above.
- Reconnect.RunsKeepCapBelowOneExactlyWhen: over reals, as above.
- LoopRuns.DelaysInTheLoop: over reals, as above.
- Metrics.Atomic.UpdateMax: the loop is run against finitely much interference; with spurious failures for ever it would not end.
- Metrics.Metrics.TransportOnWriteEnqueued: other threads interfere with the maximum only, not with the counter and the gauge.
- Backoff.ComputeBackoff: attempt numbers are unbounded, so the overflow of `attempt_` as an `int` at 2^31 is not modelled.
- The 64-bit wrap-around of the counters that only grow.
- Clocks and what is measured with them: `last_reconnect_duration`, `time_to_online`, and the length of delays as they pass.
- LoopRuns.OneCloseOneReconnect: in the loop's runs a close is one event, so no step of the session comes between its reports or
  between the session's state write and its lock; the runs of `SessionRuns.dfy` and `GateRuns.dfy` take those two apart.
- Session.Session.Send: with a repeated id the code adds a second wait to the timer already there. The class does not; the
  runs of `Registrations.dfy` let a timeout handler of any id run at any time, which covers it.
- Session.Session.HeartBeatExpired: its test of the state, the registration of the call and the rearming are one step; only handing over the line is a step of its own.
- WsClient.WsClient.RunNext: the close handler installed by a completed `async_close` is an event of the loop, not of the pipeline.
- ClientLoop.ClientLoop.HandleClosed: the callbacks of a close are run to the end, as by one thread; in the loop's runs they may also
  interleave with what follows.
- Handlers of the loop object for received messages and boot signals; in the loop's runs they are steps of the sessions.
- `stop()` as an event of the loop's runs, with the token table and `cancel_after`: the loop's run theorems are for loops that are not stopped. `StopIsUndoneInLoop` applies `stop()` and the close handler's reports to a reachable state, and the `Stop` lemmas of `Reconnect.dfy` follow the controller alone after it.
- Two message counters the session does not touch, `snapshot`, `metrics_logger.cpp` and all printing.
- `reconnect_glue.hpp`, a second wiring of the controller that reuses one transport.
- `ws_server_session.hpp`, the same write queue without a close.
- The older dispatch path: `route`, `addHandler`, the handlers that return frames, `dispatch_frame`.
- Object lifetimes, shared and weak ownership, destructors, and the futures of `start_future` and `close_future`.
