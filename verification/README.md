# The lws WebSocket clients, modelled and proved in Dafny

The repository holds three clients on top of libwebsockets (lws): v1 (`src/ws_client.c`) and v2
(`src/ws_client_v2.c`) with one service thread each, and a pool (`src/ws_pool.c`) in which one service thread
serves many clients. This project models their protocol logic and proves what the code guarantees, over every run.

- `StopProtocol`, `StopInvariants`, `StopTheorems`, `StopProgress`, `StopClosing`, `StopWaiting`, `StopService`: one
  pool client as a small-step system. Any number of threads are in `wsp_client_stop` and `wsp_send`; the service
  thread connects, loses the connection, retries and writes. Each access to a shared variable is a step of its own,
  with `stop_mu`, `q_lock`, the condition variable with its deadline, and the one-shot reconnect timer.
- `AddProtocol`, `PoolArrays`: `wsp_pool_add`, `wsp_pool_start` and the consumption of `pending`, with the
  coalescing wake-up of `lws_cancel_service`; and the two arrays in place.
- `WakeUp`: producers and the service thread of v2, with the three reads of `q_head` outside the lock.
- `Lifecycle`, `Engines`: connecting, losing, backing off and giving up, in the three engines. `Engines` has the
  fields and statements of each engine, proved to take the steps of `Lifecycle`, where the theorems about runs are.
- `Heartbeat`, `HeartbeatV2`: WRITEABLE, TIMER and PONG, in timed runs.
- `Reassembly`, `ReassemblyV2`: CLIENT_RECEIVE, for every way to cut messages into frames and chunks.
- `SendQueue`, `FragBuffer`: the linked queue and the doubling buffer on the heap.
- `UrlEncode`: the percent-encoder of `examples/xfyun_tts.c`.

lws is nondeterministic in the models. A connect returns a handle, or NULL, or reports an error and returns NULL.
A connection can end between any two callbacks: with CLOSED or CONNECTION_ERROR, or with WSI_DESTROY alone, which may
also come late (`StopProtocol`, `Lifecycle`, `WakeUp`; in `Heartbeat` and `Reassembly` one event stands for any end).
v2 gets a WSI_DESTROY alone only from `lws_context_destroy`, which it calls while no service thread runs
(`src/ws_client_v2.c:655` and `682`); `WakeUp` allows it at any time, and says what it changes.
Timers are one-shot and setting one again replaces it. Memory is sequentially consistent. Hooks answer as they like
where a theorem does not restrict them.

Where the code and its comments disagree, the model follows the code:

- `src/ws_pool.h:36` allows 256 clients, but until the service thread has consumed `pending` every client counts
  twice, so the 129th is refused (`AddProtocol.RoomBeforeStart`).
- `src/ws_pool.h:107` calls `wsp_pool_add` thread-safe; two threads that add the same client can both succeed
  (`AddProtocol.SameClientTwice`).
- `src/ws_pool.h:116` says that a stop blocks until the connection is closed; when the first stop can return with the
  connection open is `StopClosing.StopReturnsOpenIff`, and any other stop returns at once
  (`StopClosing.LaterStopDoesNothing`).
- `src/ws_pool.h:117` says that a stopped client does not connect again; when it still does is
  `StopTheorems.ConnectAfterStopIff`.
- `src/ws_client_v2.c:276-292` is meant to put together fragmented messages; it delivers on `final` although payload
  remains, drops empty ones, and keeps the bytes of an aborted message. When it delivers the completed messages all
  the same is `ReassemblyV2.ReassemblyV2Iff`.
- `src/ws_client_v2.c:350-353` is meant to detect a missing PONG; when it closes is `HeartbeatV2.TimerClosesIff`, and
  the PING that a TIMER itself asks for is not watched (`HeartbeatV2.NoSecondTick`).
- `src/ws_client_v2.c:472-481` compares after casting to `int` (`SendQueue.V2FlowControlIff`).
- A circuit breaker as in `examples/pool_hooks_demo.c:90-101` counts failures; a connect that returns NULL without
  reporting an error is not counted, and each of these allows one more attempt (`Lifecycle.CircuitBreaker`,
  `Lifecycle.BreakerBoundReached`).

The classes of `Engines`, `ClientLink`, `BeatV2` and `Receiver` have the fields and statements of the source and take,
callback by callback, the steps of the functions that the theorems are about; the table names the main ones.

## Model

| member | source | states |
|---|---|---|
| `StopTheorems.AtMostOneConnectAfterStop` | src/ws_pool.c:158-225 | in every interleaving at most one do_connect begins after `stopping` is set, and none unless the service thread was past the test of line 223 or the initial connect was still to come |
| `StopTheorems.StoppingStep` | src/ws_pool.c:158-225 | once `stopping` is set, each step leaves it set, and the calls of do_connect begun plus those that can still come do not grow |
| `StopTheorems.ConnectAfterStopIff` | src/ws_pool.c:158-225 | in every reachable state in which `stopping` is about to be set, some run makes a do_connect afterwards if and only if the service thread is past the test of line 223, or the initial connect is still to come |
| `StopTheorems.PendingClientConnectsAfterStop` | src/ws_pool.c:331-343 | from every start state a run exists in which a client stopped while pending is connected by that one call, after wsp_client_stop has returned |
| `StopClosing.StopReturnsOpenIff` | src/ws_pool.c:709-774 | in every reachable state in which `stopping` is about to be set, the call that sets it can return while a connection lives if and only if there is one, or lws is about to make one, or a do_connect can still come |
| `StopClosing.LaterStopDoesNothing` | src/ws_pool.c:713-717 | a stop that is not the first returns and changes nothing |
| `StopClosing.TimerAfterCancelIff` | src/ws_pool.c:721-723 | after lws_sul_cancel in a stop the reconnect timer can be armed again if and only if the service thread was past the test of `stopping` in schedule_reconnect |
| `StopTheorems.NoLostWakeUp` | src/ws_pool.c:713-768 | stopped implies stopping; at most one thread ever waits; one that waits although `stopped` is set has a signal coming; the wait is left only with `stopped` or at the deadline |
| `StopTheorems.SignalReachesTheWaiter` | src/ws_pool.c:405-457 | after the single signal nobody is blocked any more |
| `StopWaiting.EndOfConnectionEndsWait` | src/ws_pool.c:401-459 | in every reachable state a thread is blocked in a stop only while there is a `wsi`, or the callback that has cleared it is on its way to the signal; none is when that callback is over |
| `StopWaiting.StopWaits` | src/ws_pool.c:742-763 | a stop that finds a `wsi` has neither flushed nor returned before 3000 ms have passed, unless a callback sets `stopped` |
| `StopWaiting.DeadlineIsNear` | src/ws_pool.c:752-754 | the deadline of a blocked thread is at most 3000 ms away |
| `StopTheorems.FlagsStay` | src/ws_pool.c:405-457 | `stopping` and `stopped` are never cleared |
| `StopTheorems.SilenceAfterStop` | src/ws_pool.c:770-813 | once the first stop has flushed, the queue stays empty and no send is accepted, although `stopping` is written under `stop_mu` and read under `q_lock` |
| `StopTheorems.SendConservation` | src/ws_pool.c:298-317 | accepted messages in order are those handed to lws_write, then the one in flight, then the flushed ones, then the queue; the limits hold in every reachable state |
| `StopTheorems.NeverTwoConnections` | src/ws_pool.c:189-225 | at most one connection lives; do_connect begins and the timer is armed only without one; between callbacks `wsi` is NULL or the live one |
| `StopInvariants.InvStep` | src/ws_pool.c:158-834 | every step of every thread keeps lock ownership, the handshake, the messages and the connection consistent |
| `StopInvariants.SignalKeepsStop` | src/ws_pool.c:405-411 | the signal ends the wait of the only waiter |
| `StopInvariants.FlushKeepsMessages` | src/ws_pool.c:771-773 | the flush loses no message from the account and leaves no sender between its look at `stopping` and its link |
| `StopProgress.CallsComeToAnEnd` | src/ws_pool.c:709-834 | a thread inside stop or send that is left alone with free locks returns: its run has at most 23 steps, one of them the clock's to its deadline |
| `StopProgress.GoesOn` | src/ws_pool.c:709-834 | a thread inside stop or send can come nearer to its return unless it waits for a lock or is blocked before its deadline |
| `StopProgress.LockHoldersGoOn` | src/ws_pool.c:426-459 | no deadlock: a lock's holder can always go on without waiting, and nobody holds both locks |
| `StopProgress.SendAcceptsIff` | src/ws_pool.c:800-834 | an undisturbed send appends its message exactly if the client is not stopping and the limits allow it; in every case it returns and changes nothing else |
| `StopService.NothingBeforeContext` | src/ws_pool.c:492-536 | as long as the pool has no context the service thread does nothing and the client keeps its initial connect |
| `StopService.AlwaysRetries` | src/ws_pool.c:401-440 | in every run without a refusing hook and without WSI_DESTROY: between callbacks a client that is not stopping and has had its initial connect has a `wsi` or an armed reconnect timer |
| `StopService.CallbacksComeToAnEnd` | src/ws_pool.c:158-457 | however the other threads get in between, a callback is over after at most 19 steps of the service thread, not counting further errors that lws reports from within the same connect call |
| `StopService.CallbackGoesOn` | src/ws_pool.c:158-457 | inside a callback the service thread has a next step unless it waits for a lock; the outcomes of a connect and of a hook are all open |
| `StopService.LostConnectionComesBack` | src/ws_pool.c:424-440 | from every consistent state with a connection, CLOSED, the timer and do_connect lead to a new one |
| `StopService.FailedConnectIsRetried` | src/ws_pool.c:401-422 | a connect that reports an error and returns NULL leaves the reconnect timer armed |
| `StopService.WriteHandsOver` | src/ws_pool.c:298-317 | a WRITEABLE hands over the first message of the queue and no other |
| `StopService.CloseEndsStop` | src/ws_pool.c:747-773 | from every consistent state with a thread blocked in a stop, CLOSED leads to the return of that stop at once, flushed and with no connection |
| `AddProtocol.EveryClientAccountedFor` | src/ws_pool.c:331-343 | added clients are the pending, the copied and the started ones, as multisets; pending clients are registered; all indices stay below 256 |
| `AddProtocol.NoClientForgotten` | src/ws_pool.c:520-536 | with a context, a pending client has a wake-up pending, or owed by an adder or by wsp_pool_start, or is about to be copied |
| `AddProtocol.WakesOnlyWithContext` | src/ws_pool.c:696-700 | lws_cancel_service is asked for, and pending, only with a context |
| `AddProtocol.WakeUpStays` | src/ws_pool.c:535-536 | a wake-up, whoever asks for it, is pending until the service thread takes it |
| `AddProtocol.ServiceStartsAll` | src/ws_pool.c:322-350 | once wsp_pool_start has made the context, all threads together come to rest within a bounded number of steps in any order; then every call has returned and every client has been connected as often as added |
| `AddProtocol.RoomBeforeStart` | src/ws_pool.c:683-694 | before the service thread runs, a client is taken on exactly while fewer than 128 are |
| `AddProtocol.ConnectedAtMostOnce` | src/ws_pool.c:676-703 | if no thread passes the test of `c->pool` while another is adding the same client, each client has exactly one initial connect, done or owed |
| `AddProtocol.SameClientTwice` | src/ws_pool.c:679-694 | the test of `c->pool` is unlocked: from any state with the lock free, two idle threads and room, both can add the same client |
| `AddProtocol.AdderForgetsNone` | src/ws_pool.c:690-700 | each step of wsp_pool_add leaves a wake-up owed for what it put into `pending` |
| `PoolArrays.PoolArrays.Add` | src/ws_pool.c:683-694 | in place: accepted exactly when both counts leave room, and then appended to both arrays |
| `PoolArrays.PoolArrays.TakePending` | src/ws_pool.c:333-336 | in place: the copy holds the pending clients in order, and none are pending afterwards |
| `WakeUp.NoMessageStranded` | src/ws_client_v2.c:211-225 | in every run without a WSI_DESTROY alone: connected, not stopping and a message queued, a WRITEABLE is requested, or a wake-up pending or owed by a producer, or the service thread looks again |
| `WakeUp.NoneStrandedWithWsi` | src/ws_client_v2.c:256-258 | the same in every run while `wsi` is not NULL |
| `WakeUp.WakesOnlyWithContext` | src/ws_client_v2.c:500-502 | lws_cancel_service is asked for, and pending, only with a context |
| `WakeUp.DrainsIffWsi` | src/ws_client_v2.c:298-335 | connected, not stopping, a message queued and no producer at work: the service thread by itself hands over all that was accepted if and only if `wsi` is not NULL |
| `WakeUp.NothingGoesOutWithoutWsi` | src/ws_client_v2.c:222-224 | from a reachable state with `wsi` NULL nothing is handed over before do_connect gets a handle |
| `WakeUp.PingIsAskedFor` | src/ws_client_v2.c:350-356 | after a TIMER that asks for a PING a WRITEABLE is requested, or being served, as long as the PING is due, until another connection is established |
| `WakeUp.PingGoesOut` | src/ws_client_v2.c:299-308 | and the next WRITEABLE writes it, before any message |
| `WakeUp.PongOverdueCloses` | src/ws_client_v2.c:350-353 | a TIMER that finds ping_pending ends the connection |
| `WakeUp.FailedWriteCloses` | src/ws_client_v2.c:325-330 | a write that fails costs its message and the connection, and leaves the queue |
| `WakeUp.DestroyedConnectionStrands` | src/ws_client_v2.c:420-423 | a message sent in STATE_CONNECTED after a WSI_DESTROY alone is stranded, and not handed over before do_connect gets a handle |
| `WakeUp.ServiceDrains` | src/ws_client_v2.c:298-335 | left alone, the service thread rests after a bounded number of steps and has then handed over every accepted message |
| `WakeUp.AllComeToRest` | src/ws_client_v2.c:464-505 | from every reachable state all threads together come to rest within a bounded number of steps in any order; then every send has returned, a stopping service thread has flushed and ended or waits for lws to close, and one that is not stopping has handed over every accepted message if there is a connection |
| `WakeUp.StopRouses` | src/ws_client_v2.c:665-672 | wsl_stop sets `stopping` and wakes the service thread, which can then leave its loop |
| `WakeUp.StoppingAsksNothing` | src/ws_client_v2.c:219-221 | a stopping client that is woken asks for no WRITEABLE |
| `WakeUp.RefusedSendChangesNothing` | src/ws_client_v2.c:472-488 | a send that is refused leaves everything as it was |
| `WakeUp.FirstInFirstOut` | src/ws_client_v2.c:464-505 | accepted messages in order are those handed over, in flight, flushed and queued |
| `WakeUp.OneInside` | src/ws_client_v2.c:310-323 | two threads are never inside the queue lock |
| `WakeUp.ProducerStep` | src/ws_client_v2.c:470-502 | every step of a producer keeps the queue's account and its own debt of a wake-up |
| `Lifecycle.NeverTwoConnections` | src/ws_client_v2.c:121-196 | in every run of each engine at most one connection lives, and do_connect, RECONNECT_WAIT and an armed timer mean that there is none |
| `Lifecycle.ErrorKeepsOne` | src/ws_client.c:270-338 | an error reported during the connect, followed by NULL, leaves no connection |
| `Lifecycle.NeverStuck` | src/ws_client_v2.c:368-406 | a client that is not stopping can begin, or has a connection that can be established or lost, or has an armed timer that brings the next attempt, or a hook has stopped it |
| `Lifecycle.PhaseTells` | src/ws_pool.c:424-440 | what CONNECTED, IDLE and RECONNECT_WAIT say about the connection, the stop and the timer |
| `Lifecycle.StopEndsAttempts` | src/ws_pool.c:220-225 | once a client that has begun is stopping, no attempt follows and its timer fires at most once more |
| `Lifecycle.DestroyedForGood` | src/ws_client.c:285-294 | after a connection that ends by WSI_DESTROY alone no engine attempts another |
| `Lifecycle.BackoffForm` | src/ws_client.c:98-111 | scheduling number k since the reset waits min(2^(k-1) init, max) in v1, min(2^k init, max) in the pool; v2 like v1 before its first ESTABLISHED, like the pool after it |
| `Lifecycle.ScheduleWaits` | src/ws_pool.c:158-183 | one scheduling waits what the closed form says and keeps the stored delay on the form |
| `Lifecycle.TwiceIsExactIff` | src/ws_pool.c:163-166 | doubling the delay is exact exactly below 2^30 |
| `Lifecycle.OutageSum` | src/ws_client.c:104-108 | n schedulings, n at least j, wait init (2^j - 1) + (n - j) max in total |
| `Lifecycle.OutageWaits` | src/ws_client.c:98-111 | in every run of v1, n schedulings since the reset, n at least j, have waited init (2^j - 1) + (n - j) max in total |
| `Lifecycle.OutageBound` | src/ws_client.c:347-355 | in every run of v1 without a hook, the attempt after n failures, n at least j, comes no sooner than init (2^j - 1) + (n - j) max after the first one, less the waits whose deadline was replaced by a later one |
| `Lifecycle.OutageBoundIff` | src/ws_client.c:270-338 | for every configuration and all outcomes of the connects since the reset: each run with these outcomes waits the full sum if and only if none of them is an error followed by NULL |
| `Lifecycle.OutcomesAreAttempts` | src/ws_client.c:305-338 | the outcomes counted since the reset are those of the attempts since the reset |
| `Lifecycle.CircuitBreaker` | src/ws_pool.c:162-183 | with a hook refusing from m failures on, at most m attempts from the start and m - 1 after each ESTABLISHED, plus one for each bare NULL return; STOPPED is for ever |
| `Lifecycle.HookWaitIff` | src/ws_pool.c:168-182 | after a scheduling that a hook has answered with ret, the next attempt can be made from ret milliseconds later on, and not before |
| `Lifecycle.BackoffAfterHook` | src/ws_client_v2.c:124-150 | and the next scheduling without a hook waits min(2 ret, max) |
| `Lifecycle.StoppedIsLeftIff` | src/ws_pool.c:172-175 | whatever a hook answers, a reachable client of v2 or the pool that is STOPPED can leave it if and only if its timer is armed and it is not stopping |
| `Lifecycle.StoppedWithTimer` | src/ws_client_v2.c:134-150 | a hook that accepts the first and refuses the second failure of one connect leaves a STOPPED client with an armed timer |
| `Lifecycle.BreakerBoundReached` | src/ws_pool.c:210-213 | for every number b of bare NULL returns some run makes m + b attempts from the start |
| `Lifecycle.BreakerBoundReachedAgain` | src/ws_pool.c:242-245 | from every reachable state in which an ESTABLISHED can come, whatever failed before it, and for m > 1, some run makes m - 1 + b attempts after it |
| `Engines.ClientV1.ScheduleReconnect` | src/ws_client.c:98-111 | takes the step Schedule of v1; the deadline split into tv_sec and tv_nsec gives back the same millisecond |
| `Engines.ClientV1.DoConnect` | src/ws_client.c:305-338 | takes the step DoConnect of v1 for each outcome of the connect |
| `Engines.ClientV1.ServiceTurn` | src/ws_client.c:347-353 | attempts exactly when the deadline has come, and then takes the timer's step |
| `Engines.ClientV2.ScheduleReconnect` | src/ws_client_v2.c:121-150 | takes the step Schedule of v2 for every answer of the hook |
| `Engines.ClientV2.DoConnect` | src/ws_client_v2.c:164-196 | takes the step DoConnect of v2 |
| `Engines.ClientPool.ScheduleReconnect` | src/ws_pool.c:158-183 | takes the step Schedule of the pool for every answer of the hook |
| `Engines.ClientPool.DoConnect` | src/ws_pool.c:189-214 | takes the step DoConnect of the pool |
| `Heartbeat.SilentPeerIsClosed` | src/ws_client.c:253-267 | without a heartbeat hook, a peer silent from the end of any run on is cut off at the latest interval + pong_timeout later |
| `Heartbeat.TimerClosesIff` | src/ws_client.c:253-261 | in every run, TIMER closes exactly when no hook takes care of it and a PING was written on this connection with no PONG since |
| `Heartbeat.NextTimerIff` | src/ws_client.c:253-267 | the TIMER after an event that sets the timer is due exactly pong_timeout after a default TIMER, and exactly the interval after a PONG, an ESTABLISHED or a TIMER taken by a hook |
| `Heartbeat.AnswerKeepsUp` | src/ws_client.c:264-267 | a PING goes out on an idle connection, the peer answers, and the connection is idle again with the interval set |
| `Heartbeat.SilenceCloses` | src/ws_client.c:253-261 | a PING goes out on an idle connection, the peer does not answer, and TIMER closes it after pong_timeout |
| `Heartbeat.Drains` | src/ws_client.c:202-239 | work(l) WRITEABLEs, each requested by the one before, write the due PING and then the whole queue in order |
| `Heartbeat.BacklogDrains` | src/ws_pool.c:283-319 | a backlog held at ESTABLISHED drains after the first default tick, or after the next send |
| `Heartbeat.BacklogDrainsInRun` | src/ws_pool.c:283-319 | in every reachable state with a connection: after the default tick or a wake-up, whatever wake-ups, PONGs and time come between the WRITEABLEs, the queue is handed over whole and in order |
| `Heartbeat.DrainsInRun` | src/ws_client.c:202-239 | in every such run each WRITEABLE does one piece of the work, the next stays requested while work remains, and no message is lost |
| `Heartbeat.SendConservation` | src/ws_client.c:217-237 | over any connections, accepted messages are those handed over, then those flushed at the end, then those queued |
| `Heartbeat.EverythingCanGoOut` | src/ws_client.c:168-261 | from every reachable state before the end, some run hands over all that was accepted and one message more |
| `Heartbeat.FailedWriteCloses` | src/ws_client.c:228-237 | a failing write costs the message being written and the connection, and nothing else |
| `Heartbeat.FinishEndsAll` | src/ws_client.c:357-359 | when v1's service thread ends it flushes the queue, and nothing is handed over afterwards |
| `Heartbeat.ClientLink.OnWriteable` | src/ws_client.c:202-239 | on the linked queue: one PING or one message, and a new request exactly while messages remain |
| `Heartbeat.ClientLink.OnTimer` | src/ws_pool.c:372-392 | closes, or asks for a PING and sets the pong timeout, or leaves the tick to the hook |
| `Heartbeat.ClientLink.OnEstablished` | src/ws_client.c:168-175 | clears both ping flags and sets the interval |
| `Heartbeat.ClientLink.OnPong` | src/ws_client.c:264-267 | clears ping_pending and sets the interval |
| `Heartbeat.ClientLink.OnWaitCancelled` | src/ws_pool.c:352-367 | asks for a WRITEABLE exactly if there is a wsi and the client is stopping, or connected with a message queued |
| `HeartbeatV2.TimerClosesIff` | src/ws_client_v2.c:338-365 | in every run, TIMER of v2 closes exactly when no hook takes care of it and a PING is unanswered on this connection, and that is exactly when one was owed or unanswered when the timer was armed and is not still to be written |
| `HeartbeatV2.NoSecondTick` | src/ws_client_v2.c:350-356 | after a TIMER that no hook takes care of none is due until a PONG or a new connection |
| `HeartbeatV2.NextTimerIff` | src/ws_client_v2.c:242-246 | with a positive interval, and only then, a TIMER is due next after an ESTABLISHED, a PONG or a TIMER taken by a hook; after a default one none is |
| `HeartbeatV2.TickAsksForPing` | src/ws_client_v2.c:354-355 | a default TIMER that does not close asks for a PING, which is then written |
| `HeartbeatV2.TimerCanClose` | src/ws_client_v2.c:350-353 | a run in which TIMER closes, for every positive interval |
| `HeartbeatV2.BeatV2.OnTimer` | src/ws_client_v2.c:338-356 | TIMER of v2 for every answer of the hook; the default path leaves the timer unset |
| `Reassembly.ReassemblyUndoesChunking` | src/ws_client.c:178-199 | for all messages, frames, chunks, drops and failed allocations the rx_cb calls are exactly the completed messages in order |
| `Reassembly.RunInside` | src/ws_pool.c:266-268 | inside a message the buffer holds its bytes and nothing else, and nothing is delivered |
| `Reassembly.AbortedLeavesOwnBytes` | src/ws_client.c:187-190 | a message that is not completed leaves its own bytes in the buffer and nothing of an earlier one |
| `Reassembly.MessageFlags` | src/ws_pool.c:255-257 | the flags lws gives with the chunks of a message: `first` once, `final` with nothing remaining once, whether or not `final` is reported before the last chunk |
| `Reassembly.Receiver.OnReceive` | src/ws_pool.c:254-280 | takes the step Receive, on the growing buffer |
| `Reassembly.Receiver.OnReceiveV2` | src/ws_client_v2.c:262-295 | takes the step ReceiveV2, on the growing buffer |
| `ReassemblyV2.ReassemblyV2Iff` | src/ws_client_v2.c:276-293 | over all messages, cuts, drops and failed allocations, v2 delivers exactly the completed messages if and only if its buffer is never emptied with bytes of an aborted message in it, and every completed message is clean |
| `ReassemblyV2.CallsOneIff` | src/ws_client_v2.c:278-292 | a message in several chunks makes one call with everything exactly if it is not empty and nothing is delivered before its last chunk |
| `ReassemblyV2.PartV2` | src/ws_client_v2.c:276-292 | a connection that goes down after n chunks leaves their bytes in the buffer, or, if the last of them was final, has delivered them in pieces |
| `SendQueue.SendQueue.Link` | src/ws_client.c:530-534 | appends one node: head, tail, next and both counters represent the longer sequence |
| `SendQueue.SendQueue.Take` | src/ws_pool.c:298-307 | takes the first node off, and tells whether more remain |
| `SendQueue.SendQueue.Flush` | src/ws_internal.h:103-115 | frees each node once, in order, and leaves the empty queue |
| `SendQueue.SendQueue.EnqueuePool` | src/ws_pool.c:800-834 | accepts exactly if not stopping, allocated, and within the limits afterwards; otherwise nothing changes |
| `SendQueue.SendQueue.EnqueueV1` | src/ws_client.c:507-541 | the same without the look at `stopping` |
| `SendQueue.SendQueue.EnqueueV2` | src/ws_client_v2.c:464-505 | flow control on ints before the allocation |
| `SendQueue.V2FlowControlIff` | src/ws_client_v2.c:472-481 | v2's refusals are those of the limits if and only if the cast of the byte sum to int hides no overflow |
| `SendQueue.CountersDisagreeIff` | src/ws_client_v2.c:472-481 | the same on the counters, and that it is so for sums below 2^31 |
| `SendQueue.OverLimitIff` | src/ws_pool.c:815-816 | the flow control refuses exactly the messages that would exceed a limit |
| `FragBuffer.FragBuffer.Append` | src/ws_internal.h:85-100 | old bytes kept and new ones appended, or nothing changed when there is no memory; capacity at most max(4096, twice the longest content), bytes moved below the capacity |
| `FragBuffer.FragBuffer.GrownCapacity` | src/ws_client.c:119-123 | the doubling loop ends, without wrapping, at a capacity that fits and is at most twice what is needed |
| `FragBuffer.DoublingEndsIff` | src/ws_pool.c:124-126 | with a 64-bit size_t the loop ends if and only if at most 2^63 bytes are needed |
| `UrlEncode.UrlEncode` | examples/xfyun_tts.c:127-144 | stays in bounds, encodes as many whole bytes as the loop guard admits, and what it wrote decodes to that prefix |
| `UrlEncode.RoundTrip` | examples/xfyun_tts.c:132-142 | decoding undoes encoding on every byte string; only unreserved characters and whole triplets are emitted |
| `UrlEncode.EncodeByteIs` | examples/xfyun_tts.c:129-140 | exactly the letters, the digits and `-_.~` stay as they are; every other byte becomes `%` and two upper-case digits |
| `UrlEncode.ReachesAllIff` | examples/xfyun_tts.c:131 | nothing is cut off exactly when the room before the last byte suffices, and always when outlen > 3 n + 1 |
| `UrlEncode.ReachesIsUnique` | examples/xfyun_tts.c:131 | the prefix that is encoded is determined by the input and outlen |

## Left out

- libwebsockets itself, sockets, TLS flags, DNS and `poll`: foreign code, represented by the events it delivers.
- `src/ws_server.c`: the same reassembler again, and a one-slot echo buffer.
- Setters of configuration, logging, signal handling, `main` functions and the other functions of `examples/xfyun_tts.c`.
- `wsp_pool_destroy`, `wsl_destroy` and `wsld_destroy`: freeing at the end of a program, with no thread left to interleave with.
- A failing `pthread_create` in `wsp_pool_start`, which takes the published context back.
- A failing start of v2, and a second `wsl_start` after `wsl_stop`, which begins another run.
- The second half of WAIT_CANCELLED in `StopProtocol`: it asks for a close handshake or a WRITEABLE, and both may happen at any time in the model.
- Freed memory: a node that is freed is one the queue no longer holds; reuse of an address by the allocator is not modelled.
- The rx_cb and on_message callbacks are records of what they are called with; on_connected, on_disconnected and on_error change no state of the client.
- Weakly ordered memory: the unlocked reads are sequentially consistent here, which C does not promise for them.
- FragBuffer.FragBuffer.Append: asks for at most 2^63 bytes in the buffer, because the source's loop does not end beyond that (`FragBuffer.DoublingEndsIff`).
- WakeUp.NoMessageStranded: is about runs without a WSI_DESTROY alone, which a running client of v2 does not get; with one, what counts is `wsi` (`WakeUp.DrainsIffWsi`).
- Lifecycle.BackoffForm: asks for 0 < init <= max < 2^30; signed overflow beyond that is undefined in C and two's complement in the model.
- Heartbeat.SilentPeerIsClosed: from the silence on, lws fires timers when they are due, and the WRITEABLE that writes the PING asked for by a TIMER comes before the next TIMER.
- SendQueue.V2FlowControlIff: limits and the message count stay below 2^31, as the int parameters of `wsl_set_queue_limit` have it for the limits.
- UrlEncode.UrlEncode: asks for outlen of at least 1, a terminated input and separate buffers, as its callers have them; with outlen 0 the terminator is written behind the buffer.
