# Paseito verification project

A Dafny 4.11 model of the parts of Paseito whose correctness is hardest to see, with proofs
for all inputs, all histories or all sets of failures. `dafny verify dfyconfig.toml` checks
everything. Nothing was executed: the claims are about the model, which follows the cited
lines branch by branch.

## What is modelled

**The daemon client.** `Connection.dfy` is the connection engine as a state machine: five
statuses, the retry, connect, error and heartbeat timers, the shared ping probe, the
`connect()` promise, the waiters (`Waiters.dfy`) and the queue of sends accepted while
connecting (`SendQueue.dfy`). An event is a call, a fired timer, a transport callback or the
continuation of a session RPC. `ConnectionInvariant`, `RetrySchedule`, `ConnectPromise`,
`ConnectDeadline`, `ConnectProgress`, `Reconnecting`, `SessionTables`, `QueuedRequests`,
`RequestOutcomes` and `Liveness` prove what holds at every point of every history of events,
and `EngineEffects` what each event does, field by field, without the private steps.
`DaemonClient.dfy` is the object itself: a class whose methods update the fields in place,
loops included, each proved to perform one step of the engine. Its waiters are heap objects that the set shares with the closures that
cancel them or time them out (`WaiterSet.dfy`).

**Transfers, streams and frames.** `FileTransfer.dfy` holds the reassembler of interleaved
binary transfers and the uploader; `TerminalRouter.dfy` the slot table of shared sets with
detach closures that capture a set by identity (`SlotTable.dfy` is the same table over
numbers, with its histories); `NativeMessaging.dfy` the incremental frame decoder and its
encoder.

**Metrics.** `Metrics.dfy` is the direct tally, the sliding window and their laws;
`RuntimeMetrics.dfy` the object, whose handler timings are shared heap objects.

**Provider readiness.** `ProvidersReady.dfy` is the race between a snapshot reply and updates.

**Automation.** `Checklist.dfy` renders and rewrites the generated block of AGENTS.md;
`Installer.dfy` and `Migration.dfy` are the two directory transactions with failures injected
at any set of operations; `Release.dfy` decides and iterates release versions, and
`NativeVersion.dfy` derives native build numbers (both over `Decimal.dfy`).

## What the proofs found

Twelve properties that one would expect do not hold of the code. Each is kept as the code has
it and proved with its exact condition:

- An attempt whose transport opens after a generic error keeps no timer: `open` cancels the
  error timer, `error` had cancelled the connect timeout (`ConnectDeadline`).
- A `connect()` whose attempt fails before the call returns stores an already rejected
  promise: the executor's `rejectConnect` clears the field before the assignment fills it.
  `connect()` hands that promise out and makes no attempt until one of the listed events
  ends that state (`ConnectPromise`).
- Switching reconnecting off between two attempts disarms the retry that a pending `connect()`
  promise waits for, and calling `connect()` again or switching it back on does not help
  (`ConnectProgress`).
- A disconnected client on which reconnecting is switched off and on again has no retry armed:
  enabling arms nothing. It is the only event that breaks "disconnected and enabled means a
  retry is armed" (`Reconnecting`).
- A request accepted while connecting goes out at the handshake even when its caller has been
  rejected by then, by its timeout for instance (`QueuedRequests`).
- `close()` leaves a `connect()` promise unsettled for ever exactly when one is pending
  (`ConnectPromise`).
- A detach that is called again, or after the slots were cleared, deletes the slot by number
  even when a newer set owns it; the call sites can detach twice. The slots list the open
  attaches throughout a history exactly when no detach is stale, as in every history that
  detaches at most once and not after a clearing (`TerminalRouter`, `SlotTable`).
- A byte budget of 0 counts as no budget (`FileTransfer`).
- With a clock that steps back, pruning from the front can keep stale buckets and lose buckets
  that are within the window again (`Metrics`).
- An end marker inside a registry field breaks the block rewriter, a start marker does not;
  an end marker that stands only before the start marker ends in an uncaught ValueError
  instead of the module's own error (`Checklist`).
- An empty request id reads as "no snapshot yet", so later updates are never seen
  (`ProvidersReady`).
- Moving to an upstream tag for a second time, or back to the one a history started from,
  issues its revision 1 again (`Release`).

## Modelling decisions

- One attempt and one `close()` are single steps, that is, credentials resolve synchronously
  and no other event comes between the parts of `close()`. Promise continuations are drained
  at the end of the event that makes them runnable.
- Connection listeners are passive, raw message handlers do not call back into the client,
  sends do not re-enter it, and registering transport callbacks does not throw. Event
  listeners do not throw either: the source runs them without a `try`, before the waiters
  see the message. A waiter's predicate may clear the waiter set.
- A transport's callbacks are delivered only while it is the current one (its cleanups have
  otherwise removed them).
- Frames, messages and payloads are datatypes after validation; decoding and schemas are
  outside. Native message bodies are opaque bytes that parse.
- Numbers are unbounded; the source's limits (32-bit headers, 64 MiB, safe integers, version
  codes) are written out. Durations are reals, other times integers.
- In the two directory transactions a failed copy or removal leaves a `Fragment`, which may
  be anything from nothing to all of the tree; renames and swaps happen whole or not at all.

## Model

| member | source | states |
|---|---|---|
| `ConnectionInvariant.StepKeepsConnectionOk` | packages/client/src/daemon-client.ts:1316-1600 | every event keeps: the one unclosed transport is the current one; a retry timer is armed only while disconnected and enabled; connected or connecting means a transport, connected also a server-info record and no connect timeout; the two attempt timers are never both armed; a probe exists only while connected; the failure counter stays below 2 |
| `ConnectionInvariant.RunKeepsConnectionOk` | packages/client/src/daemon-client.ts:1316-1600 | the same at every point of every history from the initial state |
| `ConnectionInvariant.AttemptConnectOk` | packages/client/src/daemon-client.ts:1337-1500 | an attempt from any state but connected keeps the rules whichever way it ends, so the old transport is closed before a new one exists |
| `ConnectionInvariant.LivenessFailureOk` | packages/client/src/daemon-client.ts:6700-6713 | a counted liveness failure either changes nothing but the counter or leaves a consistent disconnected client |
| `RetrySchedule.StepEvolves` | packages/client/src/daemon-client.ts:6656-6669 | every event extends the list of armed delays and keeps each equal to min(base*2^k, max), except the handshake, which empties it |
| `RetrySchedule.HandshakeEvolves` | packages/client/src/daemon-client.ts:6739-6742 | the handshake resets the attempt count and leaves no retry armed |
| `RetrySchedule.DelayGrows` | packages/client/src/daemon-client.ts:6656-6661 | later retries never wait less, and none longer than the maximum |
| `RetrySchedule.BackoffOverRuns` | packages/client/src/daemon-client.ts:6656-6669 | at every point of every history the delays since the last handshake are the capped powers: the first is the base, each the double of the one before, up to the maximum; and an armed retry waits for the latest of them while disconnected |
| `RetrySchedule.AuthFailureDisables` | packages/client/src/daemon-client.ts:1433-1444 | a close on a rejected credential turns reconnecting off |
| `RetrySchedule.NoRetryWhileDisabled` | packages/client/src/daemon-client.ts:6585-6637 | in every history no retry is armed from a point where reconnecting is off until the setting turns it on |
| `EngineEffects.StepMoves` | packages/client/src/daemon-client.ts:1316-1600 | what every event does to every part of the connection but the two tables, written per field without the private steps: the status and the reported transitions, the transport and the slots, the two attempt timers, the retry, its attempt count, the setting and the rejected credential, the verification, and the connect() promise (the steps at 6585-6669 and 6715-6807 included) |
| `Reconnecting.FiredRetryConnects` | packages/client/src/daemon-client.ts:6662-6668 | a fired retry makes an attempt, with or without a promise to settle: a new transport that is connecting, or disconnected again with the next retry armed exactly when reconnecting is enabled, no credential was rejected and the attempt was not refused |
| `Reconnecting.LossArmsRetry` | packages/client/src/daemon-client.ts:6593-6637 | a connecting or connected client that loses its transport is disconnected, with a retry armed exactly when reconnecting is enabled and no credential was rejected |
| `Reconnecting.RetryingExactly` | packages/client/src/daemon-client.ts:6585-6637 | that a disconnected client has a retry armed exactly when reconnecting is enabled is kept by an event if and only if the event does not switch reconnecting back on while disconnected |
| `Reconnecting.AlwaysRetryingExactly` | packages/client/src/daemon-client.ts:6585-6637 | the same as an equivalence over every history |
| `Reconnecting.RetryStaysArmed` | packages/client/src/daemon-client.ts:6656-6669 | in every history an armed retry stays armed until it fires, unless close, connect, ensureConnected, switching reconnecting off or a rejected credential comes first |
| `Reconnecting.LostConnectionComesBack` | packages/client/src/daemon-client.ts:6593-6669 | in every history a loss with reconnecting enabled, then events that leave the retry alone, then the timer: the client is connecting on a new transport |
| `ConnectPromise.StepEffect` | packages/client/src/daemon-client.ts:1316-1335 | what each event does to the connect() promise: starts one, settles the current one, drops it (close only) or leaves it; becoming connected resolves it; only close disposes |
| `ConnectPromise.PromisesOverRuns` | packages/client/src/daemon-client.ts:1508-1524 | over every history each connect() promise settles at most once and keeps its value, and none is pending while connected |
| `ConnectPromise.StaleExactly` | packages/client/src/daemon-client.ts:1328-1332 | connectPromise ends up holding an already rejected promise if and only if a new promise's attempt fails before connect() returns, because the executor's rejection is overwritten by the assignment |
| `ConnectPromise.StaleConnectIsInert` | packages/client/src/daemon-client.ts:1323-1325 | while connectPromise holds a settled promise, connect() makes no attempt and changes nothing |
| `ConnectPromise.StaleEndsExactly` | packages/client/src/daemon-client.ts:1316-1600 | an event ends that state if and only if it is close(), the handshake, a fired retry or an ensureConnected whose attempt fails at once, or a loss of the connection that is not retried |
| `ConnectPromise.StalePromiseExists` | packages/client/src/daemon-client.ts:1328-1332 | the concrete first call that leads there |
| `ConnectPromise.DisposedAbsorbs` | packages/client/src/daemon-client.ts:1526-1558 | after close every event leaves the client disposed: no transition, transport, timer, probe or settlement |
| `ConnectPromise.DisposedForEver` | packages/client/src/daemon-client.ts:1526-1558 | the same from any disposed point of any history to any later one |
| `ConnectPromise.CloseDropsPendingConnect` | packages/client/src/daemon-client.ts:1526-1558 | after close() every connect() promise ever made is settled if and only if the client held no hooks to settle one; the promise whose hooks it held is the one left |
| `ConnectPromise.ClosedConnectHangs` | packages/client/src/daemon-client.ts:1526-1558 | in every history that starts with a connect() whose transport is constructed and a close(), the promise of that call is unsettled at every later point |
| `ConnectDeadline.DeadlineExactly` | packages/client/src/daemon-client.ts:1404-1426 | a connecting client keeps an armed connect or error timer through an event if and only if the event is not the opening of a transport that has already reported a generic error |
| `ConnectDeadline.DeadlineOverRuns` | packages/client/src/daemon-client.ts:1404-1477 | over every history, every attempt has an armed deadline throughout if and only if no transport opens after a generic error |
| `ConnectDeadline.OpenAfterErrorHangs` | packages/client/src/daemon-client.ts:1419-1426 | the concrete history that leaves an attempt without any timer |
| `ConnectDeadline.HangIsStable` | packages/client/src/daemon-client.ts:1560-1577 | no timer and no call but close or a failed release ends such a hang |
| `ConnectProgress.StallsExactly` | packages/client/src/daemon-client.ts:1316-1335 | an event leaves a pending connect() promise without an attempt under way or a retry armed if and only if it switches reconnecting off while none is under way |
| `ConnectProgress.StallEndsExactly` | packages/client/src/daemon-client.ts:1323-1325 | from then on only close(), ensureConnected() and a further loss of the old transport change that; connect() changes nothing and switching reconnecting on arms nothing |
| `ConnectProgress.AlwaysMovingExactly` | packages/client/src/daemon-client.ts:6585-6637 | over every history, a pending promise never stands still if and only if reconnecting is never switched off under one between attempts |
| `ConnectProgress.PendingIsTimed` | packages/client/src/daemon-client.ts:1404-1477 | in histories with neither that nor a transport that opens after a generic error, a pending promise always has an armed retry, connect or error timer |
| `ConnectProgress.SwitchingOffStalls` | packages/client/src/daemon-client.ts:6585-6591 | the concrete history that leaves a promise standing still, and connect() handing it out |
| `Liveness.StepMoves` | packages/client/src/daemon-client.ts:2166-2248 | what each event does to the failure counter, the transition log and the connected transport |
| `Liveness.StepMovesProbe` | packages/client/src/daemon-client.ts:2148-2220 | an event starts the one ping probe, shares it, ends it (pong, timeout, loss) or leaves it, and only a heartbeat starts one that counts |
| `Liveness.ProbeHasStarter` | packages/client/src/daemon-client.ts:2148-2220 | over every history an outstanding probe was started by a definite earlier event, with no pong, timeout or loss since, and it counts if and only if that event was a heartbeat |
| `Liveness.TeardownExactly` | packages/client/src/daemon-client.ts:6700-6713 | over every history the heartbeat disconnects at an event if and only if a probe that a heartbeat started fails there and one failed at an earlier event, on the same connection with no validated inbound frame between them |
| `Liveness.MeasurementsDoNotCount` | packages/client/src/daemon-client.ts:2148-2220 | over every history the failure of a probe that a measurement started moves neither the counter nor the connection, even shared by a heartbeat |
| `Liveness.BeatsOverRuns` | packages/client/src/daemon-client.ts:2222-2248 | over every history a connected client has its next heartbeat either scheduled or waiting on the outstanding probe, and never both |
| `SessionTables.StepProgress` | packages/client/src/daemon-client.ts:1806-1875 | every event keeps waiters, queue and wire consistent, settles promises at most once and only appends to the wire |
| `SessionTables.ScheduleReconnectDropsAll` | packages/client/src/daemon-client.ts:6593-6618 | after scheduleReconnect no waiter, queued send, ping probe, terminal slot or server-info record survives |
| `SessionTables.CloseProgress` | packages/client/src/daemon-client.ts:1540-1547 | close settles every waiter and every queued send |
| `SessionTables.TablesOverRuns` | packages/client/src/daemon-client.ts:6793-6830 | at every point of every history a waiter is in the set exactly when unsettled, nothing waits or is queued on a client that is neither connecting nor connected, and sent + rejected + queued = accepted |
| `SessionTables.SettledOnceOverRuns` | packages/client/src/daemon-client.ts:6890-6916 | between any two points of a history settled promises keep their value and the wire grows at its end |
| `QueuedRequests.QueuedSendFares` | packages/client/src/daemon-client.ts:1806-1875 | every event leaves a queued send alone, sends it, or rejects it and settles its waiter; it sends it if and only if it is the handshake and the transport takes the send |
| `QueuedRequests.QueuedSendOverRuns` | packages/client/src/daemon-client.ts:1877-1925 | at every later point of every history a send once queued is queued, sent, or rejected with its waiter settled, so no caller waits for a request that was dropped |
| `QueuedRequests.GivesUpExactly` | packages/client/src/daemon-client.ts:6890-6961 | while its send stays queued a waiter is settled by exactly its timeout, its cancel, a session message that its or a clearing predicate takes, or a malformed response with its id |
| `QueuedRequests.GivenUpOverRuns` | packages/client/src/daemon-client.ts:6890-6961 | over every history, the waiter of a still queued send is settled if and only if one of these has come since |
| `QueuedRequests.SentLateExactly` | packages/client/src/daemon-client.ts:1844-1925 | over every history, a request goes out after its waiter was settled if and only if one of these comes between its acceptance and the handshake, and the transport takes the send |
| `QueuedRequests.SentAfterTimeout` | packages/client/src/daemon-client.ts:1877-1925 | the concrete history of a request that goes out after its own timeout rejected it |
| `RequestOutcomes.WaiterEnds` | packages/client/src/daemon-client.ts:6793-6830 | every event, in every status, settles a pending waiter with exactly what it should and leaves it pending otherwise: the verdict of the frame that the event delivers on the current transport, its timeout, its cancel, the end of the connection, or the rejection of its queued send |
| `RequestOutcomes.RequestStarts` | packages/client/src/daemon-client.ts:1886-1957 | a request waits on a connected client whose transport takes it, waits with its send queued on a connecting one, and is rejected at once otherwise |
| `RequestOutcomes.SendLeavesQueue` | packages/client/src/daemon-client.ts:1806-1875 | a queued send leaves the queue at exactly the handshake, its own timeout, close and a dropped connection |
| `RequestOutcomes.RequestOutcomeOverRuns` | packages/client/src/daemon-client.ts:1886-1957 | over every history of events a waiter is settled with the first of these since it was made, and is pending if and only if there was none (6377-6396, 6793-6830 and 6890-6961) |
| `RequestOutcomes.ReplyIsDelivered` | packages/client/src/daemon-client.ts:1886-1957 | in particular a connected client's request is resolved with the payload of its response, unless a predicate clears the set on it |
| `Waiters.ResolveKeepsValid` | packages/client/src/daemon-client.ts:6793-6807 | delivery keeps in-the-set-iff-unsettled for arbitrary predicates, including one that clears the set during the snapshot iteration |
| `Waiters.RejectForKeepsValid` | packages/client/src/daemon-client.ts:6809-6820 | so does rejecting by request id |
| `Waiters.ClearKeepsValid` | packages/client/src/daemon-client.ts:6822-6830 | clearing empties the set and settles every waiter in it |
| `Waiters.AddKeepsValid` | packages/client/src/daemon-client.ts:6905-6936 | a new waiter is in the set, unsettled |
| `Waiters.TimeoutKeepsValid` | packages/client/src/daemon-client.ts:6918-6926 | a timeout keeps the set law |
| `Waiters.CancelKeepsValid` | packages/client/src/daemon-client.ts:6938-6961 | so does a cancel |
| `Waiters.SettledOnce` | packages/client/src/daemon-client.ts:6906-6915 | no operation changes the value of a settled promise |
| `Waiters.RequestJudgeIsCorrelated` | packages/client/src/daemon-client.ts:1886-1957 | the predicate of a correlated request reacts only to messages that carry its own id, rpc_error included |
| `Waiters.ReceiveAt` | packages/client/src/daemon-client.ts:6377-6396 | one inbound frame settles a waiter with exactly the frame's verdict on it, or leaves it in the set |
| `Waiters.DeliveryAt` | packages/client/src/daemon-client.ts:6793-6820 | the same whatever the predicates do: when one clears the set, those before it that have a verdict get it, and every other waiter, that one included, is rejected |
| `Waiters.MalformedReplyIsExact` | packages/client/src/daemon-client.ts:6377-6396 | an invalid response rejects exactly the waiters that carry its request id |
| `Waiters.OutcomeIsFirstVerdict` | packages/client/src/daemon-client.ts:6793-6820 | over any list of frames a waiter ends with the first verdict that is for it, or pending |
| `Waiters.ReplyOrderDoesNotMatter` | packages/client/src/daemon-client.ts:1886-1957 | any permutation of the frames, unrelated ones included, gives a request the same outcome when its id is answered at most once |
| `SendQueue.PushKeepsValid` | packages/client/src/daemon-client.ts:1817-1835 | an accepted send is queued behind all others |
| `SendQueue.TimeOutKeepsValid` | packages/client/src/daemon-client.ts:1819-1831 | splicing out of the middle keeps both orders and one fate per send |
| `SendQueue.TimeOutIsExact` | packages/client/src/daemon-client.ts:1819-1831 | a send timeout rejects its own entry and touches no other promise nor the wire |
| `SendQueue.FlushKeepsValid` | packages/client/src/daemon-client.ts:1844-1875 | flushing and rejecting keep the queue law and empty the queue |
| `SendQueue.FlushIsExact` | packages/client/src/daemon-client.ts:1844-1862 | a flush sends exactly the queued sends that do not throw, behind everything sent before, and rejects exactly the others |
| `SendQueue.Conservation` | packages/client/src/daemon-client.ts:1806-1875 | sent + rejected + still queued = accepted, whatever timed out or threw |
| `WaiterSet.WaiterSet.Add` | packages/client/src/daemon-client.ts:6905-6936 | a new waiter object joins the set, and is the one its closures hold |
| `WaiterSet.WaiterSet.Settle` | packages/client/src/daemon-client.ts:6906-6915 | taking an object from the set and settling its promise, unless settled, is settling its key in the table of values |
| `WaiterSet.WaiterSet.Clear` | packages/client/src/daemon-client.ts:6822-6830 | the loop over the objects is the clearing of the table |
| `WaiterSet.WaiterSet.Resolve` | packages/client/src/daemon-client.ts:6793-6807 | the loop over a snapshot of the objects, with predicates that may clear the set under it, is the delivery of the table |
| `WaiterSet.WaiterSet.RejectForRequestId` | packages/client/src/daemon-client.ts:6809-6820 | the snapshot loop is the rejection by request id |
| `WaiterSet.WaiterSet.Cancel` | packages/client/src/daemon-client.ts:6938-6961 | the cancel closure, which looks at the settled flag of its object, is the cancel of its key |
| `WaiterSet.WaiterSet.Timeout` | packages/client/src/daemon-client.ts:6918-6926 | the timer of an object is the timeout of its key |
| `WaiterSet.DeleteIsWithout` | packages/client/src/daemon-client.ts:6793-6820 | deleting an object from the set is deleting its key |
| `DaemonClient.EngineKeepsGood` | packages/client/src/daemon-client.ts:1316-1600 | the invariants above are kept together by every event |
| `DaemonClient.DaemonClient.FlushPendingSendQueue` | packages/client/src/daemon-client.ts:1844-1862 | the loop computes the flush and reports the waiters whose send failed |
| `DaemonClient.DaemonClient.RejectPendingSendQueue` | packages/client/src/daemon-client.ts:1867-1875 | the loop rejects every queued send |
| `DaemonClient.DaemonClient.Reschedule` | packages/client/src/daemon-client.ts:6593-6637 | the steps of scheduleReconnect, in place |
| `DaemonClient.DaemonClient.AttemptToConnect` | packages/client/src/daemon-client.ts:1337-1500 | the branches of an attempt, in place |
| `DaemonClient.DaemonClient.Handle` | packages/client/src/daemon-client.ts:1316-1600 | each of the 27 calls, fired timers, transport callbacks, inbound frames and settled session RPCs, by its own method, updates the fields in place to the engine's next state and keeps the invariants together (sends, pings, frames, the retry timer and the waiters at 1806-1957, 2148-2248, 6377-6474 and 6585-6961) |
| `DaemonClient.Replay` | packages/client/src/daemon-client.ts:1316-1600 | over every history of events a new object is in the state of the engine's run, so what is proved of every run holds of it |
| `FileTransfer.ConcatByteChunks` | packages/client/src/daemon-client.ts:1117-1125 | the array filled by the loop is the concatenation in order, zero-padded to the declared size, or the range error when it does not fit |
| `FileTransfer.FileReads.HandleFileTransferFrame` | packages/client/src/daemon-client.ts:6476-6550 | the maps and the reaction follow the per-frame specification |
| `FileTransfer.FileReads.Finish` | packages/client/src/daemon-client.ts:4878-4893 | a read hands over its completed result once and forgets its entries |
| `FileTransfer.OwnedOverHistories` | packages/client/src/daemon-client.ts:6476-6492 | over every history of frames, starting reads and finishing reads, active transfers belong to pending reads |
| `FileTransfer.OtherRequestsDoNotMatter` | packages/client/src/daemon-client.ts:6476-6550 | under any interleaving, of frames and of reads that start and finish, one request's events act on it as if they had come alone |
| `FileTransfer.EndExactly` | packages/client/src/daemon-client.ts:6494-6550 | for every Begin and its chunks the End refuses if and only if there is a non-zero budget below the declared size, throws if and only if it does not refuse and the chunks exceed the declared size, and completes otherwise; what becomes of the transfer in each case |
| `FileTransfer.WaitingOverHistories` | packages/client/src/daemon-client.ts:4865-4893 | over every history a read waits under an id if and only if the latest call about that id started it; frames neither add nor take away one |
| `FileTransfer.StartDisturbsNothing` | packages/client/src/daemon-client.ts:4865-4872 | starting a read leaves every transfer and result as it is, even under the same id |
| `FileTransfer.FinishForgets` | packages/client/src/daemon-client.ts:4878-4893 | a finished read leaves nothing behind, unless it failed and its result came: that entry stays |
| `FileTransfer.StrayFrameIsIgnored` | packages/client/src/daemon-client.ts:6476-6492 | a frame for an id without a waiting read or transfer changes nothing |
| `FileTransfer.EndOfTransfer` | packages/client/src/daemon-client.ts:6527-6537 | an End completes with the chunks since the latest Begin, or throws and changes nothing when they exceed the declared size |
| `FileTransfer.CompletedReadIsExact` | packages/client/src/daemon-client.ts:6527-6537 | a completed read holds exactly its own chunks since its latest Begin, in order and zero-padded, whatever happened to it before and whatever other reads and transfers are interleaved |
| `FileTransfer.BudgetIsKept` | packages/client/src/daemon-client.ts:6499-6525 | a completed read has the declared size, within a non-zero byte budget |
| `FileTransfer.BudgetExactly` | packages/client/src/daemon-client.ts:6499-6525 | a completed read exceeds the given budget if and only if the budget is zero and the file is not empty |
| `FileTransfer.SendUpload` | packages/client/src/daemon-client.ts:5044-5089 | the frames sent are a prefix of Begin, pieces, End, all of them exactly when the upload is not interrupted |
| `FileTransfer.PiecesCoverBytes` | packages/client/src/daemon-client.ts:5060-5075 | the pieces from any offset on concatenate to the rest of the bytes |
| `FileTransfer.UploadRoundTrip` | packages/client/src/daemon-client.ts:5044-5081 | for any bytes and any chunk size the uploader's frames, however interleaved with other events, reassemble to the bytes |
| `FileTransfer.ReadBack` | packages/client/src/daemon-client.ts:4865-4893 | one read through the object returns the uploaded bytes, whatever other frames arrive and reads start or finish meanwhile |
| `TerminalRouter.TerminalStreamRouter.Attach` | packages/client/src/terminal-stream-router.ts:33-47 | adds exactly one live (slot, registration) pair and shares the slot's set |
| `TerminalRouter.TerminalStreamRouter.RunDetach` | packages/client/src/terminal-stream-router.ts:43-46 | removes exactly its own pair if and only if it is not stale; a stale detach drops every registration of its slot number |
| `TerminalRouter.TerminalStreamRouter.ClearSlots` | packages/client/src/terminal-stream-router.ts:49-51 | no pair is live afterwards |
| `TerminalRouter.TerminalStreamRouter.HandleFrame` | packages/client/src/terminal-stream-router.ts:53-80 | unless a callback throws, a frame reaches each live registration of its slot once and no other, nobody when the opcode or the snapshot is unknown; it throws exactly when a live callback of the slot does, and then nobody behind that one is reached; passive listeners hear exactly the events whose callback returned |
| `SlotTable.DetachListed` | packages/client/src/terminal-stream-router.ts:43-46 | a detach removes exactly its own attach from those the slots list if and only if it is not stale |
| `SlotTable.ExactExactly` | packages/client/src/terminal-stream-router.ts:33-51 | over every history of attaches, detaches and clearings the slots list exactly the open attaches at every point if and only if no detach of the history is stale when called |
| `SlotTable.DisciplineSuffices` | packages/client/src/terminal-stream-router.ts:33-51 | they do in every history that calls each detach at most once and none after its attach was cleared |
| `SlotTable.OpenMeans` | packages/client/src/terminal-stream-router.ts:33-51 | an attach is open if and only if no detach of it and no clearing follows it |
| `TerminalRouter.TerminalStreamRouter.Execute` | packages/client/src/terminal-stream-router.ts:33-51 | the object, through any history from an empty router, lists exactly the pairs that the table of values lists, and after a disciplined one exactly the open pairs |
| `TerminalRouter.TerminalStreamRouter.Deliver` | packages/client/src/terminal-stream-router.ts:33-80 | after a disciplined history a frame reaches each open registration of its slot once, and no other |
| `TerminalRouter.TerminalStreamRouter.DetachTwice` | packages/client/src/terminal-stream-router.ts:33-47 | detaching twice, with the slot taken over in between, drops the newcomer |
| `TerminalRouter.TerminalStreamRouter.DetachAfterClear` | packages/client/src/terminal-stream-router.ts:33-51 | so does a first detach after the slots were cleared and the slot taken over |
| `TerminalRouter.RemoveIsExact` | packages/client/src/terminal-stream-router.ts:44 | deleting removes exactly one registration |
| `NativeMessaging.HeaderRoundTrip` | packages/desktop/src/native-messaging-host.ts:17-18 | the 32-bit little-endian header read back is the length written |
| `NativeMessaging.HeaderOfRead` | packages/desktop/src/native-messaging-host.ts:48 | and the header written from a read length is the bytes read |
| `NativeMessaging.WriteNativeMessage` | packages/desktop/src/native-messaging-host.ts:15-21 | the header buffer filled in place and the body are the encoding, or the range error of the write |
| `NativeMessaging.NativeHost.OnData` | packages/desktop/src/native-messaging-host.ts:45-73 | the handler's loop forwards and keeps what the specification decodes; it terminates because the buffer shrinks |
| `NativeMessaging.DecodeAppend` | packages/desktop/src/native-messaging-host.ts:45-73 | decoding a then what is left with b is decoding a and b together, partial frames included |
| `NativeMessaging.ChunkingDoesNotMatter` | packages/desktop/src/native-messaging-host.ts:44-73 | however the stream is cut, the same bodies are forwarded and the same bytes kept, and it complains only for an oversized header |
| `NativeMessaging.RoundTrip` | packages/desktop/src/native-messaging-host.ts:15-73 | any bodies within 64 MiB, encoded and cut anywhere, come out unchanged, in order, with an empty buffer |
| `NativeMessaging.StopsExactly` | packages/desktop/src/native-messaging-host.ts:47-59 | the decoder stops at a header or a body that is not all there, or at a header over the limit, and complains in exactly that case |
| `NativeMessaging.PartialFrameIsKept` | packages/desktop/src/native-messaging-host.ts:59 | an incomplete frame is kept whole and yields nothing |
| `NativeMessaging.DecodeLosesNothing` | packages/desktop/src/native-messaging-host.ts:45-62 | re-encoding what was forwarded, followed by the remainder, gives back every input byte |
| `Metrics.TallyOfOne` | packages/client/src/daemon-client-runtime-metrics.ts:57-76 | what one event alone amounts to, under which keys, the prefixed ones included |
| `Metrics.RunningIsTally` | packages/client/src/daemon-client-runtime-metrics.ts:57-76 | recording one event after another computes the per-key counts, sums and maxima of the events |
| `Metrics.RunningAppend` | packages/client/src/daemon-client-runtime-metrics.ts:146-160 | merging the counters of two event lists gives the counters of both |
| `Metrics.PeakIsMaximum` | packages/client/src/daemon-client-runtime-metrics.ts:179-196 | the maximum of a key is attained and bounds all its durations |
| `Metrics.TimingCountsAgree` | packages/client/src/daemon-client-runtime-metrics.ts:57-76 | the timing count of a key is its message count plus, under the binary prefix, its frame count |
| `Metrics.ActiveExactly` | packages/client/src/daemon-client-runtime-metrics.ts:113-118 | the two maps tested for activity are empty exactly when no message and no binary frame was recorded |
| `Metrics.PruneExactly` | packages/client/src/daemon-client-runtime-metrics.ts:139-144 | shifting stale buckets off the front keeps exactly the window if and only if no stale bucket stands behind a fresh one |
| `Metrics.WindowOverRuns` | packages/client/src/daemon-client-runtime-metrics.ts:78-84 | over every history with a clock that never steps back, a flush retains exactly the buckets ever cut at or after now - windowMs |
| `Metrics.NothingLost` | packages/client/src/daemon-client-runtime-metrics.ts:113-137 | cutting buckets loses and repeats no recorded event |
| `Metrics.RetainedIsSuffix` | packages/client/src/daemon-client-runtime-metrics.ts:78-144 | over every history, whatever the clock does, a flush retains the buckets ever cut but the first ones, as many as the clock readings have let go |
| `Metrics.WindowExactly` | packages/client/src/daemon-client-runtime-metrics.ts:139-144 | over every history a flush retains exactly the buckets ever cut at or after now - windowMs if and only if exactly the first ones let go so far end before that |
| `Metrics.AlwaysExactExactly` | packages/client/src/daemon-client-runtime-metrics.ts:78-144 | every flush of a history retains exactly its window if and only if at no flush a stale bucket stands behind a fresh one and none is fresh again that was stale at the flush before |
| `Metrics.BackwardClockKeepsStale` | packages/client/src/daemon-client-runtime-metrics.ts:139-144 | the concrete history with a clock that steps back and a stale bucket that stays |
| `Metrics.BackwardClockLosesFresh` | packages/client/src/daemon-client-runtime-metrics.ts:139-144 | the concrete history with a clock that steps back and a bucket within the window that is gone |
| `RuntimeMetrics.MergeCountMap` | packages/client/src/daemon-client-runtime-metrics.ts:209-213 | the loop over keys, in any order, adds the counts key by key |
| `RuntimeMetrics.MergeHandlerTimingMap` | packages/client/src/daemon-client-runtime-metrics.ts:215-233 | the loop joins the timings into the target's objects and neither touches nor keeps an object of the source |
| `RuntimeMetrics.CloneHandlerTimingMap` | packages/client/src/daemon-client-runtime-metrics.ts:198-207 | the clone has equal values and only fresh objects |
| `RuntimeMetrics.RuntimeMetrics.RecordMessage` | packages/client/src/daemon-client-runtime-metrics.ts:57-61 | records the event into counters and timings that keep tallying the pending events |
| `RuntimeMetrics.RuntimeMetrics.RecordAgentStream` | packages/client/src/daemon-client-runtime-metrics.ts:63-70 | likewise for an agent stream event |
| `RuntimeMetrics.RuntimeMetrics.RecordBinaryFrame` | packages/client/src/daemon-client-runtime-metrics.ts:72-76 | likewise for a binary frame, under its prefixed key |
| `RuntimeMetrics.RuntimeMetrics.ConsumeCurrentBucket` | packages/client/src/daemon-client-runtime-metrics.ts:113-137 | cuts a bucket of its own timing objects when there was activity, else keeps everything pending |
| `RuntimeMetrics.RuntimeMetrics.PruneBuckets` | packages/client/src/daemon-client-runtime-metrics.ts:139-144 | the loop drops the stale front |
| `RuntimeMetrics.RuntimeMetrics.AggregateBuckets` | packages/client/src/daemon-client-runtime-metrics.ts:146-160 | the aggregate is the tally of the retained events, in fresh objects, with no stored object modified |
| `RuntimeMetrics.RuntimeMetrics.Flush` | packages/client/src/daemon-client-runtime-metrics.ts:78-111 | cut, prune and aggregate; what is reported is the direct tally of the retained window, and it is reported exactly when final or active |
| `RuntimeMetrics.RuntimeMetrics.FlushTwice` | packages/client/src/daemon-client-runtime-metrics.ts:78-111 | a quiet second flush reports the same |
| `RuntimeMetrics.Replay` | packages/client/src/daemon-client-runtime-metrics.ts:57-160 | over every history of recorded events and flushes on the object, the last aggregate is the direct tally of the events in the retained buckets, and with a clock that never steps back of all events in buckets cut at or after now - windowMs |
| `Checklist.ErrorsExactly` | automation/release/history_normalization.py:102-110 | the incomplete-block error comes exactly when one marker is present, the uncaught unpacking error exactly when both are but every end marker stands before the end of the first start marker |
| `Checklist.Surroundings` | automation/release/history_normalization.py:107-111 | a rewrite keeps what stands before the first start marker, up to trailing white space and that alone, and what follows the first end marker after it, up to leading newlines and those alone; a text without a block is kept whole, up to trailing white space |
| `Checklist.LastWriterWins` | automation/release/history_normalization.py:102-111 | rewriting a rewritten file equals rewriting the original if and only if the first block's body holds no end marker |
| `Checklist.BodyMarkedExactly` | automation/release/history_normalization.py:83-99 | a rendered body holds the end marker if and only if an id, an intent or a fix of the registry does |
| `Checklist.SyncedIsUpToDate` | automation/release/history_normalization.py:114-125 | a synchronised file is up to date if and only if no such field does |
| `Checklist.RStripStrips` | automation/release/history_normalization.py:108-111 | exactly the trailing white space goes |
| `Checklist.AsciiSpaces` | automation/release/history_normalization.py:108-111 | which ASCII characters count as white space |
| `Checklist.LStripStrips` | automation/release/history_normalization.py:111 | exactly the leading newlines go |
| `Checklist.FeatureLineAt` | automation/release/history_normalization.py:83-99 | every feature has its line, its fixes below it, in the order of the registry, and there are no other lines |
| `Checklist.RenderedDetermines` | automation/release/history_normalization.py:83-99 | two registries whose fields hold no newline, and whose ids no backtick, render alike if and only if they are equal |
| `Checklist.CheckIsExact` | automation/release/history_normalization.py:114-125 | after a synchronisation the check passes for a registry of such fields if and only if it is the synchronised one |
| `Checklist.RenderChecklist` | automation/release/history_normalization.py:83-99 | the two loops build the rendered block: marker, header, features, marker, newline |
| `Checklist.AgentsFile.SyncChecklist` | automation/release/history_normalization.py:114-125 | writes the expected text exactly when it differs and not in check mode; reports stale, up to date or the rewriter's error |
| `ProvidersReady.WaitExactly` | packages/client/src/index.ts:1048-1133 | every interleaving of updates, one reply, failure, abort and timeout returns what it should (the ready snapshot, else the latest earlier update of its directory if ready, else the first later ready one, unless stopped first) if and only if the request id is not the empty string |
| `ProvidersReady.WaitIsExact` | packages/client/src/index.ts:1048-1133 | the same for one history and a non-empty id, the providers named by a timeout included |
| `ProvidersReady.SettlesOnce` | packages/client/src/index.ts:1066-1077 | a settled wait keeps its outcome |
| `ProvidersReady.NeverLoading` | packages/client/src/index.ts:1080-1093 | a result never holds a loading entry, whatever the id |
| `ProvidersReady.TimeoutNamesLoading` | packages/client/src/index.ts:1098-1110 | a wait that times out names exactly the providers that are loading in the latest entries before its timeout, in their order |
| `ProvidersReady.PendingIsLoading` | packages/client/src/index.ts:1114-1127 | while the wait goes on after the reply, some provider of the latest entries is loading |
| `ProvidersReady.EmptyIdMissesUpdates` | packages/client/src/index.ts:1085-1089 | with an empty id a ready update after the snapshot is filed as pending and never returned |
| `ProvidersReady.ProvidersWait.OnUpdate` | packages/client/src/index.ts:1082-1094 | the closure performs its step on the captured variables, and settled stays true exactly when the promise is settled |
| `ProvidersReady.ProvidersWait.OnSnapshot` | packages/client/src/index.ts:1114-1127 | the closure performs its step on the captured variables, and settled stays true exactly when the promise is settled |
| `ProvidersReady.ProvidersWait.OnSnapshotFailed` | packages/client/src/index.ts:1128 | the closure performs its step on the captured variables, and settled stays true exactly when the promise is settled |
| `ProvidersReady.ProvidersWait.OnAbort` | packages/client/src/index.ts:1095-1096 | the closure performs its step on the captured variables, and settled stays true exactly when the promise is settled |
| `ProvidersReady.ProvidersWait.OnTimeout` | packages/client/src/index.ts:1098-1110 | the closure performs its step on the captured variables, and settled stays true exactly when the promise is settled |
| `ProvidersReady.ProvidersWait.Finish` | packages/client/src/index.ts:1066-1077 | the closure performs its step on the captured variables, and settled stays true exactly when the promise is settled |
| `Installer.PlanFaults` | automation/installer/paseito_installer.py:137-192 | the nested conditions raise the first failing operation of the plan |
| `Installer.Installation.InstallLocalApp` | automation/installer/paseito_installer.py:120-216 | with failures at any set of operations: installed exactly when none fails; at every recorded moment the destination holds the old or the new app, the old app is at the destination, staged or backup, and staged holds it exactly when swapped; where everything ends for each first failure, so any failure before the backup move restores the old app unless the swap back fails; what each first failure leaves of the prior backup; a first installation leaves backups alone; and an app that is up to date is left as it is unless one of the three checks before that fails |
| `Installer.Installation.BackUpPrevious` | automation/installer/paseito_installer.py:166-184 | backs the old app up, or swaps it back and keeps the prior backup somewhere |
| `Installer.Installation.ReplaceOld` | automation/installer/paseito_installer.py:153-184 | swap, check, back up, with both ways back |
| `Installer.Installation.MoveNewIn` | automation/installer/paseito_installer.py:185-191 | a first installation leaves the new app or nothing, unless its removal fails |
| `Installer.Installation.AtomicSwap` | automation/installer/paseito_installer.py:68-75 | swaps both paths or changes nothing |
| `Installer.Installation.TidyUp` | automation/installer/paseito_installer.py:209-216 | the final cleanup never removes the old app |
| `Migration.Target.ReplaceTree` | automation/migration/migrate_from_paseo.py:232-245 | succeeds exactly when no needed step fails; otherwise the old tree is at the target or beside it, or the new one already in place |
| `Migration.Target.RestoreTarget` | automation/migration/migrate_from_paseo.py:248-254 | restores content and existence, or raises with the tree in an unknown state |
| `Migration.Transaction.ApplyMigration` | automation/migration/migrate_from_paseo.py:257-305 | all or nothing: migrated exactly when every forward step succeeds, else both trees exactly as before, unless a restoring step fails too, and then the error is not the one that claims a rollback and the backup still holds everything; the missing-backup error cannot happen |
| `Migration.Transaction.BackUpTargets` | automation/migration/migrate_from_paseo.py:215-229 | a backup exists exactly when a target did, with a copy of each |
| `Migration.Transaction.ReplaceBoth` | automation/migration/migrate_from_paseo.py:296-298 | both trees are replaced and the origins migrated exactly when no step fails |
| `Migration.Transaction.RollBack` | automation/migration/migrate_from_paseo.py:299-302 | both restores, the second skipped when the first raises |
| `Release.VersionRoundTrip` | automation/release/release_model.py:11-13 | a printed version reads back as itself and only printed texts are read |
| `Release.TagRoundTrip` | automation/release/release_model.py:10 | a tag and its base determine each other |
| `Release.RevisionOfBase` | automation/release/release_model.py:81-84 | the full match and the prefix test together single out the versions of one base |
| `Release.PickIsLeast` | automation/release/release_model.py:66-103 | on an unchanged tag a release gets the least revision above the recorded and the source's and not below the candidate's; when it is refused and when it is made |
| `Release.DecisionFollowsRule` | automation/release/release_model.py:43-104 | the textual decision is the rule on base and revision numbers, all branches included |
| `Release.UnsafeExactly` | automation/release/release_model.py:51-57 | the tag error and the source error come exactly for texts that are no tag or no version, in this order |
| `Release.ReleaseShape` | automation/release/release_model.py:58-104 | a release with the source version given is strictly above the recorded and source revisions on an unchanged tag, and one above the source's on a new one |
| `Release.RerunIsNoop` | automation/release/check_upstream.py:83-94 | an unforced check right after a release changes nothing |
| `Release.NoVersionTwice` | automation/release/set_version.py:38-60 | if no tag comes back, no version is issued twice, from any starting state |
| `Release.NoVersionTwiceExactly` | automation/release/set_version.py:38-60 | in any history that starts with a released version of a tag, no version is issued twice, nor one of that tag up to the released one again, if and only if no tag is moved to twice and the starting one not at all |
| `Release.SwitchIssuesFirst` | automation/release/release_model.py:58-64 | from a store whose source version belongs to its recorded tag, every move to a tag issues that tag's revision 1 |
| `NativeVersion.BuildOrderIsPrecedence` | packages/app/native-release-version.js:38-48 | accepted versions have iOS build numbers that order exactly as section 11 of Semantic Versioning 2.0.0, and equal ones only if equal |
| `NativeVersion.FdroidCodesAreUnique` | packages/app/native-release-version.js:51-57 | F-Droid codes coincide only for the same release triple and ABI and stay within 2,100,000,000 |
| `NativeVersion.BuildGuardNeverFires` | packages/app/native-release-version.js:22-42 | the safe-integer guard on the build number can never fire; which versions are accepted, and which error the others get |
| `NativeVersion.PrecedesExactly` | packages/app/native-release-version.js:20-39 | the general identifier comparison of section 11, on versions with an optional beta |
| `NativeVersion.ParseShown` | packages/app/native-release-version.js:1 | every version is read from its printed text |
| `NativeVersion.ParseExactly` | packages/app/native-release-version.js:1 | a text is read as a version if and only if it is three numerals, leading zeros allowed, and for a beta a fourth |
| `NativeVersion.ShippedNative` | packages/app/native-release-version.js:10-49 | what is shipped for an accepted version: the release triple as the app version, the Android code and the iOS build number by their values |
| `NativeVersion.ShippedCodes` | packages/app/native-release-version.js:51-57 | the four ABIs and their codes for any text, or the same error as for the native version |
| `Decimal.ReadPrinted` | packages/app/native-release-version.js:45 | a printed number has no leading zero and reads back as itself |
| `Decimal.PrintRead` | automation/release/release_model.py:11-13 | a canonical numeral is the printed form of its value |

## Left out

- The second half of overlapping attempts and of a suspended `close()`: an asynchronous credential would let two attempts overlap.
- DaemonClient.DaemonClient.Handle: the verification ping of `ensureConnected` is its two outcomes, without a waiter or a send of its own; attaching a terminal records the slot number, its registrations being `TerminalRouter`; a binary frame has only its effect on liveness, reassembly and routing being `FileTransfer` and `TerminalRouter`; a failed release also stands for a subscription request that fails with an unknown outcome, which tears down the same way.
- TerminalRouter.TerminalStreamRouter.HandleFrame: callbacks that re-enter the router during delivery are not modelled.
- FileTransfer.FileReads.Finish: a response without a binary result falls back to the text of the response itself, which is not modelled.
- FileTransfer.SendUpload: a send that throws is the end of the upload like a changed connection; suppressed send errors are off.
- RuntimeMetrics.RuntimeMetrics.Flush: the sorting and rounding of the top lists and the logged context are reporting.
- NativeMessaging.NativeHost.OnData: a body that is not JSON throws out of the handler after the frame was taken off the buffer.
- NativeVersion.ParseShown: numbers are exact; the source's floating-point digits beyond 2^53 only occur in versions that are refused anyway.
- Release.VersionRoundTrip: digits are ASCII; the source's pattern also accepts other Unicode digits after the first.
- Checklist.AgentsFile.SyncChecklist: reading the registry and the newline translation of text files are outside.
- Installer.Installation.InstallLocalApp: asynchronous interrupts between the swap and the assignment of `swapped`, and path queries that raise, are outside.
- Migration.Transaction.ApplyMigration: trees are compared after symbolic links were followed, as the copies do; what staging puts into the new trees is a parameter.
- `validate_normalized_history`, `load_registry` and the git, ssh, packaging and network automation: process orchestration with easy members.
- Subscriptions, creation tracking, provider snapshot updates, codecs, schemas, the encrypted relay channel, tracing and logging: their state is opaque here.
- The per-RPC wrappers of the client and the handle getters: thin repetition over one request function.
