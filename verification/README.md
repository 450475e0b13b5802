# Telego relay: verified models

This Dafny project models the two state machines and the streaming codecs of the relay under
`package/telego-pkg/src/pkg`, and proves what each is for over every input, every run or every
interleaving. `dafny verify dfyconfig.toml` checks all of it.

## What is modelled

**The WEB session engine** (`webproxy`). Client bytes arrive in sequenced, retryable uplink batches and leave
as a downlink that a cursor acknowledges and can replay; per-stream credit windows and a two-level budget bound
both. Every critical section under the session mutex is one function of `SessionCore`, which the class
`SessionEngine.Session` implements in place, over the identifier bitmap and the ring of closed streams below, and each
of its sections requires and ensures the whole invariant; its loops over queued frames are the methods of `LaneQueue`.
`SessionAccounting` proves the budget, `SessionDelivery` and `SessionRuns` exactly-once delivery and credit,
`SessionUplink` the sequence numbers, `SessionTheorems` spells the results out, `SessionBatches` says exactly when
a batch is applied whole and `SessionCredit` when written bytes come back as credit, `SessionFilling` has the runs in
which they are not, and `SessionReserve` shows what the control reserve of a session guarantees. `SessionLegality`,
`SessionDecisions` and `SessionLaws` say what single sections accept, answer, end and leave alone, in terms of the state
before them. `PollProtocol` adds the other end of one lane: concurrent requests, a network that loses, delays and
duplicates, and the client; `PollDrains` shows that polling gets everything across. `ManagerBudget`
is the process-wide budget over many sessions, `StreamSlots` the manager's stream and dial slots, `StreamHistory`
and `ClosedStreams` the two identifier sets, `WebSocketInput` the per-connection inbound budget, `WebSocketConnection`
its two users, the decoder and the uplink worker, with the close, `WebSocketLifecycle` when a connection ends, what its
worker does with each message and that its close finishes, and `FrameCodec` and `DownlinkLane` are frames and
their in-place coalescing; `FrameLayout` gives the wire format by positions and the errors of a batch.

**The fixed-binding manager** (`transport/middleend`). `OutboundCore` has a step for every section that touches a
slot's outbound FIFO, with the submission gap and the marshalling gap as separate steps; `OutboundEngine.Manager`
implements them in place. `OutboundCharges` proves the counters, `OutboundOrder` the FIFOs, `OutboundPromotion`
the promotion of waiters, `OutboundReserve` the room kept for probes, `OutboundFates` what becomes of every queued item,
and `OutboundRuns` puts them together and draws the consequences. `Readiness` is the coalesced ready list with its leases
and epochs, `ReadinessLaws` spells it out by the fields of a binding and `ReadinessRelease` says when a binding stops
counting against its slot, `ResponseQueue` is the growing ring of retained responses, `ResponsePressure` their limits and
eviction, `PressureLaws` what becomes of every response, `SlotSelection` the choice of a link
for a new binding, and `OutboundList` the linked list a slot's FIFO is stored in.

**The link engine.** `LinkCore` is its owner, writer, submitters and event consumer with their channels, one step
for each mutex section and each channel operation; `LinkRuns` proves order, accounting, absence of stranded work
and of deadlock, `LinkEnds` when a link ends and that it drains otherwise, `LinkClose` that an ending link closes and a
read is done with whole; `LinkEngine.Engine` is the object.

**Streaming codecs and bounds.** `WebSocketFrames` is RFC 6455 framing as a machine over whole streams,
`WebSocketMeaning` what it accepts and how a stream ends, and `WebSocketDecoder` the incremental decoder against it; `ClientPacket` the MTProto packet framings; `Cbc` chunked
CBC; `RecordSizer` dynamic TLS record sizing and the response writer. Each incremental form is proved equal to
the whole-stream one for every way of cutting the stream.

Two kinds of statement recur. A `View` function gives the value an object stands for, and each method ensures that
its new view is the specified function of the old one. An invariant (`Sound`, `Good`, `Balanced`, `Counted`) is
proved of the start state and of every step, hence of every run, and the main theorems are read off it. Fields marked
audit record history for the theorems and are not part of the relay.

## What turned out not to hold

* Probe reserve. The control reserve is meant to keep a liveness probe admissible in every slot. A cancelled probe
  that is being submitted stays in its FIFO, and a second probe may join it, so one slot can hold two probe items and
  spend another slot's share: `OutboundRuns.ReserveSpentElsewhere` is such a run. `OutboundRuns.ProbeAdmission` gives
  the exact condition, a free item and its bytes in the global control limits, and `OutboundRuns.ProbeAlwaysAdmitted`
  shows it always holds while no slot has two probe items.
* Response pressure. With both the slot and the global limit exceeded, evicting the chosen neighbour can leave the
  retry without room (`ResponsePressure.JointPressureCanFail`). `ResponsePressure.RetrySucceedsExactly` is the exact
  condition, and with one limit exceeded it always holds.
* Released bindings. A binding that is over is meant to stop counting against its slot and the manager. When its close finds no
  room in the control queue while its request is being submitted, nothing releases it once the request is taken: it
  counts until a refused call, its slot's failure or the manager's close reaches it
  (`ReadinessRelease.CloseCanLeaveBehind`).
  `ReadinessRelease.ReleasedInTime` is the exact condition on every run, the state and the section that leave a binding behind.
* One number, one batch. An uplink batch that stops at a CLOSE without room leaves its session open, with the frames
  before it applied and the sequence number unchanged, until a later section closes it. In between the number can be
  applied again, with another body: `SessionFilling.NumberAppliedTwice` is such a run. `SessionBatches.WholeExactly` is
  the exact condition for a batch to be applied whole, `SessionBatches.WholeOnEveryRun` the exact condition over whole
  runs, and `SessionUplink.OnceExactly` says when a number is tried once. Delivery is exactly-once throughout, for the
  frames that were applied.
* Lost credit. Not every byte a backend takes comes back to the client as WINDOW credit: a WINDOW frame that cannot be
  queued when bytes drain is not repeated, and `SessionFilling.CreditCanBeLost` is such a run. `SessionCredit.DrainReported`
  is the exact condition for one drain, and `SessionCredit.CreditReturnedExactly` the exact condition over whole runs. It
  also shows the loss to be the last event of a stream's upload: a stream has lost credit exactly when its writer stopped.
  While the control frames not yet acknowledged, and the one needed, fit the control reserve and the manager grants it,
  there is room in both cases: `SessionReserve.RefusalHasRoom` and `SessionReserve.DrainHasRoom`.

## Model

| member | source | states |
|---|---|---|
| `SessionTheorems.DownlinkExactlyOnce` | package/telego-pkg/src/pkg/webproxy/session.go:1137-1199 | on every run of every session under every manager, a live stream's DATA bytes in acknowledged batches, then in the batch in flight, then in the queue are exactly the bytes its backend handed over, in order |
| `SessionTheorems.UplinkExactlyOnce` | package/telego-pkg/src/pkg/webproxy/session.go:936-1019 | on every run, also between a batch that stopped half way and the close of its session, the DATA bytes of every frame applied are exactly what the backend has taken, then the buffer being written, then the queued writes |
| `SessionTheorems.CreditConserved` | package/telego-pkg/src/pkg/webproxy/session.go:1048-1062 | on every run what a live stream may receive is conserved: receive window plus pending bytes is the initial window, cost is bytes plus 256 per item, and the WINDOW credit in acknowledged, outstanding and queued frames plus the bytes whose report was refused is the number of bytes the backend took; a writer that still runs has none refused |
| `SessionTheorems.SendCreditConserved` | package/telego-pkg/src/pkg/webproxy/session.go:1077-1116 | on every run what a live stream may send is conserved: bytes offered, bytes whose DATA frame was refused and remaining credit together are the initial window plus the credit granted while that is below 2^32, and otherwise the credit is the grants and chunks in their order, each grant cut at 2^32 - 1 |
| `SessionTheorems.ReadAfterRead` | package/telego-pkg/src/pkg/webproxy/session.go:1107-1116 | after one chunk of a backend, the next passes the credit check exactly when both together fit the credit before the first |
| `SessionCredit.DrainReported` | package/telego-pkg/src/pkg/webproxy/session.go:1048-1062 | backendDrained queues its WINDOW frame exactly when a queued one of the stream takes the credit within 32 bits, or the session's control limits and the manager admit a new frame after the drained bytes were released |
| `SessionCredit.CreditReturnedExactly` | package/telego-pkg/src/pkg/webproxy/session.go:1048-1062 | on every run a live stream's written bytes have all come back as WINDOW credit, and its writer has not stopped, exactly when each drain found that room, a condition on the state before the drain |
| `SessionTheorems.BudgetConserved` | package/telego-pkg/src/pkg/webproxy/session.go:1235-1273 | on every run the session totals equal what streams, lanes and input reservations hold, a closed session holds nothing, no accounting check, missing stream or window underflow is reached, and no stream identifier opens twice |
| `SessionTheorems.AllowanceIsHonoured` | package/telego-pkg/src/pkg/webproxy/session.go:1077-1116 | whatever a reader reads within the allowance it was given is accepted by the session, unless the manager refuses or another charge came in between |
| `SessionRuns.StepIsSound` | package/telego-pkg/src/pkg/webproxy/session.go:391-503 | each critical section, from either carrier with or without lanes, keeps budget conservation, stream identities and the delivery invariant of every stream |
| `SessionRuns.RunIsSound` | package/telego-pkg/src/pkg/webproxy/session.go:625-808 | the same over whole runs, with replayed and refused polls, uplinks cut between their two sections, and closes in between |
| `SessionRuns.StartIsSound` | package/telego-pkg/src/pkg/webproxy/session.go:158-192 | a new session, before its first step, satisfies all of it |
| `SessionRuns.BatchKeeps` | package/telego-pkg/src/pkg/webproxy/session.go:936-1001 | applying a validated batch, frame by frame and however far it gets, keeps every stream tracked against exactly the frames recorded as applied |
| `SessionDelivery.ObedientClientFits` | package/telego-pkg/src/pkg/webproxy/session.go:855-863 | a client that never sends more than the initial window plus the WINDOW credit it received never fails the receive-window check |
| `SessionRuns.RelayObeysCredit` | package/telego-pkg/src/pkg/webproxy/session.go:1107-1116 | the relay never queues more bytes than the client's initial window and granted credit |
| `SessionDelivery.WriterNeverRefused` | package/telego-pkg/src/pkg/webproxy/session.go:1048-1075 | the accounting guards of backendDrained and backendWriteFinished never stop the writer of a live stream |
| `SessionDelivery.QueueFrameObserved` | package/telego-pkg/src/pkg/webproxy/session.go:1137-1199 | queueing one frame appends exactly its bytes, or exactly its credit, to what the stream's lane will deliver, in every coalescing branch, or nothing when refused |
| `SessionAccounting.ValidatedBatchApplies` | package/telego-pkg/src/pkg/webproxy/session.go:833-1019 | a batch that passes validateBatchLocked applies without a missing stream, a window underflow or an overdrawn advance reservation, whatever OPENs are refused on the way |
| `SessionAccounting.UpEndConserves` | package/telego-pkg/src/pkg/webproxy/session.go:456-502 | the second section of processUp, with reservation, application, refund or failure, conserves the session budget |
| `SessionAccounting.ReleaseLaneHolds` | package/telego-pkg/src/pkg/webproxy/session.go:1357-1382 | releasing a lane returns exactly what its queue and its unacknowledged batch were charged |
| `SessionAccounting.PollServeConserves` | package/telego-pkg/src/pkg/webproxy/session.go:625-808 | serving, replaying or acknowledging a poll releases exactly the acknowledged batch's charge |
| `SessionAccounting.ResizeInputConserves` | package/telego-pkg/src/pkg/webproxy/session.go:219-253 | growing or shrinking a WebSocket input reservation keeps the budget conserved, granted or refused |
| `SessionAccounting.ReleaseInputConserves` | package/telego-pkg/src/pkg/webproxy/session.go:255-272 | releasing a reservation, also after the session closed, keeps the budget conserved |
| `SessionUplink.EachSequenceOnce` | package/telego-pkg/src/pkg/webproxy/session.go:391-455 | only the next sequence number may proceed, a repeated one is acknowledged exactly when its body is the applied one, and refusals change nothing |
| `SessionUplink.HistoryKept` | package/telego-pkg/src/pkg/webproxy/session.go:391-503 | on every run each lane object's acknowledged batches are numbered 1, 2, ... up to its last sequence number, each batch tried is the next after those acknowledged, what was applied is what is recorded of the tried ones, and later sections only add to it |
| `SessionUplink.OnceExactly` | package/telego-pkg/src/pkg/webproxy/session.go:391-503 | no sequence number is tried twice on a lane object exactly when every batch but perhaps the last was applied whole |
| `SessionBatches.WholeExactly` | package/telego-pkg/src/pkg/webproxy/session.go:936-1001 | applyBatchLocked gets through a batch exactly when every OPEN it refuses finds room for its CLOSE, a condition on the state before each frame |
| `SessionBatches.SectionWhole` | package/telego-pkg/src/pkg/webproxy/session.go:456-503 | a batch that is legal and paid for is acknowledged exactly when it fits in that sense; otherwise the section ends with the session open, the frames so far applied, the sequence number unchanged, and the close left to its caller |
| `SessionBatches.WholeOnEveryRun` | package/telego-pkg/src/pkg/webproxy/session.go:391-503 | on every run all batches of a lane object were applied whole exactly when each of them fitted, and then what was applied is exactly the acknowledged batches, each number once, in order |
| `SessionFilling.NumberAppliedTwice` | package/telego-pkg/src/pkg/webproxy/session.go:488-500 | a run of a new session in which number 1 is applied in part, with a byte, and before the close whole with another body, although the manager grants everything |
| `SessionFilling.CreditCanBeLost` | package/telego-pkg/src/pkg/webproxy/session.go:1552-1574 | a run of a new session, the manager granting everything, in which the answers to refused OPENs fill the session's items, the WINDOW frame of the only byte written finds no room, its credit is lost and its writer stops |
| `SessionFilling.ManagerGrantsAll` | package/telego-pkg/src/pkg/webproxy/manager.go:437-462 | under the limits of these two runs a manager with this session alone grants whatever the session admits |
| `SessionReserve.ReserveIsKept` | package/telego-pkg/src/pkg/webproxy/session.go:1235-1257 | on every run the session stays within its limits, and what is charged for anything but CLOSE and WINDOW frames that are queued or unacknowledged leaves the control reserve free |
| `SessionReserve.ReserveAdmits` | package/telego-pkg/src/pkg/webproxy/session.go:1235-1257 | so while those control frames and one more fit the reserve, the session admits that one, whatever the data traffic |
| `SessionReserve.DrainHasRoom` | package/telego-pkg/src/pkg/webproxy/session.go:1048-1062 | no drain goes unreported while the control frames and its WINDOW frame fit the reserve and the manager grants it |
| `SessionReserve.RefusalHasRoom` | package/telego-pkg/src/pkg/webproxy/session.go:936-955 | no refused OPEN of a batch goes unanswered while the control frames and its CLOSE fit the reserve and the manager grants it |
| `SessionUplink.BackpressureLeavesNoTrace` | package/telego-pkg/src/pkg/webproxy/session.go:472-478 | an uplink refused with backpressure leaves streams, windows, queues, identities and budget as they were |
| `SessionLegality.ValidExactly` | package/telego-pkg/src/pkg/webproxy/session.go:833-900 | the simulated validation accepts a batch exactly when each frame is legal where it stands: its stream opened before it and not closed since, OPEN only for an identifier never used, DATA within the window its predecessors left, WINDOW within 32 bits |
| `SessionDecisions.BeginDecides` | package/telego-pkg/src/pkg/webproxy/session.go:391-455 | the whole decision of the first uplink section on a known lane: of n batches applied the n-th is acknowledged again or refused by its body, the next proceeds unless one is in progress, anything else fails the lane or the session |
| `SessionDecisions.EndDecides` | package/telego-pkg/src/pkg/webproxy/session.go:456-503 | the second section fails the lane or the session exactly on a body that does not parse to frames of this lane or is illegal, answers backpressure exactly when the advance reservation has no room, and applies otherwise |
| `SessionDecisions.PollDecides` | package/telego-pkg/src/pkg/webproxy/session.go:625-808 | a poll fails its lane, or the session, exactly when its cursor is neither that of the outstanding batch nor the next one that can be numbered |
| `SessionDecisions.StaleDecides` | package/telego-pkg/src/pkg/webproxy/session.go:391-478 | a closed session and a lane object that is gone, or no longer has the claim, answer so and change nothing |
| `SessionDecisions.UplinkExactly` | package/telego-pkg/src/pkg/webproxy/session.go:505-519 | a body is taken exactly when it encodes 1 to 4096 frames of the five kinds a client sends in a batch, all of this lane |
| `SessionLaws.NewLaneExactly` | package/telego-pkg/src/pkg/webproxy/session.go:416-440 | a lane that does not exist is created exactly for a batch that starts with its OPEN, late frames for it are acknowledged, and anything else is refused |
| `SessionLaws.ChargedExactly` | package/telego-pkg/src/pkg/webproxy/session.go:1235-1257 | an open session charges exactly what fits its class beside everything held and what the manager grants |
| `SessionLaws.AllowanceIsLargest` | package/telego-pkg/src/pkg/webproxy/session.go:1077-1105 | the read allowance is the most bytes that fit one chunk, the send credit and the room for a new DATA frame |
| `SessionLaws.InputReservedExactly` | package/telego-pkg/src/pkg/webproxy/session.go:202-217 | a WebSocket input exists exactly when its size is within twice the message bound and has room |
| `SessionLaws.InputResizedExactly` | package/telego-pkg/src/pkg/webproxy/session.go:219-253 | a resize succeeds exactly within three times the bound when it shrinks or the difference has room, and otherwise leaves the input as it was |
| `SessionLaws.AttachesExactly` | package/telego-pkg/src/pkg/webproxy/session.go:286-309 | a WebSocket is attached exactly to a lane that never carried a stream and is known or has room, and then the lane is active |
| `SessionLaws.LaneEnds` | package/telego-pkg/src/pkg/webproxy/session.go:1404-1413 | failing a WebSocket lane removes exactly it and its stream, and only for the connection that has it |
| `SessionLaws.StreamEnds` | package/telego-pkg/src/pkg/webproxy/session.go:988-997 | a CLOSE removes exactly its stream and what is queued for it, and leaves its lane |
| `SessionLaws.BackendEndClosesStream` | package/telego-pkg/src/pkg/webproxy/session.go:1118-1135 | the end of a backend replaces what is queued for its stream by one CLOSE, or closes the session when there is no room for it |
| `SessionLaws.BufferedExactly` | package/telego-pkg/src/pkg/webproxy/session.go:1003-1019 | a payload joins the newest buffer exactly when both fit one relay chunk, and the charge moves with bytes and buffers |
| `SessionLaws.UploadDrains` | package/telego-pkg/src/pkg/webproxy/session.go:1021-1075 | from every reachable state the writer's own sections bring a live stream to have written all it accepted, unless its writer stops |
| `SessionEngine.Session.ReservePending` | package/telego-pkg/src/pkg/webproxy/session.go:1235-1257 | updates the session's fields exactly as specified: charges session and manager together or not at all, within the limits of its class |
| `SessionEngine.Session.QueueFrame` | package/telego-pkg/src/pkg/webproxy/session.go:1137-1199 | updates the session's fields exactly as specified: the whole new queue, window index and charge after queueing one frame, in the WINDOW-merging, DATA-extending and appending branches |
| `SessionEngine.Session.DropPendingStreamFrames` | package/telego-pkg/src/pkg/webproxy/session.go:1319-1355 | updates the session's fields exactly as specified: in-place filtering leaves exactly the other streams' frames and returns exactly the dropped charge |
| `SessionEngine.Session.ReleaseCarrierLane` | package/telego-pkg/src/pkg/webproxy/session.go:1357-1382 | updates the session's fields exactly as specified: the lane is gone and its charge returned |
| `SessionEngine.Session.ValidateBatch` | package/telego-pkg/src/pkg/webproxy/session.go:833-900 | the loop over a simulated snapshot accepts exactly the legal batches |
| `SessionEngine.Session.BackendWriteReservation` | package/telego-pkg/src/pkg/webproxy/session.go:902-934 | the loop computes the advance reservation of a batch |
| `SessionEngine.Session.AppendBackendWrite` | package/telego-pkg/src/pkg/webproxy/session.go:1003-1019 | updates the session's fields exactly as specified: the write queue after coalescing, and the charge |
| `SessionEngine.Session.ApplyFrame` | package/telego-pkg/src/pkg/webproxy/session.go:947-999 | updates the session's fields exactly as specified: one frame of a batch, with the state, the unused reservation and whether the batch goes on |
| `SessionEngine.Session.ApplyBatch` | package/telego-pkg/src/pkg/webproxy/session.go:936-1001 | updates the session's fields exactly as specified: the state, the unused reservation, success and the number of frames applied after applying a batch in order |
| `SessionEngine.Session.PollLane` | package/telego-pkg/src/pkg/webproxy/session.go:625-808 | updates the session's fields exactly as specified: replay, acknowledgement, batch or parking for the poll holding the slot |
| `SessionEngine.Session.ParseUplinkBatch` | package/telego-pkg/src/pkg/webproxy/session.go:505-519 | the loop over the parsed frames accepts exactly the bodies whose frames a client may send on this lane |
| `SessionEngine.Session.OnlyLateFrames` | package/telego-pkg/src/pkg/webproxy/session.go:526-536 | the loop accepts exactly non-empty batches of DATA, WINDOW and CLOSE |
| `SessionAccounting.ReleaseHolds` | package/telego-pkg/src/pkg/webproxy/session.go:1259-1273 | returning what was reserved ahead moves the ledger by exactly that and reaches no over-release |
| `SessionAccounting.RememberClosedHolds` | package/telego-pkg/src/pkg/webproxy/session.go:1307-1317 | remembering a closed stream, and releasing the lane of the one it evicts, keeps the ledger equal to what is held |
| `SessionAccounting.CloseConserves` | package/telego-pkg/src/pkg/webproxy/session.go:1415-1455 | closing leaves nothing held and nothing charged |
| `SessionAccounting.FailLaneConserves` | package/telego-pkg/src/pkg/webproxy/session.go:1404-1413 | failing a lane, or the session of an HTTPS carrier, keeps the ledger equal to what is held |
| `SessionRuns.AcquireLaneKeeps` | package/telego-pkg/src/pkg/webproxy/session.go:286-309 | attaching a WebSocket to a new or known lane leaves every stream tracked |
| `SessionUplink.UpBeginSound` | package/telego-pkg/src/pkg/webproxy/session.go:391-455 | the first section of processUp claims only the sequence number after the applied ones and withdraws no applied batch |
| `SessionUplink.UpEndSound` | package/telego-pkg/src/pkg/webproxy/session.go:456-503 | the second section tries its claimed batch as the next one after those acknowledged, on the lane object that holds the claim, records the frames it applied, and advances the number only for a whole batch |
| `SessionRuns.NextWriteKeeps` | package/telego-pkg/src/pkg/webproxy/session.go:1021-1046 | taking the oldest buffer keeps the order and count of the bytes still owed to the backend |
| `SessionRuns.BackendDrainedKeeps` | package/telego-pkg/src/pkg/webproxy/session.go:1048-1062 | a drain moves its bytes from the buffer in flight to the backend, reopens the window by as many and credits the client with as many unless the report was refused |
| `SessionRuns.BackendWriteFinishedKeeps` | package/telego-pkg/src/pkg/webproxy/session.go:1064-1075 | a finished buffer leaves the item count and its per-item charge |
| `SessionRuns.BackendDataKeeps` | package/telego-pkg/src/pkg/webproxy/session.go:1107-1116 | bytes read from a backend are paid from the client's credit and recorded as offered exactly when its lane was asked to deliver them |
| `SessionRuns.BackendClosedKeeps` | package/telego-pkg/src/pkg/webproxy/session.go:1118-1135 | the end of one backend leaves every other stream's bytes and credit as they were |
| `SessionAccounting.ReserveInputConserves` | package/telego-pkg/src/pkg/webproxy/session.go:202-217 | a WebSocket input reservation is charged to the session exactly when it exists |
| `DownlinkLane.CommitEffects` | package/telego-pkg/src/pkg/webproxy/session.go:1137-1199 | queueing a frame on a lane, whichever branch coalesces it, appends exactly its bytes or credit for every stream, keeps the queue re-encoded and indexed, and charges it exactly |
| `DownlinkLane.CoalescesExactly` | package/telego-pkg/src/pkg/webproxy/session.go:1137-1199 | the new queue, position by position: credit joins the stream's newest queued WINDOW while it stays within 32 bits, bytes join a DATA frame at the tail of the same stream while they fit, anything else is appended |
| `DownlinkLane.TakeBatchEffects` | package/telego-pkg/src/pkg/webproxy/session.go:1275-1305 | a batch is the longest non-empty prefix of the queue of at most 4096 frames within the byte bound, or one frame, and leaves with exactly its charge |
| `DownlinkLane.ServedBodyParses` | package/telego-pkg/src/pkg/webproxy/session.go:1275-1305 | every served body parses back to exactly its relay-to-client frames |
| `DownlinkLane.WithoutCarries` | package/telego-pkg/src/pkg/webproxy/session.go:1319-1355 | dropping one stream's frames changes no other stream's bytes or credit |
| `DownlinkLane.ServeKeeps` | package/telego-pkg/src/pkg/webproxy/session.go:700-790 | serving any cursor keeps the lane's queue, index, batch and cursor consistent |
| `LaneQueue.CountBatch` | package/telego-pkg/src/pkg/webproxy/session.go:1275-1290 | the counting loop stops where the batch bound says |
| `LaneQueue.TakeDownBatch` | package/telego-pkg/src/pkg/webproxy/session.go:1275-1305 | the in-place loops produce the specified batch and renumber the window index |
| `LaneQueue.ServePoll` | package/telego-pkg/src/pkg/webproxy/session.go:700-790 | replay, acknowledge, take or park, with the charge to release |
| `LaneQueue.DropPendingFrames` | package/telego-pkg/src/pkg/webproxy/session.go:1319-1355 | the filtering loop keeps the other frames, rebuilds the index and sums the dropped charge |
| `PollProtocol.ClientSeesEachFrameOnce` | package/telego-pkg/src/pkg/webproxy/session.go:540-808 | with polls claimed, superseded, cancelled, retried and answered in any order over a network that loses, delays and duplicates, at most one request holds the slot, responses to one cursor are identical, and the client's log is each acknowledged frame once, in order |
| `PollProtocol.RunGood` | package/telego-pkg/src/pkg/webproxy/session.go:549-808 | the slot token, replay, cursor and parking invariants hold on every interleaving |
| `PollDrains.EverythingArrives` | package/telego-pkg/src/pkg/webproxy/session.go:625-808 | from every reachable state of a living lane some polls and deliveries bring the client to hold exactly the encoding of all that was queued, each frame once and in order |
| `PollDrains.ParkedIsServed` | package/telego-pkg/src/pkg/webproxy/session.go:731-790 | a parked poll that is still the newest is answered as soon as something is queued |
| `PollDrains.ParkedEnds` | package/telego-pkg/src/pkg/webproxy/session.go:781-808 | a parked poll whose time is up with nothing queued is answered without a body and holds the token until that is sent, no longer |
| `PollDrains.QueuedArrives` | package/telego-pkg/src/pkg/webproxy/session.go:1137-1199 | a frame queued between polls joins what the lane will deliver exactly as given; after a drop none of its stream is queued and the others are untouched |
| `ManagerBudget.RunStaysBalanced` | package/telego-pkg/src/pkg/webproxy/manager.go:437-462 | over every interleaving of any number of sessions of a new manager, and for every split of a release into control and other charge, the manager totals equal the sums over sessions, stay within limits, never go negative, and non-control charges stay out of the control reserve at both levels |
| `ManagerBudget.ControlAlwaysAdmitted` | package/telego-pkg/src/pkg/webproxy/manager.go:437-462 | while control charges fit the per-session reserve, a control charge is granted whatever the data traffic |
| `ManagerBudget.EveryReleaseSplits` | package/telego-pkg/src/pkg/webproxy/session.go:1259-1273 | any release the session totals cover is one the budget model can take |
| `ManagerBudget.GrantedExactly` | package/telego-pkg/src/pkg/webproxy/manager.go:437-462 | a charge is granted exactly when it fits the class's limits of its session and of all sessions together, and then to that session alone |
| `ManagerBudget.ReturnedExactly` | package/telego-pkg/src/pkg/webproxy/session.go:1259-1273 | a release, a close and the end of a session return exactly what they say and touch no other session |
| `Limits.ValidatedReserves` | package/telego-pkg/src/pkg/webproxy/session_config.go:112-228 | a validated configuration computes its reserves without overflow and leaves room beyond all of them |
| `StreamSlots.Manager.AcquireStream` | package/telego-pkg/src/pkg/webproxy/manager.go:408-417 | a stream and a dial slot are taken exactly when the manager is open and both limits have room |
| `StreamSlots.Manager.DialFinished` | package/telego-pkg/src/pkg/webproxy/manager.go:419-426 | the dial slot of a dialing worker is returned and the panic is unreachable |
| `StreamSlots.Manager.StreamFinished` | package/telego-pkg/src/pkg/webproxy/manager.go:428-435 | the stream slot of a finished worker is returned and the panic is unreachable |
| `StreamHistory.History.Add` | package/telego-pkg/src/pkg/webproxy/stream_history.go:34-51 | adds exactly the identifier to the bitmap's set and reports whether it was new |
| `StreamHistory.History.Contains` | package/telego-pkg/src/pkg/webproxy/stream_history.go:22-31 | tells membership exactly, over the whole 24-bit space |
| `StreamHistory.MarkAddsOne` | package/telego-pkg/src/pkg/webproxy/stream_history.go:34-51 | setting one bit, in a lazily allocated chunk, changes the membership of no other identifier |
| `StreamHistory.History.BoundedSize` | package/telego-pkg/src/pkg/webproxy/stream_history.go:53-55 | the bitmap never exceeds 2 MiB and its counter never wraps |
| `ClosedStreams.RemembersTheLatest` | package/telego-pkg/src/pkg/webproxy/session_config.go:262-277 | the ring keeps the latest distinct identifiers in order of arrival and evicts exactly the oldest |
| `ClosedStreams.BoundedSet.Add` | package/telego-pkg/src/pkg/webproxy/session_config.go:262-277 | the set, the ring and the cursor after an addition, and what was evicted |
| `ClosedStreams.BoundedSet.Contains` | package/telego-pkg/src/pkg/webproxy/session_config.go:257-260 | membership in the remembered identifiers |
| `FrameCodec.ParseAcceptsExactly` | package/telego-pkg/src/pkg/webproxy/frame.go:64-118 | ParseBatch accepts exactly the concatenations of 1 to 4096 AppendFrame encodings and returns those frames |
| `FrameLayout.LayoutExactly` | package/telego-pkg/src/pkg/webproxy/frame.go:64-79 | a sequence of bytes is the encoding of a frame exactly when type, stream, length and payload stand at their positions, most significant byte first |
| `FrameLayout.ShapesExactly` | package/telego-pkg/src/pkg/webproxy/frame.go:187-231 | a frame is well shaped exactly when it is one of the nine kinds with its stream and payload |
| `FrameLayout.FirstErrorWins` | package/telego-pkg/src/pkg/webproxy/frame.go:81-118 | a batch fails as a whole, with the error of its first frame that is malformed or one too many |
| `FrameLayout.ErrorExactly` | package/telego-pkg/src/pkg/webproxy/frame.go:81-118 | which of the three errors stops the parse at the front of an input, exactly |
| `FrameCodec.ParseBatch` | package/telego-pkg/src/pkg/webproxy/frame.go:81-118 | the loop computes the whole-input parse, with the same error for the same input |
| `FrameCodec.AppendFrame` | package/telego-pkg/src/pkg/webproxy/frame.go:64-77 | appends the encoding of a well-shaped frame, or reports the shape error and appends nothing |
| `FrameCodec.ExtendEncoding` | package/telego-pkg/src/pkg/webproxy/session.go:1160-1180 | rewriting the length bytes and appending to the payload re-encodes the longer frame |
| `WebSocketInput.StepCounted` | package/telego-pkg/src/pkg/webproxy/websocket_transport.go:84-206 | each part of an input's reservation, resize, roll-back and release keeps the local budget equal to the shares of the live inputs, within its byte and item maxima |
| `WebSocketConnection.NeverPanics` | package/telego-pkg/src/pkg/webproxy/websocket_transport.go:137-206 | on every run of a connection, whatever the client sends, the session answers and the event loop, the worker and the close interleave to, no accounting panic is reached, the local budget is the sum of the inputs' shares within its maxima, and the open message's reservation is what the decoder counted |
| `WebSocketConnection.NothingLeaks` | package/telego-pkg/src/pkg/webproxy/websocket_transport.go:597-613 | once a connection has finished closing its whole local budget is returned |
| `WebSocketConnection.StepSound` | package/telego-pkg/src/pkg/webproxy/websocket_transport.go:280-293 | each step of the decoder's reserver, of the worker's growth and release, and of the close keeps every input with exactly one owner |
| `WebSocketLifecycle.HeaderExactly` | package/telego-pkg/src/pkg/webproxy/websocket_transport.go:280-293 | a frame header ends the connection exactly when the protocol forbids it or its message would pass a size or budget limit; a control frame is read at once, a data frame once the session grants what its message then needs |
| `WebSocketLifecycle.AnsweredExactly` | package/telego-pkg/src/pkg/webproxy/websocket_transport.go:137-173 | the session's refusal ends the connection, its grant lets the payload be read under the reservation asked for |
| `WebSocketLifecycle.PayloadExactly` | package/telego-pkg/src/pkg/webproxy/websocket_transport.go:713-870 | payload ends the connection exactly by completing a bad frame, a close, or a message the full queue has no room for; any other complete message joins the queue |
| `WebSocketLifecycle.ShutsExactly` | package/telego-pkg/src/pkg/webproxy/websocket_transport.go:597-613 | the event loop's end hands the open message's reservation to the close, and an idle worker then stops |
| `WebSocketLifecycle.MessagesInOrder` | package/telego-pkg/src/pkg/webproxy/websocket_transport.go:387-410 | while a connection is open its worker began, in order, every message decoded but those still queued |
| `WebSocketLifecycle.OneMessage` | package/telego-pkg/src/pkg/webproxy/websocket_transport.go:412-470 | a message's reservation leaves the budget whatever happens to it, and the worker goes on exactly when the body fitted, was granted and sent, and the connection is open |
| `WebSocketLifecycle.CloseFinishes` | package/telego-pkg/src/pkg/webproxy/websocket_transport.go:597-682 | from every reachable closed state worker and close finish by themselves, and then the whole budget has been returned |
| `WebSocketInput.RollbackPanicsExactly` | package/telego-pkg/src/pkg/webproxy/websocket_transport.go:175-191 | a refused resize panics exactly when giving its difference back no longer fits the local budget, which a growing one never does |
| `WebSocketDecoder.DecodeStream` | package/telego-pkg/src/pkg/webproxy/websocket_codec.go:117-200 | a connection's bytes in any pieces, decoded with any positive budgets, yield the messages and the error of decoding the whole stream at once |
| `WebSocketDecoder.Decoder.DecodeWindow` | package/telego-pkg/src/pkg/webproxy/websocket_codec.go:117-200 | one call, within sixteen frames and its payload budget, followed by decoding the rest from the new state is decoding the whole input; with no limit hit nothing decodable is left |
| `WebSocketDecoder.Decoder.ReadPayload` | package/telego-pkg/src/pkg/webproxy/websocket_codec.go:146-174 | the payload loop moves the decoder along without changing what the input decodes to, and stops only at the input's or the budget's end |
| `WebSocketDecoder.Decoder.PrepareFrame` | package/telego-pkg/src/pkg/webproxy/websocket_codec.go:211-248 | accepts exactly the frames the protocol state, the message limit and the reserver's answer to this very request allow |
| `WebSocketDecoder.Decoder.AppendPayload` | package/telego-pkg/src/pkg/webproxy/websocket_codec.go:335-369 | the message gains exactly the unmasked payload, in buffers of at most 64 KiB of which only the last has room |
| `WebSocketDecoder.Decoder.ApplyFrame` | package/telego-pkg/src/pkg/webproxy/websocket_codec.go:295-333 | emits, continues, closes or refuses as the whole-stream machine does |
| `WebSocketDecoder.Decoder.ClearMessage` | package/telego-pkg/src/pkg/webproxy/websocket_codec.go:371-385 | handing over a message leaves no storage and no charge behind |
| `WebSocketDecoder.Decoder.StorageWithinReservation` | package/telego-pkg/src/pkg/webproxy/websocket_codec.go:228-246 | allocated capacity and fragment nodes never exceed the reservation and equal it whenever no data frame is pending |
| `WebSocketFrames.RunSplit` | package/telego-pkg/src/pkg/webproxy/websocket_codec.go:117-200 | decoding a stream in two parts gives the messages, state and error of decoding it at once |
| `WebSocketFrames.StreamMeans` | package/telego-pkg/src/pkg/webproxy/websocket_codec.go:106-200 | a valid stream of masked binary, continuation, ping and pong frames decodes to exactly the messages it means (sections 5.2 to 5.4 of RFC 6455) |
| `WebSocketMeaning.SendableExactly` | package/telego-pkg/src/pkg/webproxy/websocket_codec.go:117-200 | frames without a close are decoded to the end exactly when they are valid in sequence and within the limits; the first that is not stops the stream |
| `WebSocketMeaning.CloseMeans` | package/telego-pkg/src/pkg/webproxy/websocket_codec.go:295-333 | a close after valid frames is the last message if its payload is valid, with anything behind it an error, and an error otherwise |
| `WebSocketMeaning.ForbiddenExactly` | package/telego-pkg/src/pkg/webproxy/websocket_codec.go:211-248 | a header is a protocol error exactly when section 5 of RFC 6455 forbids it of a client here, or it starts a text message |
| `WebSocketFrames.EncodedHeadParses` | package/telego-pkg/src/pkg/webproxy/websocket_codec.go:274-293 | every minimally encoded client header parses back to itself |
| `WebSocketFrames.UnmaskTwice` | package/telego-pkg/src/pkg/webproxy/websocket_codec.go:166-169 | masking twice with one key gives the payload back |
| `WebSocketFrames.UnmaskExactly` | package/telego-pkg/src/pkg/webproxy/websocket_codec.go:166-169 | bit k of each unmasked byte is set exactly when bit k of the wire byte and bit k of the key byte at its offset modulo four differ |
| `WebSocketFrames.XorBitwise` | package/telego-pkg/src/pkg/webproxy/websocket_codec.go:364-364 | the exclusive or, bit by bit |
| `OutboundRuns.RunGood` | package/telego-pkg/src/pkg/transport/middleend/binding_manager.go:1482-1864 | on every run request and control charges equal what is queued and are released exactly once within nested limits, each FIFO keeps append order with only its head submitted, nothing promotable waits, no wakeup is lost, closes stay out of the probe reserve and failed slots hold only cancelled work |
| `OutboundRuns.StepGood` | package/telego-pkg/src/pkg/transport/middleend/binding_manager.go:2588-2723 | every manager section keeps all of that, with the submission and the marshalling gaps as separate steps |
| `OutboundFates.EveryItemAccounted` | package/telego-pkg/src/pkg/transport/middleend/binding_manager.go:1739-1770 | on every run each queued item is still queued or has left for exactly one reason: accepted by the link, refused by it, cancelled or its slot or manager down, or not marshalled; and what the link took is exactly what left as accepted |
| `OutboundFates.StepFated` | package/telego-pkg/src/pkg/transport/middleend/binding_manager.go:2588-2723 | every section turns each FIFO into exactly its items that stay, in order, with what is new behind them and waiting ones perhaps promoted |
| `OutboundFates.StaysExactly` | package/telego-pkg/src/pkg/transport/middleend/binding_manager.go:1739-1770 | an item is queued after a section exactly when its fate is to stay, and then as its fate says |
| `OutboundFates.MarshalledStays` | package/telego-pkg/src/pkg/transport/middleend/binding_manager.go:1605-1649 | a request that marshalled in a ready manager, not cancelled, keeps its place, charge and size and may be submitted; one that did not marshal is gone |
| `OutboundFates.BackpressureStays` | package/telego-pkg/src/pkg/transport/middleend/binding_manager.go:2657-2679 | backpressure leaves an item that is not cancelled in its place, ready to be submitted again |
| `OutboundRuns.AcceptedInOrder` | package/telego-pkg/src/pkg/transport/middleend/binding_manager.go:1739-1770 | what a slot's link accepted is a subsequence of the append order, and nothing still queued precedes it |
| `OutboundRuns.CloseNeverOvertakes` | package/telego-pkg/src/pkg/transport/middleend/binding_manager.go:2349-2418 | when a link accepts an item, everything appended earlier has left the FIFO, so a close never overtakes its binding's request |
| `OutboundRuns.WaitingHeadHasSlotRoom` | package/telego-pkg/src/pkg/transport/middleend/binding_manager.go:1781-1819 | a slot whose head still waits holds no charge and is eligible, so only the global limit can hold it |
| `OutboundRuns.WaitersMeanGlobalPressure` | package/telego-pkg/src/pkg/transport/middleend/binding_manager.go:1781-1819 | while a head waits in a ready manager, an eligible waiter with no later ticket is blocked by the global limit and some request is charged |
| `OutboundRuns.EmptySlotOwesNothing` | package/telego-pkg/src/pkg/transport/middleend/binding_manager.go:1306-1399 | once a failed slot's FIFO is empty its counters are zero and a repair succeeds |
| `OutboundRuns.ProbeAdmission` | package/telego-pkg/src/pkg/transport/middleend/binding_manager.go:1141-1218 | a slot without a probe item refuses a probe exactly by the global control check |
| `OutboundRuns.ProbeAlwaysAdmitted` | package/telego-pkg/src/pkg/transport/middleend/binding_manager.go:686-705 | while no slot holds two probe items, a slot holding none is never refused |
| `OutboundRuns.ReserveSpentElsewhere` | package/telego-pkg/src/pkg/transport/middleend/binding_manager.go:1157-1163 | a concrete run within limits the constructor accepts in which another slot's cancelled and repeated probe spends the reserve and a probe is refused |
| `OutboundCharges.PromoteCounted` | package/telego-pkg/src/pkg/transport/middleend/binding_manager.go:1781-1831 | a promotion pass keeps slot and global counters equal to the charged requests |
| `OutboundOrder.StepOK` | package/telego-pkg/src/pkg/transport/middleend/binding_manager.go:1739-1770 | every section keeps order, staging, ticket order and probe bookkeeping of every slot |
| `OutboundPromotion.PromoteServed` | package/telego-pkg/src/pkg/transport/middleend/binding_manager.go:1781-1819 | after a promotion pass no eligible oldest-ticket waiter fits |
| `OutboundRuns.StepReserves` | package/telego-pkg/src/pkg/transport/middleend/binding_manager.go:1868-1908 | every section keeps the closes of each slot, and of all slots, below the control limits by the room of one probe per slot, and failed slots without live work |
| `OutboundEngine.Manager.FindCandidate` | package/telego-pkg/src/pkg/transport/middleend/binding_manager.go:1781-1819 | the oldest-ticket waiter among the slots with room |
| `OutboundEngine.Manager.PromoteRequests` | package/telego-pkg/src/pkg/transport/middleend/binding_manager.go:1781-1819 | updates the manager's fields exactly as specified: promotes in ticket order until the candidate does not fit |
| `OutboundEngine.Manager.PrepareProxyRequest` | package/telego-pkg/src/pkg/transport/middleend/binding_manager.go:1482-1538 | updates the manager's fields exactly as specified: a request is charged at once when nothing waits before it, else appended as a waiter |
| `OutboundEngine.Manager.CancelBindingControls` | package/telego-pkg/src/pkg/transport/middleend/binding_manager.go:2912-2932 | updates the manager's fields exactly as specified: a binding's queued closes are removed, the one being submitted marked |
| `OutboundEngine.Manager.FailSlot` | package/telego-pkg/src/pkg/transport/middleend/binding_manager.go:3030-3131 | updates the manager's fields exactly as specified: a failed slot cancels its queue and its probe |
| `OutboundEngine.Manager.BeginTerminal` | package/telego-pkg/src/pkg/transport/middleend/binding_manager.go:2464-2545 | updates the manager's fields exactly as specified: closing cancels every slot's queue |
| `OutboundRuns.MaterializeBalanced` | package/telego-pkg/src/pkg/transport/middleend/binding_manager.go:1605-1675 | claiming and finishing a marshalled request, whether it succeeded, failed or was cancelled meanwhile, keeps the counters equal to the charged requests |
| `OutboundCharges.CancelBalanced` | package/telego-pkg/src/pkg/transport/middleend/binding_manager.go:1833-1864 | cancelling a request, at once or while in flight, releases its charge once |
| `OutboundReserve.QueueControlReserves` | package/telego-pkg/src/pkg/transport/middleend/binding_manager.go:1868-1908 | a close is appended only where one probe per slot keeps its room, in its slot and globally |
| `OutboundOrder.StartProbeOK` | package/telego-pkg/src/pkg/transport/middleend/binding_manager.go:1141-1218 | a new probe joins the end of its slot's FIFO as the one pending probe |
| `OutboundOrder.EndProbeOK` | package/telego-pkg/src/pkg/transport/middleend/binding_manager.go:1410-1443 | a completed probe leaves its FIFO, or stays marked while it is being submitted, and no wakeup is lost |
| `OutboundOrder.BeginAttemptOK` | package/telego-pkg/src/pkg/transport/middleend/binding_manager.go:2588-2635 | only a ready head becomes the one submission of its slot, and a slot with something to submit still has a reason to be looked at |
| `OutboundCharges.FinishAttemptBalanced` | package/telego-pkg/src/pkg/transport/middleend/binding_manager.go:2637-2731 | whatever a submission's outcome, its charge is kept while it stays and released once when it leaves |
| `OutboundOrder.FinishAttemptOK` | package/telego-pkg/src/pkg/transport/middleend/binding_manager.go:2637-2731 | after any outcome the FIFO keeps its order, nothing else is marked as submitted, and the next head is announced |
| `OutboundOrder.RepairSlotOK` | package/telego-pkg/src/pkg/transport/middleend/binding_manager.go:1306-1399 | a repaired slot starts with an empty FIFO, no probe and no stale wakeup |
| `OutboundList.List.Append` | package/telego-pkg/src/pkg/transport/middleend/binding_manager.go:1739-1747 | linking a node behind the tail appends it to the list |
| `OutboundList.List.Remove` | package/telego-pkg/src/pkg/transport/middleend/binding_manager.go:1749-1770 | unlinking a node anywhere removes exactly it, and a node no longer in the list is left alone |
| `Readiness.RunSound` | package/telego-pkg/src/pkg/transport/middleend/binding_manager.go:1952-2226 | on every run a binding with a reason to be looked at is in the ready list or leased, never both, a non-empty list is announced or being looked at, and at most the newest lease of a binding is valid |
| `Readiness.StepSound` | package/telego-pkg/src/pkg/transport/middleend/binding_manager.go:2150-2226 | each request, event, close, eviction, slot-failure, acknowledgement and consumer-mode section keeps that |
| `Readiness.NoLostWakeup` | package/telego-pkg/src/pkg/transport/middleend/binding_manager.go:2243-2282 | on every run a blocking consumer that waits while its binding retains an event or is terminal has its notification pending |
| `Readiness.StaleForever` | package/telego-pkg/src/pkg/transport/middleend/binding_manager.go:1992-2002 | a lease once stale never validates again |
| `Readiness.OneValidLease` | package/telego-pkg/src/pkg/transport/middleend/binding_manager.go:1992-2002 | at most one lease of a binding validates |
| `ReadinessLaws.ReasonsAttended` | package/telego-pkg/src/pkg/transport/middleend/binding_manager.go:2170-2201 | on every run a retained event or an unobserved end of a binding whose consumer does not block, an uncollected result, and a reservation not handed over each have their binding listed or leased; a listed one is announced |
| `ReadinessLaws.PromotionAnnounced` | package/telego-pkg/src/pkg/transport/middleend/binding_manager.go:1781-1819 | a promoted reservation is listed and announced, or its binding is leased |
| `ReadinessLaws.ListedForAReason` | package/telego-pkg/src/pkg/transport/middleend/binding_manager.go:2185-2201 | nothing but one of those reasons puts a binding in the list, and a section lists only the binding it is about |
| `ReadinessLaws.LifeIsFate` | package/telego-pkg/src/pkg/transport/middleend/binding_manager.go:2349-2418 | every section gives its binding exactly the fields its case table says and leaves every other binding and its place in the list alone |
| `ReadinessRelease.ReleasedInTime` | package/telego-pkg/src/pkg/transport/middleend/binding_manager.go:3177-3201 | on every run a binding stops counting in the very section that leaves nothing to do with it and never before, except exactly when that section ends the last request of a binding with which its consumer or close was through |
| `ReadinessRelease.CloseCanLeaveBehind` | package/telego-pkg/src/pkg/transport/middleend/binding_manager.go:2657-2698 | a run in which that exception happens: a close without room in the control queue while the request is being submitted; the binding then counts on, whatever its token consumer does |
| `ReadinessRelease.BlocksExactly` | package/telego-pkg/src/pkg/transport/middleend/binding_manager.go:2239-2280 | a blocking consumer waits exactly when it finds neither a response nor the end |
| `ReadinessRelease.WakesExactly` | package/telego-pkg/src/pkg/transport/middleend/binding_manager.go:2239-2280 | a notified consumer goes on and uses its notification up, and one without goes on waiting |
| `SlotSelection.Select` | package/telego-pkg/src/pkg/transport/middleend/binding_manager.go:1037-1075 | the slot chosen for a binding is healthy, has room, and no other such slot has fewer bindings, or as many and fewer pending items, or as many of both and fewer bytes; ties go to the first in turn, and none is chosen only when all healthy ones are full |
| `SlotSelection.BindingStaysEven` | package/telego-pkg/src/pkg/transport/middleend/binding_manager.go:1037-1061 | binding keeps the resident counts of healthy slots within one of each other |
| `ResponseQueue.Queue.Enqueue` | package/telego-pkg/src/pkg/transport/middleend/binding_manager.go:2967-3028 | the growing ring appends to its FIFO and refuses only at the limit |
| `ResponseQueue.Queue.Grow` | package/telego-pkg/src/pkg/transport/middleend/binding_manager.go:3011-3028 | doubling keeps the retained events in order |
| `ResponseQueue.Queue.Pop` | package/telego-pkg/src/pkg/transport/middleend/binding_manager.go:2282-2301 | the oldest event leaves and the bytes are uncharged |
| `ResponseQueue.Queue.Clear` | package/telego-pkg/src/pkg/transport/middleend/binding_manager.go:3140-3153 | nothing is retained |
| `ResponsePressure.RunCounted` | package/telego-pkg/src/pkg/transport/middleend/binding_manager.go:2967-3009 | on every run from an empty manager each binding's counters are the items and bytes of its FIFO, slot and manager counters are the sums over bindings, and all three levels stay within their limits |
| `ResponsePressure.FindVictim` | package/telego-pkg/src/pkg/transport/middleend/binding_manager.go:2867-2910 | the victim is the incoming binding or the heaviest candidate, whatever the map order |
| `ResponsePressure.VictimIsUnique` | package/telego-pkg/src/pkg/transport/middleend/binding_manager.go:2867-2910 | so the choice does not depend on iteration order |
| `ResponsePressure.RetrySucceedsExactly` | package/telego-pkg/src/pkg/transport/middleend/binding_manager.go:2816-2853 | after evicting another binding the retry succeeds exactly when what it freed covers the global need |
| `ResponsePressure.OneLimitRetrySucceeds` | package/telego-pkg/src/pkg/transport/middleend/binding_manager.go:2816-2865 | when exactly one of slot and global limit is exceeded, the retry always succeeds |
| `ResponsePressure.JointPressureCanFail` | package/telego-pkg/src/pkg/transport/middleend/binding_manager.go:2816-2853 | a run from an empty manager, with limits the constructor accepts and events as the link charges them, after which both limits are exceeded and the retry fails |
| `PressureLaws.StoredExactly` | package/telego-pkg/src/pkg/transport/middleend/binding_manager.go:2967-3009 | an event is refused exactly when storing it would exceed a limit of its binding, its slot or the manager; otherwise it is the last of its FIFO |
| `PressureLaws.VictimIsHeaviest` | package/telego-pkg/src/pkg/transport/middleend/binding_manager.go:2867-2910 | the incoming binding pays exactly when its own limit is hit or no live neighbour alone makes room; else the victim is such a neighbour, and no other holds more bytes, or as many in more events, ties to the older |
| `PressureLaws.StepKept` | package/telego-pkg/src/pkg/transport/middleend/binding_manager.go:2740-2865 | in any section a binding loses its responses exactly when it is evicted; otherwise what it took and retains is what it retained and what came |
| `PressureLaws.EveryResponseOnce` | package/telego-pkg/src/pkg/transport/middleend/binding_manager.go:2282-2301 | over every run through which a binding is resident and not evicted, its consumer took, and it retains, each response that came exactly once, in order, with its packet |
| `LinkRuns.SocketInEncodeOrder` | package/telego-pkg/src/pkg/transport/middleend/blocking_engine.go:326-420 | on every interleaving the socket has taken a prefix of the encoded frames, each encoded in the state its predecessors left, and submissions are encoded in the order accepted |
| `LinkRuns.RunIsSound` | package/telego-pkg/src/pkg/transport/middleend/blocking_engine.go:206-693 | counters equal queued plus active, at most the active submission is in flight, no channel send blocks the owner, events are charged exactly, and a queued submission always has something that will bring the owner to it |
| `LinkRuns.WorkOrDone` | package/telego-pkg/src/pkg/transport/middleend/blocking_engine.go:326-397 | a ready link either has a step of owner or writer to take, or everything accepted is written and released: nothing is stranded and nothing deadlocks |
| `LinkEnds.EndsExactly` | package/telego-pkg/src/pkg/transport/middleend/blocking_engine.go:326-420 | a ready link leaves that state in exactly these steps: its close, a failed write, a submission or reply that cannot be encoded, a reply without room, an event beyond the limits, an error in a read |
| `LinkEnds.PublishedExactly` | package/telego-pkg/src/pkg/transport/middleend/blocking_engine.go:515-545 | whatever has been reconciled, an event is published exactly when the events still buffered leave room for it |
| `LinkEnds.LinkDrains` | package/telego-pkg/src/pkg/transport/middleend/blocking_engine.go:326-420 | from any reachable state a ready link drains or ends once submitters and peer pause; and it drains, still ready, when frames can be encoded, no write failed and the rest of the read fits |
| `LinkClose.ReadIsDone` | package/telego-pkg/src/pkg/transport/middleend/blocking_engine.go:455-513 | a read that fits and holds no error is done with whole: its events are published and its replies encoded, in its order, and the owner is free again |
| `LinkClose.LinkCloses` | package/telego-pkg/src/pkg/transport/middleend/blocking_engine.go:605-693 | from every reachable closing state the link closes by its own goroutines, and then nothing is queued or charged |
| `LinkClose.AnnouncedExactly` | package/telego-pkg/src/pkg/transport/middleend/blocking_engine.go:562-572 | room is announced exactly by the result of a submission, until the submitter takes the announcement |
| `LinkClose.SubmitsExactly` | package/telego-pkg/src/pkg/transport/middleend/blocking_engine.go:206-251 | the verdict on every submission by what is queued and being written: closed, too large for any link, accepted exactly when one more fits both limits, backpressure otherwise |
| `LinkRuns.WorkDescends` | package/telego-pkg/src/pkg/transport/middleend/blocking_engine.go:326-420 | every such step, in any order, uses up some of a well-founded measure |
| `LinkRuns.ChargedUntilWritten` | package/telego-pkg/src/pkg/transport/middleend/blocking_engine.go:204-251 | whatever was accepted but is not completely on the socket is still counted against the limits |
| `LinkRuns.PublishKeepsEvents` | package/telego-pkg/src/pkg/transport/middleend/blocking_engine.go:515-545 | an event is refused exactly when the link is not ready or its limits are full; the channel itself never overflows |
| `LinkRuns.ReconcileKeepsEvents` | package/telego-pkg/src/pkg/transport/middleend/blocking_engine.go:695-713 | after reconciling, exactly the buffered events are charged |
| `LinkEngine.Engine.ReconcileConsumedEvents` | package/telego-pkg/src/pkg/transport/middleend/blocking_engine.go:695-713 | updates the engine's fields exactly as specified: the loop uncharges what the consumer took |
| `LinkEngine.Engine.WriteWire` | package/telego-pkg/src/pkg/transport/middleend/blocking_engine.go:587-603 | updates the engine's fields exactly as specified: short writes continue where they stopped and stop at the first error or empty write |
| `LinkRuns.RoomIsAnnounced` | package/telego-pkg/src/pkg/transport/middleend/blocking_engine.go:204-251 | after a submission was refused for lack of room, whenever it would be accepted again the room has been announced since |
| `LinkEnds.RefusedGetsRoom` | package/telego-pkg/src/pkg/transport/middleend/blocking_engine.go:326-397 | from any moment at which a submission is refused for lack of room, owner and writer can make and announce that room, unless the link ends, which it does not when nothing terminal is pending |
| `LinkRuns.SubmitKeepsCounts` | package/telego-pkg/src/pkg/transport/middleend/blocking_engine.go:206-251 | a submission is charged exactly when it is queued, within the limits |
| `LinkRuns.TakeKeepsSingle` | package/telego-pkg/src/pkg/transport/middleend/blocking_engine.go:351-358 | taking the oldest submission leaves at most one active and none in flight |
| `LinkRuns.SendIsFair` | package/telego-pkg/src/pkg/transport/middleend/blocking_engine.go:359-364 | the active submission is encoded next after those accepted before it |
| `LinkRuns.ResultKeepsSingle` | package/telego-pkg/src/pkg/transport/middleend/blocking_engine.go:365-377 | a write result of a submission is the active one's, and after it none is in flight |
| `LinkRuns.ActKeepsOrder` | package/telego-pkg/src/pkg/transport/middleend/blocking_engine.go:484-513 | replies and events leave the socket a prefix of what was encoded, in order |
| `LinkRuns.EndIsClean` | package/telego-pkg/src/pkg/transport/middleend/blocking_engine.go:626-693 | the end, taken only after reader, writer and owner stopped, leaves no queue and no charge |
| `ClientPacket.ReceiveEncoded` | package/telego-pkg/src/pkg/transport/middleend/client_packet.go:59-97 | for every framing, the encodings of any packets received in any pieces yield exactly those packets |
| `ClientPacket.ReceiveStream` | package/telego-pkg/src/pkg/transport/middleend/client_packet.go:59-97 | whatever the pieces, packets and error are those of decoding the whole stream |
| `ClientPacket.StreamRoundTrip` | package/telego-pkg/src/pkg/transport/middleend/client_packet.go:202-378 | decoding concatenated encodings yields exactly the packets sent |
| `ClientPacket.EncodedDecodes` | package/telego-pkg/src/pkg/transport/middleend/client_packet.go:202-278 | an encoded packet, with the quick-ack bit set or clear and anything behind it, decodes to itself and that flag exactly when its size fits the maximum, and is too large otherwise |
| `ClientPacket.AcceptedIsEncoded` | package/telego-pkg/src/pkg/transport/middleend/client_packet.go:202-278 | a decoder accepts nothing but encodings, with at most three bytes of padding, of packets within the maximum |
| `ClientPacket.ErrorExactly` | package/telego-pkg/src/pkg/transport/middleend/client_packet.go:213-278 | a header is invalid exactly when no encoder declares its size, and too large exactly when one does and it exceeds the maximum |
| `ClientPacket.FlagReported` | package/telego-pkg/src/pkg/transport/middleend/client_packet.go:213-278 | setting the quick-ack bit of a header changes its flag and nothing else |
| `ClientPacket.DecodeMore` | package/telego-pkg/src/pkg/transport/middleend/client_packet.go:202-278 | what was decided from a prefix stays decided when more arrives |
| `ClientPacket.FullBufferDecides` | package/telego-pkg/src/pkg/transport/middleend/client_packet.go:142-168 | a buffer at maximum plus four bytes always yields a packet or an error |
| `ClientPacket.NextFromPlaintext` | package/telego-pkg/src/pkg/gproxy/middleend_frontend.go:1010-1094 | the frontend's loop returns the next packet of the retained and pending plaintext and never meets a decoder that retained its maximum |
| `ClientPacket.Decoder.Feed` | package/telego-pkg/src/pkg/transport/middleend/client_packet.go:59-72 | retains a prefix within the buffer bound |
| `ClientPacket.Decoder.Next` | package/telego-pkg/src/pkg/transport/middleend/client_packet.go:77-97 | takes the next packet, wiping what it leaves, or fails for good |
| `ClientPacket.Decoder.Compact` | package/telego-pkg/src/pkg/transport/middleend/client_packet.go:142-150 | moves the retained bytes to the front and wipes the rest |
| `ClientPacket.Decoder.EnsureCapacity` | package/telego-pkg/src/pkg/transport/middleend/client_packet.go:142-168 | grows within the bound and keeps what is retained |
| `ClientPacket.Decoder.Finish` | package/telego-pkg/src/pkg/transport/middleend/client_packet.go:100-108 | a stream ends cleanly only between packets |
| `ClientPacket.Decoder.Close` | package/telego-pkg/src/pkg/transport/middleend/client_packet.go:131-140 | nothing is retained afterwards and the first error stays |
| `RecordSizer.DrsState.PlanSize` | package/telego-pkg/src/pkg/transport/faketls/drs.go:79-96 | the planned size is the size of the records the wrapping loop will write, from any state, and planning changes nothing |
| `RecordSizer.ChunkCount` | package/telego-pkg/src/pkg/transport/faketls/drs.go:52-64 | from any reachable state a response takes at most the small records left and the steady count |
| `RecordSizer.ChunkSizes` | package/telego-pkg/src/pkg/transport/faketls/drs.go:52-64 | every record but the last: one byte if it splits the first, 1369 bytes while fewer than eight records and 128 KiB went before it, the steady size from then on; the last is the rest |
| `RecordSizer.WroteReachable` | package/telego-pkg/src/pkg/transport/faketls/drs.go:67-73 | the two counters, with their machine-width wrap-around, keep saying how many records and bytes were written |
| `RecordSizer.ChunksTotal` | package/telego-pkg/src/pkg/transport/faketls/drs.go:52-96 | the records together carry exactly the response |
| `RecordSizer.NeverProbesAgain` | package/telego-pkg/src/pkg/transport/faketls/drs.go:52-73 | once ramped the probe phase never returns, below 2^64 bytes, although the record counter wraps |
| `RecordSizer.ResponseFits` | package/telego-pkg/src/pkg/gproxy/middleend_frontend.go:23-38 | any response within the client wire bound fits the precomputed maximum from any reachable state |
| `RecordSizer.EveryPacketFits` | package/telego-pkg/src/pkg/gproxy/middleend_frontend.go:23-38 | so does every packet of every framing with its random padding: the size error of writeWire is unreachable |
| `RecordSizer.WriteWire` | package/telego-pkg/src/pkg/gproxy/middleend_frontend.go:959-997 | the bytes written are the planned records around the encrypted response; the empty-chunk and size-mismatch errors are unreachable |
| `RecordSizer.RecordsCarry` | package/telego-pkg/src/pkg/gproxy/middleend_frontend.go:971-992 | reading the records back gives the encrypted response |
| `Cbc.DecryptStream` | package/telego-pkg/src/pkg/transport/middleend/cbc.go:110-176 | a ciphertext fed in any pieces returns the one-shot decryption of its complete blocks, and ends cleanly exactly at a block boundary |
| `Cbc.CbcDecrypter.Feed` | package/telego-pkg/src/pkg/transport/middleend/cbc.go:110-168 | consumes some of a non-empty input, keeps fewer than sixteen bytes back and extends the decryption of everything consumed |
| `Cbc.CbcEncrypter.EncryptBatch` | package/telego-pkg/src/pkg/transport/middleend/cbc.go:48-72 | refuses exactly the invalid lengths and otherwise encrypts the batch with its no-op padding in the continuing chain |
| `Cbc.StreamRoundTrip` | package/telego-pkg/src/pkg/transport/middleend/cbc.go:48-72 | decrypting successive outputs recovers every batch followed only by four-byte no-ops |
| `Cbc.DecryptSplit` | package/telego-pkg/src/pkg/transport/middleend/cbc.go:121-168 | decryption of a concatenation continues from the chaining value of its first part |
| `Cbc.DecryptsBlocks` | package/telego-pkg/src/pkg/transport/middleend/cbc.go:121-135 | each byte of plaintext is that of the decrypted block exclusive-or that of the ciphertext block before it, or of the IV |
| `Cbc.EncryptsBlocks` | package/telego-pkg/src/pkg/transport/middleend/cbc.go:48-72 | each ciphertext block encrypts the plaintext block exclusive-or the ciphertext block before it, or the IV |

## Left out

- SessionTheorems.DownlinkExactlyOnce: the manager's answers are an arbitrary sequence given in advance, so the theorem holds for every manager but does not say which charges a particular one grants; `ManagerBudget` says that.
- SessionRuns.RunIsSound: lanes are values with a serial number standing for the lane object's identity, and the poll's slot channel, leases and timers are in `PollProtocol`, where a lane's polls are interleaved; the two are not composed into one state.
- PollProtocol.RunGood: the answer that a lane's stream has ended releases its poll; here such a poll gives up, since the streams are not in this model.
- ManagerBudget.RunStaysBalanced: how much of a release was charged as non-control is a parameter of the step, and `EveryReleaseSplits` shows that one always exists. For one session `SessionReserve` reads the control share off its queued and unacknowledged frames; the sessions' own sections are not composed with the manager into one state, since calls of other sessions come in between the calls of one section.
- SessionUplink.EachSequenceOnce: the SHA-256 digest of a batch is modelled as the batch itself, that is, as injective.
- SessionRuns.NextWriteKeeps: waiting for a notification is the absence of a step; notification channels, contexts and long-poll timers are not represented in the session.
- WebSocketMeaning.CloseMeans: which close payloads are valid is decided by a library; its answer is a parameter.
- WebSocketDecoder.Decoder.PrepareFrame: the reserver's answers are given in advance, one for each request in turn and each size; `WebSocketConnection` ties them to the budget.
- WebSocketConnection.NeverPanics: the session's answers are arbitrary; sending a message, with its retries, is one step, and control messages and the outbound side are not in this model.
- OutboundRuns.RunGood: request identity is a number and its payload a size; marshalling and submission outcomes are chosen by the environment, and tickets and submission identifiers are unbounded, so exhaustion at 2^63 is not reached.
- OutboundEngine.Manager.PromoteRequests: the linked wait and outbound lists are sequences in this class; `OutboundList` verifies the outbound list's pointer surgery on its own, and the waiters are read off the outbound order instead of their own list.
- Readiness.RunSound: it is a projection of the same mutex sections onto readiness; which waiter is promoted, whether a close can be queued and whether a slot is down are parameters, so it holds for every such decision, and it is not composed with the outbound model into one state. Epochs are unbounded.
- ResponsePressure.RunCounted: also a projection, on retained responses; `ResponseQueue` is the ring a binding's FIFO is kept in; probe answers and closes of unknown connections, which are not retained, are left out. The order of map iteration is nondeterministic.
- ResponseQueue.Queue.Enqueue: clearing of packet bytes beyond replacing the stored event is not modelled.
- LinkRuns.RunIsSound: publishing an event, with its reconciliation, is one step, since the mutex is held throughout and the consumer can only make room; what a read decodes to is given with the read, and the bootstrap before readiness is not modelled.
- LinkEnds.LinkDrains: the schedule shown lets every write take all remaining bytes; `WorkDescends` covers every other order and any positive write counts.
- StreamHistory.History.Add: a chunk is a value stored in the array rather than a separately allocated one.
- RecordSizer.WriteWire: the stream cipher is a function of position and byte.
- Cbc.StreamRoundTrip: the block cipher is any pair of functions inverse on blocks.
- The relay's ClientReadyToken slot of a route, the owner loop's output headroom and retry timers in `gproxy/middleend_frontend.go`.
- Sockets, dialing, event loops, deadlines, contexts, metrics, logging and configuration: outside the models or nondeterministic steps.
- Bootstraps, tokens, capability and session creation in `webproxy/manager.go`, and the expiry of closed tokens.
- FakeTLS and obfuscated handshakes, key derivation, proxy-request marshalling, RPC parsing, the link bootstrap and frame layer, and the supervisors that own generations of links.
- The WebSocket outbound pump, its control bursts and its framing of server messages.
- User limits and replay protection, whose behaviour rests on library caches.
