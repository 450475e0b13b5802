/** When the bytes a backend took come back to the client as WINDOW credit, exactly. */
module SessionCredit {
  import opened Bytes
  import opened FrameCodec
  import opened DownlinkLane
  import opened Limits
  import opened PendingBudget
  import opened SessionCore
  import Sums
  import opened SessionAccounting
  import opened SessionDelivery
  import opened SessionRuns
  import opened SessionTheorems

  const WINDOW_FRAME_COST := FRAME_HEADER_SIZE + 4 + QUEUE_ITEM_COST

  /** A WINDOW frame of the stream is queued already, and the sum still fits 32 bits. */
  predicate JoinsQueued(l: Lane, id: nat, amount: nat) {
    && id in l.windows && l.windows[id] < |l.pending|
    && DeltaOf(l.pending[l.windows[id]].frame.payload) + amount <= MAX_UINT32
  }

  /** Room for the report of a drain: a queued WINDOW frame takes it, or the session and the manager admit a new one. */
  predicate RoomToReport(s: Session, id: nat, amount: nat)
    requires LaneID(s, id) in s.lanes
  {
    || JoinsQueued(s.lanes[LaneID(s, id)].down, id, amount)
    || (&& s.ledger.cost - amount + WINDOW_FRAME_COST <= s.limits.maxPendingPerSession
        && s.ledger.items + 1 <= s.limits.maxPendingItemsPerSession
        && s.env(s.asked))
  }

  /** The writer of a live stream reports a drain. */
  predicate Drains(s: Session, id: nat, amount: nat) {
    !s.closed && id in s.streams && CanDrain(s.streams[id], amount)
  }

  lemma {:induction false} WindowPlan(l: GoodLane, id: StreamID, amount: nat)
    requires 0 < amount <= MAX_UINT32
    ensures var plan := PlanFrame(l, WINDOW, id, WindowPayload(amount).value);
            if JoinsQueued(l, id, amount) then plan.AddCredit? else plan.AppendNew?
  {
    if id in l.windows {
      WindowIndexSound(l.pending, id);
      var q := l.pending[l.windows[id]];
      assert Faithful(q);
      assert q.encoded[FRAME_HEADER_SIZE..] == q.frame.payload;
    }
  }

  lemma {:induction false} LiveHasLane(s: Session, id: nat)
    requires Sound(s) && id in s.streams
    ensures LaneID(s, id) in s.lanes && StreamGood(s.streams[id]) && 0 < id <= MAX_STREAM_ID && !s.closed
  {
    SoundKeeps(s, id);
  }

  /** What a live stream is charged is part of the total. */
  lemma {:induction false} ChargedInLedger(s: Session, id: nat)
    requires Conserved(s) && id in s.streams
    ensures s.streams[id].pendingWriteCost <= s.ledger.cost
  {
    Sums.SumAtLeast(s.streams, id, StreamCost);
  }

  lemma {:induction false} WindowQueued(s: Session, id: StreamID, amount: nat)
    requires LaneID(s, id) in s.lanes && 0 < amount <= MAX_UINT32
    ensures QueueFrame(s, WINDOW, id, WindowPayload(amount).value).1 <==>
            || JoinsQueued(s.lanes[LaneID(s, id)].down, id, amount)
            || (&& s.ledger.cost + WINDOW_FRAME_COST <= s.limits.maxPendingPerSession
                && s.ledger.items + 1 <= s.limits.maxPendingItemsPerSession
                && s.env(s.asked))
  {
    hide LaneOK, PlanFrame, Enqueued, ControlReserve, UplinkReserve, JoinsQueued;
    WindowPlan(s.lanes[LaneID(s, id)].down, id, amount);
  }

  /** A drain is reported exactly when there is room for the report. */
  lemma {:induction false} DrainReported(s: Session, id: nat, amount: nat)
    requires Sound(s) && Drains(s, id, amount)
    ensures LaneID(s, id) in s.lanes
    ensures BackendDrained(s, id, amount).1 <==> RoomToReport(s, id, amount)
  {
    LiveHasLane(s, id);
    ChargedInLedger(s, id);
    hide Sound, StreamGood, QueueFrame, JoinsQueued;
    WindowQueued(ReleasePending(SetStream(s, id, Drain(s.streams[id], amount)), amount, 0), id, amount);
  }

  // ---------------------------------------------------------------- what no other step changes

  predicate Intact(t: Stream) {
    t.unreported == 0 && !t.halted
  }

  /** Whether stream `o` lost credit, and whether its writer stopped, stays; a stream that appears was never used. */
  predicate Steady(s: Session, t: Session, o: nat) {
    && s.used <= t.used
    && (o in t.streams ==>
          if o in s.streams then
            t.streams[o].unreported == s.streams[o].unreported && t.streams[o].halted == s.streams[o].halted
          else o !in s.used && Intact(t.streams[o]))
  }

  lemma {:induction false} SteadyTwice(s: Session, t: Session, u: Session, o: nat)
    requires Steady(s, t, o) && Steady(t, u, o) && s.streams.Keys <= s.used
    ensures Steady(s, u, o)
  {
    assert o in s.streams ==> o in s.streams.Keys;
  }

  predicate Alike(s: Session, t: Session) {
    t.streams == s.streams && t.used == s.used
  }

  lemma {:induction false} LanesAlike(s: Session, id: nat)
    ensures Alike(s, Attach(s, id)) && Alike(s, ReleaseLane(s, id)) && Alike(s, RememberClosed(s, id))
    ensures Alike(s, DropFrames(s, id))
  {
    hide LaneOK, Dropped;
  }

  lemma {:induction false} QueueAlike(s: Session, kind: byte, id: StreamID, payload: bytes)
    requires Queueable(kind, id, payload)
    ensures Alike(s, QueueFrame(s, kind, id, payload).0)
  {
    hide QueueFrame, Queueable;
    QueueFrameFrame(s, kind, id, payload);
  }

  lemma {:induction false} DeleteSteady(s: Session, id: nat, o: nat)
    requires id in s.streams
    ensures Steady(s, DeleteStream(s, id), o) && DeleteStream(s, id).streams.Keys <= s.streams.Keys
    ensures DeleteStream(s, id).used == s.used
  {}

  lemma {:induction false} ApplyCloseSteady(s: Session, id: nat, o: nat)
    requires id in s.streams
    ensures Steady(s, ApplyClose(s, id), o) && ApplyClose(s, id).used == s.used
  {
    hide DropFrames, DeleteStream, RememberClosed;
    LanesAlike(s, id);
    var t := DropFrames(s, id);
    DeleteSteady(t, id, o);
    LanesAlike(DeleteStream(t, id), id);
  }

  lemma {:induction false} ApplyOpenSteady(s: Session, id: StreamID, o: nat)
    requires id !in s.used && s.streams.Keys <= s.used
    ensures Steady(s, ApplyOpen(s, id).0, o)
  {
    hide RememberClosed, QueueFrame;
    var t := AcquireStream(s.(used := s.used + {id})).0;
    LanesAlike(t, id);
    QueueAlike(RememberClosed(t, id), CLOSE, id, []);
  }

  lemma {:induction false} FrameSteady(a: Applied, f: Frame, o: nat)
    requires Fits(a.s, f) && a.s.streams.Keys <= a.s.used
    ensures Steady(a.s, ApplyFrame(a, f).s, o)
  {
    hide ApplyOpen, ApplyClose, Coalesces;
    assert f.streamID in a.s.streams ==> f.streamID in a.s.streams.Keys;
    if f.streamID != 0 && f.kind == OPEN {
      ApplyOpenSteady(a.s, f.streamID, o);
    } else if f.streamID in a.s.streams && f.kind == CLOSE {
      ApplyCloseSteady(a.s, f.streamID, o);
    }
  }

  lemma {:induction false} BatchSteady(used: set<nat>, c: Check, a: Applied, frames: seq<Frame>, o: nat)
    requires ApplyInvariant(used, c, a, frames) && CheckBatch(used, c, frames).Some?
    requires forall i | 0 <= i < |frames| :: frames[i].streamID <= MAX_STREAM_ID
    ensures Steady(a.s, ApplyBatch(a, frames).s, o)
    decreases |frames|
  {
    hide ApplyFrame, CheckFrame, Holds, Fits, Agrees, Advance, Steady;
    if frames == [] || !a.ok {
      SteadySelf(a.s, o);
    } else {
      var f := frames[0];
      AgreesUsed(used, c, a.s);
      assert Fits(a.s, f) by {
        ValidatedFits(used, c, a, f);
      }
      FrameSteady(a, f, o);
      FrameApplies(used, c, a, frames);
      var b := ApplyFrame(a, f);
      BatchSteady(used, CheckFrame(used, c, f).value, b, frames[1..], o);
      SteadyTwice(a.s, b.s, ApplyBatch(b, frames[1..]).s, o);
    }
  }

  lemma {:induction false} SteadySelf(s: Session, o: nat)
    ensures Steady(s, s, o)
  {}

  lemma {:induction false} AgreesUsed(used: set<nat>, c: Check, s: Session)
    requires Agrees(used, c, s)
    ensures s.streams.Keys <= s.used
  {}

  // ---------------------------------------------------------------- every critical section

  lemma {:induction false} FailLaneSteady(s: Session, laneID: nat, expected: Option<nat>, o: nat)
    ensures Steady(s, FailLane(s, laneID, expected), o) && Steady(s, ReleaseWebSocketLane(s, laneID, expected), o)
  {
    hide DeleteStream, RememberClosed, ReleaseLane;
    if laneID in s.lanes {
      var t := SetLane(s, laneID, s.lanes[laneID].(websocketActive := false));
      LanesAlike(t, laneID);
      if laneID in t.streams {
        DeleteSteady(t, laneID, o);
        var u := DeleteStream(t, laneID);
        LanesAlike(u, laneID);
        LanesAlike(RememberClosed(u, laneID), laneID);
      }
    }
  }

  lemma {:induction false} UpClaimSteady(s: Session, laneID: nat, sequence: nat, body: bytes, expected: Option<nat>, o: nat)
    requires laneID in s.lanes
    ensures Steady(s, UpClaim(s, laneID, sequence, body, expected).0, o)
  {
    hide FailLane, LaneOK;
    FailLaneSteady(s, laneID, expected, o);
  }

  lemma {:induction false} UpBeginSteady(s: Session, laneID: nat, sequence: nat, body: bytes, expected: Option<nat>, o: nat)
    ensures Steady(s, UpBegin(s, laneID, sequence, body, expected).0, o)
  {
    hide LaneOK, ReleaseLane, RememberClosed, DropFrames;
    LanesAlike(s, laneID);
    FailLaneSteady(s, laneID, expected, o);
    assert laneID in Attach(s, laneID).lanes;
    hide FailLane, ParseUplink, OnlyLateFrames, StartsWithOpen, Attach, UpClaim;
    UpClaimSteady(Attach(s, laneID), laneID, sequence, body, expected, o);
  }

  lemma {:induction false} CommitSteady(s: Session, laneID: nat, job: UpJob, frames: seq<Frame>, cost: nat, items: nat, o: nat)
    requires laneID in s.lanes && Holds(s, cost, items) && Identities(s) && ValidBatch(s, frames)
    requires (cost, items) == Advance(s.streams.Keys, frames)
    requires forall i | 0 <= i < |frames| :: frames[i].streamID <= MAX_STREAM_ID
    ensures Steady(s, CommitBatch(s, laneID, job, frames, cost, items).0, o)
  {
    StartAgrees(s);
    var start := Applied(s, cost, items, true);
    hide Holds, CheckBatch, Advance, ApplyBatch, Taken, RecordBatch, ReleasePending, Identities, Agrees, LaneOK, Steady, Alike;
    BatchSteady(s.used, Snapshot(s), start, frames, o);
    var a := ApplyBatch(start, frames);
    ReleaseAlike(a.s, a.unusedCost, a.unusedItems);
    AfterBatch(s, a.s, ReleasePending(a.s, a.unusedCost, a.unusedItems), laneID, o);
  }

  /** Returning the unused reservation and recording the batch on its lane. */
  lemma {:induction false} AfterBatch(s: Session, t: Session, u: Session, laneID: nat, o: nat)
    requires Steady(s, t, o) && Alike(t, u)
    ensures Steady(s, u, o) && forall lane :: Steady(s, SetLane(u, laneID, lane), o)
  {
    hide LaneOK;
  }

  lemma {:induction false} ReleaseAlike(s: Session, cost: int, items: int)
    ensures Alike(s, ReleasePending(s, cost, items))
  {}

  lemma {:induction false} UpEndSteady(s: Session, laneID: nat, serial: nat, expected: Option<nat>, o: nat)
    requires Conserved(s) && Identities(s)
    ensures Steady(s, UpEnd(s, laneID, serial, expected).0, o)
  {
    hide ParseUplink, FailLane, ReservePending, CommitBatch, CheckBatch, Advance, LaneOK, Holds;
    if laneID in s.lanes && s.lanes[laneID].serial == serial && s.lanes[laneID].upActive.Some? && !s.closed {
      var job := s.lanes[laneID].upActive.value;
      var lane := s.lanes[laneID].(upActive := None);
      var t := SetLane(s, laneID, lane);
      ClaimDroppedConserves(s, laneID, lane);
      FailLaneSteady(t, laneID, expected, o);
      var parsed := ParseUplink(job.body, laneID, UsesLanes(s.carrier));
      if parsed.Ok? {
        ParsedIdentifiers(job.body, laneID, UsesLanes(s.carrier));
        ApplySteady(t, laneID, job, parsed.value, expected, o);
      }
    }
  }

  lemma {:induction false} ApplySteady(s: Session, laneID: nat, job: UpJob, frames: seq<Frame>, expected: Option<nat>, o: nat)
    requires laneID in s.lanes && Conserved(s) && !s.closed && Identities(s)
    requires forall i | 0 <= i < |frames| :: frames[i].streamID <= MAX_STREAM_ID
    ensures Steady(s, UpApply(s, laneID, job, frames, expected).0, o)
  {
    hide FailLane, ReservePending, CommitBatch, CheckBatch, Advance, Holds;
    FailLaneSteady(s, laneID, expected, o);
    if ValidBatch(s, frames) {
      var charge := Advance(s.streams.Keys, frames);
      ReserveHolds(s, 0, 0, charge.0, charge.1, Uplink);
      ReservePendingFrame(s, charge.0, charge.1, Uplink);
      var (u, granted) := ReservePending(s, charge.0, charge.1, Uplink);
      if granted {
        CommitSteady(u, laneID, job, frames, charge.0, charge.1, o);
      }
    }
  }

  lemma {:induction false} WriterSteady(s: Session, id: nat, o: nat)
    ensures Steady(s, NextWrite(s, id), o) && Steady(s, BackendWriteFinished(s, id).0, o)
  {}

  lemma {:induction false} BackendDataSteady(s: Session, id: nat, data: bytes, o: nat)
    requires |data| <= RELAY_DATA_CHUNK
    ensures Steady(s, BackendData(s, id, data).0, o)
  {
    hide QueueFrame;
    if id in s.streams && 0 < |data| <= s.streams[id].sendCredit {
      QueueAlike(SetStream(s, id, Pay(s.streams[id], |data|)), DATA, id, data);
    }
  }

  lemma {:induction false} BackendClosedSteady(s: Session, id: nat, o: nat)
    requires s.streams.Keys <= s.used
    ensures Steady(s, BackendClosed(s, id), o)
  {
    hide QueueFrame, ApplyClose, DropFrames, DeleteStream, RememberClosed;
    if !s.closed && id in s.streams {
      ApplyCloseSteady(s, id, o);
      BackendClosedIs(s, id);
      QueueAlike(ApplyClose(s, id), CLOSE, id, []);
    }
  }

  lemma {:induction false} PollServeSteady(s: Session, laneID: nat, serial: nat, cursor: nat, expected: Option<nat>, o: nat)
    ensures Steady(s, PollServe(s, laneID, serial, cursor, expected).0, o)
  {
    hide Polled, FailLane;
    if !s.closed && laneID in s.lanes {
      PolledObserved(s, laneID, cursor, o);
      FailLaneSteady(Polled(s, laneID, cursor).0, laneID, expected, o);
    }
  }

  lemma {:induction false} InputsSteady(s: Session, handle: nat, size: nat, o: nat)
    ensures Steady(s, ReserveInput(s, handle, size), o) && Steady(s, ResizeInput(s, handle, size).0, o)
    ensures Steady(s, ReleaseInput(s, handle), o)
  {
    hide ReserveInput, ResizeInput, ReleaseInput;
    InputSame(s, handle, size, o);
  }

  lemma {:induction false} AcquireLaneSteady(s: Session, laneID: nat, o: nat)
    ensures Steady(s, AcquireLane(s, laneID), o)
  {
    hide LaneOK;
  }

  lemma {:induction false} NoDrain(s: Session, id: nat, amount: nat)
    requires !Drains(s, id, amount)
    ensures BackendDrained(s, id, amount) == (s, false)
  {}

  lemma {:induction false} SoundParts(s: Session)
    requires Sound(s)
    ensures Conserved(s) && Identities(s) && s.streams.Keys <= s.used
  {
    hide Conserved, TracksWith;
  }

  /** Every step but a drain of the stream leaves its lost credit alone. */
  lemma {:induction false} StepSteady(s: Session, op: Op, o: nat)
    requires Sound(s) && !(op.Drained? && Drains(s, op.id, op.amount))
    ensures Steady(s, Step(s, op), o)
  {
    hide Sound, Conserved, Identities, UpBegin, UpEnd, FailLane, NextWrite, BackendWriteFinished, BackendData, BackendClosed,
         PollServe, ReserveInput, ResizeInput, ReleaseInput, AcquireLane, ReleaseWebSocketLane, Steady, Close,
         BackendDrained, Drains, LaneOK;
    SoundParts(s);
    SteadySelf(s, o);
    match op
    case UpStart(laneID, sequence, body, expected) => UpBeginSteady(s, LaneID(s, laneID), sequence, body, expected, o);
    case UpFinish(laneID, serial, expected) =>
      UpEndSteady(s, LaneID(s, laneID), serial, expected, o);
    case Fail(laneID, expected) => FailLaneSteady(s, LaneID(s, laneID), expected, o);
    case TakeWrite(id) => WriterSteady(s, id, o);
    case Drained(id, amount) => NoDrain(s, id, amount);
    case WriteDone(id) => WriterSteady(s, id, o);
    case FromBackend(id, data) => if |data| <= RELAY_DATA_CHUNK { BackendDataSteady(s, id, data, o); }
    case BackendEnded(id) => BackendClosedSteady(s, id, o);
    case Poll(laneID, serial, cursor, expected) => PollServeSteady(s, LaneID(s, laneID), serial, cursor, expected, o);
    case ReserveIn(handle, size) => InputsSteady(s, handle, size, o);
    case ResizeIn(handle, size) => InputsSteady(s, handle, size, o);
    case ReleaseIn(handle) => InputsSteady(s, handle, 0, o);
    case AttachLane(laneID) => AcquireLaneSteady(s, laneID, o);
    case DetachLane(laneID, expected) => FailLaneSteady(s, laneID, expected, o);
    case CloseNow => CloseSteady(s, o);
  }

  lemma {:induction false} CloseSteady(s: Session, o: nat)
    ensures Steady(s, Close(s), o)
  {}

  /** A drain touches its own stream only, which loses the credit and its writer exactly when there is no room. */
  lemma {:induction false} DrainSteady(s: Session, id: nat, amount: nat, o: nat)
    requires Sound(s) && Drains(s, id, amount)
    ensures var t := BackendDrained(s, id, amount).0;
            && t.used == s.used && t.streams.Keys == s.streams.Keys && LaneID(s, id) in s.lanes
            && (o != id || RoomToReport(s, id, amount) ==> Steady(s, t, o))
            && (!RoomToReport(s, id, amount) ==>
                  t.streams[id].unreported == s.streams[id].unreported + amount && t.streams[id].halted)
  {
    DrainReported(s, id, amount);
    LiveHasLane(s, id);
    var state := Drain(s.streams[id], amount);
    var payload := WindowPayload(amount).value;
    var v := ReleasePending(SetStream(s, id, state), amount, 0);
    hide QueueFrame, ReleasePending, RoomToReport, Sound, StreamGood;
    ReleaseAlike(SetStream(s, id, state), amount, 0);
    QueueAlike(v, WINDOW, id, payload);
  }

  // ---------------------------------------------------------------- every run

  /** The step is no drain of the stream, or one that finds room for its report. */
  predicate FindsRoom(s: Session, op: Op, id: nat) {
    op.Drained? && op.id == id && Drains(s, id, op.amount) && LaneID(s, id) in s.lanes ==> RoomToReport(s, id, op.amount)
  }

  /** Every drain of the stream on this run finds room, looked up before each step. */
  predicate AlwaysRoom(s: Session, ops: seq<Op>, id: nat)
    decreases |ops|
  {
    ops != [] ==> FindsRoom(s, ops[0], id) && AlwaysRoom(Step(s, ops[0]), ops[1..], id)
  }

  /** Once a used stream is gone it stays gone, and lost credit stays lost. */
  lemma {:induction false} LossStays(s: Session, ops: seq<Op>, id: nat)
    requires Sound(s) && id in s.used && id in Run(s, ops).streams
    ensures id in s.streams
    ensures s.streams[id].halted ==> Run(s, ops).streams[id].halted && Run(s, ops).streams[id].unreported == s.streams[id].unreported
    decreases |ops|
  {
    if ops != [] {
      OneStep(s, ops[0], id);
      StepIsSound(s, ops[0]);
      var next := Step(s, ops[0]);
      hide Sound, Step, Steady, Drains;
      LossStays(next, ops[1..], id);
    }
  }

  lemma {:induction false} OneStep(s: Session, op: Op, id: nat)
    requires Sound(s)
    ensures var t := Step(s, op);
            && s.used <= t.used
            && (id in t.streams ==>
                  if id in s.streams then
                    s.streams[id].halted ==> t.streams[id].halted && t.streams[id].unreported == s.streams[id].unreported
                  else id !in s.used && Intact(t.streams[id]))
  {
    if op.Drained? && Drains(s, op.id, op.amount) {
      DrainSteady(s, op.id, op.amount, id);
    } else {
      StepSteady(s, op, id);
    }
  }

  /** From an untouched stream on, no credit is lost exactly when every drain met room. */
  lemma {:induction false} IntactExactly(s: Session, ops: seq<Op>, id: nat)
    requires Sound(s) && (id in s.streams ==> Intact(s.streams[id])) && id in Run(s, ops).streams
    ensures var t := Run(s, ops).streams[id];
            (AlwaysRoom(s, ops, id) <==> t.unreported == 0) && (t.unreported == 0 <==> !t.halted)
    decreases |ops|
  {
    if ops != [] {
      var next := Step(s, ops[0]);
      StepIsSound(s, ops[0]);
      OneIntact(s, ops[0], id);
      hide Sound, Step, FindsRoom;
      if FindsRoom(s, ops[0], id) {
        IntactExactly(next, ops[1..], id);
      } else {
        LossStays(next, ops[1..], id);
      }
    }
  }

  lemma {:induction false} OneIntact(s: Session, op: Op, id: nat)
    requires Sound(s) && (id in s.streams ==> Intact(s.streams[id]))
    ensures var t := Step(s, op);
            if FindsRoom(s, op, id) then id in t.streams ==> Intact(t.streams[id])
            else id in t.used && id in t.streams && t.streams[id].unreported > 0 && t.streams[id].halted
  {
    if op.Drained? && Drains(s, op.id, op.amount) {
      DrainSteady(s, op.id, op.amount, id);
      SoundKeeps(s, id);
      hide Sound, RoomToReport;
    } else {
      StepSteady(s, op, id);
      hide Sound, Step;
    }
  }

  /**
   * On every run of every session, a live stream's written bytes have all been returned as WINDOW credit, and its
   * writer may still write, exactly when each of its drains met room for the report.
   */
  lemma {:induction false} CreditReturnedExactly(l: Limits, c: Carrier, env: nat -> bool, ops: seq<Op>, id: nat)
    requires id in Reached(l, c, env, ops).streams
    ensures var s := Reached(l, c, env, ops);
            && LaneID(s, id) in s.lanes
            && (AlwaysRoom(NewSession(l, c, env), ops, id) <==>
                  CreditOf(id, LaneLog(s.lanes[LaneID(s, id)].down)) == |s.streams[id].written|)
            && (AlwaysRoom(NewSession(l, c, env), ops, id) <==> !s.streams[id].halted)
  {
    ReachedIsSound(l, c, env, ops);
    StartIsSound(l, c, env);
    SoundKeeps(Reached(l, c, env, ops), id);
    hide Sound, StreamGood, CreditOf, DataOf, LaneLog;
    IntactExactly(NewSession(l, c, env), ops, id);
  }
}
