/** When an uplink batch is applied whole: the exact condition for one section, over runs, and a run that fails it. */
module SessionBatches {
  import opened Bytes
  import opened FrameCodec
  import opened DownlinkLane
  import opened Limits
  import opened PendingBudget
  import opened SessionCore
  import opened SessionAccounting
  import opened SessionDelivery
  import opened SessionRuns
  import opened SessionTheorems
  import opened SessionUplink

  const CLOSE_FRAME_COST := FRAME_HEADER_SIZE + QUEUE_ITEM_COST

  // ---------------------------------------------------------------- one batch

  /** The limits and the manager let one more stream open. */
  predicate StreamRoom(s: Session) {
    |s.streams| < s.limits.maxStreamsPerSession && s.env(s.asked)
  }

  /** The session and the manager have room for a CLOSE of the stream. */
  predicate CloseRoom(s: Session, id: nat) {
    && LaneID(s, id) in s.lanes
    && s.ledger.cost + CLOSE_FRAME_COST <= s.limits.maxPendingPerSession
    && s.ledger.items + 1 <= s.limits.maxPendingItemsPerSession
    && s.env(s.asked)
  }

  /** The session as a refused OPEN finds it: remembering the stream may have given back an evicted one's lane. */
  function Declining(s: Session, id: nat): Session {
    RememberClosed(AcquireStream(s.(used := s.used + {id})).0, id)
  }

  /** The frame is no OPEN, or its stream opens, or there is room for the CLOSE that answers it. */
  predicate FrameFits(s: Session, f: Frame) {
    0 < f.streamID <= MAX_STREAM_ID && f.kind == OPEN ==> StreamRoom(s) || CloseRoom(Declining(s, f.streamID), f.streamID)
  }

  /** Looked up before each frame. */
  predicate BatchFits(a: Applied, frames: seq<Frame>)
    decreases |frames|
  {
    frames != [] ==> FrameFits(a.s, frames[0]) && BatchFits(ApplyFrame(a, frames[0]), frames[1..])
  }

  lemma {:induction false} CloseIsAppended(l: Lane, id: StreamID)
    ensures PlanFrame(l, CLOSE, id, []).AppendNew?
  {}

  lemma {:induction false} CloseQueued(s: Session, id: StreamID)
    ensures QueueFrame(s, CLOSE, id, []).1 <==> CloseRoom(s, id)
  {
    hide LaneOK, PlanFrame, Enqueued, ControlReserve, UplinkReserve;
    if LaneID(s, id) in s.lanes {
      CloseIsAppended(s.lanes[LaneID(s, id)].down, id);
    }
  }

  lemma {:induction false} FrameApplied(a: Applied, f: Frame)
    requires a.ok
    ensures ApplyFrame(a, f).ok <==> FrameFits(a.s, f)
  {
    hide RememberClosed, QueueFrame, ApplyClose, AppendWrite, CloseRoom;
    if 0 < f.streamID <= MAX_STREAM_ID && f.kind == OPEN {
      CloseQueued(Declining(a.s, f.streamID), f.streamID);
    }
  }

  /** A batch is applied whole exactly when every refused OPEN finds room for its CLOSE. */
  lemma {:induction false} WholeExactly(a: Applied, frames: seq<Frame>)
    requires a.ok
    ensures ApplyBatch(a, frames).ok <==> BatchFits(a, frames)
    decreases |frames|
  {
    hide ApplyFrame, FrameFits;
    if frames != [] {
      FrameApplied(a, frames[0]);
      if ApplyFrame(a, frames[0]).ok {
        WholeExactly(ApplyFrame(a, frames[0]), frames[1..]);
      }
    }
  }

  // ---------------------------------------------------------------- one section

  /** The session after the claim of a request has been dropped. */
  function Unclaimed(s: Session, laneID: nat): Session
    requires laneID in s.lanes
  {
    SetLane(s, laneID, s.lanes[laneID].(upActive := None))
  }

  function FramesIn(s: Session, laneID: nat): seq<Frame>
    requires laneID in s.lanes && s.lanes[laneID].upActive.Some?
  {
    match ParseUplink(s.lanes[laneID].upActive.value.body, laneID, UsesLanes(s.carrier)) case Ok(fs) => fs case Err(_) => []
  }

  /** What the second section of processUp starts to apply from, once the batch is legal and paid for. */
  function Paid(s: Session, laneID: nat): (r: (Applied, bool))
    requires laneID in s.lanes && s.lanes[laneID].upActive.Some?
    ensures r.0.ok && r.0.unusedCost >= 0 && r.0.unusedItems >= 0
  {
    var charge := Advance(s.streams.Keys, FramesIn(s, laneID));
    var (u, granted) := ReservePending(Unclaimed(s, laneID), charge.0, charge.1, Uplink);
    (Applied(u, charge.0, charge.1, true), granted)
  }

  /** The section gets as far as applying the batch of lane object `serial`. */
  predicate Applies(s: Session, laneID: nat, serial: nat) {
    && laneID in s.lanes && s.lanes[laneID].serial == serial && s.lanes[laneID].upActive.Some? && !s.closed
    && ParseUplink(s.lanes[laneID].upActive.value.body, laneID, UsesLanes(s.carrier)).Ok?
    && ValidBatch(Unclaimed(s, laneID), FramesIn(s, laneID))
    && Paid(s, laneID).1
  }

  /** Acknowledged exactly when the batch fits; otherwise the caller is left to close the session. */
  lemma {:induction false} SectionWhole(s: Session, laneID: nat, serial: nat, expected: Option<nat>)
    requires Applies(s, laneID, serial)
    ensures var (t, r) := UpEnd(s, laneID, serial, expected);
            var (job, frames) := (s.lanes[laneID].upActive.value, FramesIn(s, laneID));
            var fits := BatchFits(Paid(s, laneID).0, frames);
            && r == (if fits then Acknowledged(job.sequence) else UpUnfinished)
            && (laneID in t.lanes ==>
                  t.lanes[laneID].upTried ==
                  s.lanes[laneID].upTried + [Attempt(job, frames[..Taken(Paid(s, laneID).0, frames)], fits)])
  {
    hide ParseUplink, ReservePending, ApplyBatch, BatchFits, Taken, Advance, CheckBatch, LaneOK, FailLane;
    var a := Paid(s, laneID).0;
    var frames := FramesIn(s, laneID);
    WholeExactly(a, frames);
    ApplyBatchUplinks(a, frames);
    ReservePendingFrame(Unclaimed(s, laneID), a.unusedCost, a.unusedItems, Uplink);
  }

  // ---------------------------------------------------------------- every run

  /** Lane objects keep their history, new ones have none. */
  predicate SameTried(s: Session, t: Session) {
    && s.nextSerial <= t.nextSerial
    && forall id | id in t.lanes ::
         if t.lanes[id].serial < s.nextSerial then
           id in s.lanes && s.lanes[id].serial == t.lanes[id].serial && s.lanes[id].upTried == t.lanes[id].upTried
         else t.lanes[id].upTried == []
  }

  predicate Serials(s: Session) {
    forall id | id in s.lanes :: s.lanes[id].serial < s.nextSerial
  }

  lemma {:induction false} UplinksTried(s: Session, t: Session)
    requires SameUplinks(s, t) && Serials(s)
    ensures SameTried(s, t)
  {}

  lemma {:induction false} TriedTwice(s: Session, t: Session, u: Session)
    requires SameTried(s, t) && SameTried(t, u)
    ensures SameTried(s, u)
  {}

  lemma {:induction false} AttachTried(s: Session, laneID: nat)
    requires Serials(s)
    ensures SameTried(s, Attach(s, laneID)) && Serials(Attach(s, laneID))
  {
    hide LaneOK;
  }

  lemma {:induction false} FailTried(s: Session, laneID: nat, expected: Option<nat>)
    requires Serials(s)
    ensures SameTried(s, FailLane(s, laneID, expected))
  {
    hide FailLane, SameUplinks, SameTried;
    FailLaneUplinks(s, laneID, expected);
    UplinksTried(s, FailLane(s, laneID, expected));
  }

  lemma {:induction false} ClaimTried(s: Session, laneID: nat, sequence: nat, body: bytes, expected: Option<nat>)
    requires Serials(s) && laneID in s.lanes
    ensures SameTried(s, UpClaim(s, laneID, sequence, body, expected).0)
  {
    hide FailLane, LaneOK;
    FailTried(s, laneID, expected);
  }

  lemma {:induction false} UpBeginTried(s: Session, laneID: nat, sequence: nat, body: bytes, expected: Option<nat>)
    requires Serials(s)
    ensures SameTried(s, UpBegin(s, laneID, sequence, body, expected).0)
  {
    AttachTried(s, laneID);
    var t := Attach(s, laneID);
    assert laneID in t.lanes;
    hide FailLane, ParseUplink, OnlyLateFrames, StartsWithOpen, LaneOK, SameTried, UpClaim, Serials, Attach;
    TriedSelf(s);
    FailTried(s, laneID, expected);
    ClaimTried(t, laneID, sequence, body, expected);
    TriedTwice(s, t, UpClaim(t, laneID, sequence, body, expected).0);
  }

  /** A second section that does not get as far as applying leaves all histories alone. */
  lemma {:induction false} UpEndTried(s: Session, laneID: nat, serial: nat, expected: Option<nat>)
    requires Serials(s) && !Applies(s, laneID, serial)
    ensures SameTried(s, UpEnd(s, laneID, serial, expected).0)
  {
    hide FailLane, ParseUplink, ReservePending, CommitBatch, Advance, CheckBatch, LaneOK, SameUplinks;
    if laneID in s.lanes && s.lanes[laneID].upActive.Some? {
      var t := Unclaimed(s, laneID);
      FailLaneUplinks(t, laneID, expected);
      UplinksTried(t, FailLane(t, laneID, expected));
      var charge := Advance(t.streams.Keys, FramesIn(s, laneID));
      ReservePendingFrame(t, charge.0, charge.1, Uplink);
    }
  }

  lemma {:induction false} EndsInCommit(s: Session, laneID: nat, serial: nat, expected: Option<nat>)
    requires Applies(s, laneID, serial)
    ensures var a := Paid(s, laneID).0;
            && laneID in a.s.lanes && a.s.nextSerial == s.nextSerial && a.s.lanes == Unclaimed(s, laneID).lanes
            && UpEnd(s, laneID, serial, expected) ==
               CommitBatch(a.s, laneID, s.lanes[laneID].upActive.value, FramesIn(s, laneID), a.unusedCost, a.unusedItems)
  {
    hide ParseUplink, ReservePending, CommitBatch, Advance, CheckBatch, LaneOK, FailLane;
    var a := Paid(s, laneID).0;
    ReservePendingFrame(Unclaimed(s, laneID), a.unusedCost, a.unusedItems, Uplink);
  }

  lemma {:induction false} CommitLanes(s: Session, laneID: nat, job: UpJob, frames: seq<Frame>, cost: nat, items: nat, id: nat)
    requires laneID in s.lanes && id in CommitBatch(s, laneID, job, frames, cost, items).0.lanes
    ensures var t := CommitBatch(s, laneID, job, frames, cost, items).0;
            && t.nextSerial == s.nextSerial && id in s.lanes && s.lanes[id].serial == t.lanes[id].serial
            && (id != laneID ==> t.lanes[id].upTried == s.lanes[id].upTried)
  {
    hide ApplyBatch, Taken, LaneOK;
    ApplyBatchUplinks(Applied(s, cost, items, true), frames);
  }

  /** One that does adds an attempt to its own lane's history only. */
  lemma {:induction false} CommitTried(s: Session, laneID: nat, serial: nat, expected: Option<nat>, id: nat)
    requires Serials(s) && Applies(s, laneID, serial) && id in UpEnd(s, laneID, serial, expected).0.lanes
    ensures var t := UpEnd(s, laneID, serial, expected).0;
            && t.nextSerial == s.nextSerial && id in s.lanes && s.lanes[id].serial == t.lanes[id].serial
            && (id != laneID ==> t.lanes[id].upTried == s.lanes[id].upTried)
  {
    hide CommitBatch, UpEnd, Paid, FramesIn, LaneOK;
    EndsInCommit(s, laneID, serial, expected);
    var a := Paid(s, laneID).0;
    CommitLanes(a.s, laneID, s.lanes[laneID].upActive.value, FramesIn(s, laneID), a.unusedCost, a.unusedItems, id);
  }

  lemma {:induction false} AcquireTried(s: Session, laneID: nat)
    requires Serials(s)
    ensures SameTried(s, AcquireLane(s, laneID))
  {
    hide LaneOK;
  }

  lemma {:induction false} TriedSelf(s: Session)
    requires Serials(s)
    ensures SameTried(s, s)
  {}

  /** The step lets lane object `serial` at `laneID` apply a batch. */
  predicate Batch(s: Session, op: Op, laneID: nat, serial: nat) {
    op.UpFinish? && LaneID(s, op.laneID) == laneID && op.serial == serial && Applies(s, laneID, serial)
  }

  lemma {:induction false} StepTried(s: Session, op: Op)
    requires Serials(s) && !(op.UpFinish? && Applies(s, LaneID(s, op.laneID), op.serial))
    ensures SameTried(s, Step(s, op))
  {
    hide UpBegin, UpEnd, FailLane, NextWrite, BackendDrained, BackendWriteFinished, BackendData, BackendClosed,
         PollServe, ReserveInput, ResizeInput, ReleaseInput, AcquireLane, ReleaseWebSocketLane, Close, SameTried, SameUplinks,
         Applies, Serials;
    var t := Step(s, op);
    TriedSelf(s);
    match op
    case UpStart(laneID, sequence, body, expected) => UpBeginTried(s, LaneID(s, laneID), sequence, body, expected);
    case UpFinish(laneID, serial, expected) => UpEndTried(s, LaneID(s, laneID), serial, expected);
    case Fail(laneID, expected) => FailLaneUplinks(s, LaneID(s, laneID), expected); UplinksTried(s, t);
    case TakeWrite(id) => BackendUplinks(s, id, 0, []); UplinksTried(s, t);
    case Drained(id, amount) => BackendUplinks(s, id, amount, []); UplinksTried(s, t);
    case WriteDone(id) => BackendUplinks(s, id, 0, []); UplinksTried(s, t);
    case FromBackend(id, data) =>
      if |data| <= RELAY_DATA_CHUNK {
        BackendUplinks(s, id, 0, data);
        UplinksTried(s, t);
      }
    case BackendEnded(id) => BackendClosedUplinks(s, id); UplinksTried(s, t);
    case Poll(laneID, serial, cursor, expected) =>
      PollServeUplinks(s, LaneID(s, laneID), serial, cursor, expected); UplinksTried(s, t);
    case ReserveIn(handle, size) => InputUplinks(s, handle, size); UplinksTried(s, t);
    case ResizeIn(handle, size) => InputUplinks(s, handle, size); UplinksTried(s, t);
    case ReleaseIn(handle) => InputUplinks(s, handle, 0); UplinksTried(s, t);
    case AttachLane(laneID) => AcquireTried(s, laneID);
    case DetachLane(laneID, expected) => ReleaseLaneUplinks(s, laneID, expected); UplinksTried(s, t);
    case CloseNow => Closes(s); UplinksTried(s, t);
  }

  predicate AllWhole(tried: seq<Attempt>) {
    forall i | 0 <= i < |tried| :: tried[i].whole
  }

  predicate StepFits(s: Session, op: Op, laneID: nat, serial: nat) {
    Batch(s, op, laneID, serial) ==> BatchFits(Paid(s, laneID).0, FramesIn(s, laneID))
  }

  /** Every batch that the lane object applies on this run fits. */
  predicate AlwaysFits(s: Session, ops: seq<Op>, laneID: nat, serial: nat)
    decreases |ops|
  {
    ops != [] ==> StepFits(s, ops[0], laneID, serial) && AlwaysFits(Step(s, ops[0]), ops[1..], laneID, serial)
  }

  /** The lane object, if it is there. */
  predicate Here(s: Session, laneID: nat, serial: nat) {
    laneID in s.lanes && s.lanes[laneID].serial == serial
  }

  lemma {:induction false} OneStepTried(s: Session, op: Op, laneID: nat, serial: nat)
    requires Serials(s) && Here(Step(s, op), laneID, serial)
    ensures var t := Step(s, op);
            var after := t.lanes[laneID].upTried;
            if serial < s.nextSerial then
              && Here(s, laneID, serial)
              && var before := s.lanes[laneID].upTried;
                 (AllWhole(after) <==> AllWhole(before) && StepFits(s, op, laneID, serial))
            else after == [] && StepFits(s, op, laneID, serial)
  {
    hide UpEnd, Applies, BatchFits, Taken, Paid, FramesIn, AllWhole;
    if op.UpFinish? && Applies(s, LaneID(s, op.laneID), op.serial) {
      var at := LaneID(s, op.laneID);
      ApplyingLane(s, at, op.serial);
      SectionWhole(s, at, op.serial, op.expected);
      CommitTried(s, at, op.serial, op.expected, laneID);
      if at == laneID {
        OneMore(s.lanes[laneID].upTried, Step(s, op).lanes[laneID].upTried);
      }
    } else {
      hide Step;
      StepTried(s, op);
    }
  }

  lemma {:induction false} ApplyingLane(s: Session, laneID: nat, serial: nat)
    requires Applies(s, laneID, serial)
    ensures laneID in s.lanes && s.lanes[laneID].serial == serial && s.lanes[laneID].upActive.Some?
  {}

  lemma {:induction false} OneMore(before: seq<Attempt>, after: seq<Attempt>)
    requires |after| == |before| + 1 && after[..|before|] == before
    ensures AllWhole(after) <==> AllWhole(before) && after[|before|].whole
  {
    assert forall i | 0 <= i < |before| :: after[i] == before[i];
  }

  lemma {:induction false} SerialsKept(s: Session, op: Op)
    requires LanesSound(s)
    ensures Serials(s) && LanesSound(Step(s, op)) && s.nextSerial <= Step(s, op).nextSerial
  {
    hide Step, UplinkSound;
    StepSound(s, op);
  }

  lemma {:induction false} RunWhole(s: Session, ops: seq<Op>, laneID: nat, serial: nat)
    requires LanesSound(s) && Here(Run(s, ops), laneID, serial)
    ensures serial < s.nextSerial ==> Here(s, laneID, serial)
    ensures AllWhole(Run(s, ops).lanes[laneID].upTried) <==>
            (serial < s.nextSerial ==> AllWhole(s.lanes[laneID].upTried)) && AlwaysFits(s, ops, laneID, serial)
    decreases |ops|
  {
    hide LanesSound, Step, StepFits, AllWhole;
    SerialsKept(s, if ops == [] then CloseNow else ops[0]);
    if ops == [] {
      NotYet(s, laneID, serial);
    } else {
      var next := Step(s, ops[0]);
      RunWhole(next, ops[1..], laneID, serial);
      if serial < next.nextSerial {
        OneStepTried(s, ops[0], laneID, serial);
        NothingIsWhole();
      } else {
        NoBatchYet(s, ops[0], laneID, serial);
      }
    }
  }

  lemma {:induction false} NotYet(s: Session, laneID: nat, serial: nat)
    requires Serials(s) && Here(s, laneID, serial)
    ensures serial < s.nextSerial
  {}

  lemma {:induction false} NothingIsWhole()
    ensures AllWhole([])
  {}

  lemma {:induction false} NoBatchYet(s: Session, op: Op, laneID: nat, serial: nat)
    requires Serials(s) && s.nextSerial <= serial
    ensures StepFits(s, op, laneID, serial)
  {}

  /**
   * On every run of every session: all batches of a lane object were applied whole exactly when each of them, looked at
   * frame by frame before it was applied, had room for the CLOSE of every OPEN it had refused; and then what was applied
   * is exactly the acknowledged batches, each sequence number once, in order.
   */
  lemma {:induction false} WholeOnEveryRun(l: Limits, c: Carrier, env: nat -> bool, ops: seq<Op>, laneID: nat)
    requires laneID in Reached(l, c, env, ops).lanes
    ensures var lane := Reached(l, c, env, ops).lanes[laneID];
            && (AllWhole(lane.upTried) <==> AlwaysFits(NewSession(l, c, env), ops, laneID, lane.serial))
            && (AllWhole(lane.upTried) ==>
                  && lane.upFrames == FramesOf(lane.upBodies)
                  && forall i, j | 0 <= i < j < |lane.upTried| :: lane.upTried[i].job.sequence != lane.upTried[j].job.sequence)
  {
    var start := NewSession(l, c, env);
    var lane := Reached(l, c, env, ops).lanes[laneID];
    StartLanesSound(l, c, env);
    StartHasNoHistory(l, c, env, laneID);
    RunFollows(start, ops);
    assert UplinkSound(lane);
    hide Bodies, Carried, FramesOf, Honest, Run, NewSession, LanesSound;
    RunWhole(start, ops, laneID, lane.serial);
    OnceExactly(lane);
    if AllWhole(lane.upTried) {
      WholeIsAcknowledged(lane.upTried);
    }
  }

  lemma {:induction false} StartHasNoHistory(l: Limits, c: Carrier, env: nat -> bool, laneID: nat)
    ensures var s := NewSession(l, c, env); laneID in s.lanes ==> AllWhole(s.lanes[laneID].upTried)
  {}
}
