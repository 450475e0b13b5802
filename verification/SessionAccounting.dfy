/** Budget conservation and uplink atomicity of the session engine. */
module SessionAccounting {
  import opened Bytes
  import opened FrameCodec
  import opened DownlinkLane
  import opened Limits
  import opened PendingBudget
  import opened Sums
  import opened SessionCore

  function StreamCost(t: Stream): nat { t.pendingWriteCost }
  function StreamItems(t: Stream): nat { t.pendingWriteItems }
  function LaneCost(l: CarrierLane): nat { l.down.unackedCost + CostOf(l.down.pending) }
  function LaneItems(l: CarrierLane): nat { l.down.unackedItems + |l.down.pending| }
  function InputCost(c: nat): nat { c }
  function One(c: nat): nat { 1 }

  /** What is charged: backend writes, queued and unacknowledged downlink frames, WebSocket inputs. */
  ghost function HeldCost(s: Session): nat {
    Sum(s.streams, StreamCost) + Sum(s.lanes, LaneCost) + Sum(s.inputs, InputCost)
  }

  ghost function HeldItems(s: Session): nat {
    Sum(s.streams, StreamItems) + Sum(s.lanes, LaneItems) + Sum(s.inputs, One)
  }

  /** Conservation with `cost` and `items` reserved ahead inside a critical section. */
  ghost predicate Holds(s: Session, cost: int, items: int) {
    && cost >= 0 && items >= 0
    && !s.broken && !s.ledger.panicked && !s.closed
    && s.ledger.cost == HeldCost(s) + cost
    && s.ledger.items == HeldItems(s) + items
  }

  /** Between critical sections nothing is reserved ahead; a closed session holds nothing. */
  ghost predicate Conserved(s: Session) {
    && !s.broken && !s.ledger.panicked
    && (if s.closed then s.ledger == EMPTY_LEDGER && s.streams == map[] && s.lanes == map[]
        else Holds(s, 0, 0))
  }

  /** A stream identifier opens at most once and stays remembered. */
  ghost predicate Identities(s: Session) {
    && s.streams.Keys <= s.used
    && (forall id | id in s.tombstones.order :: id in s.used && id !in s.streams)
    && (forall i | 0 <= i < |s.openLog| :: s.openLog[i] in s.used)
    && (forall i, j | 0 <= i < j < |s.openLog| :: s.openLog[i] != s.openLog[j])
    && (forall id | id in s.used :: 0 < id <= MAX_STREAM_ID)
  }

  // ---------------------------------------------------------------- the parts of a critical section

  lemma {:induction false} ReserveHolds(s: Session, a: int, b: int, cost: nat, items: nat, class_: PendingClass)
    requires Holds(s, a, b)
    ensures var (t, ok) := ReservePending(s, cost, items, class_);
            && Holds(t, if ok then a + cost else a, if ok then b + items else b)
            && t == s.(asked := t.asked, ledger := t.ledger)
  {}

  lemma {:induction false} ReleaseHolds(s: Session, a: int, b: int, cost: int, items: int)
    requires Holds(s, a, b) && 0 <= cost <= a && 0 <= items <= b
    ensures Holds(ReleasePending(s, cost, items), a - cost, b - items)
    ensures ReleasePending(s, cost, items) == s.(ledger := ReleasePending(s, cost, items).ledger)
  {}

  /** Replacing one lane's queue moves the conserved balance by the difference of the two queues. */
  lemma {:induction false} SetLaneHolds(s: Session, a: int, b: int, laneID: nat, lane: CarrierLane)
    requires laneID in s.lanes
    requires var c := a + LaneCost(s.lanes[laneID]) - LaneCost(lane);
             var i := b + LaneItems(s.lanes[laneID]) - LaneItems(lane);
             c >= 0 && i >= 0
    requires Holds(s, a, b)
    ensures Holds(SetLane(s, laneID, lane), a + LaneCost(s.lanes[laneID]) - LaneCost(lane),
                  b + LaneItems(s.lanes[laneID]) - LaneItems(lane))
  {
    SumSet(s.lanes, laneID, lane, LaneCost);
    SumSet(s.lanes, laneID, lane, LaneItems);
  }

  lemma {:induction false} AddLaneHolds(s: Session, a: int, b: int, laneID: nat)
    requires Holds(s, a, b)
    ensures Holds(Attach(s, laneID), a, b)
  {
    SumSet(s.lanes, laneID, NewLane(s.nextSerial), LaneCost);
    SumSet(s.lanes, laneID, NewLane(s.nextSerial), LaneItems);
  }

  lemma {:induction false} SetStreamHolds(s: Session, a: int, b: int, id: StreamID, state: Stream)
    requires Holds(s, a, b)
    requires var old_ := if id in s.streams then s.streams[id] else NEW_STREAM;
             var c := a + StreamCost(old_) - StreamCost(state);
             var i := b + StreamItems(old_) - StreamItems(state);
             c >= 0 && i >= 0
    ensures var old_ := if id in s.streams then s.streams[id] else NEW_STREAM;
            Holds(s.(streams := s.streams[id := state]), a + StreamCost(old_) - StreamCost(state),
                  b + StreamItems(old_) - StreamItems(state))
  {
    SumSet(s.streams, id, state, StreamCost);
    SumSet(s.streams, id, state, StreamItems);
  }

  lemma {:induction false} QueueFrameHolds(s: Session, a: int, b: int, kind: byte, id: StreamID, payload: bytes)
    requires Holds(s, a, b) && Queueable(kind, id, payload)
    ensures var t := QueueFrame(s, kind, id, payload).0;
            Holds(t, a, b) && t == s.(lanes := t.lanes, asked := t.asked, ledger := t.ledger) && t.lanes.Keys == s.lanes.Keys
  {
    hide PlanFrame, SessionAdmits, LaneOK, Queueable;
    var laneID := LaneID(s, id);
    if laneID in s.lanes {
      var down := s.lanes[laneID].down;
      var plan := PlanFrame(down, kind, id, payload);
      var class_ := if kind == DATA then Downlink else Control;
      ReserveHolds(s, a, b, PlanCost(plan, payload), PlanItems(plan), class_);
      var (t, ok) := ReservePending(s, PlanCost(plan, payload), PlanItems(plan), class_);
      if ok {
        var lane := t.lanes[laneID].(down := Enqueued(down, kind, id, payload));
        SetLaneHolds(t, a + PlanCost(plan, payload), b + PlanItems(plan), laneID, lane);
      }
    }
  }

  lemma {:induction false} DropFramesHolds(s: Session, a: int, b: int, id: StreamID)
    requires Holds(s, a, b)
    ensures var t := DropFrames(s, id);
            Holds(t, a, b) && t == s.(lanes := t.lanes, ledger := t.ledger) && t.lanes.Keys == s.lanes.Keys
  {
    var laneID := LaneID(s, id);
    if laneID in s.lanes {
      var down := s.lanes[laneID].down;
      var lane := s.lanes[laneID].(down := Dropped(down, id));
      SetLaneHolds(s, a, b, laneID, lane);
      ReleaseHolds(SetLane(s, laneID, lane), a + CostFor(down.pending, id), b + ItemsFor(down.pending, id),
                   CostFor(down.pending, id), ItemsFor(down.pending, id));
    }
  }

  lemma {:induction false} ReleaseLaneHolds(s: Session, a: int, b: int, laneID: nat)
    requires Holds(s, a, b)
    ensures var t := ReleaseLane(s, laneID);
            Holds(t, a, b) && t == s.(lanes := t.lanes, ledger := t.ledger)
            && t.lanes.Keys == (if laneID == 0 then s.lanes.Keys else s.lanes.Keys - {laneID})
  {
    hide LaneOK;
    if laneID != 0 && laneID in s.lanes {
      SumDrop(s.lanes, laneID, LaneCost);
      SumDrop(s.lanes, laneID, LaneItems);
      var u := s.(lanes := s.lanes - {laneID});
      ReleaseHolds(u, a + LaneCost(s.lanes[laneID]), b + LaneItems(s.lanes[laneID]),
                   LaneCost(s.lanes[laneID]), LaneItems(s.lanes[laneID]));
    }
  }

  lemma {:induction false} RememberClosedHolds(s: Session, a: int, b: int, id: nat)
    requires Holds(s, a, b)
    ensures var t := RememberClosed(s, id);
            Holds(t, a, b) && t == s.(tombstones := Remember(s.tombstones, id).0, lanes := t.lanes, ledger := t.ledger)
            && t.lanes.Keys <= s.lanes.Keys
  {
    var (t, evicted) := Remember(s.tombstones, id);
    if UsesLanes(s.carrier) && evicted.Some? {
      ReleaseLaneHolds(s.(tombstones := t), a, b, evicted.value);
    }
  }

  lemma {:induction false} DeleteStreamHolds(s: Session, a: int, b: int, id: StreamID)
    requires Holds(s, a, b) && id in s.streams
    ensures var t := DeleteStream(s, id);
            Holds(t, a, b) && t == s.(streams := s.streams - {id}, ledger := t.ledger)
  {
    SumDrop(s.streams, id, StreamCost);
    SumDrop(s.streams, id, StreamItems);
    var u := s.(streams := s.streams - {id});
    var state := s.streams[id];
    ReleaseHolds(u, a + state.pendingWriteCost, b + state.pendingWriteItems, state.pendingWriteCost, state.pendingWriteItems);
  }

  lemma {:induction false} CloseConserves(s: Session)
    requires !s.broken && !s.ledger.panicked && (s.closed ==> Conserved(s))
    ensures Conserved(Close(s))
  {}

  // ---------------------------------------------------------------- applying a batch

  lemma {:induction false} RefusedHolds(s: Session, a: int, b: int, id: StreamID)
    requires Holds(s, a, b)
    ensures var t := Refused(s, id).0;
            Holds(t, a, b) && t.used == s.used && t.streams == s.streams && t.carrier == s.carrier
  {
    hide QueueFrame, LaneOK;
    RememberClosedHolds(s, a, b, id);
    QueueFrameHolds(RememberClosed(s, id), a, b, CLOSE, id, []);
  }

  lemma {:induction false} OpenedHolds(s: Session, a: int, b: int, id: StreamID)
    requires Holds(s, a, b) && id !in s.streams
    ensures Holds(Opened(s, id), a, b)
  {
    SetStreamHolds(s.(openLog := s.openLog + [id]), a, b, id, NEW_STREAM);
  }

  lemma {:induction false} ApplyOpenHolds(s: Session, a: int, b: int, id: StreamID)
    requires Holds(s, a, b) && id !in s.streams
    ensures var t := ApplyOpen(s, id).0;
            && Holds(t, a, b)
            && t.used == s.used + {id} && t.carrier == s.carrier
            && (t.streams == s.streams || t.streams == s.streams[id := NEW_STREAM])
  {
    var (t, granted) := AcquireStream(s.(used := s.used + {id}));
    assert Holds(t, a, b);
    if granted {
      OpenedHolds(t, a, b, id);
    } else {
      RefusedHolds(t, a, b, id);
    }
  }

  lemma {:induction false} ApplyCloseHolds(s: Session, a: int, b: int, id: StreamID)
    requires Holds(s, a, b) && id in s.streams
    ensures var t := ApplyClose(s, id);
            Holds(t, a, b) && t.used == s.used && t.streams == s.streams - {id} && t.carrier == s.carrier
  {
    DropFramesHolds(s, a, b, id);
    DeleteStreamHolds(DropFrames(s, id), a, b, id);
    RememberClosedHolds(DeleteStream(DropFrames(s, id), id), a, b, id);
  }

  /** The simulated state the validator keeps agrees with the state the batch is being applied to. */
  ghost predicate Agrees(used: set<nat>, c: Check, s: Session) {
    && s.used == used + c.usedInBatch
    && s.streams.Keys <= c.live.Keys <= s.used
    && forall id | id in s.streams :: c.live[id] == Window(s.streams[id].receiveWindow, s.streams[id].sendCredit)
  }

  ghost predicate ApplyInvariant(used: set<nat>, c: Check, a: Applied, rest: seq<Frame>) {
    && Agrees(used, c, a.s)
    && Holds(a.s, a.unusedCost, a.unusedItems)
    && Advance(c.live.Keys, rest).0 <= a.unusedCost
    && Advance(c.live.Keys, rest).1 <= a.unusedItems
  }

  lemma {:induction false} AdvanceStep(live: set<nat>, frames: seq<Frame>)
    requires frames != []
    ensures var f := frames[0];
            var (cost, items) := Advance(live, frames);
            var rest := frames[1..];
            && (f.streamID != 0 && f.kind == OPEN ==> (cost, items) == Advance(live + {f.streamID}, rest))
            && (f.streamID != 0 && f.kind == DATA && f.streamID in live ==>
                (cost, items) == (Advance(live, rest).0 + |f.payload| + QUEUE_ITEM_COST, Advance(live, rest).1 + 1))
            && (f.streamID != 0 && f.kind == CLOSE ==> (cost, items) == Advance(live - {f.streamID}, rest))
            && (f.streamID == 0 || f.kind == WINDOW || (f.kind == DATA && f.streamID !in live) ==>
                (cost, items) == Advance(live, rest))
  {}

  lemma {:induction false} CheckedOpen(used: set<nat>, c: Check, f: Frame)
    requires f.kind == OPEN && f.streamID != 0 && CheckFrame(used, c, f).Some?
    ensures f.streamID !in c.live && f.streamID !in c.usedInBatch && f.streamID !in used
    ensures CheckFrame(used, c, f).value ==
            Check(c.live[f.streamID := Window(INITIAL_STREAM_WINDOW, INITIAL_STREAM_WINDOW)], c.usedInBatch + {f.streamID})
    ensures CheckFrame(used, c, f).value.live.Keys == c.live.Keys + {f.streamID}
  {}

  lemma {:induction false} OpenStep(used: set<nat>, c: Check, a: Applied, frames: seq<Frame>)
    requires frames != [] && frames[0].kind == OPEN && 0 < frames[0].streamID <= MAX_STREAM_ID
    requires ApplyInvariant(used, c, a, frames) && CheckFrame(used, c, frames[0]).Some?
    ensures ApplyInvariant(used, CheckFrame(used, c, frames[0]).value, ApplyFrame(a, frames[0]), frames[1..])
  {
    var id := frames[0].streamID;
    CheckedOpen(used, c, frames[0]);
    ApplyOpenHolds(a.s, a.unusedCost, a.unusedItems, id);
    AdvanceStep(c.live.Keys, frames);
    OpenAgrees(used, c, a.s, ApplyOpen(a.s, id).0, id);
  }

  lemma {:induction false} OpenAgrees(used: set<nat>, c: Check, s: Session, t: Session, id: StreamID)
    requires Agrees(used, c, s) && id !in c.live
    requires t.used == s.used + {id}
    requires t.streams == s.streams || t.streams == s.streams[id := NEW_STREAM]
    ensures Agrees(used, Check(c.live[id := Window(INITIAL_STREAM_WINDOW, INITIAL_STREAM_WINDOW)], c.usedInBatch + {id}), t)
  {}

  lemma {:induction false} AppendWriteHolds(s: Session, a: int, b: int, id: StreamID, payload: bytes)
    requires Holds(s, a, b) && id in s.streams
    requires WriteCost(s.streams[id], payload) <= a && WriteItems(s.streams[id], payload) <= b
    ensures Holds(s.(streams := s.streams[id := AppendWrite(s.streams[id], payload)]),
                  a - WriteCost(s.streams[id], payload), b - WriteItems(s.streams[id], payload))
  {
    SetStreamHolds(s, a, b, id, AppendWrite(s.streams[id], payload));
  }

  lemma {:induction false} DataStep(used: set<nat>, c: Check, a: Applied, frames: seq<Frame>)
    requires frames != [] && frames[0].kind == DATA && 0 < frames[0].streamID <= MAX_STREAM_ID
    requires ApplyInvariant(used, c, a, frames) && CheckFrame(used, c, frames[0]).Some?
    ensures ApplyInvariant(used, CheckFrame(used, c, frames[0]).value, ApplyFrame(a, frames[0]), frames[1..])
  {
    var f := frames[0];
    AdvanceStep(c.live.Keys, frames);
    if f.streamID in c.live {
      assert CheckFrame(used, c, f).value.live.Keys == c.live.Keys;
    }
    if f.streamID in a.s.streams {
      AppendWriteHolds(a.s, a.unusedCost, a.unusedItems, f.streamID, f.payload);
      DataAgrees(used, c, a.s, f);
    }
  }

  lemma {:induction false} DataAgrees(used: set<nat>, c: Check, s: Session, f: Frame)
    requires Agrees(used, c, s) && f.streamID in s.streams && f.kind == DATA && f.streamID != 0
    requires CheckFrame(used, c, f).Some?
    ensures |f.payload| <= s.streams[f.streamID].receiveWindow
    ensures Agrees(used, CheckFrame(used, c, f).value,
                   s.(streams := s.streams[f.streamID := AppendWrite(s.streams[f.streamID], f.payload)]))
  {}

  lemma {:induction false} WindowStep(used: set<nat>, c: Check, a: Applied, frames: seq<Frame>)
    requires frames != [] && frames[0].kind == WINDOW && 0 < frames[0].streamID <= MAX_STREAM_ID
    requires ApplyInvariant(used, c, a, frames) && CheckFrame(used, c, frames[0]).Some?
    ensures ApplyInvariant(used, CheckFrame(used, c, frames[0]).value, ApplyFrame(a, frames[0]), frames[1..])
  {
    var f := frames[0];
    AdvanceStep(c.live.Keys, frames);
    if f.streamID in c.live {
      assert CheckFrame(used, c, f).value.live.Keys == c.live.Keys;
    }
    if f.streamID in a.s.streams {
      SetStreamHolds(a.s, a.unusedCost, a.unusedItems, f.streamID, ApplyFrame(a, f).s.streams[f.streamID]);
    }
  }

  lemma {:induction false} CloseStep(used: set<nat>, c: Check, a: Applied, frames: seq<Frame>)
    requires frames != [] && frames[0].kind == CLOSE && 0 < frames[0].streamID <= MAX_STREAM_ID
    requires ApplyInvariant(used, c, a, frames) && CheckFrame(used, c, frames[0]).Some?
    ensures ApplyInvariant(used, CheckFrame(used, c, frames[0]).value, ApplyFrame(a, frames[0]), frames[1..])
  {
    var f := frames[0];
    AdvanceStep(c.live.Keys, frames);
    if f.streamID in c.live {
      assert CheckFrame(used, c, f).value.live.Keys == c.live.Keys - {f.streamID};
    } else {
      assert c.live.Keys - {f.streamID} == c.live.Keys;
    }
    if f.streamID in a.s.streams {
      ApplyCloseHolds(a.s, a.unusedCost, a.unusedItems, f.streamID);
    }
  }

  /**
   * Uplink atomicity: a validated batch is applied without a missing stream, a window underflow or an
   * overdrawn reservation, whatever OPENs the limits or the manager refuse on the way.
   */
  lemma {:induction false} ValidatedBatchApplies(used: set<nat>, c: Check, a: Applied, frames: seq<Frame>)
    requires ApplyInvariant(used, c, a, frames)
    requires CheckBatch(used, c, frames).Some?
    requires forall i | 0 <= i < |frames| :: frames[i].streamID <= MAX_STREAM_ID
    ensures var r := ApplyBatch(a, frames);
            Holds(r.s, r.unusedCost, r.unusedItems)
    decreases |frames|
  {
    if frames != [] && a.ok {
      FrameApplies(used, c, a, frames);
      ValidatedBatchApplies(used, CheckFrame(used, c, frames[0]).value, ApplyFrame(a, frames[0]), frames[1..]);
    }
  }

  lemma {:induction false} FrameApplies(used: set<nat>, c: Check, a: Applied, frames: seq<Frame>)
    requires frames != [] && frames[0].streamID <= MAX_STREAM_ID
    requires ApplyInvariant(used, c, a, frames) && CheckFrame(used, c, frames[0]).Some?
    ensures ApplyInvariant(used, CheckFrame(used, c, frames[0]).value, ApplyFrame(a, frames[0]), frames[1..])
  {
    var f := frames[0];
    if f.streamID == 0 {
      AdvanceStep(c.live.Keys, frames);
    } else if f.kind == OPEN {
      OpenStep(used, c, a, frames);
    } else if f.kind == DATA {
      DataStep(used, c, a, frames);
    } else if f.kind == WINDOW {
      WindowStep(used, c, a, frames);
    } else {
      CloseStep(used, c, a, frames);
    }
  }

  // ---------------------------------------------------------------- every critical section

  lemma {:induction false} ReleaseWebSocketLaneConserves(s: Session, laneID: nat, expected: Option<nat>)
    requires Conserved(s)
    ensures Conserved(ReleaseWebSocketLane(s, laneID, expected))
    ensures !s.closed ==> Holds(ReleaseWebSocketLane(s, laneID, expected), 0, 0)
  {
    if s.carrier == WebSocketLanes && expected.Some? && laneID in s.lanes && s.lanes[laneID].serial == expected.value {
      var lane := s.lanes[laneID].(websocketActive := false);
      SetLaneHolds(s, 0, 0, laneID, lane);
      var t := SetLane(s, laneID, lane);
      if laneID in t.streams {
        DeleteStreamHolds(t, 0, 0, laneID);
        RememberClosedHolds(DeleteStream(t, laneID), 0, 0, laneID);
        ReleaseLaneHolds(RememberClosed(DeleteStream(t, laneID), laneID), 0, 0, laneID);
      } else {
        ReleaseLaneHolds(t, 0, 0, laneID);
      }
    }
  }

  lemma {:induction false} FailLaneConserves(s: Session, laneID: nat, expected: Option<nat>)
    requires Conserved(s)
    ensures Conserved(FailLane(s, laneID, expected))
  {
    if s.carrier == WebSocketLanes {
      ReleaseWebSocketLaneConserves(s, laneID, expected);
    }
  }

  lemma {:induction false} UpClaimConserves(s: Session, laneID: nat, sequence: nat, body: bytes, expected: Option<nat>)
    requires Conserved(s) && !s.closed && laneID in s.lanes
    ensures Conserved(UpClaim(s, laneID, sequence, body, expected).0)
  {
    hide FailLane, HeldCost, HeldItems, LaneOK;
    FailLaneConserves(s, laneID, expected);
    SetLaneHolds(s, 0, 0, laneID, s.lanes[laneID].(upActive := Some(UpJob(sequence, body))));
  }

  lemma {:induction false} UpBeginConserves(s: Session, laneID: nat, sequence: nat, body: bytes, expected: Option<nat>)
    requires Conserved(s)
    ensures Conserved(UpBegin(s, laneID, sequence, body, expected).0)
  {
    hide UpClaim, ParseUplink, LaneOK, FailLane, StartsWithOpen, OnlyLateFrames;
    FailLaneConserves(s, laneID, expected);
    if !s.closed {
      AddLaneHolds(s, 0, 0, laneID);
      UpClaimConserves(Attach(s, laneID), laneID, sequence, body, expected);
    }
  }

  lemma {:induction false} StartAgrees(s: Session)
    requires s.streams.Keys <= s.used
    ensures Agrees(s.used, Snapshot(s), s) && Snapshot(s).live.Keys == s.streams.Keys
  {}

  lemma {:induction false} CommitBatchConserves(s: Session, laneID: nat, job: UpJob, frames: seq<Frame>, cost: nat, items: nat)
    requires laneID in s.lanes
    requires Holds(s, cost, items) && s.streams.Keys <= s.used
    requires ValidBatch(s, frames) && (cost, items) == Advance(s.streams.Keys, frames)
    requires forall i | 0 <= i < |frames| :: frames[i].streamID <= MAX_STREAM_ID
    ensures Conserved(CommitBatch(s, laneID, job, frames, cost, items).0)
  {
    StartAgrees(s);
    var start := Applied(s, cost, items, true);
    ValidatedBatchApplies(s.used, Snapshot(s), start, frames);
    var a := ApplyBatch(start, frames);
    ReleaseHolds(a.s, a.unusedCost, a.unusedItems, a.unusedCost, a.unusedItems);
    var t := ReleasePending(a.s, a.unusedCost, a.unusedItems);
    if laneID in t.lanes {
      SetLaneHolds(t, 0, 0, laneID, RecordBatch(t.lanes[laneID], job, frames[..Taken(start, frames)], a.ok));
    }
  }

  lemma {:induction false} ParsedIdentifiers(body: bytes, laneID: nat, lanes: bool)
    requires ParseUplink(body, laneID, lanes).Ok?
    ensures var fs := ParseUplink(body, laneID, lanes).value;
            && (forall i | 0 <= i < |fs| :: fs[i].streamID <= MAX_STREAM_ID && ValidIn(fs[i], ClientToRelay))
            && (lanes ==> forall i | 0 <= i < |fs| :: fs[i].streamID == laneID)
  {}

  lemma {:induction false} UpApplyConserves(s: Session, laneID: nat, job: UpJob, frames: seq<Frame>, expected: Option<nat>)
    requires laneID in s.lanes && Conserved(s) && !s.closed && s.streams.Keys <= s.used
    requires forall i | 0 <= i < |frames| :: frames[i].streamID <= MAX_STREAM_ID
    ensures Conserved(UpApply(s, laneID, job, frames, expected).0)
  {
    hide ReservePending, CommitBatch, Advance, CheckBatch;
    if !ValidBatch(s, frames) {
      FailLaneConserves(s, laneID, expected);
    } else {
      var charge := Advance(s.streams.Keys, frames);
      ReserveHolds(s, 0, 0, charge.0, charge.1, Uplink);
      var (u, granted) := ReservePending(s, charge.0, charge.1, Uplink);
      if granted {
        CommitBatchConserves(u, laneID, job, frames, charge.0, charge.1);
      }
    }
  }

  lemma {:induction false} UpEndConserves(s: Session, laneID: nat, serial: nat, expected: Option<nat>)
    requires Conserved(s) && s.streams.Keys <= s.used
    ensures Conserved(UpEnd(s, laneID, serial, expected).0)
  {
    hide UpApply, ParseUplink, LaneOK;
    if laneID in s.lanes && s.lanes[laneID].serial == serial && s.lanes[laneID].upActive.Some? {
      var job := s.lanes[laneID].upActive.value;
      var lane := s.lanes[laneID].(upActive := None);
      var t := SetLane(s, laneID, lane);
      SetLaneHolds(s, 0, 0, laneID, lane);
      match ParseUplink(job.body, laneID, UsesLanes(s.carrier))
      case Err(_) => FailLaneConserves(t, laneID, expected);
      case Ok(frames) =>
        ParsedIdentifiers(job.body, laneID, UsesLanes(s.carrier));
        UpApplyConserves(t, laneID, job, frames, expected);
    }
  }

  lemma {:induction false} NextWriteConserves(s: Session, id: nat)
    requires Conserved(s)
    ensures Conserved(NextWrite(s, id))
  {
    if id in s.streams {
      SetStreamHolds(s, 0, 0, id, NextWrite(s, id).streams[id]);
    }
  }

  lemma {:induction false} BackendDrainedConserves(s: Session, id: nat, amount: nat)
    requires Conserved(s)
    ensures Conserved(BackendDrained(s, id, amount).0)
  {
    hide QueueFrame, LaneOK;
    if !s.closed && id in s.streams && CanDrain(s.streams[id], amount) {
      var u := SetStream(s, id, Drain(s.streams[id], amount));
      SetStreamHolds(s, 0, 0, id, Drain(s.streams[id], amount));
      ReleaseHolds(u, amount, 0, amount, 0);
      QueueFrameHolds(ReleasePending(u, amount, 0), 0, 0, WINDOW, id, WindowPayload(amount).value);
      var (t, ok) := QueueFrame(ReleasePending(u, amount, 0), WINDOW, id, WindowPayload(amount).value);
      if !ok {
        SetStreamHolds(t, 0, 0, id, BackendDrained(s, id, amount).0.streams[id]);
      }
    }
  }

  lemma {:induction false} BackendWriteFinishedConserves(s: Session, id: nat)
    requires Conserved(s)
    ensures Conserved(BackendWriteFinished(s, id).0)
  {
    var (t, ok) := BackendWriteFinished(s, id);
    if ok {
      SetStreamHolds(s, 0, 0, id, t.streams[id]);
      ReleaseHolds(s.(streams := t.streams), QUEUE_ITEM_COST, 1, QUEUE_ITEM_COST, 1);
    }
  }

  lemma {:induction false} BackendDataConserves(s: Session, id: nat, data: bytes)
    requires Conserved(s) && |data| <= RELAY_DATA_CHUNK
    ensures Conserved(BackendData(s, id, data).0)
  {
    hide QueueFrame, LaneOK;
    if !s.closed && id in s.streams && 0 < |data| <= s.streams[id].sendCredit {
      var paid := Pay(s.streams[id], |data|);
      var u := s.(streams := s.streams[id := paid]);
      SetStreamHolds(s, 0, 0, id, paid);
      QueueFrameHolds(u, 0, 0, DATA, id, data);
      var (t, ok) := QueueFrame(u, DATA, id, data);
      SetStreamHolds(t, 0, 0, id, if ok then paid.(offered := paid.offered + data) else paid.(refused := paid.refused + |data|));
    }
  }

  lemma {:induction false} BackendClosedConserves(s: Session, id: nat)
    requires Conserved(s)
    ensures Conserved(BackendClosed(s, id))
  {
    hide QueueFrame, LaneOK;
    if !s.closed && id in s.streams {
      ApplyCloseHolds(s, 0, 0, id);
      QueueFrameHolds(ApplyClose(s, id), 0, 0, CLOSE, id, []);
    }
  }

  lemma {:induction false} PolledConserves(s: Session, laneID: nat, cursor: nat)
    requires Holds(s, 0, 0) && laneID in s.lanes
    ensures Holds(Polled(s, laneID, cursor).0, 0, 0)
  {
    var down := s.lanes[laneID].down;
    var m := Serve(down, cursor, s.limits.carrierBatchBytes).0;
    ServeKeeps(down, cursor, s.limits.carrierBatchBytes);
    ServeCharge(down, cursor, s.limits.carrierBatchBytes);
    var (cost, items) := if Acknowledges(down, cursor) then (down.unackedCost, down.unackedItems) else (0, 0);
    SetLaneHolds(s, 0, 0, laneID, s.lanes[laneID].(down := m));
    ReleaseHolds(SetDown(s, laneID, m), cost, items, cost, items);
  }

  lemma {:induction false} PollServeConserves(s: Session, laneID: nat, serial: nat, cursor: nat, expected: Option<nat>)
    requires Conserved(s)
    ensures Conserved(PollServe(s, laneID, serial, cursor, expected).0)
  {
    if !s.closed && laneID in s.lanes {
      PolledConserves(s, laneID, cursor);
      FailLaneConserves(Polled(s, laneID, cursor).0, laneID, expected);
    }
  }

  /** Serving a poll frees exactly the acknowledged batch and moves the rest without loss. */
  lemma {:induction false} ServeCharge(l: Lane, cursor: nat, limit: nat)
    requires LaneOK(l)
    ensures var m := Serve(l, cursor, limit).0;
            var (cost, items) := if Acknowledges(l, cursor) then (l.unackedCost, l.unackedItems) else (0, 0);
            && m.unackedCost + CostOf(m.pending) + cost == l.unackedCost + CostOf(l.pending)
            && m.unackedItems + |m.pending| + items == l.unackedItems + |l.pending|
  {
    if !(l.unacked != [] && cursor == l.unackedBase) && cursor == l.downCursor {
      AcknowledgeKeeps(l);
      ServeNextKeeps(if l.unacked != [] then Acknowledge(l) else l, cursor, limit);
    }
  }

  lemma {:induction false} SetInputHolds(s: Session, handle: nat, cost: nat, a: int, b: int)
    requires Holds(s, a, b)
    requires handle in s.inputs ==> a + s.inputs[handle] >= cost
    requires handle !in s.inputs ==> a >= cost && b >= 1
    ensures Holds(s.(inputs := s.inputs[handle := cost]),
                  a - cost + (if handle in s.inputs then s.inputs[handle] else 0), if handle in s.inputs then b else b - 1)
  {
    SumSet(s.inputs, handle, cost, InputCost);
    SumSet(s.inputs, handle, cost, One);
  }

  lemma {:induction false} ReserveInputConserves(s: Session, handle: nat, size: nat)
    requires Conserved(s)
    ensures Conserved(ReserveInput(s, handle, size))
  {
    hide SessionAdmits;
    if !s.closed {
      ReserveHolds(s, 0, 0, size + QUEUE_ITEM_COST, 1, Uplink);
      var (t, ok) := ReservePending(s, size + QUEUE_ITEM_COST, 1, Uplink);
      if ok && handle !in s.inputs {
        SetInputHolds(t, handle, size + QUEUE_ITEM_COST, size + QUEUE_ITEM_COST, 1);
      }
    }
  }

  lemma {:induction false} ResizeInputConserves(s: Session, handle: nat, size: nat)
    requires Conserved(s)
    ensures Conserved(ResizeInput(s, handle, size).0)
  {
    hide SessionAdmits;
    if !s.closed && handle in s.inputs {
      var newCost, cost := size + QUEUE_ITEM_COST, s.inputs[handle];
      if newCost > cost {
        ReserveHolds(s, 0, 0, newCost - cost, 0, Uplink);
        var (t, ok) := ReservePending(s, newCost - cost, 0, Uplink);
        if ok {
          SetInputHolds(t, handle, newCost, newCost - cost, 0);
        }
      } else {
        SetInputHolds(s, handle, newCost, 0, 0);
        ReleaseHolds(s.(inputs := s.inputs[handle := newCost]), cost - newCost, 0, cost - newCost, 0);
      }
    }
  }

  lemma {:induction false} ReleaseInputConserves(s: Session, handle: nat)
    requires Conserved(s)
    ensures Conserved(ReleaseInput(s, handle))
  {
    if !s.closed && handle in s.inputs {
      SumDrop(s.inputs, handle, InputCost);
      SumDrop(s.inputs, handle, One);
      ReleaseHolds(s.(inputs := s.inputs - {handle}), s.inputs[handle], 1, s.inputs[handle], 1);
    }
  }

  lemma {:induction false} AcquireLaneConserves(s: Session, laneID: nat)
    requires Conserved(s)
    ensures Conserved(AcquireLane(s, laneID))
  {
    if !s.closed {
      AddLaneHolds(s, 0, 0, laneID);
      var t := Attach(s, laneID);
      SetLaneHolds(t, 0, 0, laneID, t.lanes[laneID].(websocketActive := true));
    }
  }
}
