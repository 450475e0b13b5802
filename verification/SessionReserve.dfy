/**
 * What the control reserve of a session is for: whatever streams, inputs and DATA frames hold, on every run they leave
 * the reserve to the CLOSE and WINDOW frames that are queued or unacknowledged.
 */
module SessionReserve {
  import opened Bytes
  import opened FrameCodec
  import opened DownlinkLane
  import opened Limits
  import opened PendingBudget
  import opened SessionCore
  import opened Sums
  import opened SessionAccounting
  import opened SessionDelivery
  import opened SessionRuns
  import opened SessionTheorems
  import opened SessionBatches
  import opened SessionCredit

  // ---------------------------------------------------------------- control frames

  function ControlCost(fs: seq<Frame>): nat {
    if fs == [] then 0 else (if fs[0].kind == DATA then 0 else FrameCost(fs[0])) + ControlCost(fs[1..])
  }

  function ControlCount(fs: seq<Frame>): nat {
    if fs == [] then 0 else (if fs[0].kind == DATA then 0 else 1) + ControlCount(fs[1..])
  }

  lemma {:induction false} ControlAppend(a: seq<Frame>, b: seq<Frame>)
    ensures ControlCost(a + b) == ControlCost(a) + ControlCost(b) && ControlCount(a + b) == ControlCount(a) + ControlCount(b)
  {
    if a == [] {
      assert a + b == b;
    } else {
      assert (a + b)[1..] == a[1..] + b;
      ControlAppend(a[1..], b);
    }
  }

  lemma {:induction false} ControlWithin(fs: seq<Frame>)
    ensures ControlCost(fs) <= FramesCost(fs) && ControlCount(fs) <= |fs|
  {
    if fs != [] {
      ControlWithin(fs[1..]);
    }
  }

  lemma {:induction false} ControlReplaced(fs: seq<Frame>, i: nat, f: Frame)
    requires i < |fs| && f.kind == fs[i].kind && |f.payload| == |fs[i].payload|
    ensures ControlCost(fs[i := f]) == ControlCost(fs) && ControlCount(fs[i := f]) == ControlCount(fs)
  {
    if i > 0 {
      assert fs[i := f][1..] == fs[1..][i - 1 := f];
      ControlReplaced(fs[1..], i - 1, f);
    }
  }

  /** What a lane has not seen acknowledged. */
  function Unsent(l: Lane): seq<Frame> {
    l.unackedFrames + Frames(l.pending)
  }

  function ControlCostIn(l: CarrierLane): nat { ControlCost(Unsent(l.down)) }
  function ControlItemsIn(l: CarrierLane): nat { ControlCount(Unsent(l.down)) }

  // ---------------------------------------------------------------- lanes

  lemma {:induction false} LaneWithin(l: GoodLane)
    ensures ControlCost(Unsent(l)) <= l.unackedCost + CostOf(l.pending)
    ensures ControlCount(Unsent(l)) <= l.unackedItems + |l.pending|
  {
    ControlAppend(l.unackedFrames, Frames(l.pending));
    ControlWithin(l.unackedFrames);
    ControlWithin(Frames(l.pending));
    EncodingsAreFrames(l.pending);
  }

  lemma {:induction false} ControlOne(fs: seq<Frame>, f: Frame)
    ensures ControlCost(fs + [f]) == ControlCost(fs) + (if f.kind == DATA then 0 else FrameCost(f))
    ensures ControlCount(fs + [f]) == ControlCount(fs) + (if f.kind == DATA then 0 else 1)
  {
    ControlAppend(fs, [f]);
    assert [f][1..] == [];
  }

  lemma {:induction false} QueueReplaced(qs: seq<Queued>, i: nat, q: Queued)
    requires i < |qs| && q.frame.kind == qs[i].frame.kind && |q.frame.payload| == |qs[i].frame.payload|
    ensures ControlCost(Frames(qs[i := q])) == ControlCost(Frames(qs)) && ControlCount(Frames(qs[i := q])) == ControlCount(Frames(qs))
  {
    hide ControlCost, ControlCount;
    assert Frames(qs[i := q]) == Frames(qs)[i := q.frame];
    ControlReplaced(Frames(qs), i, q.frame);
  }

  lemma {:induction false} CreditAdded(l: GoodLane, id: nat, payload: bytes)
    requires Queueable(WINDOW, id, payload) && PlanFrame(l, WINDOW, id, payload).AddCredit?
    ensures var m := Enqueued(l, WINDOW, id, payload);
            ControlCost(Frames(m.pending)) == ControlCost(Frames(l.pending))
            && ControlCount(Frames(m.pending)) == ControlCount(Frames(l.pending))
  {
    hide ControlCost, ControlCount, Frames, Queueable;
    WindowIndexSound(l.pending, id);
    var plan := PlanFrame(l, WINDOW, id, payload);
    assert Faithful(l.pending[plan.index]);
    CarriedDelta(l.pending[plan.index]);
    hide LaneOK, Faithful, PlanFrame;
    QueueReplaced(l.pending, plan.index, PatchCredit(l.pending[plan.index], plan.total));
  }

  lemma {:induction false} FrameAdded(l: GoodLane, kind: byte, id: nat, payload: bytes)
    requires Queueable(kind, id, payload) && PlanFrame(l, kind, id, payload).AppendNew?
    ensures Frames(Enqueued(l, kind, id, payload).pending) == Frames(l.pending) + [Frame(kind, id, payload)]
  {
    hide LaneOK, Queueable;
    assert Enqueued(l, kind, id, payload).pending == l.pending + [Fresh(kind, id, payload)];
  }

  /** Queueing a control frame adds its charge to what control frames hold. */
  lemma {:induction false} ControlQueued(l: GoodLane, kind: byte, id: nat, payload: bytes)
    requires Queueable(kind, id, payload) && kind != DATA
    ensures var m := Enqueued(l, kind, id, payload);
            var plan := PlanFrame(l, kind, id, payload);
            && ControlCost(Unsent(m)) == ControlCost(Unsent(l)) + PlanCost(plan, payload)
            && ControlCount(Unsent(m)) == ControlCount(Unsent(l)) + PlanItems(plan)
  {
    hide ControlCost, ControlCount, LaneOK, Enqueued;
    var m := Enqueued(l, kind, id, payload);
    ControlAppend(l.unackedFrames, Frames(l.pending));
    ControlAppend(l.unackedFrames, Frames(m.pending));
    assert m == l.(pending := m.pending, windows := m.windows);
    if PlanFrame(l, kind, id, payload).AddCredit? {
      CreditAdded(l, id, payload);
    } else {
      assert PlanFrame(l, kind, id, payload).AppendNew?;
      FrameAdded(l, kind, id, payload);
      ControlOne(Frames(l.pending), Frame(kind, id, payload));
    }
  }

  lemma {:induction false} FramesSnoc(qs: seq<Queued>)
    requires qs != []
    ensures Frames(qs) == Frames(qs[..|qs| - 1]) + [qs[|qs| - 1].frame]
  {
    hide Frames;
    assert |Frames(qs)| == |qs|;
  }

  /** Dropping a stream's frames takes away no more control charge than charge. */
  lemma {:induction false} ControlDropped(qs: seq<Queued>, id: nat)
    requires forall i | 0 <= i < |qs| :: qs[i].cost == FrameCost(qs[i].frame)
    ensures ControlCost(Frames(qs)) <= ControlCost(Frames(Without(qs, id))) + CostFor(qs, id)
    ensures ControlCount(Frames(qs)) <= ControlCount(Frames(Without(qs, id))) + ItemsFor(qs, id)
  {
    hide ControlCost, ControlCount, Frames;
    if qs != [] {
      var front, last := qs[..|qs| - 1], qs[|qs| - 1];
      ControlDropped(front, id);
      FramesSnoc(qs);
      ControlOne(Frames(front), last.frame);
      if last.frame.streamID != id {
        var kept := Without(front, id) + [last];
        FramesSnoc(kept);
        assert kept[..|kept| - 1] == Without(front, id);
        ControlOne(Frames(Without(front, id)), last.frame);
      }
    }
  }

  /** A poll moves frames along, and acknowledges at most what it releases. */
  lemma {:induction false} ControlServed(l: GoodLane, cursor: nat, limit: nat)
    ensures var m := Serve(l, cursor, limit).0;
            var (cost, items) := if Acknowledges(l, cursor) then (l.unackedCost, l.unackedItems) else (0, 0);
            ControlCost(Unsent(l)) <= ControlCost(Unsent(m)) + cost && ControlCount(Unsent(l)) <= ControlCount(Unsent(m)) + items
  {
    if !(l.unacked != [] && cursor == l.unackedBase) && cursor == l.downCursor {
      AcknowledgeKeeps(l);
      var k := if l.unacked != [] then Acknowledge(l) else l;
      ServeNextKeeps(k, cursor, limit);
      ControlAppend(l.unackedFrames, Frames(l.pending));
      ControlWithin(l.unackedFrames);
      assert k.unackedFrames == [] && [] + Frames(k.pending) == Frames(k.pending);
    }
  }

  // ---------------------------------------------------------------- sessions

  /** What is charged beyond the session's control frames leaves the control reserve, and all of it stays in limits. */
  ghost predicate Spare(l: Limits, s: Session) {
    && s.limits == l
    && s.ledger.cost <= SessionLimits(s.limits, Uplink).0 + Sum(s.lanes, ControlCostIn)
    && s.ledger.items <= SessionLimits(s.limits, Uplink).1 + Sum(s.lanes, ControlItemsIn)
    && s.ledger.cost <= l.maxPendingPerSession && s.ledger.items <= l.maxPendingItemsPerSession
  }

  /** Nothing is charged and no lane changes. */
  predicate NoMore(s: Session, t: Session) {
    t.limits == s.limits && t.lanes == s.lanes && t.ledger.cost <= s.ledger.cost && t.ledger.items <= s.ledger.items
  }

  lemma {:induction false} NoMoreSpare(l: Limits, s: Session, t: Session)
    requires Spare(l, s) && NoMore(s, t)
    ensures Spare(l, t)
  {}

  /** One lane's control frames grow at least as the charge does. */
  lemma {:induction false} LaneSpare(l: Limits, s: Session, t: Session, laneID: nat, lane: CarrierLane)
    requires Spare(l, s) && laneID in s.lanes && t.limits == s.limits && t.lanes == s.lanes[laneID := lane]
    requires t.ledger.cost - s.ledger.cost <= ControlCostIn(lane) - ControlCostIn(s.lanes[laneID])
    requires t.ledger.items - s.ledger.items <= ControlItemsIn(lane) - ControlItemsIn(s.lanes[laneID])
    requires t.ledger.cost <= l.maxPendingPerSession && t.ledger.items <= l.maxPendingItemsPerSession
    ensures Spare(l, t)
  {
    SumSet(s.lanes, laneID, lane, ControlCostIn);
    SumSet(s.lanes, laneID, lane, ControlItemsIn);
  }

  lemma {:induction false} ClassLimits(l: Limits, class_: PendingClass)
    ensures SessionLimits(l, Control) == (l.maxPendingPerSession, l.maxPendingItemsPerSession)
    ensures class_ != Control ==> SessionLimits(l, class_).0 <= SessionLimits(l, Uplink).0 <= l.maxPendingPerSession
    ensures class_ != Control ==> SessionLimits(l, class_).1 <= SessionLimits(l, Uplink).1 <= l.maxPendingItemsPerSession
  {}

  lemma {:induction false} ReserveSpare(l: Limits, s: Session, cost: nat, items: nat, class_: PendingClass)
    requires Spare(l, s) && class_ != Control
    ensures Spare(l, ReservePending(s, cost, items, class_).0)
  {
    hide SessionLimits, Sum, LaneOK;
    ClassLimits(l, class_);
  }

  lemma {:induction false} ReleaseSpare(l: Limits, s: Session, cost: int, items: int)
    requires Spare(l, s)
    ensures Spare(l, ReleasePending(s, cost, items)) && ReleasePending(s, cost, items).lanes == s.lanes
  {
    hide SessionLimits;
  }

  lemma {:induction false} AttachSpare(l: Limits, s: Session, laneID: nat)
    requires Spare(l, s)
    ensures Spare(l, Attach(s, laneID))
  {
    hide SessionLimits, LaneOK;
    SumSet(s.lanes, laneID, NewLane(s.nextSerial), ControlCostIn);
    SumSet(s.lanes, laneID, NewLane(s.nextSerial), ControlItemsIn);
  }

  lemma {:induction false} FlagSpare(l: Limits, s: Session, laneID: nat, lane: CarrierLane)
    requires Spare(l, s) && laneID in s.lanes && lane.down == s.lanes[laneID].down
    ensures Spare(l, SetLane(s, laneID, lane))
  {
    hide SessionLimits, LaneOK, ControlCost, ControlCount;
    LaneSpare(l, s, SetLane(s, laneID, lane), laneID, lane);
  }

  lemma {:induction false} QueueCharges(s: Session, kind: byte, id: StreamID, payload: bytes)
    requires Queueable(kind, id, payload) && kind != DATA && LaneID(s, id) in s.lanes
    ensures var (t, ok) := QueueFrame(s, kind, id, payload);
            var (laneID, l) := (LaneID(s, id), s.limits);
            var lane := s.lanes[laneID];
            var plan := PlanFrame(lane.down, kind, id, payload);
            if ok then
              && t.limits == l && t.lanes == s.lanes[laneID := lane.(down := Enqueued(lane.down, kind, id, payload))]
              && t.ledger.cost == s.ledger.cost + PlanCost(plan, payload)
              && t.ledger.items == s.ledger.items + PlanItems(plan)
              && (t.ledger == s.ledger
                  || (t.ledger.cost <= l.maxPendingPerSession && t.ledger.items <= l.maxPendingItemsPerSession))
            else NoMore(s, t)
  {
    hide LaneOK, PlanFrame, PlanCost, PlanItems, Enqueued, Queueable, SessionLimits;
    ClassLimits(s.limits, Control);
  }

  lemma {:induction false} ControlSpare(l: Limits, s: Session, kind: byte, id: StreamID, payload: bytes)
    requires Spare(l, s) && Queueable(kind, id, payload) && kind != DATA && LaneID(s, id) in s.lanes
    ensures Spare(l, QueueFrame(s, kind, id, payload).0)
  {
    hide LaneOK, PlanFrame, PlanCost, PlanItems, Enqueued, Queueable, ControlCost, ControlCount, SessionLimits, Sum, Unsent, QueueFrame;
    QueueCharges(s, kind, id, payload);
    var laneID := LaneID(s, id);
    var down := s.lanes[laneID].down;
    ControlQueued(down, kind, id, payload);
    var (t, ok) := QueueFrame(s, kind, id, payload);
    if ok {
      LaneSpare(l, s, t, laneID, s.lanes[laneID].(down := Enqueued(down, kind, id, payload)));
    } else {
      NoMoreSpare(l, s, t);
    }
  }

  /** A DATA frame is charged only within the limits of its class. */
  lemma {:induction false} DataCharges(s: Session, id: StreamID, payload: bytes)
    requires Queueable(DATA, id, payload)
    ensures var (t, ok) := QueueFrame(s, DATA, id, payload);
            t.limits == s.limits
            && if ok then t.ledger.cost <= SessionLimits(s.limits, Downlink).0 && t.ledger.items <= SessionLimits(s.limits, Downlink).1
               else NoMore(s, t)
  {
    hide LaneOK, PlanFrame, PlanCost, PlanItems, Enqueued, Queueable, SessionLimits;
    if LaneID(s, id) in s.lanes {
      DataIsCharged(s.lanes[LaneID(s, id)].down, id, payload);
    }
  }

  lemma {:induction false} DataSpare(l: Limits, s: Session, id: StreamID, payload: bytes)
    requires Spare(l, s) && Queueable(DATA, id, payload)
    ensures Spare(l, QueueFrame(s, DATA, id, payload).0)
  {
    hide LaneOK, Queueable, QueueFrame, SessionLimits, Sum;
    DataCharges(s, id, payload);
    ClassLimits(l, Downlink);
    if !QueueFrame(s, DATA, id, payload).1 {
      NoMoreSpare(l, s, QueueFrame(s, DATA, id, payload).0);
    }
  }

  lemma {:induction false} DataIsCharged(l: Lane, id: StreamID, payload: bytes)
    requires Queueable(DATA, id, payload)
    ensures PlanCost(PlanFrame(l, DATA, id, payload), payload) > 0
  {}

  lemma {:induction false} QueueSpare(l: Limits, s: Session, kind: byte, id: StreamID, payload: bytes)
    requires Spare(l, s) && Queueable(kind, id, payload)
    ensures Spare(l, QueueFrame(s, kind, id, payload).0)
  {
    hide Spare, Queueable;
    if kind == DATA {
      DataSpare(l, s, id, payload);
    } else if LaneID(s, id) in s.lanes {
      ControlSpare(l, s, kind, id, payload);
    }
  }

  lemma {:induction false} Released(s: Session, cost: nat, items: nat)
    requires !ReleasePending(s, cost, items).ledger.panicked
    ensures var t := ReleasePending(s, cost, items);
            && t == s.(ledger := t.ledger)
            && t.ledger.cost == s.ledger.cost - cost && t.ledger.items == s.ledger.items - items
  {}

  lemma {:induction false} DropSpare(l: Limits, s: Session, a: int, b: int, id: StreamID)
    requires Spare(l, s) && Holds(s, a, b)
    ensures Spare(l, DropFrames(s, id))
  {
    hide SessionLimits, LaneOK, Dropped, CostFor, ItemsFor, HeldCost, HeldItems, ReleasePending, ControlCost, ControlCount;
    DropFramesHolds(s, a, b, id);
    var laneID := LaneID(s, id);
    if laneID in s.lanes {
      var down := s.lanes[laneID].down;
      var lane := s.lanes[laneID].(down := Dropped(down, id));
      Released(SetLane(s, laneID, lane), CostFor(down.pending, id), ItemsFor(down.pending, id));
      DroppedControl(down, id);
      LaneSpare(l, s, DropFrames(s, id), laneID, lane);
    }
  }

  lemma {:induction false} DroppedControl(l: GoodLane, id: nat)
    ensures ControlCost(Unsent(l)) <= ControlCost(Unsent(Dropped(l, id))) + CostFor(l.pending, id)
    ensures ControlCount(Unsent(l)) <= ControlCount(Unsent(Dropped(l, id))) + ItemsFor(l.pending, id)
  {
    hide ControlCost, ControlCount, CostFor, ItemsFor, Without;
    assert forall i | 0 <= i < |l.pending| :: Faithful(l.pending[i]);
    ControlDropped(l.pending, id);
    ControlAppend(l.unackedFrames, Frames(l.pending));
    ControlAppend(l.unackedFrames, Frames(Dropped(l, id).pending));
  }

  lemma {:induction false} ReleaseLaneSpare(l: Limits, s: Session, a: int, b: int, laneID: nat)
    requires Spare(l, s) && Holds(s, a, b)
    ensures Spare(l, ReleaseLane(s, laneID))
  {
    hide SessionLimits, LaneOK, HeldCost, HeldItems, ReleasePending, ControlCost, ControlCount, Unsent;
    ReleaseLaneHolds(s, a, b, laneID);
    if laneID != 0 && laneID in s.lanes {
      var down := s.lanes[laneID].down;
      SumDrop(s.lanes, laneID, ControlCostIn);
      SumDrop(s.lanes, laneID, ControlItemsIn);
      LaneWithin(down);
      Released(s.(lanes := s.lanes - {laneID}), down.unackedCost + CostOf(down.pending), down.unackedItems + |down.pending|);
    }
  }

  lemma {:induction false} RememberSpare(l: Limits, s: Session, a: int, b: int, id: nat)
    requires Spare(l, s) && Holds(s, a, b)
    ensures Spare(l, RememberClosed(s, id))
  {
    hide Spare, HeldCost, HeldItems, ReleaseLane, Remember, LaneOK;
    var (t, evicted) := Remember(s.tombstones, id);
    var u := s.(tombstones := t);
    NoMoreSpare(l, s, u);
    SameHolds(s, u, a, b);
    if UsesLanes(s.carrier) && evicted.Some? {
      ReleaseLaneSpare(l, u, a, b, evicted.value);
    }
  }

  lemma {:induction false} SameHolds(s: Session, t: Session, a: int, b: int)
    requires Holds(s, a, b)
    requires t == s.(tombstones := t.tombstones, used := t.used, asked := t.asked)
    ensures Holds(t, a, b)
  {}

  // ---------------------------------------------------------------- applying a batch

  lemma {:induction false} ApplyCloseSpare(l: Limits, s: Session, a: int, b: int, id: StreamID)
    requires Spare(l, s) && Holds(s, a, b) && id in s.streams
    ensures Spare(l, ApplyClose(s, id))
  {
    hide Spare, Holds, DropFrames, DeleteStream, RememberClosed;
    DropSpare(l, s, a, b, id);
    DropFramesHolds(s, a, b, id);
    var t := DropFrames(s, id);
    DeleteSpare(l, t, id);
    DeleteStreamHolds(t, a, b, id);
    RememberSpare(l, DeleteStream(t, id), a, b, id);
  }

  lemma {:induction false} DeleteSpare(l: Limits, s: Session, id: nat)
    requires Spare(l, s) && id in s.streams
    ensures Spare(l, DeleteStream(s, id))
  {
    hide ReleasePending, SessionLimits;
    ReleaseSpare(l, s.(streams := s.streams - {id}), s.streams[id].pendingWriteCost, s.streams[id].pendingWriteItems);
  }

  lemma {:induction false} RefusedSpare(l: Limits, s: Session, a: int, b: int, id: StreamID)
    requires Spare(l, s) && Holds(s, a, b)
    ensures Spare(l, Refused(s, id).0)
  {
    hide Spare, Holds, RememberClosed, QueueFrame;
    RememberSpare(l, s, a, b, id);
    QueueSpare(l, RememberClosed(s, id), CLOSE, id, []);
  }

  lemma {:induction false} ApplyOpenSpare(l: Limits, s: Session, a: int, b: int, id: StreamID)
    requires Spare(l, s) && Holds(s, a, b)
    ensures Spare(l, ApplyOpen(s, id).0)
  {
    hide Spare, Holds, Refused;
    var t := AcquireStream(s.(used := s.used + {id})).0;
    SameHolds(s, t, a, b);
    NoMoreSpare(l, s, t);
    RefusedSpare(l, t, a, b, id);
    NoMoreSpare(l, t, Opened(t, id));
  }

  lemma {:induction false} FrameSpare(l: Limits, used: set<nat>, c: Check, a: Applied, frames: seq<Frame>)
    requires Spare(l, a.s) && frames != [] && ApplyInvariant(used, c, a, frames)
    ensures Spare(l, ApplyFrame(a, frames[0]).s)
  {
    hide Spare, Holds, ApplyOpen, ApplyClose, AppendWrite, Agrees, Advance;
    var f := frames[0];
    if 0 < f.streamID <= MAX_STREAM_ID {
      if f.kind == OPEN {
        ApplyOpenSpare(l, a.s, a.unusedCost, a.unusedItems, f.streamID);
      } else if f.streamID in a.s.streams && f.kind == CLOSE {
        ApplyCloseSpare(l, a.s, a.unusedCost, a.unusedItems, f.streamID);
      } else {
        NoMoreSpare(l, a.s, ApplyFrame(a, f).s);
      }
    }
  }

  lemma {:induction false} BatchSpare(l: Limits, used: set<nat>, c: Check, a: Applied, frames: seq<Frame>)
    requires Spare(l, a.s) && ApplyInvariant(used, c, a, frames) && CheckBatch(used, c, frames).Some?
    requires forall i | 0 <= i < |frames| :: frames[i].streamID <= MAX_STREAM_ID
    ensures Spare(l, ApplyBatch(a, frames).s)
    decreases |frames|
  {
    hide Spare, Holds, ApplyFrame, CheckFrame, Agrees, Advance;
    if frames != [] && a.ok {
      FrameSpare(l, used, c, a, frames);
      FrameApplies(used, c, a, frames);
      BatchSpare(l, used, CheckFrame(used, c, frames[0]).value, ApplyFrame(a, frames[0]), frames[1..]);
    }
  }

  // ---------------------------------------------------------------- every critical section

  lemma {:induction false} CloseSpare(l: Limits, s: Session)
    requires Spare(l, s)
    ensures Spare(l, Close(s))
  {
    hide SessionLimits;
  }

  lemma {:induction false} DetachSpare(l: Limits, s: Session, laneID: nat, expected: Option<nat>)
    requires Spare(l, s) && Conserved(s)
    ensures Spare(l, ReleaseWebSocketLane(s, laneID, expected)) && Spare(l, FailLane(s, laneID, expected))
  {
    hide Spare, Holds, DeleteStream, RememberClosed, ReleaseLane, Close, LaneOK;
    CloseSpare(l, s);
    if laneID in s.lanes && !s.closed {
      var lane := s.lanes[laneID].(websocketActive := false);
      FlagSpare(l, s, laneID, lane);
      SetLaneHolds(s, 0, 0, laneID, lane);
      var t := SetLane(s, laneID, lane);
      ReleaseLaneSpare(l, t, 0, 0, laneID);
      if laneID in t.streams {
        DeleteSpare(l, t, laneID);
        DeleteStreamHolds(t, 0, 0, laneID);
        var u := DeleteStream(t, laneID);
        RememberSpare(l, u, 0, 0, laneID);
        RememberClosedHolds(u, 0, 0, laneID);
        ReleaseLaneSpare(l, RememberClosed(u, laneID), 0, 0, laneID);
      }
    }
  }

  lemma {:induction false} UpClaimSpare(l: Limits, s: Session, laneID: nat, sequence: nat, body: bytes, expected: Option<nat>)
    requires Spare(l, s) && Conserved(s) && laneID in s.lanes
    ensures Spare(l, UpClaim(s, laneID, sequence, body, expected).0)
  {
    hide Spare, Conserved, FailLane, LaneOK;
    DetachSpare(l, s, laneID, expected);
    FlagSpare(l, s, laneID, s.lanes[laneID].(upActive := Some(UpJob(sequence, body))));
  }

  lemma {:induction false} UpBeginSpare(l: Limits, s: Session, laneID: nat, sequence: nat, body: bytes, expected: Option<nat>)
    requires Spare(l, s) && Conserved(s)
    ensures Spare(l, UpBegin(s, laneID, sequence, body, expected).0)
  {
    hide Spare, FailLane, LaneOK, UpClaim, ParseUplink, StartsWithOpen, OnlyLateFrames, Holds;
    DetachSpare(l, s, laneID, expected);
    if !s.closed {
      AttachSpare(l, s, laneID);
      AddLaneHolds(s, 0, 0, laneID);
      UpClaimSpare(l, Attach(s, laneID), laneID, sequence, body, expected);
    }
  }

  lemma {:induction false} CommitSpare(l: Limits, s: Session, laneID: nat, job: UpJob, frames: seq<Frame>, cost: nat, items: nat)
    requires Spare(l, s) && laneID in s.lanes && Holds(s, cost, items) && s.streams.Keys <= s.used && ValidBatch(s, frames)
    requires (cost, items) == Advance(s.streams.Keys, frames)
    requires forall i | 0 <= i < |frames| :: frames[i].streamID <= MAX_STREAM_ID
    ensures Spare(l, CommitBatch(s, laneID, job, frames, cost, items).0)
  {
    hide Spare, Holds, CheckBatch, Advance, ApplyBatch, Taken, ReleasePending, LaneOK;
    StartAgrees(s);
    var start := Applied(s, cost, items, true);
    BatchSpare(l, s.used, Snapshot(s), start, frames);
    var a := ApplyBatch(start, frames);
    ReleaseSpare(l, a.s, a.unusedCost, a.unusedItems);
    var t := ReleasePending(a.s, a.unusedCost, a.unusedItems);
    if laneID in t.lanes {
      FlagSpare(l, t, laneID, RecordBatch(t.lanes[laneID], job, frames[..Taken(start, frames)], a.ok));
    }
  }

  lemma {:induction false} UpApplySpare(l: Limits, s: Session, laneID: nat, job: UpJob, frames: seq<Frame>, expected: Option<nat>)
    requires Spare(l, s) && laneID in s.lanes && Conserved(s) && !s.closed && s.streams.Keys <= s.used
    requires forall i | 0 <= i < |frames| :: frames[i].streamID <= MAX_STREAM_ID
    ensures Spare(l, UpApply(s, laneID, job, frames, expected).0)
  {
    hide Spare, ReservePending, CommitBatch, Advance, CheckBatch, FailLane, Holds;
    DetachSpare(l, s, laneID, expected);
    if ValidBatch(s, frames) {
      var charge := Advance(s.streams.Keys, frames);
      ReserveHolds(s, 0, 0, charge.0, charge.1, Uplink);
      ReservePendingFrame(s, charge.0, charge.1, Uplink);
      ReserveSpare(l, s, charge.0, charge.1, Uplink);
      var (u, granted) := ReservePending(s, charge.0, charge.1, Uplink);
      if granted {
        CommitSpare(l, u, laneID, job, frames, charge.0, charge.1);
      }
    }
  }

  lemma {:induction false} UpEndSpare(l: Limits, s: Session, laneID: nat, serial: nat, expected: Option<nat>)
    requires Spare(l, s) && Conserved(s) && s.streams.Keys <= s.used
    ensures Spare(l, UpEnd(s, laneID, serial, expected).0)
  {
    hide Spare, UpApply, ParseUplink, LaneOK, FailLane, Holds;
    if laneID in s.lanes && s.lanes[laneID].serial == serial && s.lanes[laneID].upActive.Some? {
      var job := s.lanes[laneID].upActive.value;
      var lane := s.lanes[laneID].(upActive := None);
      var t := SetLane(s, laneID, lane);
      FlagSpare(l, s, laneID, lane);
      ClaimDroppedConserves(s, laneID, lane);
      DetachSpare(l, t, laneID, expected);
      var parsed := ParseUplink(job.body, laneID, UsesLanes(s.carrier));
      if parsed.Ok? && !t.closed {
        ParsedIdentifiers(job.body, laneID, UsesLanes(s.carrier));
        UpApplySpare(l, t, laneID, job, parsed.value, expected);
      }
    }
  }

  lemma {:induction false} WriterSpare(l: Limits, s: Session, id: nat, amount: nat)
    requires Spare(l, s)
    ensures Spare(l, NextWrite(s, id)) && Spare(l, BackendWriteFinished(s, id).0) && Spare(l, BackendDrained(s, id, amount).0)
  {
    hide Spare, QueueFrame, ReleasePending, Drain, LaneOK;
    NoMoreSpare(l, s, NextWrite(s, id));
    if !s.closed && id in s.streams {
      if BackendWriteFinished(s, id).1 {
        FinishSpare(l, s, id);
      }
      if CanDrain(s.streams[id], amount) {
        DrainSpare(l, s, id, amount);
      }
    }
  }

  lemma {:induction false} FinishSpare(l: Limits, s: Session, id: nat)
    requires Spare(l, s) && BackendWriteFinished(s, id).1
    ensures Spare(l, BackendWriteFinished(s, id).0)
  {
    NoMoreSpare(l, s, BackendWriteFinished(s, id).0);
  }

  lemma {:induction false} DrainSpare(l: Limits, s: Session, id: nat, amount: nat)
    requires Spare(l, s) && !s.closed && id in s.streams && CanDrain(s.streams[id], amount)
    ensures Spare(l, BackendDrained(s, id, amount).0)
  {
    hide Spare, QueueFrame, ReleasePending, Drain, LaneOK;
    var state := Drain(s.streams[id], amount);
    var payload := WindowPayload(amount).value;
    var u := SetStream(s, id, state);
    NoMoreSpare(l, s, u);
    ReleaseSpare(l, u, amount, 0);
    var v := ReleasePending(u, amount, 0);
    QueueSpare(l, v, WINDOW, id, payload);
    NoMoreSpare(l, QueueFrame(v, WINDOW, id, payload).0, BackendDrained(s, id, amount).0);
  }

  lemma {:induction false} BackendDataSpare(l: Limits, s: Session, id: nat, data: bytes)
    requires Spare(l, s) && |data| <= RELAY_DATA_CHUNK
    ensures Spare(l, BackendData(s, id, data).0)
  {
    hide Spare, QueueFrame, LaneOK;
    if !s.closed && id in s.streams && 0 < |data| <= s.streams[id].sendCredit {
      var u := SetStream(s, id, Pay(s.streams[id], |data|));
      NoMoreSpare(l, s, u);
      QueueSpare(l, u, DATA, id, data);
      NoMoreSpare(l, QueueFrame(u, DATA, id, data).0, BackendData(s, id, data).0);
    }
  }

  lemma {:induction false} BackendClosedSpare(l: Limits, s: Session, id: nat)
    requires Spare(l, s) && Conserved(s)
    ensures Spare(l, BackendClosed(s, id))
  {
    hide Spare, Holds, QueueFrame, ApplyClose, DropFrames, DeleteStream, RememberClosed, Close;
    if !s.closed && id in s.streams {
      ApplyCloseSpare(l, s, 0, 0, id);
      BackendClosedIs(s, id);
      QueueSpare(l, ApplyClose(s, id), CLOSE, id, []);
      CloseSpare(l, QueueFrame(ApplyClose(s, id), CLOSE, id, []).0);
    }
  }

  lemma {:induction false} PolledSpare(l: Limits, s: Session, laneID: nat, cursor: nat)
    requires Spare(l, s) && Conserved(s) && !s.closed && laneID in s.lanes
    ensures Spare(l, Polled(s, laneID, cursor).0) && Conserved(Polled(s, laneID, cursor).0)
  {
    PolledConserves(s, laneID, cursor);
    hide LaneOK, Serve, SessionLimits, ReleasePending, HeldCost, HeldItems, ControlCost, ControlCount, Acknowledges;
    var down := s.lanes[laneID].down;
    ServeKeeps(down, cursor, s.limits.carrierBatchBytes);
    var m := Serve(down, cursor, s.limits.carrierBatchBytes).0;
    ControlServed(down, cursor, s.limits.carrierBatchBytes);
    var t := SetDown(s, laneID, m);
    if Acknowledges(down, cursor) {
      Released(t, down.unackedCost, down.unackedItems);
    }
    LaneSpare(l, s, Polled(s, laneID, cursor).0, laneID, s.lanes[laneID].(down := m));
  }

  lemma {:induction false} PollServeSpare(l: Limits, s: Session, laneID: nat, serial: nat, cursor: nat, expected: Option<nat>)
    requires Spare(l, s) && Conserved(s)
    ensures Spare(l, PollServe(s, laneID, serial, cursor, expected).0)
  {
    hide Spare, Conserved, Polled, FailLane;
    if !s.closed && laneID in s.lanes {
      PolledSpare(l, s, laneID, cursor);
      DetachSpare(l, Polled(s, laneID, cursor).0, laneID, expected);
    }
  }

  lemma {:induction false} InputsSpare(l: Limits, s: Session, handle: nat, size: nat)
    requires Spare(l, s)
    ensures Spare(l, ReserveInput(s, handle, size)) && Spare(l, ResizeInput(s, handle, size).0) && Spare(l, ReleaseInput(s, handle))
  {
    hide Spare, ReservePending, ReleasePending;
    ReserveSpare(l, s, size + QUEUE_ITEM_COST, 1, Uplink);
    var t := ReservePending(s, size + QUEUE_ITEM_COST, 1, Uplink).0;
    NoMoreSpare(l, t, t.(inputs := t.inputs[handle := size + QUEUE_ITEM_COST]));
    if handle in s.inputs {
      var (newCost, cost) := (size + QUEUE_ITEM_COST, s.inputs[handle]);
      if newCost > cost {
        ReserveSpare(l, s, newCost - cost, 0, Uplink);
        var u := ReservePending(s, newCost - cost, 0, Uplink).0;
        NoMoreSpare(l, u, u.(inputs := u.inputs[handle := newCost]));
      } else {
        ReleaseSpare(l, s, cost - newCost, 0);
        var u := if newCost < cost then ReleasePending(s, cost - newCost, 0) else s;
        NoMoreSpare(l, u, u.(inputs := u.inputs[handle := newCost]));
      }
      ReleaseSpare(l, s, cost, 1);
      var v := if s.closed then s else ReleasePending(s, cost, 1);
      NoMoreSpare(l, v, v.(inputs := v.inputs - {handle}));
    }
  }

  lemma {:induction false} AcquireSpare(l: Limits, s: Session, laneID: nat)
    requires Spare(l, s)
    ensures Spare(l, AcquireLane(s, laneID))
  {
    hide Spare, LaneOK;
    AttachSpare(l, s, laneID);
    var t := Attach(s, laneID);
    FlagSpare(l, t, laneID, t.lanes[laneID].(websocketActive := true));
  }

  lemma {:induction false} StepSpare(l: Limits, s: Session, op: Op)
    requires Spare(l, s) && Conserved(s) && s.streams.Keys <= s.used
    ensures Spare(l, Step(s, op))
  {
    hide Spare, Conserved, UpBegin, UpEnd, FailLane, NextWrite, BackendDrained, BackendWriteFinished, BackendData, BackendClosed,
         PollServe, ReserveInput, ResizeInput, ReleaseInput, AcquireLane, ReleaseWebSocketLane, Close;
    match op
    case UpStart(laneID, sequence, body, expected) => UpBeginSpare(l, s, LaneID(s, laneID), sequence, body, expected);
    case UpFinish(laneID, serial, expected) => UpEndSpare(l, s, LaneID(s, laneID), serial, expected);
    case Fail(laneID, expected) => DetachSpare(l, s, LaneID(s, laneID), expected);
    case TakeWrite(id) => WriterSpare(l, s, id, 0);
    case Drained(id, amount) => WriterSpare(l, s, id, amount);
    case WriteDone(id) => WriterSpare(l, s, id, 0);
    case FromBackend(id, data) => if |data| <= RELAY_DATA_CHUNK { BackendDataSpare(l, s, id, data); }
    case BackendEnded(id) => BackendClosedSpare(l, s, id);
    case Poll(laneID, serial, cursor, expected) => PollServeSpare(l, s, LaneID(s, laneID), serial, cursor, expected);
    case ReserveIn(handle, size) => InputsSpare(l, s, handle, size);
    case ResizeIn(handle, size) => InputsSpare(l, s, handle, size);
    case ReleaseIn(handle) => InputsSpare(l, s, handle, 0);
    case AttachLane(laneID) => AcquireSpare(l, s, laneID);
    case DetachLane(laneID, expected) => DetachSpare(l, s, laneID, expected);
    case CloseNow => CloseSpare(l, s);
  }

  // ---------------------------------------------------------------- every run

  lemma {:induction false} RunSpare(l: Limits, s: Session, ops: seq<Op>)
    requires Sound(s) && Spare(l, s)
    ensures Spare(l, Run(s, ops))
    decreases |ops|
  {
    hide Sound, Spare, Step, Conserved;
    if ops != [] {
      SoundKeeps(s, 0);
      StepSpare(l, s, ops[0]);
      StepIsSound(s, ops[0]);
      var next := Step(s, ops[0]);
      RunSpare(l, next, ops[1..]);
    }
  }

  lemma {:induction false} StartSpare(l: Limits, c: Carrier, env: nat -> bool)
    ensures Spare(l, NewSession(l, c, env))
  {
    hide SessionLimits;
  }

  /**
   * On every run, whatever is charged for anything but CLOSE and WINDOW frames that are queued or unacknowledged leaves
   * the control reserve free.
   */
  lemma {:induction false} ReserveIsKept(l: Limits, c: Carrier, env: nat -> bool, ops: seq<Op>)
    ensures Spare(l, Reached(l, c, env, ops))
  {
    hide Sound, Spare;
    StartIsSound(l, c, env);
    StartSpare(l, c, env);
    RunSpare(l, NewSession(l, c, env), ops);
  }

  /** The control frames not yet acknowledged, and one more, fit the reserve. */
  ghost predicate FitsReserve(l: Limits, s: Session, cost: nat) {
    && Sum(s.lanes, ControlCostIn) + cost <= ControlReserve(l).0
    && Sum(s.lanes, ControlItemsIn) + 1 <= ControlReserve(l).1
  }

  lemma {:induction false} SpareAdmits(l: Limits, s: Session, cost: nat)
    requires ValidLimits(l) && Spare(l, s) && 0 < cost && FitsReserve(l, s, cost)
    ensures s.ledger.cost + cost <= l.maxPendingPerSession && s.ledger.items + 1 <= l.maxPendingItemsPerSession
    ensures SessionAdmits(l, s.ledger, cost, 1, Control)
  {
    ValidatedReserves(l);
    hide UplinkReserve, ControlReserve, ValidLimits;
  }

  /** So while they fit, the session has room for one more. */
  lemma {:induction false} ReserveAdmits(l: Limits, c: Carrier, env: nat -> bool, ops: seq<Op>, cost: nat)
    requires ValidLimits(l) && 0 < cost && FitsReserve(l, Reached(l, c, env, ops), cost)
    ensures SessionAdmits(l, Reached(l, c, env, ops).ledger, cost, 1, Control)
  {
    hide Reached, SessionAdmits, FitsReserve, ValidLimits, Spare;
    ReserveIsKept(l, c, env, ops);
    SpareAdmits(l, Reached(l, c, env, ops), cost);
  }

  /** No drain goes unreported while the reports fit the reserve and the manager grants them. */
  lemma {:induction false} DrainHasRoom(l: Limits, c: Carrier, env: nat -> bool, ops: seq<Op>, id: nat, amount: nat)
    requires var s := Reached(l, c, env, ops);
             ValidLimits(l) && Drains(s, id, amount) && FitsReserve(l, s, WINDOW_FRAME_COST) && s.env(s.asked)
    ensures var s := Reached(l, c, env, ops); LaneID(s, id) in s.lanes && RoomToReport(s, id, amount)
  {
    hide Reached, SessionAdmits, FitsReserve, ValidLimits, Sound, JoinsQueued;
    var s := Reached(l, c, env, ops);
    ReserveIsKept(l, c, env, ops);
    ReachedIsSound(l, c, env, ops);
    LiveHasLane(s, id);
    SpareAdmits(l, s, WINDOW_FRAME_COST);
  }

  /** And in the middle of a batch no refused OPEN goes unanswered, so that the batch is applied whole. */
  lemma {:induction false} RefusalHasRoom(l: Limits, s: Session, a: int, b: int, f: Frame)
    requires ValidLimits(l) && Spare(l, s) && Holds(s, a, b) && 0 < f.streamID <= MAX_STREAM_ID
    requires var t := Declining(s, f.streamID);
             LaneID(t, f.streamID) in t.lanes && FitsReserve(l, t, CLOSE_FRAME_COST) && t.env(t.asked)
    ensures FrameFits(s, f)
  {
    hide Spare, SessionAdmits, FitsReserve, ValidLimits, Holds, RememberClosed;
    var t := AcquireStream(s.(used := s.used + {f.streamID})).0;
    SameHolds(s, t, a, b);
    NoMoreSpare(l, s, t);
    RememberSpare(l, t, a, b, f.streamID);
    var u := Declining(s, f.streamID);
    SpareAdmits(l, u, CLOSE_FRAME_COST);
    SpareLimits(l, u);
  }

  lemma {:induction false} SpareLimits(l: Limits, s: Session)
    requires Spare(l, s)
    ensures s.limits == l
  {}
}
