/**
 * Exactly-once delivery and credit conservation, per stream and in both directions.
 *
 * `Observe` is what the lane of a stream has recorded about it: the DATA bytes and the WINDOW credit
 * in acknowledged, unacknowledged and queued downlink frames, and the DATA bytes and WINDOW credit in applied batches.
 */
module SessionDelivery {
  import opened Bytes
  import opened FrameCodec
  import opened DownlinkLane
  import opened Limits
  import opened PendingBudget
  import opened SessionCore
  import opened SessionAccounting

  datatype Observation = Observation(attached: bool, data: bytes, credit: nat, up: bytes, grants: nat)

  const DETACHED := Observation(false, [], 0, [], 0)
  const FRESH_LANE := Observation(true, [], 0, [], 0)

  /** Everything a lane has been asked to deliver, in order. */
  function LaneLog(l: Lane): seq<Frame> {
    l.ackedFrames + l.unackedFrames + Frames(l.pending)
  }

  function ObserveLane(l: CarrierLane, o: nat): Observation {
    Observation(true, DataOf(o, LaneLog(l.down)), CreditOf(o, LaneLog(l.down)),
                DataOf(o, l.upFrames), CreditOf(o, l.upFrames))
  }

  function Observe(s: Session, o: nat): Observation {
    var laneID := LaneID(s, o);
    if laneID in s.lanes then ObserveLane(s.lanes[laneID], o) else DETACHED
  }

  function InFlightBytes(t: Stream): bytes {
    match t.inFlight case None => [] case Some(b) => b
  }

  /** Window, charge and byte-order conservation of one stream. */
  predicate StreamGood(t: Stream) {
    && t.receiveWindow + t.pendingWriteBytes == INITIAL_STREAM_WINDOW
    && t.pendingWriteCost == t.pendingWriteBytes + QUEUE_ITEM_COST * t.pendingWriteItems
    && t.pendingWriteItems == |t.writes| + (if t.inFlight.Some? then 1 else 0)
    && t.accepted == t.written + (InFlightBytes(t) + Flatten(t.writes))
    && t.pendingWriteBytes == |InFlightBytes(t)| + |Flatten(t.writes)|
    && t.sendCredit == Balance(t.credits) && Covered(t.credits)
    && |t.offered| + t.refused == Spent(t.credits)
    && (t.unreported > 0 ==> t.halted)
  }

  /**
   * Stream `o` is tracked: while it lives, its lane carries exactly the bytes its backend offered and
   * exactly the credit for the bytes its backend took, and what it accepted and was granted is what applied
   * batches (and `more`, of the batch being applied) carried; before it opens nothing is recorded about it.
   */
  predicate TracksWith(s: Session, o: nat, more: seq<Frame>) {
    && (o in s.streams ==>
        var t := s.streams[o];
        var v := Observe(s, o);
        && v.attached && StreamGood(t) && v.data == t.offered && v.credit + t.unreported == |t.written|
        && v.up + DataOf(o, more) == t.accepted && v.grants + CreditOf(o, more) == Granted(t.credits))
    && (o !in s.used ==> DataOf(o, more) == [] && CreditOf(o, more) == 0 && Observe(s, o) in {DETACHED, FRESH_LANE})
  }

  predicate Tracks(s: Session, o: nat) {
    TracksWith(s, o, [])
  }

  // ---------------------------------------------------------------- what each part does to an observation

  /** A log whose queued part gains `data` and `credit` gains exactly that. */
  lemma {:induction false} LogGrows(o: nat, sent: seq<Frame>, before: seq<Frame>, after: seq<Frame>, data: bytes, credit: nat)
    requires DataOf(o, after) == DataOf(o, before) + data
    requires CreditOf(o, after) == CreditOf(o, before) + credit
    ensures DataOf(o, sent + after) == DataOf(o, sent + before) + data
    ensures CreditOf(o, sent + after) == CreditOf(o, sent + before) + credit
  {
    DataAppend(o, sent, after);
    DataAppend(o, sent, before);
    CreditAppend(o, sent, after);
    CreditAppend(o, sent, before);
  }

  lemma {:induction false} EnqueuedEffect(l: GoodLane, kind: byte, id: nat, payload: bytes, o: nat)
    requires Queueable(kind, id, payload)
    ensures CommitEffect(l, Enqueued(l, kind, id, payload), kind, id, payload, o)
  {
    CommitEffects(l, kind, id, payload, o);
  }

  lemma {:induction false} EnqueuedLogs(l: GoodLane, kind: byte, id: nat, payload: bytes, o: nat)
    requires Queueable(kind, id, payload)
    ensures var m := Enqueued(l, kind, id, payload);
            && DataOf(o, LaneLog(m)) == DataOf(o, LaneLog(l)) + (if kind == DATA && o == id then payload else [])
            && CreditOf(o, LaneLog(m)) == CreditOf(o, LaneLog(l)) + (if kind == WINDOW && o == id then DeltaOf(payload) else 0)
  {
    EnqueuedEffect(l, kind, id, payload, o);
    LogGrows(o, l.ackedFrames + l.unackedFrames, Frames(l.pending), Frames(Enqueued(l, kind, id, payload).pending),
             if kind == DATA && o == id then payload else [], if kind == WINDOW && o == id then DeltaOf(payload) else 0);
  }

  lemma {:induction false} DroppedLogs(l: GoodLane, id: nat, o: nat)
    requires o != id
    ensures DataOf(o, LaneLog(Dropped(l, id))) == DataOf(o, LaneLog(l))
    ensures CreditOf(o, LaneLog(Dropped(l, id))) == CreditOf(o, LaneLog(l))
  {
    WithoutCarries(l.pending, id, o);
    LogGrows(o, l.ackedFrames + l.unackedFrames, Frames(l.pending), Frames(Dropped(l, id).pending), [], 0);
  }

  lemma {:induction false} NothingOutstanding(l: Lane)
    requires LaneOK(l) && l.unacked == []
    ensures l.unackedFrames == []
  {}

  lemma {:induction false} Moved(acked: seq<Frame>, unacked: seq<Frame>, queued: seq<Frame>, before: seq<Frame>)
    requires unacked + queued == before
    ensures acked + unacked + queued == acked + [] + before
  {}

  /** Taking a batch only moves frames along the log. */
  lemma {:induction false} ServedNextLog(l: Lane, cursor: nat, limit: nat)
    requires LaneOK(l) && l.unacked == [] && cursor == l.downCursor
    ensures LaneLog(ServeNext(l, cursor, limit).0) == LaneLog(l)
  {
    hide LaneOK, ServeNext, EncodeAll, FramesCost, WindowIndex, CostOf;
    NothingOutstanding(l);
    ServeNextKeeps(l, cursor, limit);
    var m := ServeNext(l, cursor, limit).0;
    Moved(m.ackedFrames, m.unackedFrames, Frames(m.pending), Frames(l.pending));
  }

  /** Serving a poll only moves frames along the log. */
  lemma {:induction false} ServedLog(l: Lane, cursor: nat, limit: nat)
    requires LaneOK(l)
    ensures LaneLog(Serve(l, cursor, limit).0) == LaneLog(l)
  {
    hide ServeNext, EncodeAll, FramesCost, WindowIndex, CostOf;
    if !(l.unacked != [] && cursor == l.unackedBase) && cursor == l.downCursor {
      AcknowledgeKeeps(l);
      ServedNextLog(if l.unacked != [] then Acknowledge(l) else l, cursor, limit);
    }
  }

  /** Nothing but lanes, the ledger and questions to the manager differ. */
  predicate SameStreams(s: Session, t: Session) {
    t.streams == s.streams && t.used == s.used && t.tombstones == s.tombstones && t.openLog == s.openLog && t.carrier == s.carrier
  }

  lemma {:induction false} ReservePendingFrame(s: Session, cost: nat, items: nat, class_: PendingClass)
    ensures var t := ReservePending(s, cost, items, class_).0;
            SameStreams(s, t) && t.lanes == s.lanes && t.closed == s.closed && t.inputs == s.inputs && t.nextSerial == s.nextSerial
  {
    hide SessionAdmits, LaneOK, Charge;
  }

  lemma {:induction false} QueueFrameFrame(s: Session, kind: byte, id: StreamID, payload: bytes)
    requires Queueable(kind, id, payload)
    ensures SameStreams(s, QueueFrame(s, kind, id, payload).0)
    ensures QueueFrame(s, kind, id, payload).0.lanes.Keys == s.lanes.Keys
    ensures QueueFrame(s, kind, id, payload).0.nextSerial == s.nextSerial
  {
    hide PlanFrame, PlanCost, PlanItems, ReservePending, Enqueued, LaneOK, Queueable;
    if LaneID(s, id) in s.lanes {
      var plan := PlanFrame(s.lanes[LaneID(s, id)].down, kind, id, payload);
      ReservePendingFrame(s, PlanCost(plan, payload), PlanItems(plan), if kind == DATA then Downlink else Control);
    }
  }

  lemma {:induction false} QueueFrameLanes(s: Session, kind: byte, id: StreamID, payload: bytes)
    requires Queueable(kind, id, payload)
    ensures var (t, ok) := QueueFrame(s, kind, id, payload);
            var laneID := LaneID(s, id);
            if ok then laneID in s.lanes &&
              t.lanes == s.lanes[laneID := s.lanes[laneID].(down := Enqueued(s.lanes[laneID].down, kind, id, payload))]
            else t.lanes == s.lanes
  {
    hide PlanFrame, SessionAdmits, Enqueued, LaneOK, Queueable;
  }

  lemma {:induction false} QueueFrameObserved(s: Session, kind: byte, id: StreamID, payload: bytes, o: nat)
    requires Queueable(kind, id, payload)
    ensures var (t, ok) := QueueFrame(s, kind, id, payload);
            Observe(t, o) == Observe(s, o).(
              data := Observe(s, o).data + (if ok && kind == DATA && o == id then payload else []),
              credit := Observe(s, o).credit + (if ok && kind == WINDOW && o == id then DeltaOf(payload) else 0))
  {
    hide QueueFrame, Enqueued, LaneOK, Queueable, LaneLog, DataOf, CreditOf;
    QueueFrameFrame(s, kind, id, payload);
    QueueFrameLanes(s, kind, id, payload);
    var laneID := LaneID(s, id);
    if laneID in s.lanes {
      EnqueuedLogs(s.lanes[laneID].down, kind, id, payload, o);
    }
  }

  lemma {:induction false} DropFramesObserved(s: Session, id: nat, o: nat)
    requires o != id
    ensures SameStreams(s, DropFrames(s, id)) && DropFrames(s, id).lanes.Keys == s.lanes.Keys
    ensures Observe(DropFrames(s, id), o) == Observe(s, o)
  {
    hide Dropped, LaneOK, LaneLog, DataOf, CreditOf;
    var laneID := LaneID(s, id);
    if laneID in s.lanes {
      DroppedLogs(s.lanes[laneID].down, id, o);
    }
  }

  lemma {:induction false} DropFramesFrame(s: Session, id: nat)
    ensures SameStreams(s, DropFrames(s, id)) && DropFrames(s, id).lanes.Keys == s.lanes.Keys
  {
    hide Dropped, LaneOK;
  }

  lemma {:induction false} RememberOrder(t: Tombstones, v: nat)
    ensures var (u, evicted) := Remember(t, v);
            && (forall id | id in u.order :: id == v || id in t.order)
            && (evicted.Some? ==> evicted.value in t.order && evicted.value != v)
  {}

  /** Remembering a closed stream releases at most the lane of another closed stream. */
  lemma {:induction false} RememberClosedFrame(s: Session, id: nat)
    ensures var t := RememberClosed(s, id);
            && t.streams == s.streams && t.used == s.used && t.openLog == s.openLog && t.carrier == s.carrier
            && t.tombstones == Remember(s.tombstones, id).0
            && (t.lanes == s.lanes
                || (exists e :: e in s.tombstones.order && t.lanes == s.lanes - {e}))
  {
    hide LaneOK, Remember;
    RememberOrder(s.tombstones, id);
  }

  lemma {:induction false} RememberClosedObserved(s: Session, id: nat, o: nat)
    requires o !in s.tombstones.order
    ensures Observe(RememberClosed(s, id), o) == Observe(s, o)
  {
    hide LaneOK, LaneLog, Remember, DataOf, CreditOf;
    RememberOrder(s.tombstones, id);
  }

  lemma {:induction false} DeleteStreamObserved(s: Session, id: nat, o: nat)
    requires id in s.streams
    ensures var t := DeleteStream(s, id);
            && t.streams == s.streams - {id} && t.used == s.used && t.openLog == s.openLog && t.carrier == s.carrier
            && t.tombstones == s.tombstones && t.lanes == s.lanes
            && Observe(t, o) == Observe(s, o)
  {
    hide LaneOK, LaneLog, DataOf, CreditOf;
  }

  lemma {:induction false} BackendClosedIs(s: Session, id: StreamID)
    requires !s.closed && id in s.streams
    ensures BackendClosed(s, id) == var (t, ok) := QueueFrame(ApplyClose(s, id), CLOSE, id, []); if ok then t else Close(t)
  {
    hide QueueFrame, Close, DropFrames, DeleteStream, RememberClosed;
  }

  lemma {:induction false} PolledObserved(s: Session, laneID: nat, cursor: nat, o: nat)
    requires laneID in s.lanes
    ensures SameStreams(s, Polled(s, laneID, cursor).0)
    ensures Observe(Polled(s, laneID, cursor).0, o) == Observe(s, o)
  {
    hide LaneOK, LaneLog, Serve, DataOf, CreditOf;
    var down := s.lanes[laneID].down;
    ServeKeeps(down, cursor, s.limits.carrierBatchBytes);
    ServedLog(down, cursor, s.limits.carrierBatchBytes);
  }

  // ---------------------------------------------------------------- identities

  lemma {:induction false} ClosedIdentities(s: Session, id: nat)
    requires Identities(s) && id in s.used && id !in s.streams
    ensures Identities(RememberClosed(s, id))
  {
    hide RememberClosed, Remember;
    RememberOrder(s.tombstones, id);
    RememberClosedFrame(s, id);
  }

  // ---------------------------------------------------------------- one stream's own arithmetic

  lemma {:induction false} AppendWriteFlattens(t: Stream, payload: bytes)
    ensures Flatten(AppendWrite(t, payload).writes) == Flatten(t.writes) + payload
  {
    if Coalesces(t, payload) {
      var front, last := t.writes[..|t.writes| - 1], t.writes[|t.writes| - 1];
      assert t.writes == front + [last] && AppendWrite(t, payload).writes == front + [last + payload];
      FlattenAppend(front, [last]);
      FlattenAppend(front, [last + payload]);
      FlattenSingle(last);
      FlattenSingle(last + payload);
    } else {
      FlattenAppend(t.writes, [payload]);
      FlattenSingle(payload);
    }
  }

  lemma {:induction false} AppendWriteGood(t: Stream, payload: bytes)
    requires StreamGood(t) && |payload| <= t.receiveWindow
    ensures StreamGood(AppendWrite(t, payload))
  {
    hide Flatten;
    AppendWriteFlattens(t, payload);
    var a, b, c := t.written, InFlightBytes(t), Flatten(t.writes);
    assert (a + (b + c)) + payload == a + (b + (c + payload));
  }

  lemma {:induction false} DrainGood(t: Stream, amount: nat)
    requires StreamGood(t) && CanDrain(t, amount)
    ensures StreamGood(Drain(t, amount)) && |Drain(t, amount).written| == |t.written| + amount
  {
    var b := t.inFlight.value;
    assert b == b[..amount] + b[amount..];
    assert t.written + ((b[..amount] + b[amount..]) + Flatten(t.writes))
        == (t.written + b[..amount]) + (b[amount..] + Flatten(t.writes));
  }

  lemma {:induction false} TakeWriteGood(t: Stream)
    requires StreamGood(t) && t.writes != [] && t.inFlight.None?
    ensures StreamGood(t.(writes := t.writes[1..], inFlight := Some(t.writes[0])))
  {}

  /** The accounting guards of backendDrained and backendWriteFinished never stop a running writer. */
  lemma {:induction false} WriterNeverRefused(t: Stream, amount: nat)
    requires StreamGood(t) && t.inFlight.Some? && !t.halted
    ensures 0 < amount <= |t.inFlight.value| ==> CanDrain(t, amount)
    ensures t.pendingWriteItems != 0 && t.pendingWriteCost >= QUEUE_ITEM_COST
  {}

  /** A client that obeys its credit never trips the window check. */
  lemma {:induction false} ObedientClientFits(s: Session, o: nat, creditSeen: nat, next: nat)
    requires o in s.streams && Tracks(s, o)
    requires creditSeen <= Observe(s, o).credit
    requires |s.streams[o].accepted| + next <= INITIAL_STREAM_WINDOW + creditSeen
    ensures next <= s.streams[o].receiveWindow
  {}
}
