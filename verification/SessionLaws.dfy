/** What single sections of a session do, exactly: what they admit, what they end, and what they leave alone. */
module SessionLaws {
  import opened Bytes
  import opened FrameCodec
  import opened DownlinkLane
  import opened Limits
  import opened PendingBudget
  import opened SessionCore
  import opened SessionAccounting
  import opened SessionDelivery
  import opened SessionRuns
  import opened SessionTheorems

  // ---------------------------------------------------------------- admission

  /** An open session has room for a charge beside everything it holds. */
  ghost predicate HasRoom(s: Session, cost: nat, items: nat, class_: PendingClass) {
    && HeldCost(s) + cost <= SessionLimits(s.limits, class_).0
    && HeldItems(s) + items <= SessionLimits(s.limits, class_).1
  }

  lemma {:induction false} ChargedExactly(s: Session, cost: nat, items: nat, class_: PendingClass)
    requires Conserved(s) && !s.closed && 0 < cost
    ensures ReservePending(s, cost, items, class_).1 <==> HasRoom(s, cost, items, class_) && s.env(s.asked)
    ensures ReservePending(s, cost, items, class_).0.inputs == s.inputs
  {
    hide SessionLimits, HeldCost, HeldItems;
  }

  /** A reader is allowed the most that one new DATA frame may carry within the credit and the session's limits. */
  lemma {:induction false} AllowanceIsLargest(s: Session, id: nat, n: nat)
    requires Conserved(s) && !s.closed && id in s.streams && 0 < n
    ensures n <= ReadAllowance(s, id) <==>
            && n <= RELAY_DATA_CHUNK && n <= s.streams[id].sendCredit
            && HasRoom(s, FRAME_HEADER_SIZE + n + QUEUE_ITEM_COST, 1, Downlink)
  {
    hide SessionLimits, HeldCost, HeldItems;
  }

  function InputBound(s: Session): nat {
    Min(s.limits.maxBodyBytes, MAX_CARRIER_BATCH_BYTES)
  }

  /** A WebSocket input gets its reservation exactly when its size, the session's limits and the manager allow it. */
  lemma {:induction false} InputReservedExactly(s: Session, handle: nat, size: nat)
    requires Conserved(s) && !s.closed && handle !in s.inputs
    ensures var granted := size <= 2 * InputBound(s) && HasRoom(s, size + QUEUE_ITEM_COST, 1, Uplink) && s.env(s.asked);
            ReserveInput(s, handle, size).inputs == if granted then s.inputs[handle := size + QUEUE_ITEM_COST] else s.inputs
  {
    hide ReservePending, HasRoom, Conserved;
    ChargedExactly(s, size + QUEUE_ITEM_COST, 1, Uplink);
  }

  /** And it is resized exactly when it shrinks, or the growth is allowed. */
  lemma {:induction false} InputResizedExactly(s: Session, handle: nat, size: nat)
    requires Conserved(s) && !s.closed && handle in s.inputs
    ensures var (t, ok) := ResizeInput(s, handle, size);
            var (next, now) := (size + QUEUE_ITEM_COST, s.inputs[handle]);
            && (ok <==> size <= 3 * InputBound(s) && (next <= now || (HasRoom(s, next - now, 0, Uplink) && s.env(s.asked))))
            && t.inputs == if ok then s.inputs[handle := next] else s.inputs
  {
    hide ReservePending, ReleasePending, HasRoom, Conserved;
    var (next, now) := (size + QUEUE_ITEM_COST, s.inputs[handle]);
    if next > now {
      ChargedExactly(s, next - now, 0, Uplink);
    } else {
      ReleasedInputs(s, now - next, 0);
    }
  }

  lemma {:induction false} ReleasedInputs(s: Session, cost: int, items: int)
    ensures ReleasePending(s, cost, items).inputs == s.inputs
  {}

  lemma {:induction false} InputReleasedExactly(s: Session, handle: nat)
    ensures ReleaseInput(s, handle).inputs == s.inputs - {handle}
  {
    hide ReleasePending;
    if handle in s.inputs {
      ReleasedInputs(s, s.inputs[handle], 1);
    } else {
      assert s.inputs - {handle} == s.inputs;
    }
  }

  // ---------------------------------------------------------------- endings

  /** A session closes for good, with nothing left in it but reservations it no longer owes for. */
  lemma {:induction false} CloseEnds(s: Session)
    requires Conserved(s)
    ensures var t := Close(s);
            t.closed && t.streams == map[] && t.lanes == map[] && t.ledger.cost == 0 && t.ledger.items == 0 && t.inputs == s.inputs
  {}

  /** The lane of a WebSocket connection ends, with its stream and everything queued, exactly for the connection it has. */
  lemma {:induction false} LaneEnds(s: Session, laneID: nat, expected: Option<nat>)
    requires s.carrier == WebSocketLanes && laneID != 0
    ensures var t := FailLane(s, laneID, expected);
            if laneID in s.lanes && expected == Some(s.lanes[laneID].serial) then
              laneID !in t.lanes && t.streams == s.streams - {laneID} && t.closed == s.closed
            else t == s
  {
    hide RememberClosed, LaneOK;
    if laneID in s.lanes && expected == Some(s.lanes[laneID].serial) {
      var t := SetLane(s, laneID, s.lanes[laneID].(websocketActive := false));
      if laneID in s.streams {
        RememberKeeps(DeleteStream(t, laneID), laneID);
        ReleaseLaneEnds(RememberClosed(DeleteStream(t, laneID), laneID), laneID);
      } else {
        assert s.streams - {laneID} == s.streams;
        ReleaseLaneEnds(t, laneID);
      }
    }
  }

  lemma {:induction false} ReleaseLaneEnds(s: Session, laneID: nat)
    requires laneID != 0
    ensures var t := ReleaseLane(s, laneID);
            && t.lanes == s.lanes - {laneID} && t.streams == s.streams && t.closed == s.closed && t.carrier == s.carrier
            && t.limits == s.limits && t.tombstones == s.tombstones
  {
    if laneID !in s.lanes {
      assert s.lanes - {laneID} == s.lanes;
    }
  }

  lemma {:induction false} RememberKeeps(s: Session, id: nat)
    ensures var t := RememberClosed(s, id);
            && t.streams == s.streams && t.closed == s.closed && t.carrier == s.carrier && t.limits == s.limits
            && (id !in s.tombstones.order && id in s.lanes ==> id in t.lanes && t.lanes[id] == s.lanes[id])
            && (!UsesLanes(s.carrier) ==> t.lanes == s.lanes)
  {
    hide LaneOK, Remember;
    RememberOrder(s.tombstones, id);
  }

  /** Without lanes of its own a failure is the session's. */
  lemma {:induction false} FailureCloses(s: Session, laneID: nat, expected: Option<nat>)
    requires s.carrier != WebSocketLanes
    ensures FailLane(s, laneID, expected).closed
  {}

  /** What a lane has queued for a stream after its end: nothing of it. */
  lemma {:induction false} StreamEnds(s: Session, id: nat)
    requires Identities(s) && id in s.streams && LaneID(s, id) in s.lanes
    ensures var (t, laneID) := (ApplyClose(s, id), LaneID(s, id));
            && t.streams == s.streams - {id} && laneID in t.lanes && t.carrier == s.carrier && t.closed == s.closed
            && t.lanes[laneID].down.pending == Without(s.lanes[laneID].down.pending, id)
  {
    hide DropFrames, DeleteStream, RememberClosed, LaneOK, Without, Remember, WindowIndex;
    DropKeeps(s, id);
    var u := DropFrames(s, id);
    DeleteKeeps(u, id);
    var v := DeleteStream(u, id);
    NotRemembered(s, id);
    RememberKeeps(v, id);
    RememberClosedFrame(v, id);
    if !UsesLanes(s.carrier) {
      assert LaneID(s, id) == 0;
    }
  }

  lemma {:induction false} DropKeeps(s: Session, id: nat)
    ensures var (t, laneID) := (DropFrames(s, id), LaneID(s, id));
            && t.streams == s.streams && t.carrier == s.carrier && t.closed == s.closed && t.tombstones == s.tombstones
            && t.lanes.Keys == s.lanes.Keys
            && (laneID in s.lanes ==> laneID in t.lanes && t.lanes[laneID].down.pending == Without(s.lanes[laneID].down.pending, id))
  {
    hide LaneOK, CostFor, ItemsFor, Without, WindowIndex;
  }

  lemma {:induction false} DeleteKeeps(s: Session, id: nat)
    requires id in s.streams
    ensures var t := DeleteStream(s, id);
            && t.streams == s.streams - {id} && t.carrier == s.carrier && t.closed == s.closed && t.tombstones == s.tombstones
            && t.lanes == s.lanes
  {}

  /**
   * When a backend ends, its stream is gone and the lane ends with its CLOSE and nothing else of it; without room for
   * that CLOSE the session closes.
   */
  lemma {:induction false} BackendEndClosesStream(s: Session, id: StreamID)
    requires Sound(s) && id in s.streams && LaneID(s, id) in s.lanes && !s.closed
    ensures var (t, laneID) := (BackendClosed(s, id), LaneID(s, id));
            || t.closed
            || (&& t.streams == s.streams - {id} && laneID in t.lanes
                && Frames(t.lanes[laneID].down.pending) ==
                   Frames(Without(s.lanes[laneID].down.pending, id)) + [Frame(CLOSE, id, [])])
  {
    SoundKeeps(s, id);
    StreamEnds(s, id);
    BackendClosedIs(s, id);
    var (u, laneID) := (ApplyClose(s, id), LaneID(s, id));
    hide ApplyClose, QueueFrame, LaneOK, Frames, Without, Sound, Conserved;
    QueueFrameFrame(u, CLOSE, id, []);
    QueueFrameLanes(u, CLOSE, id, []);
    ClosesStream(u.lanes[laneID].down, id);
  }

  lemma {:induction false} ClosesStream(l: GoodLane, id: StreamID)
    ensures Frames(Enqueued(l, CLOSE, id, []).pending) == Frames(l.pending) + [Frame(CLOSE, id, [])]
  {
    hide LaneOK;
    assert Enqueued(l, CLOSE, id, []).pending == l.pending + [DownlinkLane.Fresh(CLOSE, id, [])];
    FramesAppend(l.pending, [DownlinkLane.Fresh(CLOSE, id, [])]);
  }

  /** A WebSocket connection attaches to its lane exactly when the identifier is fresh and there is room for a new lane. */
  lemma {:induction false} AttachesExactly(s: Session, laneID: nat)
    ensures var t := AcquireLane(s, laneID);
            var granted := !s.closed && s.carrier == WebSocketLanes && 0 < laneID <= MAX_STREAM_ID && laneID !in s.used
                           && (laneID in s.lanes || |s.lanes| < s.limits.maxStreamsPerSession);
            if granted then laneID in t.lanes && t.lanes[laneID].websocketActive && t.lanes.Keys == s.lanes.Keys + {laneID} else t == s
  {
    hide LaneOK, Attach;
    AttachedKeys(s, laneID);
    var t := Attach(s, laneID);
    assert t.lanes[laneID := t.lanes[laneID].(websocketActive := true)].Keys == t.lanes.Keys;
  }

  lemma {:induction false} AttachedKeys(s: Session, laneID: nat)
    ensures laneID in Attach(s, laneID).lanes && Attach(s, laneID).lanes.Keys == s.lanes.Keys + {laneID}
  {
    hide LaneOK;
    assert laneID in s.lanes ==> s.lanes.Keys + {laneID} == s.lanes.Keys;
  }

  /** On a lane not known yet only an OPEN of its stream may begin; frames that come late are acknowledged and ignored. */
  lemma {:induction false} NewLaneExactly(s: Session, laneID: nat, sequence: nat, body: bytes)
    requires laneID !in s.lanes && !s.closed && 0 < sequence && |body| <= s.limits.maxBodyBytes
    ensures var (t, r) := UpBegin(s, laneID, sequence, body, None);
            var (lanes, parsed) := (UsesLanes(s.carrier), ParseUplink(body, laneID, UsesLanes(s.carrier)));
            if lanes && laneID != 0 && StartsWithOpen(body, laneID) then
              (r.Proceed? <==> sequence == 1) && (r.Proceed? ==> laneID in t.lanes && t.lanes[laneID].upActive == Some(UpJob(1, body)))
            else
              t == s && r == if lanes && parsed.Ok? && OnlyLateFrames(parsed.value) then Acknowledged(sequence) else UpProtocol(true)
  {
    hide ParseUplink, FailLane, LaneOK, StartsWithOpen, OnlyLateFrames;
  }

  // ---------------------------------------------------------------- the writer

  /** A payload joins the last queued buffer exactly when both fit one relay chunk, and is charged accordingly. */
  lemma {:induction false} BufferedExactly(t: Stream, payload: bytes)
    ensures var u := AppendWrite(t, payload);
            var joins := t.writes != [] && |t.writes[|t.writes| - 1]| + |payload| <= RELAY_DATA_CHUNK;
            && |u.writes| == |t.writes| + (if joins then 0 else 1)
            && (joins ==> u.writes[|u.writes| - 1] == t.writes[|t.writes| - 1] + payload && u.writes[..|u.writes| - 1] == t.writes[..|t.writes| - 1])
            && (!joins ==> u.writes == t.writes + [payload])
            && u.pendingWriteItems - t.pendingWriteItems == |u.writes| - |t.writes|
            && u.pendingWriteCost - t.pendingWriteCost == |payload| + QUEUE_ITEM_COST * (|u.writes| - |t.writes|)
  {}

  /** Steps of the goroutine that writes to the backend of stream id. */
  predicate ByWriterOf(op: Op, id: nat) {
    op == TakeWrite(id) || op == WriteDone(id) || (op.Drained? && op.id == id)
  }

  /** What the writer of a stream does next. */
  function NextOp(t: Stream, id: nat): Op {
    match t.inFlight
    case None => TakeWrite(id)
    case Some(b) => if b == [] then WriteDone(id) else Drained(id, |b|)
  }

  /** Nothing is left to write. */
  predicate Written(t: Stream) {
    t.writes == [] && t.inFlight.None?
  }

  function ToWrite(t: Stream): (nat, nat) {
    (|t.writes|, match t.inFlight case None => 0 case Some(b) => if b == [] then 1 else 2)
  }

  predicate Fewer(a: Stream, b: Stream) {
    ToWrite(a).0 < ToWrite(b).0 || (ToWrite(a).0 == ToWrite(b).0 && ToWrite(a).1 < ToWrite(b).1)
  }

  predicate MovesOn(s: Session, u: Session, id: nat)
    requires id in s.streams
  {
    id in u.streams && u.streams[id].accepted == s.streams[id].accepted && (u.streams[id].halted || Fewer(u.streams[id], s.streams[id]))
  }

  lemma {:induction false} TakeMoves(s: Session, id: nat)
    requires !s.closed && id in s.streams && s.streams[id].inFlight.None? && s.streams[id].writes != []
    ensures MovesOn(s, NextWrite(s, id), id)
  {}

  lemma {:induction false} DoneMoves(s: Session, id: nat)
    requires !s.closed && id in s.streams && s.streams[id].inFlight == Some([]) && !s.streams[id].halted && StreamGood(s.streams[id])
    ensures MovesOn(s, BackendWriteFinished(s, id).0, id)
  {
    hide Flatten, Balance, Spent, Covered, ReleasePending;
    WriterNeverRefused(s.streams[id], 0);
    var done := BackendWriteFinished(s, id).0;
    ReleasedFrame(SetStream(s, id, s.streams[id].(pendingWriteItems := s.streams[id].pendingWriteItems - 1,
                                                  pendingWriteCost := s.streams[id].pendingWriteCost - QUEUE_ITEM_COST,
                                                  inFlight := None)), QUEUE_ITEM_COST, 1);
  }

  lemma {:induction false} DrainMovesOn(s: Session, id: StreamID)
    requires !s.closed && id in s.streams && s.streams[id].inFlight.Some? && s.streams[id].inFlight.value != []
    requires !s.streams[id].halted && StreamGood(s.streams[id])
    ensures MovesOn(s, BackendDrained(s, id, |s.streams[id].inFlight.value|).0, id)
  {
    var (t, n) := (s.streams[id], |s.streams[id].inFlight.value|);
    WriterNeverRefused(t, n);
    hide QueueFrame, StreamGood, ReleasePending, CanDrain;
    var v := SetStream(s, id, Drain(t, n));
    ReleasedFrame(v, n, 0);
    QueueFrameFrame(ReleasePending(v, n, 0), WINDOW, id, WindowPayload(n).value);
  }

  lemma {:induction false} WriterMoves(s: Session, id: nat)
    requires Sound(s) && id in s.streams && !s.streams[id].halted && !Written(s.streams[id])
    ensures MovesOn(s, Step(s, NextOp(s.streams[id], id)), id)
  {
    hide StreamGood, MovesOn, NextWrite, BackendDrained, BackendWriteFinished, Sound, Kept, Conserved, UpBegin, UpEnd, FailLane,
         BackendData, BackendClosed, PollServe, ReserveInput, ResizeInput, ReleaseInput, AcquireLane, ReleaseWebSocketLane, Close;
    SoundKeeps(s, id);
    LiveKeys(s);
    LiveOpen(s, id);
    match s.streams[id].inFlight
    case None => TakeMoves(s, id);
    case Some(b) => if b == [] { DoneMoves(s, id); } else { DrainMovesOn(s, id); }
  }

  lemma {:induction false} LiveKeys(s: Session)
    requires Sound(s)
    ensures Conserved(s) && s.streams.Keys <= s.used
  {}

  lemma {:induction false} LiveOpen(s: Session, id: nat)
    requires Kept(s, id, []) && Conserved(s) && s.streams.Keys <= s.used && id in s.streams
    ensures !s.closed && StreamGood(s.streams[id]) && 0 < id <= MAX_STREAM_ID
  {}

  /** From any moment on the writer of a live stream can write everything it accepted, unless a report finds no room. */
  lemma {:induction false} UploadDrains(s: Session, id: nat) returns (ops: seq<Op>)
    requires Sound(s) && id in s.streams
    ensures forall op <- ops :: ByWriterOf(op, id)
    ensures var t := Run(s, ops);
            && id in t.streams && t.streams[id].accepted == s.streams[id].accepted
            && (t.streams[id].halted || t.streams[id].written == s.streams[id].accepted)
    decreases ToWrite(s.streams[id]).0, ToWrite(s.streams[id]).1, if s.streams[id].halted then 0 else 1
  {
    hide Sound, Step;
    SoundKeeps(s, id);
    if s.streams[id].halted {
      ops := [];
    } else if Written(s.streams[id]) {
      ops := [];
      assert s.streams[id].written + ([] + Flatten<byte>([])) == s.streams[id].written;
    } else {
      hide StreamGood, Written;
      var op := NextOp(s.streams[id], id);
      WriterMoves(s, id);
      StepIsSound(s, op);
      var t := Step(s, op);
      if t.streams[id].halted {
        ops := [op];
        assert Run(s, ops) == Run(t, []);
      } else {
        var rest := UploadDrains(t, id);
        ops := [op] + rest;
        assert ops[1..] == rest;
      }
    }
  }
}
