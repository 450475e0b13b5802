/** The session engine's promises, each spelled out for every run of every session under every manager. */
module SessionTheorems {
  import opened Bytes
  import opened FrameCodec
  import opened DownlinkLane
  import opened Limits
  import opened PendingBudget
  import opened SessionCore
  import opened SessionAccounting
  import opened SessionDelivery
  import opened SessionRuns

  function Reached(l: Limits, c: Carrier, env: nat -> bool, ops: seq<Op>): Session {
    Run(NewSession(l, c, env), ops)
  }

  lemma {:induction false} ReachedIsSound(l: Limits, c: Carrier, env: nat -> bool, ops: seq<Op>)
    ensures Sound(Reached(l, c, env, ops))
  {
    hide Sound;
    StartIsSound(l, c, env);
    RunIsSound(NewSession(l, c, env), ops);
  }

  /**
   * Downlink: the stream's bytes in acknowledged batches, then the batch in flight, then the queue are exactly the
   * bytes taken from its backend, in order.
   */
  lemma {:induction false} DownlinkExactlyOnce(l: Limits, c: Carrier, env: nat -> bool, ops: seq<Op>, id: nat)
    requires id in Reached(l, c, env, ops).streams
    ensures var s := Reached(l, c, env, ops);
            && LaneID(s, id) in s.lanes
            && var down := s.lanes[LaneID(s, id)].down;
               DataOf(id, down.ackedFrames) + DataOf(id, down.unackedFrames) + DataOf(id, Frames(down.pending))
               == s.streams[id].offered
  {
    hide Reached, DataOf, CreditOf, LaneOK, StreamGood;
    ReachedIsSound(l, c, env, ops);
    var s := Reached(l, c, env, ops);
    assert Tracks(s, id);
    var down := s.lanes[LaneID(s, id)].down;
    DataAppend(id, down.ackedFrames + down.unackedFrames, Frames(down.pending));
    DataAppend(id, down.ackedFrames, down.unackedFrames);
  }

  /**
   * Uplink: the DATA bytes of every frame applied, of whole batches and of those that stopped half way, are what the
   * backend took, then the buffer being written, then the queue.
   */
  lemma {:induction false} UplinkExactlyOnce(l: Limits, c: Carrier, env: nat -> bool, ops: seq<Op>, id: nat)
    requires id in Reached(l, c, env, ops).streams
    ensures var s := Reached(l, c, env, ops);
            && LaneID(s, id) in s.lanes
            && var t := s.streams[id];
               DataOf(id, s.lanes[LaneID(s, id)].upFrames) == t.written + (InFlightBytes(t) + Flatten(t.writes))
  {
    hide Reached, CreditOf, LaneOK, LaneLog, Flatten;
    ReachedIsSound(l, c, env, ops);
    var s := Reached(l, c, env, ops);
    assert Tracks(s, id);
    assert ObserveLane(s.lanes[LaneID(s, id)], id).up + [] == s.streams[id].accepted;
  }

  /**
   * Credit: both windows are conserved, and each byte the backend took is returned to the client once, except for
   * those whose report was refused; a writer that still runs has none of these.
   */
  lemma {:induction false} CreditConserved(l: Limits, c: Carrier, env: nat -> bool, ops: seq<Op>, id: nat)
    requires id in Reached(l, c, env, ops).streams
    ensures var s := Reached(l, c, env, ops);
            var t := s.streams[id];
            && t.receiveWindow + t.pendingWriteBytes == INITIAL_STREAM_WINDOW
            && t.pendingWriteCost == t.pendingWriteBytes + QUEUE_ITEM_COST * t.pendingWriteItems
            && LaneID(s, id) in s.lanes
            && var down := s.lanes[LaneID(s, id)].down;
               CreditOf(id, down.ackedFrames) + CreditOf(id, down.unackedFrames) + CreditOf(id, Frames(down.pending))
               + t.unreported == |t.written|
    ensures var t := Reached(l, c, env, ops).streams[id]; !t.halted ==> t.unreported == 0
  {
    hide Reached, DataOf, CreditOf, LaneOK, Flatten;
    ReachedIsSound(l, c, env, ops);
    var s := Reached(l, c, env, ops);
    assert Tracks(s, id);
    var down := s.lanes[LaneID(s, id)].down;
    CreditAppend(id, down.ackedFrames + down.unackedFrames, Frames(down.pending));
    CreditAppend(id, down.ackedFrames, down.unackedFrames);
  }

  /**
   * Send credit: of the initial window and the credit of the WINDOW frames applied, what the backend's chunks did not
   * take, queued or refused, is left. Past 32 bits a grant is cut, and the credit is what `Balance` makes of the grants
   * and chunks in their order.
   */
  lemma {:induction false} SendCreditConserved(l: Limits, c: Carrier, env: nat -> bool, ops: seq<Op>, id: nat)
    requires id in Reached(l, c, env, ops).streams
    ensures var s := Reached(l, c, env, ops);
            var t := s.streams[id];
            && LaneID(s, id) in s.lanes
            && var granted := CreditOf(id, s.lanes[LaneID(s, id)].upFrames);
               && |t.offered| + t.refused + t.sendCredit <= INITIAL_STREAM_WINDOW + granted
               && (INITIAL_STREAM_WINDOW + granted <= MAX_UINT32 ==>
                     |t.offered| + t.refused + t.sendCredit == INITIAL_STREAM_WINDOW + granted)
               && t.sendCredit == Balance(t.credits) && Covered(t.credits)
               && Granted(t.credits) == granted && Spent(t.credits) == |t.offered| + t.refused
  {
    hide Reached, DataOf, LaneOK, Flatten, LaneLog;
    ReachedIsSound(l, c, env, ops);
    var s := Reached(l, c, env, ops);
    assert Tracks(s, id);
    BalanceConserved(s.streams[id].credits);
  }

  /** A chunk passes the credit check of backendData. */
  predicate HasCredit(s: Session, id: nat, n: nat) {
    id in s.streams && n <= s.streams[id].sendCredit
  }

  /** A chunk takes its own size and no more: the next one passes exactly when both together fit the credit before. */
  lemma {:induction false} ReadAfterRead(s: Session, id: nat, first: bytes, next: nat)
    requires !s.closed && 0 < |first| <= RELAY_DATA_CHUNK && HasCredit(s, id, |first|)
    ensures var t := BackendData(s, id, first).0;
            !t.closed && (HasCredit(t, id, next) <==> |first| + next <= s.streams[id].sendCredit)
  {
    hide QueueFrame;
    var u := SetStream(s, id, Pay(s.streams[id], |first|));
    QueueFrameFrame(u, DATA, id, first);
    QueueFrameOpen(u, id, first);
  }

  lemma {:induction false} QueueFrameOpen(s: Session, id: StreamID, data: bytes)
    requires Queueable(DATA, id, data)
    ensures QueueFrame(s, DATA, id, data).0.closed == s.closed
  {
    hide LaneOK, PlanFrame, PlanCost, PlanItems, Enqueued, ReservePending, Queueable;
    if LaneID(s, id) in s.lanes {
      var plan := PlanFrame(s.lanes[LaneID(s, id)].down, DATA, id, data);
      ReservePendingFrame(s, PlanCost(plan, data), PlanItems(plan), Downlink);
    }
  }

  /**
   * Budget: an open session's totals are exactly what its streams, lanes and input reservations hold, a closed one
   * holds nothing, no accounting check ever fails, and no stream identifier opens twice.
   */
  lemma {:induction false} BudgetConserved(l: Limits, c: Carrier, env: nat -> bool, ops: seq<Op>)
    ensures var s := Reached(l, c, env, ops);
            && !s.broken && !s.ledger.panicked
            && s.ledger.cost == (if s.closed then 0 else HeldCost(s))
            && s.ledger.items == (if s.closed then 0 else HeldItems(s))
            && (forall i, j | 0 <= i < j < |s.openLog| :: s.openLog[i] != s.openLog[j])
  {
    hide Reached, HeldCost, HeldItems;
    ReachedIsSound(l, c, env, ops);
  }

  /** nextReadAllowance: how much a reader may take from its backend now. */
  function ReadAllowance(s: Session, id: nat): nat
    requires id in s.streams
  {
    var limit := Min(s.streams[id].sendCredit, RELAY_DATA_CHUNK);
    var (costLimit, itemLimit) := SessionLimits(s.limits, Downlink);
    if s.ledger.items >= itemLimit then 0
    else Min(limit, Max(0, costLimit - s.ledger.cost - QUEUE_ITEM_COST - FRAME_HEADER_SIZE))
  }

  /**
   * Whatever a reader reads within its allowance is accepted, unless the manager refuses or another charge came in
   * between: the session itself never drops bytes it asked for.
   */
  lemma {:induction false} AllowanceIsHonoured(s: Session, id: nat, data: bytes)
    requires !s.closed && id in s.streams && LaneID(s, id) in s.lanes
    requires 0 < |data| <= ReadAllowance(s, id) && s.env(s.asked)
    ensures |data| <= RELAY_DATA_CHUNK && BackendData(s, id, data).1
  {
    hide PlanFrame, Enqueued, LaneOK, SessionLimits;
    var t := SetStream(s, id, Pay(s.streams[id], |data|));
    var down := s.lanes[LaneID(s, id)].down;
    DataIsPlanned(down, id, data);
    var plan := PlanFrame(down, DATA, id, data);
    assert LaneID(t, id) == LaneID(s, id);
    assert SessionAdmits(t.limits, t.ledger, PlanCost(plan, data), PlanItems(plan), Downlink);
  }

  lemma {:induction false} DataIsPlanned(l: Lane, id: StreamID, data: bytes)
    requires 0 < |data| <= RELAY_DATA_CHUNK && id != 0
    ensures PlanFrame(l, DATA, id, data).ExtendLast? || PlanFrame(l, DATA, id, data).AppendNew?
  {}
}
