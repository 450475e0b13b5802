/** The loops that take a batch from a lane's queue and drop a closed stream from it, as the engine runs them. */
module LaneQueue {
  import opened Bytes
  import opened FrameCodec
  import opened DownlinkLane

  lemma {:induction false} TakeCountStep(qs: seq<Queued>, limit: nat, count: nat, size: nat)
    requires count <= |qs|
    ensures TakeCount(qs, limit, count, size) ==
            if count < |qs| && count < MAX_BATCH_FRAMES && (count == 0 || size + |qs[count].encoded| <= limit)
            then TakeCount(qs, limit, count + 1, size + |qs[count].encoded|) else count
  {}

  /** pendingWindows restricted to the entries at or after `index`. */
  function From(m: map<nat, nat>, index: nat): map<nat, nat> {
    map id | id in m && m[id] >= index :: m[id]
  }

  lemma {:induction false} DropIndex(qs: seq<Queued>, index: nat)
    requires index < |qs|
    ensures var m := From(WindowIndex(qs), index);
            var id := qs[index].frame.streamID;
            From(WindowIndex(qs), index + 1) ==
              if qs[index].frame.kind == WINDOW && id in m && m[id] == index then m - {id} else m
  {
    forall id | id in WindowIndex(qs) && WindowIndex(qs)[id] == index
      ensures qs[index].frame.kind == WINDOW && qs[index].frame.streamID == id
    {
      WindowIndexSound(qs, id);
    }
  }

  /** takeDownBatchLocked's first loop: how many frames fit, and their charge. */
  method CountBatch(qs: seq<Queued>, limit: nat) returns (count: nat, cost: nat)
    ensures count == TakeCount(qs, limit, 0, 0) && cost == CostOf(qs[..count])
  {
    var size: nat := 0;
    cost, count := 0, 0;
    while count < |qs| && count < MAX_BATCH_FRAMES
      invariant count <= |qs|
      invariant TakeCount(qs, limit, count, size) == TakeCount(qs, limit, 0, 0)
      invariant cost == CostOf(qs[..count])
    {
      var next := |qs[count].encoded|;
      TakeCountStep(qs, limit, count, size);
      if count != 0 && size + next > limit {
        return;
      }
      EncodingsSnoc(qs, count);
      size, cost, count := size + next, cost + qs[count].cost, count + 1;
    }
    TakeCountStep(qs, limit, count, size);
  }

  /** Its second loop: concatenate the taken frames and forget their window entries. */
  method Concatenate(qs: seq<Queued>, pendingWindows: map<nat, nat>, count: nat) returns (body: bytes, windows: map<nat, nat>)
    requires count <= |qs| && pendingWindows == WindowIndex(qs)
    ensures body == Encodings(qs[..count]) && windows == From(WindowIndex(qs), count)
  {
    body, windows := [], pendingWindows;
    for index := 0 to count
      invariant body == Encodings(qs[..index])
      invariant windows == From(WindowIndex(qs), index)
    {
      var frame := qs[index].frame;
      DropIndex(qs, index);
      if frame.kind == WINDOW && frame.streamID in windows && windows[frame.streamID] == index {
        windows := windows - {frame.streamID};
      }
      EncodingsSnoc(qs, index);
      body := body + qs[index].encoded;
    }
  }

  /** Its third loop: renumber the window entries that remain. */
  method Renumber(windows: map<nat, nat>, count: nat) returns (shifted: map<nat, nat>)
    requires forall id | id in windows :: windows[id] >= count
    ensures shifted == Shifted(windows, count)
  {
    var left := windows.Keys;
    shifted := map[];
    while left != {}
      invariant left <= windows.Keys
      invariant shifted == map id | id in windows && id !in left :: windows[id] - count
      decreases left
    {
      var id :| id in left;
      shifted := shifted[id := windows[id] - count];
      left := left - {id};
    }
  }

  /** takeDownBatchLocked. */
  method TakeDownBatch(l: GoodLane, limit: nat) returns (rest: Lane, batch: Batch)
    ensures (rest, batch) == TakeBatch(l, limit) && batch.items <= |l.pending|
  {
    hide TakeCount, CostOf, Encodings, WindowIndex;
    var count, cost := CountBatch(l.pending, limit);
    var body, windows := Concatenate(l.pending, l.windows, count);
    var shifted := Renumber(windows, count);
    assert shifted == Shifted(l.windows, count);
    rest := l.(pending := l.pending[count..], windows := shifted);
    batch := Batch(body, cost, count);
  }

  /** Take the next batch into the replayable slot, or report that there is none. */
  method ServeNextBatch(l: GoodLane, cursor: nat, limit: nat) returns (after: Lane, result: Served)
    ensures (after, result) == ServeNext(l, cursor, limit)
  {
    hide TakeBatch, LaneOK;
    if |l.pending| == 0 {
      return l, Parked;
    }
    if l.downCursor >= MAX_UINT64 {
      return l, BadCursor;
    }
    var rest, batch := TakeDownBatch(l, limit);
    after := rest.(downCursor := l.downCursor + 1, unackedBase := cursor, unacked := batch.body, unackedCost := batch.cost,
                   unackedItems := batch.items, unackedFrames := Frames(l.pending[..batch.items]));
    result := Sent(batch.body, l.downCursor + 1);
  }

  /** pollCarrier on the lane: replay, reject the cursor, or acknowledge and take; and the charge acknowledged. */
  method ServePoll(l: GoodLane, cursor: nat, limit: nat) returns (after: Lane, result: Served, cost: nat, items: nat)
    ensures (after, result) == Serve(l, cursor, limit)
    ensures (cost, items) == if Acknowledges(l, cursor) then (l.unackedCost, l.unackedItems) else (0, 0)
  {
    hide ServeNext, LaneOK;
    cost, items := 0, 0;
    var ready: GoodLane := l;
    if |l.unacked| != 0 {
      if cursor == l.unackedBase {
        return l, Replayed(l.unacked, l.downCursor), 0, 0;
      }
      if cursor != l.downCursor {
        return l, BadCursor, 0, 0;
      }
      AcknowledgeKeeps(l);
      cost, items := l.unackedCost, l.unackedItems;
      ready := l.(unacked := [], unackedCost := 0, unackedItems := 0,
                  ackedFrames := l.ackedFrames + l.unackedFrames, unackedFrames := []);
    } else if cursor != l.downCursor {
      return l, BadCursor, 0, 0;
    }
    after, result := ServeNextBatch(ready, cursor, limit);
  }

  /** dropPendingStreamFramesLocked's two passes: keep the other streams' frames, then rebuild the window index. */
  method DropPendingFrames(l: GoodLane, id: nat) returns (rest: Lane, cost: nat, items: nat)
    ensures rest == Dropped(l, id) && cost == CostFor(l.pending, id) && items == ItemsFor(l.pending, id)
  {
    var kept: seq<Queued> := [];
    cost, items := 0, 0;
    for index := 0 to |l.pending|
      invariant kept == Without(l.pending[..index], id)
      invariant cost == CostFor(l.pending[..index], id) && items == ItemsFor(l.pending[..index], id)
    {
      assert l.pending[..index + 1][..index] == l.pending[..index];
      if l.pending[index].frame.streamID == id {
        cost, items := cost + l.pending[index].cost, items + 1;
      } else {
        kept := kept + [l.pending[index]];
      }
    }
    assert l.pending[..|l.pending|] == l.pending;
    var windows: map<nat, nat> := map[];
    for index := 0 to |kept|
      invariant windows == WindowIndex(kept[..index])
    {
      assert kept[..index + 1][..index] == kept[..index];
      if kept[index].frame.kind == WINDOW {
        windows := windows[kept[index].frame.streamID := index];
      }
    }
    assert kept[..|kept|] == kept;
    rest := l.(pending := kept, windows := windows);
    assert rest == DropStream(l, id);
  }

  lemma {:induction false} EnqueuedIsCommit(l: GoodLane, kind: byte, id: StreamID, payload: bytes)
    requires Queueable(kind, id, payload)
    ensures Enqueued(l, kind, id, payload) == Commit(l, kind, id, payload)
  {
    hide Commit, LaneOK, PlanFrame, Queueable;
  }

  lemma {:induction false} LastQueued(l: GoodLane)
    requires l.pending != []
    ensures Faithful(l.pending[|l.pending| - 1])
    ensures |l.pending[|l.pending| - 1].encoded| == FRAME_HEADER_SIZE + |l.pending[|l.pending| - 1].frame.payload|
  {}

  /** queueFrameLocked's three ways of storing a frame whose charge has been granted. */
  method StoreFrame(l: GoodLane, kind: byte, id: StreamID, payload: bytes, plan: Plan) returns (m: Lane)
    requires Queueable(kind, id, payload) && plan == PlanFrame(l, kind, id, payload)
    ensures m == Enqueued(l, kind, id, payload)
  {
    hide LaneOK, Enqueued, WindowIndex, CostOf, Faithful;
    EnqueuedIsCommit(l, kind, id, payload);
    PlanShape(l, kind, id, payload);
    var n := |l.pending|;
    if plan.AddCredit? {
      CreditTarget(l, id, payload);
      var q := l.pending[plan.index];
      var patched := q.encoded[..FRAME_HEADER_SIZE] + PutBE32(plan.total) + q.encoded[FRAME_HEADER_SIZE + 4..];
      m := l.(pending := l.pending[plan.index := q.(encoded := patched, frame := q.frame.(payload := PutBE32(plan.total)))]);
    } else if plan.ExtendLast? {
      LastQueued(l);
      var last := l.pending[n - 1];
      var grown := last.encoded + payload;
      grown := grown[..4] + PutBE32(|grown| - FRAME_HEADER_SIZE) + grown[FRAME_HEADER_SIZE..];
      m := l.(pending := l.pending[..n - 1] +
              [Queued(grown, last.frame.(payload := last.frame.payload + payload), last.cost + |payload|)]);
    } else {
      var frame := Frame(kind, id, payload);
      var encoded, err := AppendFrame([], frame);
      assert [] + Encode(frame) == Encode(frame);
      var queued := Queued(encoded, frame, |encoded| + QUEUE_ITEM_COST);
      m := l.(pending := l.pending + [queued], windows := if kind == WINDOW then l.windows[id := n] else l.windows);
    }
  }
}
