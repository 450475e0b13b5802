/** What every interleaving of critical sections keeps, and what a whole run of a session guarantees. */
module SessionRuns {
  import opened Bytes
  import opened FrameCodec
  import opened DownlinkLane
  import opened Limits
  import opened PendingBudget
  import opened SessionCore
  import Sums
  import opened SessionAccounting
  import opened SessionDelivery

  /** Stream `o` is tracked in a session whose stream identities are sound. */
  ghost predicate Kept(s: Session, o: nat, more: seq<Frame>) {
    Identities(s) && TracksWith(s, o, more)
  }

  lemma {:induction false} SameKept(s: Session, t: Session, o: nat, more: seq<Frame>)
    requires Kept(s, o, more) && SameStreams(s, t) && Observe(t, o) == Observe(s, o)
    ensures Kept(t, o, more)
  {
    hide StreamGood, Observe;
  }

  /** A tombstone is no live stream and no unopened one. */
  lemma {:induction false} NotRemembered(s: Session, o: nat)
    requires Identities(s) && (o in s.streams || o !in s.used)
    ensures o !in s.tombstones.order
  {}

  lemma {:induction false} ClosedIsKept(s: Session, o: nat, more: seq<Frame>, id: nat)
    requires Kept(s, o, more) && id in s.used && id !in s.streams
    ensures Kept(RememberClosed(s, id), o, more)
  {
    hide RememberClosed, Observe, StreamGood;
    ClosedIdentities(s, id);
    RememberClosedFrame(s, id);
    if o in s.streams || o !in s.used {
      NotRemembered(s, o);
      RememberClosedObserved(s, id, o);
    }
  }

  lemma {:induction false} DeletedIsKept(s: Session, o: nat, more: seq<Frame>, id: nat)
    requires Identities(s) && (o != id ==> TracksWith(s, o, more)) && id in s.streams
    ensures Kept(DeleteStream(s, id), o, more)
  {
    hide DeleteStream, Observe, StreamGood;
    DeleteStreamObserved(s, id, o);
  }

  /** Closing a stream touches nothing another stream has recorded. */
  lemma {:induction false} ApplyCloseKeeps(s: Session, o: nat, more: seq<Frame>, id: nat)
    requires Kept(s, o, more) && id in s.streams
    ensures Kept(ApplyClose(s, id), o, more)
  {
    hide DropFrames, DeleteStream, RememberClosed, Observe, StreamGood;
    DropFramesFrame(s, id);
    var u := DropFrames(s, id);
    if o != id {
      DropFramesObserved(s, id, o);
    }
    DeletedIsKept(u, o, more, id);
    DeleteStreamObserved(u, id, o);
    ClosedIsKept(DeleteStream(u, id), o, more, id);
  }

  lemma {:induction false} QueueCloseKeeps(s: Session, o: nat, more: seq<Frame>, id: StreamID)
    requires Kept(s, o, more)
    ensures Kept(QueueFrame(s, CLOSE, id, []).0, o, more)
  {
    hide QueueFrame, Observe;
    QueueFrameFrame(s, CLOSE, id, []);
    QueueFrameObserved(s, CLOSE, id, [], o);
    SameKept(s, QueueFrame(s, CLOSE, id, []).0, o, more);
  }

  lemma {:induction false} CloseKeeps(s: Session, o: nat, more: seq<Frame>)
    requires Kept(s, o, more)
    ensures Identities(Close(s)) && (s.closed || (DataOf(o, more) == [] && CreditOf(o, more) == 0) ==> Kept(Close(s), o, more))
  {
    hide StreamGood, ObserveLane;
  }

  // ---------------------------------------------------------------- applying a batch

  lemma {:induction false} NewStreamGood()
    ensures Untouched(NEW_STREAM)
  {
    assert Flatten<byte>([]) == [];
  }

  lemma {:induction false} OpenedIdentities(s: Session, t: Session, id: StreamID)
    requires Identities(s) && id !in s.used
    requires t.used == s.used + {id} && t.streams.Keys == s.streams.Keys + {id} && t.openLog == s.openLog + [id]
    requires t.tombstones == s.tombstones
    ensures Identities(t)
  {}

  /** A stream nothing has passed through yet. */
  predicate Untouched(t: Stream) {
    StreamGood(t) && t.offered == [] && t.written == [] && t.accepted == [] && t.unreported == 0 && t.credits == []
  }

  lemma {:induction false} OpenedKeeps(s: Session, t: Session, o: nat, more: seq<Frame>, id: StreamID, state: Stream)
    requires Kept(s, o, more) && id !in s.used && LaneID(s, id) in s.lanes && Untouched(state)
    requires t == s.(used := s.used + {id}, streams := s.streams[id := state], openLog := s.openLog + [id])
    ensures Kept(t, o, more)
  {
    hide Identities, StreamGood, LaneLog, DataOf, CreditOf;
    assert Identities(t) by {
      OpenedIdentities(s, t, id);
    }
    assert Observe(t, o) == Observe(s, o);
  }

  lemma {:induction false} UsedKeeps(s: Session, o: nat, more: seq<Frame>, id: StreamID)
    requires Kept(s, o, more) && id !in s.used
    ensures Kept(s.(used := s.used + {id}), o, more)
  {
    hide ObserveLane, StreamGood;
  }

  lemma {:induction false} AskedKeeps(s: Session, o: nat, more: seq<Frame>, asked: nat)
    requires Kept(s, o, more)
    ensures Kept(s.(asked := asked), o, more)
  {
    hide ObserveLane, StreamGood;
  }

  lemma {:induction false} RefusedKeeps(s: Session, o: nat, more: seq<Frame>, id: StreamID)
    requires Kept(s, o, more) && id in s.used && id !in s.streams
    ensures Kept(Refused(s, id).0, o, more)
  {
    hide RememberClosed, QueueFrame, Kept;
    ClosedIsKept(s, o, more, id);
    QueueCloseKeeps(RememberClosed(s, id), o, more, id);
  }

  lemma {:induction false} ApplyOpenKeeps(s: Session, o: nat, more: seq<Frame>, id: StreamID)
    requires Kept(s, o, more) && id !in s.used && LaneID(s, id) in s.lanes
    ensures Kept(ApplyOpen(s, id).0, o, more)
  {
    hide Refused, TracksWith, Untouched;
    var u := s.(used := s.used + {id});
    var (t, granted) := AcquireStream(u);
    if granted {
      AskedKeeps(s, o, more, t.asked);
      NewStreamGood();
      OpenedKeeps(s.(asked := t.asked), ApplyOpen(s, id).0, o, more, id, NEW_STREAM);
    } else {
      UsedKeeps(s, o, more, id);
      AskedKeeps(u, o, more, t.asked);
      RefusedKeeps(t, o, more, id);
    }
  }

  /** Remembering a closed stream leaves a lane that is not itself remembered in place. */
  lemma {:induction false} RememberedLane(s: Session, id: nat, laneID: nat)
    requires !UsesLanes(s.carrier) || laneID !in s.tombstones.order
    ensures laneID in RememberClosed(s, id).lanes <==> laneID in s.lanes
  {
    hide LaneOK, Remember;
    RememberOrder(s.tombstones, id);
  }

  lemma {:induction false} OpenLane(s: Session, id: StreamID)
    requires Identities(s) && id !in s.used && LaneID(s, id) in s.lanes
    ensures var t := ApplyOpen(s, id).0; LaneID(s, id) in t.lanes && t.carrier == s.carrier
  {
    hide RememberClosed, QueueFrame;
    var t := AcquireStream(s.(used := s.used + {id})).0;
    RememberedLane(t, id, LaneID(s, id));
    RememberClosedFrame(t, id);
    QueueFrameFrame(RememberClosed(t, id), CLOSE, id, []);
  }

  lemma {:induction false} CloseLane(s: Session, id: nat)
    requires Identities(s) && id in s.streams && LaneID(s, id) in s.lanes
    ensures var t := ApplyClose(s, id); LaneID(s, id) in t.lanes && t.carrier == s.carrier
  {
    hide DropFrames, DeleteStream, RememberClosed, Observe;
    var u := DropFrames(s, id);
    DropFramesFrame(s, id);
    DeleteStreamObserved(u, id, 0);
    RememberedLane(DeleteStream(u, id), id, LaneID(s, id));
    RememberClosedFrame(DeleteStream(u, id), id);
  }

  /** What a validated frame may do: open an unused stream, or address a used one within its window. */
  predicate Fits(s: Session, f: Frame) {
    && f.streamID <= MAX_STREAM_ID
    && (f.streamID == 0 ==> f.kind == PONG)
    && (f.streamID != 0 ==>
        && f.kind in {OPEN, DATA, WINDOW, CLOSE}
        && (f.kind == OPEN <==> f.streamID !in s.used)
        && (f.kind == DATA && f.streamID in s.streams ==> |f.payload| <= s.streams[f.streamID].receiveWindow))
  }

  lemma {:induction false} ValidatedFits(used: set<nat>, c: Check, a: Applied, f: Frame)
    requires Agrees(used, c, a.s) && CheckFrame(used, c, f).Some? && f.streamID <= MAX_STREAM_ID
    ensures Fits(a.s, f)
  {}

  lemma {:induction false} DataKeeps(s: Session, o: nat, more: seq<Frame>, f: Frame)
    requires Kept(s, o, more) && Fits(s, f) && f.streamID in s.streams && f.kind == DATA
    ensures Kept(s.(streams := s.streams[f.streamID := AppendWrite(s.streams[f.streamID], f.payload)]),
                 o, more + [f])
  {
    hide StreamGood, ObserveLane, LaneOK, DataOf, CreditOf, Flatten;
    OneMore(o, more, f);
    if o == f.streamID {
      AppendWriteGood(s.streams[o], f.payload);
      var before := Observe(s, o).up;
      assert before + (DataOf(o, more) + f.payload) == (before + DataOf(o, more)) + f.payload;
    }
  }

  /** What one more frame carries. */
  lemma {:induction false} OneMore(o: nat, more: seq<Frame>, f: Frame)
    ensures DataOf(o, more + [f]) == DataOf(o, more) + (if f.kind == DATA && f.streamID == o then f.payload else [])
    ensures CreditOf(o, more + [f]) == CreditOf(o, more) + (if f.kind == WINDOW && f.streamID == o then DeltaOf(f.payload) else 0)
  {
    DataAppend(o, more, [f]);
    CreditAppend(o, more, [f]);
    SingleFrame(o, f);
  }

  lemma {:induction false} OneCredit(log: seq<Credit>, c: Credit)
    ensures Balance(log + [c]) == (match c
              case Grant(n) => Min(MAX_UINT32, Balance(log) + n)
              case Spend(n) => Max(0, Balance(log) - n))
    ensures Covered(log + [c]) <==> Covered(log) && (c.Spend? ==> c.amount <= Balance(log))
    ensures Granted(log + [c]) == Granted(log) + (match c case Grant(n) => n case Spend(_) => 0)
    ensures Spent(log + [c]) == Spent(log) + (match c case Grant(_) => 0 case Spend(n) => n)
  {
    assert (log + [c])[..|log|] == log;
  }

  /** Credit is conserved, up to what grants beyond 32 bits are worth. */
  lemma {:induction false} BalanceConserved(log: seq<Credit>)
    requires Covered(log)
    ensures Spent(log) + Balance(log) <= INITIAL_STREAM_WINDOW + Granted(log)
    ensures INITIAL_STREAM_WINDOW + Granted(log) <= MAX_UINT32 ==> Spent(log) + Balance(log) == INITIAL_STREAM_WINDOW + Granted(log)
  {
    if log != [] {
      BalanceConserved(log[..|log| - 1]);
    }
  }

  lemma {:induction false} GrantedGood(t: Stream, delta: nat)
    requires StreamGood(t)
    ensures StreamGood(t.(sendCredit := Min(MAX_UINT32, t.sendCredit + delta), credits := t.credits + [Grant(delta)]))
  {
    hide Balance, Granted, Spent, Covered;
    OneCredit(t.credits, Grant(delta));
  }

  lemma {:induction false} WindowKeeps(s: Session, o: nat, more: seq<Frame>, f: Frame)
    requires Kept(s, o, more) && f.streamID in s.streams && f.kind == WINDOW
    ensures var t := s.streams[f.streamID];
            Kept(s.(streams := s.streams[f.streamID := t.(sendCredit := Min(MAX_UINT32, t.sendCredit + DeltaOf(f.payload)),
                                                          credits := t.credits + [Grant(DeltaOf(f.payload))])]),
                 o, more + [f])
  {
    hide ObserveLane, StreamGood, Granted;
    OneMore(o, more, f);
    if o == f.streamID {
      OneCredit(s.streams[o].credits, Grant(DeltaOf(f.payload)));
      GrantedGood(s.streams[o], DeltaOf(f.payload));
    } else {
      assert DataOf(o, more) + [] == DataOf(o, more);
    }
  }

  lemma {:induction false} LiveFrameKeeps(a: Applied, o: nat, more: seq<Frame>, f: Frame)
    requires Kept(a.s, o, more) && Fits(a.s, f) && f.streamID in a.s.streams
    ensures Kept(ApplyFrame(a, f).s, o, more + [f])
  {
    hide Kept, ApplyClose, Identities, AppendWrite;
    assert f.streamID in a.s.used && f.kind != OPEN by {
      LiveIsUsed(a.s, o, more, f.streamID);
    }
    if f.kind == DATA {
      DataKeeps(a.s, o, more, f);
      BrokenIgnored(ApplyFrame(a, f).s, a.s.broken, o, more + [f]);
    } else if f.kind == WINDOW {
      WindowKeeps(a.s, o, more, f);
    } else {
      ApplyCloseKeeps(a.s, o, more, f.streamID);
      IdleFrame(ApplyClose(a.s, f.streamID), o, more, f);
    }
  }

  /** A frame that carries nothing for a stream leaves it tracked. */
  lemma {:induction false} IdleFrame(s: Session, o: nat, more: seq<Frame>, f: Frame)
    requires Kept(s, o, more) && (f.kind in {DATA, WINDOW} ==> f.streamID != o || (o !in s.streams && o in s.used))
    ensures Kept(s, o, more + [f])
  {
    hide ObserveLane, StreamGood;
    OneMore(o, more, f);
    assert DataOf(o, more) + [] == DataOf(o, more);
  }

  lemma {:induction false} LiveIsUsed(s: Session, o: nat, more: seq<Frame>, id: nat)
    requires Kept(s, o, more) && id in s.streams
    ensures id in s.used && 0 < id <= MAX_STREAM_ID
  {}

  lemma {:induction false} BrokenIgnored(s: Session, broken: bool, o: nat, more: seq<Frame>)
    requires Kept(s.(broken := broken), o, more)
    ensures Kept(s, o, more)
  {
    hide ObserveLane, StreamGood;
  }

  /** One frame of a validated batch moves exactly its own bytes. */
  lemma {:induction false} FrameKeeps(a: Applied, o: nat, more: seq<Frame>, f: Frame)
    requires Kept(a.s, o, more) && Fits(a.s, f) && (f.kind == OPEN ==> LaneID(a.s, f.streamID) in a.s.lanes)
    ensures Kept(ApplyFrame(a, f).s, o, more + [f])
  {
    hide Kept, ApplyOpen, ApplyClose, AppendWrite, Identities;
    if f.streamID != 0 && f.streamID in a.s.streams {
      LiveFrameKeeps(a, o, more, f);
    } else if f.streamID != 0 && f.kind == OPEN {
      ApplyOpenKeeps(a.s, o, more, f.streamID);
      IdleFrame(ApplyOpen(a.s, f.streamID).0, o, more, f);
    } else {
      ZeroOrLateKeeps(a.s, o, more, f);
    }
  }

  lemma {:induction false} ZeroOrLateKeeps(s: Session, o: nat, more: seq<Frame>, f: Frame)
    requires Kept(s, o, more) && Fits(s, f) && f.streamID !in s.streams && f.kind != OPEN
    ensures Kept(s, o, more + [f])
  {
    IdleFrame(s, o, more, f);
  }

  lemma {:induction false} FrameLane(a: Applied, f: Frame, laneID: nat)
    requires Identities(a.s) && Fits(a.s, f) && laneID in a.s.lanes && (f.streamID != 0 ==> LaneID(a.s, f.streamID) == laneID)
    ensures var t := ApplyFrame(a, f).s; laneID in t.lanes && t.carrier == a.s.carrier
  {
    hide ApplyOpen, ApplyClose, AppendWrite;
    if f.streamID != 0 && f.kind == OPEN {
      OpenLane(a.s, f.streamID);
    } else if f.streamID in a.s.streams && f.kind == CLOSE {
      CloseLane(a.s, f.streamID);
    }
  }

  // ---------------------------------------------------------------- a whole batch

  predicate OnLane(s: Session, laneID: nat, frames: seq<Frame>) {
    && laneID in s.lanes
    && (if UsesLanes(s.carrier) then forall i | 0 <= i < |frames| :: frames[i].streamID == laneID else laneID == 0)
    && forall i | 0 <= i < |frames| :: frames[i].streamID <= MAX_STREAM_ID
  }

  /** However far a batch gets, what is recorded of it is what it moved. */
  lemma {:induction false} BatchKeeps(used: set<nat>, c: Check, a: Applied, frames: seq<Frame>, laneID: nat, o: nat, done: seq<Frame>)
    requires ApplyInvariant(used, c, a, frames) && CheckBatch(used, c, frames).Some?
    requires OnLane(a.s, laneID, frames) && Kept(a.s, o, done)
    ensures var r := ApplyBatch(a, frames);
            && laneID in r.s.lanes && r.s.carrier == a.s.carrier
            && Kept(r.s, o, done + frames[..Taken(a, frames)])
    decreases |frames|
  {
    hide Agrees, Identities, TracksWith, ApplyFrame, CheckFrame, Holds, Fits;
    if frames == [] || !a.ok {
      assert done + frames[..0] == done;
    } else {
      var f := frames[0];
      assert OneFrame(a, f, laneID) by {
        ValidatedFits(used, c, a, f);
      }
      FrameKeeps(a, o, done, f);
      FrameLane(a, f, laneID);
      FrameApplies(used, c, a, frames);
      var b := ApplyFrame(a, f);
      if b.ok {
        BatchKeeps(used, CheckFrame(used, c, f).value, b, frames[1..], laneID, o, done + [f]);
        var n := Taken(b, frames[1..]);
        assert (done + [f]) + frames[1..][..n] == done + frames[..n + 1];
      } else {
        StoppingFrame(a, f, o, done);
        assert done + frames[..0] == done;
        assert ApplyBatch(a, frames) == b;
      }
    }
  }

  /** A batch stops only at an OPEN, which carries no bytes and no credit. */
  lemma {:induction false} StoppingFrame(a: Applied, f: Frame, o: nat, done: seq<Frame>)
    requires a.ok && !ApplyFrame(a, f).ok && Kept(ApplyFrame(a, f).s, o, done + [f])
    ensures Kept(ApplyFrame(a, f).s, o, done)
  {
    hide ApplyOpen, ApplyClose, AppendWrite, StreamGood, ObserveLane, Identities;
    assert f.kind == OPEN;
    OneMore(o, done, f);
    assert DataOf(o, done) + [] == DataOf(o, done);
  }

  predicate OneFrame(a: Applied, f: Frame, laneID: nat) {
    Fits(a.s, f) && (f.kind == OPEN ==> LaneID(a.s, f.streamID) == laneID) && (f.streamID != 0 ==> LaneID(a.s, f.streamID) == laneID)
  }

  lemma {:induction false} RecordObserved(s: Session, laneID: nat, lane: CarrierLane, frames: seq<Frame>, o: nat)
    requires OnLane(s, laneID, frames)
    requires lane.down == s.lanes[laneID].down && lane.upFrames == s.lanes[laneID].upFrames + frames
    ensures var v := Observe(s, o);
            Observe(SetLane(s, laneID, lane), o) == if v.attached then v.(up := v.up + DataOf(o, frames), grants := v.grants + CreditOf(o, frames)) else v
  {
    hide LaneLog, CreditOf, LaneOK, DataOf;
    DataAppend(o, s.lanes[laneID].upFrames, frames);
    CreditAppend(o, s.lanes[laneID].upFrames, frames);
    if LaneID(s, o) != laneID {
      OtherLane(o, laneID, frames);
    }
  }

  lemma {:induction false} RecordKeeps(s: Session, laneID: nat, lane: CarrierLane, frames: seq<Frame>, o: nat)
    requires OnLane(s, laneID, frames) && Kept(s, o, frames)
    requires lane.down == s.lanes[laneID].down && lane.upFrames == s.lanes[laneID].upFrames + frames
    ensures Kept(SetLane(s, laneID, lane), o, [])
  {
    hide StreamGood, Observe, OnLane, DataOf, CreditOf, Granted;
    RecordObserved(s, laneID, lane, frames, o);
    NothingCarried(o);
    assert (Observe(s, o).up + DataOf(o, frames)) + [] == Observe(s, o).up + DataOf(o, frames);
    assert Observe(s, o).up + [] == Observe(s, o).up;
  }

  lemma {:induction false} NothingCarried(o: nat)
    ensures DataOf(o, []) == [] && CreditOf(o, []) == 0
  {}

  lemma {:induction false} OtherLane(o: nat, laneID: nat, frames: seq<Frame>)
    requires o != laneID && forall i | 0 <= i < |frames| :: frames[i].streamID == laneID
    ensures DataOf(o, frames) == [] && CreditOf(o, frames) == 0
  {
    if frames != [] {
      OtherLane(o, laneID, frames[1..]);
    }
  }

  // ---------------------------------------------------------------- every critical section

  lemma {:induction false} FlagsKeep(s: Session, laneID: nat, lane: CarrierLane, o: nat)
    requires Kept(s, o, []) && laneID in s.lanes
    requires lane.down == s.lanes[laneID].down && lane.upFrames == s.lanes[laneID].upFrames
    ensures Kept(SetLane(s, laneID, lane), o, [])
  {
    hide StreamGood, LaneLog, CreditOf, DataOf, LaneOK;
    assert Observe(SetLane(s, laneID, lane), o) == Observe(s, o);
  }

  lemma {:induction false} NewLaneObserved(serial: nat, o: nat)
    ensures ObserveLane(NewLane(serial), o) == FRESH_LANE
  {
    assert LaneLog(NEW_LANE) == [];
  }

  lemma {:induction false} AttachKeeps(s: Session, laneID: nat, o: nat)
    requires Kept(s, o, [])
    ensures Kept(Attach(s, laneID), o, [])
  {
    hide StreamGood, ObserveLane, LaneOK;
    NewLaneObserved(s.nextSerial, o);
  }

  lemma {:induction false} ReleaseLaneKeeps(s: Session, laneID: nat, o: nat)
    requires Kept(s, o, []) && laneID !in s.streams && UsesLanes(s.carrier)
    ensures Kept(ReleaseLane(s, laneID), o, [])
  {
    hide StreamGood, ObserveLane, LaneOK;
  }

  lemma {:induction false} ReleaseWebSocketLaneKeeps(s: Session, laneID: nat, expected: Option<nat>, o: nat)
    requires Kept(s, o, [])
    ensures Kept(ReleaseWebSocketLane(s, laneID, expected), o, [])
  {
    hide Kept, ReleaseLane, RememberClosed, DeleteStream;
    if s.carrier == WebSocketLanes && expected.Some? && laneID in s.lanes && s.lanes[laneID].serial == expected.value {
      var lane := s.lanes[laneID].(websocketActive := false);
      var t := SetLane(s, laneID, lane);
      FlagsKeep(s, laneID, lane, o);
      if laneID in t.streams {
        var u := DeleteStream(t, laneID);
        KeptParts(t, o, laneID);
        DeletedIsKept(t, o, [], laneID);
        DeleteStreamObserved(t, laneID, o);
        ClosedIsKept(u, o, [], laneID);
        RememberClosedFrame(u, laneID);
        ReleaseLaneKeeps(RememberClosed(u, laneID), laneID, o);
      } else {
        ReleaseLaneKeeps(t, laneID, o);
      }
    }
  }

  lemma {:induction false} KeptParts(s: Session, o: nat, id: nat)
    requires Kept(s, o, [])
    ensures Identities(s) && TracksWith(s, o, []) && (id in s.streams ==> id in s.used)
  {}

  lemma {:induction false} FailLaneKeeps(s: Session, laneID: nat, expected: Option<nat>, o: nat)
    requires Kept(s, o, [])
    ensures Kept(FailLane(s, laneID, expected), o, [])
  {
    hide Kept, Close, ReleaseWebSocketLane;
    CloseKeeps(s, o, []);
    ReleaseWebSocketLaneKeeps(s, laneID, expected, o);
  }

  lemma {:induction false} UpBeginKeeps(s: Session, laneID: nat, sequence: nat, body: bytes, expected: Option<nat>, o: nat)
    requires Kept(s, o, [])
    ensures Kept(UpBegin(s, laneID, sequence, body, expected).0, o, [])
  {
    hide Kept, FailLane, ParseUplink, OnlyLateFrames, StartsWithOpen;
    FailLaneKeeps(s, laneID, expected, o);
    AttachKeeps(s, laneID, o);
    var t := Attach(s, laneID);
    FailLaneKeeps(t, laneID, expected, o);
    FlagsKeep(t, laneID, t.lanes[laneID].(upActive := Some(UpJob(sequence, body))), o);
  }

  lemma {:induction false} ReservePendingKeeps(s: Session, cost: nat, items: nat, class_: PendingClass, o: nat, more: seq<Frame>)
    requires Kept(s, o, more)
    ensures Kept(ReservePending(s, cost, items, class_).0, o, more)
  {
    hide ReservePending, ObserveLane;
    ReservePendingFrame(s, cost, items, class_);
    SameKept(s, ReservePending(s, cost, items, class_).0, o, more);
  }

  lemma {:induction false} ReleasePendingKeeps(s: Session, cost: int, items: int, o: nat, more: seq<Frame>)
    requires Kept(s, o, more)
    ensures Kept(ReleasePending(s, cost, items), o, more)
  {
    hide ObserveLane;
    SameKept(s, ReleasePending(s, cost, items), o, more);
  }

  lemma {:induction false} CommitBatchKeeps(s: Session, laneID: nat, job: UpJob, frames: seq<Frame>, cost: nat, items: nat, o: nat)
    requires OnLane(s, laneID, frames) && Holds(s, cost, items) && Kept(s, o, [])
    requires ValidBatch(s, frames) && (cost, items) == Advance(s.streams.Keys, frames)
    ensures Kept(CommitBatch(s, laneID, job, frames, cost, items).0, o, [])
  {
    hide Holds, TracksWith, CheckBatch, Advance, ApplyBatch, Taken;
    StartAgrees(s);
    var start := Applied(s, cost, items, true);
    BatchKeeps(s.used, Snapshot(s), start, frames, laneID, o, []);
    var taken := frames[..Taken(start, frames)];
    assert [] + taken == taken;
    var a := ApplyBatch(start, frames);
    var t := ReleasePending(a.s, a.unusedCost, a.unusedItems);
    ReleasePendingKeeps(a.s, a.unusedCost, a.unusedItems, o, taken);
    CommitRecord(t, laneID, job, taken, a.ok, o);
  }

  lemma {:induction false} CommitRecord(t: Session, laneID: nat, job: UpJob, frames: seq<Frame>, whole: bool, o: nat)
    requires OnLane(t, laneID, frames) && Kept(t, o, frames)
    ensures Kept(SetLane(t, laneID, RecordBatch(t.lanes[laneID], job, frames, whole)), o, [])
  {
    hide Kept;
    RecordKeeps(t, laneID, RecordBatch(t.lanes[laneID], job, frames, whole), frames, o);
  }

  lemma {:induction false} UpApplyKeeps(s: Session, laneID: nat, job: UpJob, frames: seq<Frame>, expected: Option<nat>, o: nat)
    requires OnLane(s, laneID, frames) && Conserved(s) && !s.closed && Kept(s, o, [])
    ensures Kept(UpApply(s, laneID, job, frames, expected).0, o, [])
  {
    hide Kept, TracksWith, ReservePending, CommitBatch, Advance, CheckBatch, FailLane;
    if !ValidBatch(s, frames) {
      FailLaneKeeps(s, laneID, expected, o);
    } else {
      var charge := Advance(s.streams.Keys, frames);
      ReserveHolds(s, 0, 0, charge.0, charge.1, Uplink);
      ReservePendingKeeps(s, charge.0, charge.1, Uplink, o, []);
      var (u, granted) := ReservePending(s, charge.0, charge.1, Uplink);
      ReservePendingFrame(s, charge.0, charge.1, Uplink);
      if granted {
        CommitBatchKeeps(u, laneID, job, frames, charge.0, charge.1, o);
      }
    }
  }

  lemma {:induction false} UpEndKeeps(s: Session, laneID: nat, serial: nat, expected: Option<nat>, o: nat)
    requires Conserved(s) && Kept(s, o, []) && (!UsesLanes(s.carrier) ==> laneID == 0)
    ensures Kept(UpEnd(s, laneID, serial, expected).0, o, [])
  {
    hide Kept, Conserved, UpApply, ParseUplink, LaneOK, FailLane;
    if laneID in s.lanes && s.lanes[laneID].serial == serial && s.lanes[laneID].upActive.Some? {
      var job := s.lanes[laneID].upActive.value;
      var lane := s.lanes[laneID].(upActive := None);
      var t := SetLane(s, laneID, lane);
      FlagsKeep(s, laneID, lane, o);
      ClaimDroppedConserves(s, laneID, lane);
      if !t.closed {
        match ParseUplink(job.body, laneID, UsesLanes(s.carrier))
        case Err(_) => FailLaneKeeps(t, laneID, expected, o);
        case Ok(frames) =>
          ParsedIdentifiers(job.body, laneID, UsesLanes(s.carrier));
          UpApplyKeeps(t, laneID, job, frames, expected, o);
      }
    }
  }

  lemma {:induction false} ClaimDroppedConserves(s: Session, laneID: nat, lane: CarrierLane)
    requires Conserved(s) && laneID in s.lanes && lane.down == s.lanes[laneID].down
    ensures Conserved(SetLane(s, laneID, lane))
  {
    SetLaneHolds(s, 0, 0, laneID, lane);
  }

  lemma {:induction false} SetStreamKeeps(s: Session, id: nat, state: Stream, o: nat)
    requires Kept(s, o, []) && id in s.streams
    requires id == o ==>
      && StreamGood(state) && state.offered == s.streams[o].offered && state.written == s.streams[o].written
      && state.unreported == s.streams[o].unreported && state.accepted == s.streams[o].accepted
      && Granted(state.credits) == Granted(s.streams[o].credits)
    ensures Kept(s.(streams := s.streams[id := state]), o, [])
  {
    hide StreamGood, ObserveLane;
  }

  lemma {:induction false} NextWriteKeeps(s: Session, id: nat, o: nat)
    requires Kept(s, o, [])
    ensures Kept(NextWrite(s, id), o, [])
  {
    hide Observe, Identities, StreamGood;
    if id in s.streams && s.streams[id].writes != [] && s.streams[id].inFlight.None? {
      if id == o {
        TakeWriteGood(s.streams[id]);
      }
      SetStreamKeeps(s, id, NextWrite(s, id).streams[id], o);
    }
  }

  lemma {:induction false} BackendWriteFinishedKeeps(s: Session, id: nat, o: nat)
    requires Kept(s, o, [])
    ensures Kept(BackendWriteFinished(s, id).0, o, [])
  {
    hide Observe, Identities, Flatten;
    var (t, ok) := BackendWriteFinished(s, id);
    if ok {
      SetStreamKeeps(s, id, t.streams[id], o);
      ReleasePendingKeeps(s.(streams := t.streams), QUEUE_ITEM_COST, 1, o, []);
    }
  }

  /** Reading one backend chunk: the lane is asked to deliver exactly the bytes recorded as offered. */
  lemma {:induction false} BackendDataKeeps(s: Session, id: nat, data: bytes, o: nat)
    requires Kept(s, o, []) && |data| <= RELAY_DATA_CHUNK
    ensures Kept(BackendData(s, id, data).0, o, [])
  {
    hide QueueFrame, Observe, Kept, StreamGood, Granted, Pay;
    if !s.closed && id in s.streams && 0 < |data| <= s.streams[id].sendCredit {
      KeptParts(s, o, id);
      var paid := Pay(s.streams[id], |data|);
      var u := SetStream(s, id, paid);
      QueueFrameFrame(u, DATA, id, data);
      QueueFrameObserved(u, DATA, id, data, o);
      SetStreamObserved(s, id, paid, o);
      var (t, ok) := QueueFrame(u, DATA, id, data);
      PaidKeeps(s, t, id, data, o, ok);
    }
  }

  /** The chunk is paid for, and recorded as offered or as refused. */
  lemma {:induction false} PaidKeeps(s: Session, t: Session, id: nat, data: bytes, o: nat, ok: bool)
    requires Kept(s, o, []) && id in s.streams && |data| <= s.streams[id].sendCredit
    requires SameStreams(SetStream(s, id, Pay(s.streams[id], |data|)), t)
    requires Observe(t, o) == Observe(s, o).(data := Observe(s, o).data + (if ok && o == id then data else []))
    ensures var paid := Pay(s.streams[id], |data|);
            Kept(SetStream(t, id, if ok then paid.(offered := paid.offered + data) else paid.(refused := paid.refused + |data|)), o, [])
  {
    hide StreamGood, Observe, Kept, Granted, Pay;
    var paid := Pay(s.streams[id], |data|);
    var state := if ok then paid.(offered := paid.offered + data) else paid.(refused := paid.refused + |data|);
    SetStreamObserved(t, id, state, o);
    assert Observe(s, o).data + [] == Observe(s, o).data;
    PaidGood(s.streams[id], data);
    KeptGood(s, o);
    assert t.streams[id := state] == s.streams[id := state];
    StateKeeps(s, SetStream(t, id, state), id, state, o);
  }

  lemma {:induction false} StateKeeps(s: Session, t: Session, id: nat, state: Stream, o: nat)
    requires Kept(s, o, []) && id in s.streams && t.streams == s.streams[id := state]
    requires SameStreams(s, t.(streams := s.streams))
    requires Observe(t, o) == Observe(s, o).(data := Observe(t, o).data)
    requires id != o ==> Observe(t, o).data == Observe(s, o).data
    requires id == o ==>
      && StreamGood(state) && state.written == s.streams[o].written && state.unreported == s.streams[o].unreported
      && state.accepted == s.streams[o].accepted && Granted(state.credits) == Granted(s.streams[o].credits)
      && (Observe(s, o).data == s.streams[o].offered ==> Observe(t, o).data == state.offered)
    ensures Kept(t, o, [])
  {
    hide StreamGood, Observe, Identities, Granted, DataOf, CreditOf;
    StreamsReplaced(s, t);
  }

  lemma {:induction false} KeptGood(s: Session, o: nat)
    requires Kept(s, o, [])
    ensures o in s.streams ==> StreamGood(s.streams[o])
  {}

  lemma {:induction false} PaidGood(t: Stream, data: bytes)
    requires |data| <= t.sendCredit
    ensures var paid := Pay(t, |data|);
            && (StreamGood(t) ==> StreamGood(paid.(offered := paid.offered + data)) && StreamGood(paid.(refused := paid.refused + |data|)))
            && Granted(paid.credits) == Granted(t.credits) && paid.offered == t.offered && paid.written == t.written
            && paid.unreported == t.unreported && paid.accepted == t.accepted
  {
    hide Balance, Granted, Spent, Covered, Flatten;
    OneCredit(t.credits, Spend(|data|));
  }

  lemma {:induction false} StreamsReplaced(s: Session, t: Session)
    requires Identities(s) && t.streams.Keys == s.streams.Keys && SameStreams(s, t.(streams := s.streams))
    ensures Identities(t)
  {
    assert forall id | id in t.streams :: id in t.streams.Keys;
  }

  /** Writing to the backend: the lane is asked to grant exactly the credit of the bytes written. */
  lemma {:induction false} BackendDrainedKeeps(s: Session, id: nat, amount: nat, o: nat)
    requires Kept(s, o, [])
    ensures Kept(BackendDrained(s, id, amount).0, o, [])
  {
    hide QueueFrame, Observe, Kept, StreamGood, Drain, ReleasePending;
    if !s.closed && id in s.streams && CanDrain(s.streams[id], amount) {
      KeptParts(s, o, id);
      var state := Drain(s.streams[id], amount);
      var payload := WindowPayload(amount).value;
      var u := SetStream(s, id, state);
      var v := ReleasePending(u, amount, 0);
      SetStreamObserved(s, id, state, o);
      ReleasedSame(u, amount, 0, o);
      assert DeltaOf(payload) == amount;
      QueueFrameFrame(v, WINDOW, id, payload);
      QueueFrameObserved(v, WINDOW, id, payload, o);
      var (t, ok) := QueueFrame(v, WINDOW, id, payload);
      var lost := if ok then 0 else amount;
      assert state == state.(unreported := state.unreported + 0, halted := state.halted || 0 > 0) && t.streams[id] == state;
      DrainedKeeps(s, t, id, amount, lost, o);
      assert t.streams[id := state] == t.streams;
    }
  }

  lemma {:induction false} SetStreamObserved(s: Session, id: StreamID, state: Stream, o: nat)
    ensures Observe(SetStream(s, id, state), o) == Observe(s, o)
  {
    hide ObserveLane;
  }

  lemma {:induction false} ReleasedSame(s: Session, cost: int, items: int, o: nat)
    ensures SameStreams(s, ReleasePending(s, cost, items)) && Observe(ReleasePending(s, cost, items), o) == Observe(s, o)
  {
    hide ObserveLane;
  }

  lemma {:induction false} DrainedKeeps(s: Session, t: Session, id: nat, amount: nat, lost: nat, o: nat)
    requires Kept(s, o, []) && id in s.streams && CanDrain(s.streams[id], amount) && lost in {0, amount}
    requires SameStreams(SetStream(s, id, Drain(s.streams[id], amount)), t)
    requires Observe(t, o).attached == Observe(s, o).attached && Observe(t, o).up == Observe(s, o).up && Observe(t, o).grants == Observe(s, o).grants
    requires Observe(t, o).data == Observe(s, o).data + []
    requires Observe(t, o).credit == Observe(s, o).credit + (if o == id && lost == 0 then amount else 0)
    ensures var state := Drain(s.streams[id], amount);
            Kept(t.(streams := t.streams[id := state.(unreported := state.unreported + lost, halted := state.halted || lost > 0)]),
                 o, [])
  {
    hide StreamGood, ObserveLane, Identities, Drain;
    var drained := Drain(s.streams[id], amount);
    var state := drained.(unreported := drained.unreported + lost, halted := drained.halted || lost > 0);
    var u := t.(streams := t.streams[id := state]);
    assert Observe(u, o) == Observe(t, o);
    assert Observe(s, o).data + [] == Observe(s, o).data;
    StreamsReplaced(s, u);
    if id == o {
      DrainGood(s.streams[id], amount);
      DrainMoves(s.streams[id], amount, lost);
    }
  }

  lemma {:induction false} DrainMoves(t: Stream, amount: nat, lost: nat)
    requires CanDrain(t, amount) && StreamGood(Drain(t, amount))
    ensures var d := Drain(t, amount);
            var u := d.(unreported := d.unreported + lost, halted := d.halted || lost > 0);
            && StreamGood(u) && u.offered == t.offered && u.accepted == t.accepted && u.credits == t.credits
            && u.unreported == t.unreported + lost
  {}

  lemma {:induction false} BackendClosedKeeps(s: Session, id: nat, o: nat)
    requires Kept(s, o, [])
    ensures Kept(BackendClosed(s, id), o, [])
  {
    hide QueueFrame, Kept, Close, ApplyClose, DropFrames, DeleteStream, RememberClosed;
    if !s.closed && id in s.streams {
      KeptParts(s, o, id);
      ApplyCloseKeeps(s, o, [], id);
      BackendClosedIs(s, id);
      QueueCloseKeeps(ApplyClose(s, id), o, [], id);
      CloseKeeps(QueueFrame(ApplyClose(s, id), CLOSE, id, []).0, o, []);
    }
  }

  lemma {:induction false} PollServeKeeps(s: Session, laneID: nat, serial: nat, cursor: nat, expected: Option<nat>, o: nat)
    requires Kept(s, o, [])
    ensures Kept(PollServe(s, laneID, serial, cursor, expected).0, o, [])
  {
    hide Kept, Polled, FailLane, Observe;
    if !s.closed && laneID in s.lanes {
      PolledObserved(s, laneID, cursor, o);
      SameKept(s, Polled(s, laneID, cursor).0, o, []);
      FailLaneKeeps(Polled(s, laneID, cursor).0, laneID, expected, o);
    }
  }

  lemma {:induction false} InputsKeep(s: Session, handle: nat, size: nat, o: nat)
    requires Kept(s, o, [])
    ensures Kept(ReserveInput(s, handle, size), o, []) && Kept(ResizeInput(s, handle, size).0, o, [])
    ensures Kept(ReleaseInput(s, handle), o, [])
  {
    hide ReservePending, ReleasePending, Observe, Kept;
    InputSame(s, handle, size, o);
    SameKept(s, ReserveInput(s, handle, size), o, []);
    SameKept(s, ResizeInput(s, handle, size).0, o, []);
    SameKept(s, ReleaseInput(s, handle), o, []);
  }

  lemma {:induction false} InputSame(s: Session, handle: nat, size: nat, o: nat)
    ensures var t := ReserveInput(s, handle, size); SameStreams(s, t) && Observe(t, o) == Observe(s, o)
    ensures var t := ResizeInput(s, handle, size).0; SameStreams(s, t) && Observe(t, o) == Observe(s, o)
    ensures var t := ReleaseInput(s, handle); SameStreams(s, t) && Observe(t, o) == Observe(s, o)
  {
    hide ObserveLane, ReservePending, ReleasePending, LaneOK;
    ReservePendingFrame(s, size + QUEUE_ITEM_COST, 1, Uplink);
    if handle in s.inputs {
      var (newCost, cost) := (size + QUEUE_ITEM_COST, s.inputs[handle]);
      if newCost > cost {
        ReservePendingFrame(s, newCost - cost, 0, Uplink);
      }
      ReleasedFrame(s, cost - newCost, 0);
      ReleasedFrame(s, cost, 1);
    }
  }

  lemma {:induction false} ReleasedFrame(s: Session, cost: int, items: int)
    ensures SameStreams(s, ReleasePending(s, cost, items)) && ReleasePending(s, cost, items).lanes == s.lanes
  {}

  lemma {:induction false} AcquireLaneKeeps(s: Session, laneID: nat, o: nat)
    requires Kept(s, o, [])
    ensures Kept(AcquireLane(s, laneID), o, [])
  {
    hide Kept, LaneOK;
    AttachKeeps(s, laneID, o);
    var t := Attach(s, laneID);
    FlagsKeep(t, laneID, t.lanes[laneID].(websocketActive := true), o);
  }

  // ---------------------------------------------------------------- whole runs

  lemma {:induction false} StepConserves(s: Session, op: Op)
    requires Conserved(s) && s.streams.Keys <= s.used
    ensures Conserved(Step(s, op))
  {
    hide Conserved, UpBegin, UpEnd, FailLane, NextWrite, BackendDrained, BackendWriteFinished, BackendData, BackendClosed,
         PollServe, ReserveInput, ResizeInput, ReleaseInput, AcquireLane, ReleaseWebSocketLane, Close;
    match op
    case UpStart(laneID, sequence, body, expected) => UpBeginConserves(s, LaneID(s, laneID), sequence, body, expected);
    case UpFinish(laneID, serial, expected) => UpEndConserves(s, LaneID(s, laneID), serial, expected);
    case Fail(laneID, expected) => FailLaneConserves(s, LaneID(s, laneID), expected);
    case TakeWrite(id) => NextWriteConserves(s, id);
    case Drained(id, amount) => BackendDrainedConserves(s, id, amount);
    case WriteDone(id) => BackendWriteFinishedConserves(s, id);
    case FromBackend(id, data) => if |data| <= RELAY_DATA_CHUNK { BackendDataConserves(s, id, data); }
    case BackendEnded(id) => BackendClosedConserves(s, id);
    case Poll(laneID, serial, cursor, expected) => PollServeConserves(s, LaneID(s, laneID), serial, cursor, expected);
    case ReserveIn(handle, size) => ReserveInputConserves(s, handle, size);
    case ResizeIn(handle, size) => ResizeInputConserves(s, handle, size);
    case ReleaseIn(handle) => ReleaseInputConserves(s, handle);
    case AttachLane(laneID) => AcquireLaneConserves(s, laneID);
    case DetachLane(laneID, expected) => ReleaseWebSocketLaneConserves(s, laneID, expected);
    case CloseNow => ConservedCloses(s);
  }

  lemma {:induction false} ConservedCloses(s: Session)
    requires Conserved(s)
    ensures Conserved(Close(s))
  {
    CloseConserves(s);
  }

  lemma {:induction false} StepKeeps(s: Session, op: Op, o: nat)
    requires Conserved(s) && Kept(s, o, [])
    ensures Kept(Step(s, op), o, [])
  {
    hide Conserved, Kept, UpBegin, UpEnd, FailLane, NextWrite, BackendDrained, BackendWriteFinished, BackendData, BackendClosed,
         PollServe, ReserveInput, ResizeInput, ReleaseInput, AcquireLane, ReleaseWebSocketLane, Close;
    match op
    case UpStart(laneID, sequence, body, expected) => UpBeginKeeps(s, LaneID(s, laneID), sequence, body, expected, o);
    case UpFinish(laneID, serial, expected) => UpEndKeeps(s, LaneID(s, laneID), serial, expected, o);
    case Fail(laneID, expected) => FailLaneKeeps(s, LaneID(s, laneID), expected, o);
    case TakeWrite(id) => NextWriteKeeps(s, id, o);
    case Drained(id, amount) => BackendDrainedKeeps(s, id, amount, o);
    case WriteDone(id) => BackendWriteFinishedKeeps(s, id, o);
    case FromBackend(id, data) => if |data| <= RELAY_DATA_CHUNK { BackendDataKeeps(s, id, data, o); }
    case BackendEnded(id) => BackendClosedKeeps(s, id, o);
    case Poll(laneID, serial, cursor, expected) => PollServeKeeps(s, LaneID(s, laneID), serial, cursor, expected, o);
    case ReserveIn(handle, size) => InputsKeep(s, handle, size, o);
    case ResizeIn(handle, size) => InputsKeep(s, handle, size, o);
    case ReleaseIn(handle) => InputsKeep(s, handle, 0, o);
    case AttachLane(laneID) => AcquireLaneKeeps(s, laneID, o);
    case DetachLane(laneID, expected) => ReleaseWebSocketLaneKeeps(s, laneID, expected, o);
    case CloseNow => CloseKeeps(s, o, []);
  }

  /** Everything the session promises, about its budget, its identities and every stream. */
  ghost predicate Sound(s: Session) {
    Conserved(s) && Identities(s) && forall o: nat :: Tracks(s, o)
  }

  lemma {:induction false} SoundKeeps(s: Session, o: nat)
    requires Sound(s)
    ensures Kept(s, o, []) && Conserved(s) && s.streams.Keys <= s.used
  {
    assert Tracks(s, o);
  }

  lemma {:induction false} StepIsSound(s: Session, op: Op)
    requires Sound(s)
    ensures Sound(Step(s, op))
  {
    hide Step, Conserved, Identities, Observe;
    SoundKeeps(s, 0);
    StepConserves(s, op);
    StepKeeps(s, op, 0);
    forall o: nat ensures Tracks(Step(s, op), o) {
      SoundKeeps(s, o);
      StepKeeps(s, op, o);
    }
  }

  lemma {:induction false} NewLaneIsFree(serial: nat)
    ensures LaneCost(NewLane(serial)) == 0 && LaneItems(NewLane(serial)) == 0
  {}

  /** A session with no streams, no inputs and at most one lane that holds nothing is charged nothing. */
  lemma {:induction false} EmptyConserved(s: Session, k: nat, lane: CarrierLane)
    requires !s.closed && !s.broken && s.ledger == EMPTY_LEDGER && s.streams == map[] && s.inputs == map[]
    requires s.lanes == map[] || s.lanes == (map[])[k := lane]
    requires LaneCost(lane) == 0 && LaneItems(lane) == 0
    ensures Conserved(s)
  {
    hide Sums.Sum, LaneCost, LaneItems;
    var none: map<nat, CarrierLane> := map[];
    Sums.SumNothing(s.streams, StreamCost);
    Sums.SumNothing(s.streams, StreamItems);
    Sums.SumNothing(s.inputs, InputCost);
    Sums.SumNothing(s.inputs, One);
    Sums.SumNothing(none, LaneCost);
    Sums.SumNothing(none, LaneItems);
    Sums.SumSet(none, k, lane, LaneCost);
    Sums.SumSet(none, k, lane, LaneItems);
  }

  /** A new session, before its first step. */
  lemma {:induction false} StartIsSound(l: Limits, c: Carrier, env: nat -> bool)
    ensures Sound(Run(NewSession(l, c, env), []))
  {
    hide Conserved, ObserveLane, StreamGood, LaneOK, NewLane;
    var s := NewSession(l, c, env);
    NewLaneIsFree(0);
    EmptyConserved(s, 0, NewLane(0));
    forall o: nat ensures Tracks(s, o) {
      NewLaneObserved(0, o);
    }
  }

  /**
   * On every run of every session, whatever the manager answers: the budget is conserved and no accounting
   * check, missing stream or window underflow is ever reached; no stream identifier opens twice; and every
   * live stream delivers exactly once, in order, in both directions, within its credit.
   */
  lemma {:induction false} RunIsSound(s: Session, ops: seq<Op>)
    requires Sound(s)
    ensures Sound(Run(s, ops))
    decreases |ops|
  {
    hide Sound, Step;
    if ops != [] {
      StepIsSound(s, ops[0]);
      var next := Step(s, ops[0]);
      RunIsSound(next, ops[1..]);
    }
  }

  /** The relay never sends more than the client's initial window and the credit it granted. */
  lemma {:induction false} RelayObeysCredit(s: Session, o: nat)
    requires o in s.streams && Tracks(s, o)
    ensures |Observe(s, o).data| <= INITIAL_STREAM_WINDOW + Observe(s, o).grants
  {
    hide Observe, Flatten;
    BalanceConserved(s.streams[o].credits);
  }
}
