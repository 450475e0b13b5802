/** Sequenced uplink: a lane object's acknowledged batches are 1, 2, ... in order, and retries change nothing. */
module SessionUplink {
  import opened Bytes
  import opened FrameCodec
  import opened DownlinkLane
  import opened Limits
  import opened PendingBudget
  import opened SessionCore
  import opened SessionAccounting
  import opened SessionDelivery

  /** The frames of a sequence of batches, in order. */
  function FramesOf(bodies: seq<bytes>): seq<Frame> {
    if bodies == [] then []
    else FramesOf(bodies[..|bodies| - 1]) + (match Parse(bodies[|bodies| - 1]) case Ok(fs) => fs case Err(_) => [])
  }

  /** The acknowledged batches among those tried. */
  function Bodies(tried: seq<Attempt>): seq<bytes> {
    if tried == [] then []
    else
      var last := tried[|tried| - 1];
      Bodies(tried[..|tried| - 1]) + (if last.whole then [last.job.body] else [])
  }

  /** The frames that were applied. */
  function Carried(tried: seq<Attempt>): seq<Frame> {
    if tried == [] then [] else Carried(tried[..|tried| - 1]) + tried[|tried| - 1].frames
  }

  /** A batch was tried as the next one after those acknowledged; all of its frames were applied, or fewer. */
  predicate Honest(tried: seq<Attempt>, i: nat)
    requires i < |tried|
  {
    var t := tried[i];
    && t.job.sequence == |Bodies(tried[..i])| + 1
    && Parse(t.job.body).Ok?
    && var frames := Parse(t.job.body).value;
       t.frames <= frames && (t.whole <==> t.frames == frames)
  }

  /** The last sequence number counts the acknowledged batches, and what was applied is what the tried ones carried. */
  predicate UplinkSound(l: CarrierLane) {
    && (forall i | 0 <= i < |l.upTried| :: Honest(l.upTried, i))
    && l.upBodies == Bodies(l.upTried) && l.upFrames == Carried(l.upTried)
    && |l.upBodies| == l.lastUpSequence
    && (l.upBodies != [] ==> l.lastUpBody == l.upBodies[|l.upBodies| - 1])
    && (l.upActive.Some? ==> l.upActive.value.sequence == l.lastUpSequence + 1)
  }

  predicate LanesSound(s: Session) {
    forall id | id in s.lanes :: UplinkSound(s.lanes[id]) && s.lanes[id].serial < s.nextSerial
  }

  /** Every lane object that is still there kept its history and may have added to it. */
  predicate Follows(s: Session, t: Session) {
    && s.nextSerial <= t.nextSerial
    && forall id | id in t.lanes ::
         t.lanes[id].serial < s.nextSerial ==>
           && id in s.lanes && s.lanes[id].serial == t.lanes[id].serial
           && s.lanes[id].upTried <= t.lanes[id].upTried && s.lanes[id].upBodies <= t.lanes[id].upBodies
  }

  predicate SameUplink(a: CarrierLane, b: CarrierLane) {
    && b.serial == a.serial && b.lastUpSequence == a.lastUpSequence && b.lastUpBody == a.lastUpBody
    && b.upActive == a.upActive && b.upTried == a.upTried && b.upBodies == a.upBodies && b.upFrames == a.upFrames
  }

  /** Lanes may disappear, none appears and no uplink state changes. */
  predicate SameUplinks(s: Session, t: Session) {
    && t.nextSerial == s.nextSerial
    && forall id | id in t.lanes :: id in s.lanes && SameUplink(s.lanes[id], t.lanes[id])
  }

  lemma {:induction false} SameSound(s: Session, t: Session)
    requires LanesSound(s) && SameUplinks(s, t)
    ensures LanesSound(t) && Follows(s, t)
  {
    hide Honest, Bodies, Carried;
  }

  lemma {:induction false} SameTransitive(s: Session, t: Session, u: Session)
    requires SameUplinks(s, t) && SameUplinks(t, u)
    ensures SameUplinks(s, u)
  {}

  lemma {:induction false} FollowsTransitive(s: Session, t: Session, u: Session)
    requires Follows(s, t) && Follows(t, u)
    ensures Follows(s, u)
  {}

  // ---------------------------------------------------------------- the parts that leave uplinks alone

  lemma {:induction false} QueueFrameUplinks(s: Session, kind: byte, id: StreamID, payload: bytes)
    requires Queueable(kind, id, payload)
    ensures SameUplinks(s, QueueFrame(s, kind, id, payload).0)
  {
    hide QueueFrame, Enqueued, LaneOK, Queueable;
    QueueFrameFrame(s, kind, id, payload);
    QueueFrameLanes(s, kind, id, payload);
  }

  lemma {:induction false} DropFramesUplinks(s: Session, id: nat)
    ensures SameUplinks(s, DropFrames(s, id))
  {
    hide Dropped, LaneOK;
  }

  lemma {:induction false} RememberClosedUplinks(s: Session, id: nat)
    ensures SameUplinks(s, RememberClosed(s, id))
  {
    hide LaneOK;
  }

  lemma {:induction false} ApplyCloseUplinks(s: Session, id: nat)
    requires id in s.streams
    ensures SameUplinks(s, ApplyClose(s, id))
  {
    hide DropFrames, RememberClosed, LaneOK;
    DropFramesFrame(s, id);
    DropFramesUplinks(s, id);
    var u := DeleteStream(DropFrames(s, id), id);
    RememberClosedUplinks(u, id);
    SameTransitive(s, u, RememberClosed(u, id));
  }

  lemma {:induction false} RefusedUplinks(s: Session, id: StreamID)
    ensures SameUplinks(s, Refused(s, id).0)
  {
    hide RememberClosed, QueueFrame;
    RememberClosedUplinks(s, id);
    QueueFrameUplinks(RememberClosed(s, id), CLOSE, id, []);
    SameTransitive(s, RememberClosed(s, id), Refused(s, id).0);
  }

  lemma {:induction false} ApplyFrameUplinks(a: Applied, f: Frame)
    ensures SameUplinks(a.s, ApplyFrame(a, f).s)
  {
    hide ApplyClose, Refused, LaneOK, AppendWrite;
    if 0 < f.streamID <= MAX_STREAM_ID {
      if f.kind == OPEN {
        RefusedUplinks(AcquireStream(a.s.(used := a.s.used + {f.streamID})).0, f.streamID);
      } else if f.streamID in a.s.streams {
        ApplyCloseUplinks(a.s, f.streamID);
      }
    }
  }

  lemma {:induction false} ApplyBatchUplinks(a: Applied, frames: seq<Frame>)
    ensures SameUplinks(a.s, ApplyBatch(a, frames).s)
    decreases |frames|
  {
    hide ApplyFrame;
    if frames != [] && a.ok {
      ApplyFrameUplinks(a, frames[0]);
      var next := ApplyFrame(a, frames[0]);
      ApplyBatchUplinks(next, frames[1..]);
      SameTransitive(a.s, next.s, ApplyBatch(a, frames).s);
    }
  }

  lemma {:induction false} ReleaseLaneUplinks(s: Session, laneID: nat, expected: Option<nat>)
    ensures SameUplinks(s, ReleaseWebSocketLane(s, laneID, expected))
  {
    hide RememberClosed, LaneOK;
    if laneID in s.lanes {
      var t := SetLane(s, laneID, s.lanes[laneID].(websocketActive := false));
      if laneID in t.streams {
        RememberClosedUplinks(DeleteStream(t, laneID), laneID);
      }
    }
  }

  lemma {:induction false} FailLaneUplinks(s: Session, laneID: nat, expected: Option<nat>)
    ensures SameUplinks(s, FailLane(s, laneID, expected))
  {
    hide ReleaseWebSocketLane;
    ReleaseLaneUplinks(s, laneID, expected);
  }

  lemma {:induction false} DrainedUplinks(s: Session, id: nat, amount: nat)
    ensures SameUplinks(s, BackendDrained(s, id, amount).0)
  {
    hide QueueFrame, LaneOK, Drain;
    if id in s.streams && CanDrain(s.streams[id], amount) {
      QueueFrameUplinks(ReleasePending(SetStream(s, id, Drain(s.streams[id], amount)), amount, 0),
                        WINDOW, id, WindowPayload(amount).value);
    }
  }

  lemma {:induction false} BackendUplinks(s: Session, id: nat, amount: nat, data: bytes)
    ensures SameUplinks(s, NextWrite(s, id)) && SameUplinks(s, BackendWriteFinished(s, id).0)
    ensures SameUplinks(s, BackendDrained(s, id, amount).0)
    ensures |data| <= RELAY_DATA_CHUNK ==> SameUplinks(s, BackendData(s, id, data).0)
  {
    hide QueueFrame, LaneOK, BackendDrained;
    DrainedUplinks(s, id, amount);
    if id in s.streams {
      if 0 < |data| <= RELAY_DATA_CHUNK && |data| <= s.streams[id].sendCredit {
        QueueFrameUplinks(SetStream(s, id, Pay(s.streams[id], |data|)), DATA, id, data);
      }
    }
  }

  lemma {:induction false} BackendClosedUplinks(s: Session, id: nat)
    ensures SameUplinks(s, BackendClosed(s, id))
  {
    hide QueueFrame, LaneOK, ApplyClose, DropFrames, DeleteStream, RememberClosed;
    if !s.closed && id in s.streams {
      ApplyCloseUplinks(s, id);
      QueueFrameUplinks(ApplyClose(s, id), CLOSE, id, []);
      BackendClosedIs(s, id);
    }
  }

  lemma {:induction false} PollServeUplinks(s: Session, laneID: nat, serial: nat, cursor: nat, expected: Option<nat>)
    ensures SameUplinks(s, PollServe(s, laneID, serial, cursor, expected).0)
  {
    hide Serve, FailLane, LaneOK, Acknowledges;
    if laneID in s.lanes {
      ServeKeeps(s.lanes[laneID].down, cursor, s.limits.carrierBatchBytes);
      FailLaneUplinks(Polled(s, laneID, cursor).0, laneID, expected);
    }
  }

  lemma {:induction false} InputUplinks(s: Session, handle: nat, size: nat)
    ensures SameUplinks(s, ReserveInput(s, handle, size)) && SameUplinks(s, ResizeInput(s, handle, size).0)
    ensures SameUplinks(s, ReleaseInput(s, handle))
  {
    hide SessionAdmits, LaneOK;
  }

  // ---------------------------------------------------------------- the two sections of an uplink request

  lemma {:induction false} AttachSound(s: Session, laneID: nat)
    requires LanesSound(s)
    ensures LanesSound(Attach(s, laneID)) && Follows(s, Attach(s, laneID))
  {
    hide LaneOK;
  }

  lemma {:induction false} FlagsSound(s: Session, laneID: nat, lane: CarrierLane)
    requires LanesSound(s) && laneID in s.lanes
    requires SameUplink(s.lanes[laneID], lane.(upActive := s.lanes[laneID].upActive))
    requires lane.upActive.Some? ==> lane.upActive.value.sequence == lane.lastUpSequence + 1
    ensures LanesSound(SetLane(s, laneID, lane)) && Follows(s, SetLane(s, laneID, lane))
  {
    hide LaneOK, Honest, Bodies, Carried;
  }

  lemma {:induction false} UpBeginSound(s: Session, laneID: nat, sequence: nat, body: bytes, expected: Option<nat>)
    requires LanesSound(s)
    ensures var t := UpBegin(s, laneID, sequence, body, expected).0; LanesSound(t) && Follows(s, t)
  {
    hide FailLane, ParseUplink, OnlyLateFrames, StartsWithOpen, LanesSound, Follows;
    FailLaneUplinks(s, laneID, expected);
    SameSound(s, FailLane(s, laneID, expected));
    Unchanged(s);
    AttachSound(s, laneID);
    var t := Attach(s, laneID);
    FailLaneUplinks(t, laneID, expected);
    SameSound(t, FailLane(t, laneID, expected));
    FollowsTransitive(s, t, FailLane(t, laneID, expected));
    if sequence == t.lanes[laneID].lastUpSequence + 1 {
      var lane := t.lanes[laneID].(upActive := Some(UpJob(sequence, body)));
      FlagsSound(t, laneID, lane);
      FollowsTransitive(s, t, SetLane(t, laneID, lane));
    }
  }

  lemma {:induction false} Unchanged(s: Session)
    ensures Follows(s, s)
  {}

  lemma {:induction false} RecordedSound(lane: CarrierLane, job: UpJob, frames: seq<Frame>, taken: nat, whole: bool)
    requires UplinkSound(lane) && lane.upActive.None? && taken <= |frames| && (whole <==> taken == |frames|)
    requires job.sequence == lane.lastUpSequence + 1 && Parse(job.body) == Ok(frames)
    ensures UplinkSound(RecordBatch(lane, job, frames[..taken], whole))
  {
    hide Parse;
    var before, after := lane.upTried, lane.upTried + [Attempt(job, frames[..taken], whole)];
    assert after[..|before|] == before;
    assert frames[..taken] <= frames && (frames[..taken] == frames <==> taken == |frames|);
    forall i | 0 <= i < |after| ensures Honest(after, i) {
      assert after[..i] == before[..i];
      assert i < |before| ==> Honest(before, i);
    }
  }

  lemma {:induction false} RecordSound(s: Session, laneID: nat, job: UpJob, frames: seq<Frame>, taken: nat, whole: bool)
    requires LanesSound(s) && laneID in s.lanes && s.lanes[laneID].upActive.None?
    requires taken <= |frames| && (whole <==> taken == |frames|)
    requires job.sequence == s.lanes[laneID].lastUpSequence + 1 && Parse(job.body) == Ok(frames)
    ensures var t := SetLane(s, laneID, RecordBatch(s.lanes[laneID], job, frames[..taken], whole));
            LanesSound(t) && Follows(s, t)
  {
    hide LaneOK, UplinkSound;
    RecordedSound(s.lanes[laneID], job, frames, taken, whole);
  }

  /** A batch is whole exactly when all its frames were taken. */
  lemma {:induction false} TakenAll(a: Applied, frames: seq<Frame>)
    requires a.ok
    ensures ApplyBatch(a, frames).ok <==> Taken(a, frames) == |frames|
    decreases |frames|
  {
    hide ApplyFrame;
    if frames != [] {
      var b := ApplyFrame(a, frames[0]);
      if b.ok {
        TakenAll(b, frames[1..]);
      }
    }
  }

  lemma {:induction false} CommitBatchSound(s: Session, laneID: nat, job: UpJob, frames: seq<Frame>, cost: nat, items: nat)
    requires LanesSound(s) && laneID in s.lanes && s.lanes[laneID].upActive.None?
    requires job.sequence == s.lanes[laneID].lastUpSequence + 1 && Parse(job.body) == Ok(frames)
    ensures var t := CommitBatch(s, laneID, job, frames, cost, items).0; LanesSound(t) && Follows(s, t)
  {
    hide ApplyBatch, Taken, RecordBatch, LaneOK, LanesSound, Follows;
    var start := Applied(s, cost, items, true);
    var a := ApplyBatch(start, frames);
    ApplyBatchUplinks(start, frames);
    TakenAll(start, frames);
    var t := ReleasePending(a.s, a.unusedCost, a.unusedItems);
    SameSound(s, t);
    if laneID in t.lanes {
      RecordSound(t, laneID, job, frames, Taken(start, frames), a.ok);
      FollowsTransitive(s, t, CommitBatch(s, laneID, job, frames, cost, items).0);
    }
  }

  lemma {:induction false} UpEndSound(s: Session, laneID: nat, serial: nat, expected: Option<nat>)
    requires LanesSound(s)
    ensures var t := UpEnd(s, laneID, serial, expected).0; LanesSound(t) && Follows(s, t)
  {
    hide ParseUplink, LaneOK, FailLane, UpApply, Follows, UplinkSound;
    Unchanged(s);
    if laneID in s.lanes && s.lanes[laneID].serial == serial && s.lanes[laneID].upActive.Some? {
      var job := s.lanes[laneID].upActive.value;
      var t := SetLane(s, laneID, s.lanes[laneID].(upActive := None));
      FlagsSound(s, laneID, s.lanes[laneID].(upActive := None));
      ActiveIsNext(s, laneID);
      FailLaneUplinks(t, laneID, expected);
      SameSound(t, FailLane(t, laneID, expected));
      FollowsTransitive(s, t, FailLane(t, laneID, expected));
      match ParseUplink(job.body, laneID, UsesLanes(s.carrier))
      case Err(_) =>
      case Ok(frames) =>
        ParsedUplink(job.body, laneID, UsesLanes(s.carrier));
        UpApplySound(t, laneID, job, frames, expected);
        FollowsTransitive(s, t, UpApply(t, laneID, job, frames, expected).0);
    }
  }

  lemma {:induction false} ActiveIsNext(s: Session, laneID: nat)
    requires LanesSound(s) && laneID in s.lanes && s.lanes[laneID].upActive.Some?
    ensures s.lanes[laneID].upActive.value.sequence == s.lanes[laneID].lastUpSequence + 1
  {}

  lemma {:induction false} ParsedUplink(body: bytes, laneID: nat, lanes: bool)
    requires ParseUplink(body, laneID, lanes).Ok?
    ensures Parse(body) == ParseUplink(body, laneID, lanes)
  {}

  lemma {:induction false} UpApplySound(s: Session, laneID: nat, job: UpJob, frames: seq<Frame>, expected: Option<nat>)
    requires LanesSound(s) && laneID in s.lanes && s.lanes[laneID].upActive.None?
    requires job.sequence == s.lanes[laneID].lastUpSequence + 1 && Parse(job.body) == Ok(frames)
    ensures var t := UpApply(s, laneID, job, frames, expected).0; LanesSound(t) && Follows(s, t)
  {
    hide FailLane, ReservePending, CommitBatch, Advance, ValidBatch, LaneOK, LanesSound, Follows;
    FailLaneUplinks(s, laneID, expected);
    SameSound(s, FailLane(s, laneID, expected));
    var charge := Advance(s.streams.Keys, frames);
    var u := ReservePending(s, charge.0, charge.1, Uplink).0;
    ReservePendingFrame(s, charge.0, charge.1, Uplink);
    SameSound(s, u);
    CommitBatchSound(u, laneID, job, frames, charge.0, charge.1);
    FollowsTransitive(s, u, CommitBatch(u, laneID, job, frames, charge.0, charge.1).0);
  }

  lemma {:induction false} AcquireLaneSound(s: Session, laneID: nat)
    requires LanesSound(s)
    ensures LanesSound(AcquireLane(s, laneID)) && Follows(s, AcquireLane(s, laneID))
  {
    hide LaneOK, Follows, UplinkSound;
    Unchanged(s);
    AttachSound(s, laneID);
    var t := Attach(s, laneID);
    var lane := t.lanes[laneID].(websocketActive := true);
    SameSound(t, SetLane(t, laneID, lane));
    FollowsTransitive(s, t, SetLane(t, laneID, lane));
  }

  lemma {:induction false} StepSound(s: Session, op: Op)
    requires LanesSound(s)
    ensures LanesSound(Step(s, op)) && Follows(s, Step(s, op))
  {
    hide UpBegin, UpEnd, FailLane, NextWrite, BackendDrained, BackendWriteFinished, BackendData, BackendClosed,
         PollServe, ReserveInput, ResizeInput, ReleaseInput, AcquireLane, ReleaseWebSocketLane, Close, LanesSound, Follows, SameUplinks;
    var t := Step(s, op);
    match op
    case UpStart(laneID, sequence, body, expected) => UpBeginSound(s, LaneID(s, laneID), sequence, body, expected);
    case UpFinish(laneID, serial, expected) => UpEndSound(s, LaneID(s, laneID), serial, expected);
    case Fail(laneID, expected) => FailLaneUplinks(s, LaneID(s, laneID), expected); SameSound(s, t);
    case TakeWrite(id) => BackendUplinks(s, id, 0, []); SameSound(s, t);
    case Drained(id, amount) => BackendUplinks(s, id, amount, []); SameSound(s, t);
    case WriteDone(id) => BackendUplinks(s, id, 0, []); SameSound(s, t);
    case FromBackend(id, data) => BackendUplinks(s, id, 0, data); Same(s); SameSound(s, t);
    case BackendEnded(id) => BackendClosedUplinks(s, id); SameSound(s, t);
    case Poll(laneID, serial, cursor, expected) => PollServeUplinks(s, LaneID(s, laneID), serial, cursor, expected); SameSound(s, t);
    case ReserveIn(handle, size) => InputUplinks(s, handle, size); SameSound(s, t);
    case ResizeIn(handle, size) => InputUplinks(s, handle, size); SameSound(s, t);
    case ReleaseIn(handle) => InputUplinks(s, handle, 0); SameSound(s, t);
    case AttachLane(laneID) => AcquireLaneSound(s, laneID);
    case DetachLane(laneID, expected) => ReleaseLaneUplinks(s, laneID, expected); SameSound(s, t);
    case CloseNow => Closes(s); SameSound(s, t);
  }

  lemma {:induction false} Same(s: Session)
    ensures SameUplinks(s, s)
  {}

  lemma {:induction false} Closes(s: Session)
    ensures SameUplinks(s, Close(s))
  {}

  lemma {:induction false} RunFollows(s: Session, ops: seq<Op>)
    requires LanesSound(s)
    ensures LanesSound(Run(s, ops)) && Follows(s, Run(s, ops))
    decreases |ops|
  {
    hide LanesSound, Follows, Step;
    Unchanged(s);
    if ops != [] {
      StepSound(s, ops[0]);
      var next := Step(s, ops[0]);
      RunFollows(next, ops[1..]);
      FollowsTransitive(s, next, Run(s, ops));
    }
  }

  lemma {:induction false} StartLanesSound(l: Limits, c: Carrier, env: nat -> bool)
    ensures LanesSound(NewSession(l, c, env))
  {}

  /**
   * On every run of every session: a lane object's acknowledged batches are numbered 1, 2, ... up to its last sequence
   * number, each tried batch is the next one after those acknowledged before it, what was applied is exactly the frames
   * recorded of the tried ones, and whatever runs on keeps all of this and only adds to it.
   */
  lemma {:induction false} HistoryKept(l: Limits, c: Carrier, env: nat -> bool, ops: seq<Op>, more: seq<Op>)
    ensures var s := Run(NewSession(l, c, env), ops);
            LanesSound(s) && Follows(s, Run(s, more))
  {
    hide LanesSound, Follows, NewSession;
    StartLanesSound(l, c, env);
    RunFollows(NewSession(l, c, env), ops);
    RunFollows(Run(NewSession(l, c, env), ops), more);
  }

  // ---------------------------------------------------------------- what a lane's history says

  lemma {:induction false} BodiesGrow(tried: seq<Attempt>, i: nat, j: nat)
    requires i <= j <= |tried|
    ensures |Bodies(tried[..i])| <= |Bodies(tried[..j])| <= |Bodies(tried[..i])| + (j - i)
    ensures (forall k | i <= k < j :: tried[k].whole) ==> |Bodies(tried[..j])| == |Bodies(tried[..i])| + (j - i)
    decreases j
  {
    if i < j {
      BodiesGrow(tried, i, j - 1);
      assert tried[..j][..j - 1] == tried[..j - 1];
    }
  }

  /** No sequence number is tried twice exactly when every batch but perhaps the last one was applied whole. */
  lemma {:induction false} OnceExactly(l: CarrierLane)
    requires UplinkSound(l)
    ensures (forall i, j | 0 <= i < j < |l.upTried| :: l.upTried[i].job.sequence != l.upTried[j].job.sequence) <==>
            (forall i | 0 <= i < |l.upTried| - 1 :: l.upTried[i].whole)
  {
    hide Bodies, Parse;
    var tried := l.upTried;
    if forall i | 0 <= i < |tried| - 1 :: tried[i].whole {
      forall i, j | 0 <= i < j < |tried| ensures tried[i].job.sequence != tried[j].job.sequence {
        BodiesGrow(tried, i, j);
        assert Honest(tried, i) && Honest(tried, j);
      }
    } else {
      var i :| 0 <= i < |tried| - 1 && !tried[i].whole;
      NotCounted(tried, i);
      assert Honest(tried, i) && Honest(tried, i + 1);
    }
  }

  lemma {:induction false} NotCounted(tried: seq<Attempt>, i: nat)
    requires i < |tried| && !tried[i].whole
    ensures |Bodies(tried[..i + 1])| == |Bodies(tried[..i])|
  {
    assert tried[..i + 1][..i] == tried[..i];
  }

  /** While every batch was applied whole, what was applied is the acknowledged batches' frames in order. */
  lemma {:induction false} WholeIsAcknowledged(tried: seq<Attempt>)
    requires forall i | 0 <= i < |tried| :: tried[i].whole && Honest(tried, i)
    ensures Carried(tried) == FramesOf(Bodies(tried))
  {
    hide Parse;
    if tried != [] {
      var n := |tried| - 1;
      forall i | 0 <= i < n ensures Honest(tried[..n], i) {
        assert Honest(tried, i) && tried[..n][..i] == tried[..i];
      }
      WholeIsAcknowledged(tried[..n]);
      assert Honest(tried, n);
      assert Bodies(tried)[..|Bodies(tried)| - 1] == Bodies(tried[..n]);
    }
  }

  /** Only the next sequence number proceeds; the last one is acknowledged exactly when its body is the applied one. */
  lemma {:induction false} EachSequenceOnce(s: Session, laneID: nat, sequence: nat, body: bytes, expected: Option<nat>)
    requires LanesSound(s) && laneID in s.lanes && !s.closed
    requires expected.Some? ==> s.lanes[laneID].serial == expected.value
    requires 0 < sequence && |body| <= s.limits.maxBodyBytes
    ensures var lane := s.lanes[laneID];
            var (t, r) := UpBegin(s, laneID, sequence, body, expected);
            && (r.Proceed? <==> sequence == |lane.upBodies| + 1 && lane.upActive.None?)
            && (r.Acknowledged? <==> sequence == |lane.upBodies| && body == lane.upBodies[sequence - 1])
            && (r.Acknowledged? || r.UpBackpressure? ==> t == s)
  {
    hide FailLane, LaneOK, Honest, Bodies, Carried;
  }

  /** A request refused for lack of room leaves streams, windows, identities, queues and budget as they were. */
  lemma {:induction false} BackpressureLeavesNoTrace(s: Session, laneID: nat, serial: nat, expected: Option<nat>)
    requires Conserved(s)
    requires UpEnd(s, laneID, serial, expected).1.UpBackpressure?
    ensures var t := UpEnd(s, laneID, serial, expected).0;
            t == s.(asked := t.asked, lanes := s.lanes[laneID := s.lanes[laneID].(upActive := None)])
  {
    hide ParseUplink, FailLane, LaneOK, SessionAdmits, ApplyBatch, Advance, ValidBatch, Holds;
  }
}
