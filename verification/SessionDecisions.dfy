/** What a carrier request is answered, exactly, and which answers are failures of its lane or its session. */
module SessionDecisions {
  import opened Bytes
  import opened FrameCodec
  import opened DownlinkLane
  import opened Limits
  import opened PendingBudget
  import opened SessionCore
  import opened SessionAccounting
  import opened SessionDelivery
  import opened SessionUplink
  import opened SessionTheorems
  import opened SessionLaws

  /**
   * What a protocol failure leaves: of a session without WebSocket lanes nothing; otherwise the lane of the connection
   * that failed goes, with its stream, and a connection that has lost its lane already changes nothing.
   */
  predicate Failed(s: Session, t: Session, laneID: nat, expected: Option<nat>) {
    if s.carrier != WebSocketLanes then t.closed && t.streams == map[] && t.lanes == map[]
    else if laneID in s.lanes && expected == Some(s.lanes[laneID].serial) then
      laneID !in t.lanes && t.streams == s.streams - {laneID} && t.closed == s.closed
    else t.streams == s.streams && t.lanes.Keys == s.lanes.Keys && t.closed == s.closed
  }

  /** A failure in a section that has so far only edited the lane. */
  lemma {:induction false} Fails(s: Session, u: Session, laneID: nat, expected: Option<nat>)
    requires !s.closed && laneID in s.lanes && (UsesLanes(s.carrier) ==> laneID != 0)
    requires u.carrier == s.carrier && u.streams == s.streams && u.closed == s.closed && u.lanes.Keys == s.lanes.Keys
    requires u.lanes[laneID].serial == s.lanes[laneID].serial
    ensures Failed(s, FailLane(u, laneID, expected), laneID, expected)
  {
    hide ReleaseWebSocketLane;
    if s.carrier == WebSocketLanes {
      LaneEnds(u, laneID, expected);
    }
  }

  /**
   * The answer to a carrier's uplink request on its lane, with n batches applied: the n-th is acknowledged again if it
   * is the same and refused if not; the next one proceeds, unless another request is at it; any other is a failure.
   */
  lemma {:induction false} BeginDecides(s: Session, laneID: nat, sequence: nat, body: bytes, expected: Option<nat>)
    requires LanesSound(s) && laneID in s.lanes && !s.closed && (UsesLanes(s.carrier) ==> laneID != 0)
    requires expected.Some? ==> s.lanes[laneID].serial == expected.value
    ensures var lane := s.lanes[laneID];
            var n := |lane.upBodies|;
            var (t, r) := UpBegin(s, laneID, sequence, body, expected);
            if sequence == 0 || |body| > s.limits.maxBodyBytes || sequence !in {n, n + 1} then
              r == UpProtocol(false) && Failed(s, t, laneID, expected)
            else if sequence == n then t == s && r == if body == lane.upBodies[n - 1] then Acknowledged(n) else UpProtocol(true)
            else if lane.upActive.Some? then t == s && r == UpBackpressure
            else
              && r == Proceed(lane.serial) && t == s.(lanes := t.lanes)
              && t.lanes == s.lanes[laneID := lane.(upActive := Some(UpJob(sequence, body)))]
  {
    hide FailLane, LaneOK, Honest, Bodies, Carried, Failed;
    Fails(s, s, laneID, expected);
  }

  /** A session that is closed, and a lane object that is gone, answer so and change nothing. */
  lemma {:induction false} StaleDecides(s: Session, laneID: nat, sequence: nat, body: bytes, serial: nat, expected: Option<nat>)
    ensures s.closed || (expected.Some? && (laneID in s.lanes ==> s.lanes[laneID].serial != expected.value)) ==>
              UpBegin(s, laneID, sequence, body, expected) == (s, UpClosed)
    ensures (laneID in s.lanes ==> s.lanes[laneID].serial != serial || s.lanes[laneID].upActive.None?) ==>
              UpEnd(s, laneID, serial, expected) == (s, UpClosed)
    ensures s.closed || (laneID in s.lanes ==> s.lanes[laneID].serial != serial) ==>
              PollServe(s, laneID, serial, sequence, expected) == (s, None)
  {
    hide LaneOK, ParseUplink, FailLane, Polled;
  }

  /** A body is legible exactly when it encodes 1 to 4096 frames of the kinds a client sends in a batch, all of this lane. */
  lemma {:induction false} UplinkExactly(body: bytes, laneID: nat, lanes: bool, fs: seq<Frame>)
    ensures ParseUplink(body, laneID, lanes) == Ok(fs) <==>
            && 1 <= |fs| <= MAX_BATCH_FRAMES && AllWellShaped(fs) && EncodeAll(fs) == body
            && forall i | 0 <= i < |fs| :: fs[i].kind in {OPEN, DATA, CLOSE, WINDOW, PONG} && (lanes ==> fs[i].streamID == laneID)
  {
    hide Parse, EncodeAll;
    ParseAcceptsExactly(body, fs);
    if Parse(body).Ok? {
      ParseAcceptsExactly(body, Parse(body).value);
    }
  }

  /** The body holds frames a client may send on this lane, and they are legal in this state. */
  predicate Legible(s: Session, laneID: nat, body: bytes) {
    var parsed := ParseUplink(body, laneID, UsesLanes(s.carrier));
    parsed.Ok? && ValidBatch(s, parsed.value)
  }

  /** What the batch may come to hold in the writers' queues fits beside what the session holds. */
  ghost predicate BatchHasRoom(s: Session, laneID: nat, body: bytes) {
    var parsed := ParseUplink(body, laneID, UsesLanes(s.carrier));
    parsed.Ok? &&
    var (cost, items) := Advance(s.streams.Keys, parsed.value);
    cost == 0 || (HasRoom(s, cost, items, Uplink) && s.env(s.asked))
  }

  /** A batch on its lane: a failure if it is illegible or illegal, backpressure if it has no room, applied otherwise. */
  lemma {:induction false} EndDecides(s: Session, laneID: nat, expected: Option<nat>)
    requires Conserved(s) && laneID in s.lanes && !s.closed && (UsesLanes(s.carrier) ==> laneID != 0)
    requires s.lanes[laneID].upActive.Some?
    ensures var job := s.lanes[laneID].upActive.value;
            var (t, r) := UpEnd(s, laneID, s.lanes[laneID].serial, expected);
            if !Legible(s, laneID, job.body) then r == UpProtocol(false) && Failed(s, t, laneID, expected)
            else if !BatchHasRoom(s, laneID, job.body) then r == UpBackpressure && t.streams == s.streams && t.lanes.Keys == s.lanes.Keys
            else r == Acknowledged(job.sequence) || r == UpUnfinished
  {
    hide ParseUplink, FailLane, LaneOK, Failed, ValidBatch, CheckBatch, Advance, ApplyBatch, CommitBatch, ReservePending, HasRoom, Conserved;
    var lane := s.lanes[laneID];
    var u := SetLane(s, laneID, lane.(upActive := None));
    Fails(s, u, laneID, expected);
    match ParseUplink(lane.upActive.value.body, laneID, UsesLanes(s.carrier))
    case Err(_) =>
    case Ok(frames) =>
      SameLegality(s, u, frames);
      if ValidBatch(u, frames) {
        var (cost, items) := Advance(u.streams.Keys, frames);
        AdvanceItems(u.streams.Keys, frames);
        Charges(s, u, laneID, cost, items);
        Commits(ReservePending(u, cost, items, Uplink).0, laneID, lane.upActive.value, frames, cost, items);
      }
  }

  lemma {:induction false} SameLegality(s: Session, u: Session, frames: seq<Frame>)
    requires u.used == s.used && u.streams == s.streams
    ensures ValidBatch(u, frames) == ValidBatch(s, frames)
  {}

  /** A batch that reserves bytes reserves items, and the other way round. */
  lemma {:induction false} AdvanceItems(live: set<nat>, frames: seq<Frame>)
    ensures Advance(live, frames).0 == 0 <==> Advance(live, frames).1 == 0
    decreases |frames|
  {
    if frames != [] {
      AdvanceItems(live, frames[1..]);
      AdvanceItems(live + {frames[0].streamID}, frames[1..]);
      AdvanceItems(live - {frames[0].streamID}, frames[1..]);
    }
  }

  lemma {:induction false} Charges(s: Session, u: Session, laneID: nat, cost: nat, items: nat)
    requires Conserved(s) && !s.closed && laneID in s.lanes && (cost == 0 <==> items == 0)
    requires u == SetLane(s, laneID, s.lanes[laneID].(upActive := None))
    ensures ReservePending(u, cost, items, Uplink).1 <==> cost == 0 || (HasRoom(s, cost, items, Uplink) && s.env(s.asked))
    ensures var t := ReservePending(u, cost, items, Uplink).0; t.streams == s.streams && t.lanes == u.lanes && laneID in t.lanes
  {
    hide SessionLimits, HeldCost, HeldItems, LaneOK;
  }

  lemma {:induction false} Commits(s: Session, laneID: nat, job: UpJob, frames: seq<Frame>, cost: nat, items: nat)
    requires laneID in s.lanes
    ensures CommitBatch(s, laneID, job, frames, cost, items).1 in {Acknowledged(job.sequence), UpUnfinished}
  {
    hide ApplyBatch, ReleasePending, LaneOK, RecordBatch, Taken;
  }

  /** The poll asks for the outstanding batch again, or for the next one while one more can be numbered. */
  predicate Acceptable(l: Lane, cursor: nat) {
    || (l.unacked != [] && cursor + 1 == l.downCursor)
    || (cursor == l.downCursor && (l.pending == [] || l.downCursor < MAX_UINT64))
  }

  /** A poll with any other cursor fails its lane, and only such a poll. */
  lemma {:induction false} PollDecides(s: Session, laneID: nat, cursor: nat, expected: Option<nat>)
    requires !s.closed && laneID in s.lanes && (UsesLanes(s.carrier) ==> laneID != 0)
    ensures var (t, r) := PollServe(s, laneID, s.lanes[laneID].serial, cursor, expected);
            && r.Some? && (r.value.BadCursor? <==> !Acceptable(s.lanes[laneID].down, cursor))
            && (r.value.BadCursor? ==> Failed(s, t, laneID, expected))
            && (!r.value.BadCursor? ==> t.streams == s.streams && t.lanes.Keys == s.lanes.Keys)
  {
    hide FailLane, LaneOK, Failed, TakeBatch, Polled;
    var (u, served) := Polled(s, laneID, cursor);
    PolledLane(s, laneID, cursor);
    Fails(s, u, laneID, expected);
  }

  lemma {:induction false} PolledLane(s: Session, laneID: nat, cursor: nat)
    requires laneID in s.lanes
    ensures var (u, r) := Polled(s, laneID, cursor);
            && u.carrier == s.carrier && u.streams == s.streams && u.closed == s.closed && u.lanes.Keys == s.lanes.Keys
            && u.lanes[laneID].serial == s.lanes[laneID].serial
            && (r.BadCursor? <==> !Acceptable(s.lanes[laneID].down, cursor))
  {
    hide TakeBatch, AllFaithful, WindowIndex, EncodeAll, FramesCost, AllRelayFrames, AllWellShaped;
  }
}
