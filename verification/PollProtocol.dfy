/**
 * One lane's polls as interleaved requests, with the network and the client at the other end.
 *
 * Every request first claims the lane (superseding the older claim), then waits for the lane's single
 * slot token, then serves or parks, and keeps the token until its response has drained. Responses may
 * be lost, delayed or duplicated; requests may be cancelled, retried and arrive in any order.
 */
module PollProtocol {
  import opened Bytes
  import opened FrameCodec
  import opened DownlinkLane

  datatype Phase = Waiting | HasSlot | Waked | Holding

  /** One PollLease: the cursor it asked with and where it is between its two critical sections. */
  datatype Lease = Lease(cursor: nat, phase: Phase)

  datatype Response = Response(base: nat, body: bytes)

  datatype State = State(
    limit: nat,
    lane: GoodLane,
    attached: bool,
    slot: bool,               // the token is in downSlot
    newest: Option<nat>,      // lane.superseded: the claim of the newest poll
    leases: map<nat, Lease>,
    wire: set<Response>,      // responses written to the network, each deliverable any number of times
    sent: seq<bytes>,         // audit: the body served for cursor 0, 1, ...
    clientCursor: nat,
    clientLog: bytes,
    inOrder: bool,            // audit: every request so far carried the client's cursor when it arrived
    rejected: bool)           // audit: a request failed the cursor check

  datatype Op =
    | Claim(lease: nat, cursor: nat)
    | TakeSlot(lease: nat)
    | GiveUp(lease: nat)
    | Enter(lease: nat)
    | Wake(lease: nat)
    | TimeOut(lease: nat)
    | Drained(lease: nat)
    | Receive(response: Response)
    | Queue(kind: byte, id: nat, payload: bytes)
    | Drop(id: nat)
    | Detach

  function Start(limit: nat): State {
    State(limit, NEW_LANE, true, true, None, map[], {}, [], 0, [], true, false)
  }

  predicate Owns(l: Lease) {
    l.phase != Waiting
  }

  /** PollLease.releaseLocked. */
  function ReleaseLease(s: State, i: nat): State
    requires i in s.leases
  {
    s.(leases := s.leases - {i}, slot := s.slot || Owns(s.leases[i]),
       newest := if s.newest == Some(i) then None else s.newest)
  }

  function SetPhase(s: State, i: nat, phase: Phase): State
    requires i in s.leases
  {
    s.(leases := s.leases[i := s.leases[i].(phase := phase)])
  }

  /** The lane's queue and outstanding batch are cleared when the lane is released or the session closes. */
  function Detached(s: State): State {
    s.(attached := false,
       lane := s.lane.(pending := [], windows := map[], unacked := [], unackedCost := 0, unackedItems := 0,
                       ackedFrames := s.lane.ackedFrames + s.lane.unackedFrames, unackedFrames := []))
  }

  /** What a served, parked or rejected result does to the lease and the network. */
  function Answer(s: State, i: nat, served: Served): State
    requires i in s.leases
  {
    var cursor := s.leases[i].cursor;
    match served
    case Replayed(body, _) => SetPhase(s, i, Holding).(wire := s.wire + {Response(cursor, body)})
    case Sent(body, _) => SetPhase(s, i, Holding).(wire := s.wire + {Response(cursor, body)}, sent := s.sent + [body])
    case Parked => SetPhase(s, i, Waked)
    case BadCursor => ReleaseLease(Detached(s), i).(rejected := true)
  }

  /** The critical section run with the slot token held. */
  function ServeLease(s: State, i: nat): (r: State)
    requires i in s.leases
  {
    ServeKeeps(s.lane, s.leases[i].cursor, s.limit);
    var (m, served) := Serve(s.lane, s.leases[i].cursor, s.limit);
    Answer(s.(lane := m), i, served)
  }

  /** The loop body of a parked poll: take the next batch when there is one. */
  function WakeLease(s: State, i: nat): (r: State)
    requires i in s.leases
    requires s.lane.unacked == [] && s.leases[i].cursor == s.lane.downCursor
  {
    ServeNextKeeps(s.lane, s.leases[i].cursor, s.limit);
    var (m, served) := ServeNext(s.lane, s.leases[i].cursor, s.limit);
    Answer(s.(lane := m), i, served)
  }

  predicate Is(s: State, i: nat, phase: Phase) {
    i in s.leases && s.leases[i].phase == phase
  }

  function Step(s: State, op: Op): State {
    match op
    case Claim(i, cursor) =>
      if i in s.leases || !s.attached || cursor > s.clientCursor then s
      else s.(leases := s.leases[i := Lease(cursor, Waiting)], newest := Some(i),
              inOrder := s.inOrder && cursor == s.clientCursor)
    case TakeSlot(i) =>
      if !Is(s, i, Waiting) || !s.slot then s else SetPhase(s, i, HasSlot).(slot := false)
    case GiveUp(i) =>
      if Is(s, i, Waiting) || Is(s, i, Waked) then ReleaseLease(s, i) else s
    case Enter(i) =>
      if !Is(s, i, HasSlot) then s
      else if s.newest != Some(i) || !s.attached then ReleaseLease(s, i)
      else ServeLease(s, i)
    case Wake(i) =>
      if !Is(s, i, Waked) then s
      else if s.newest != Some(i) then ReleaseLease(s, i)
      else if !s.attached then s // it goes on waiting, or gives up
      else if s.lane.unacked == [] && s.leases[i].cursor == s.lane.downCursor then WakeLease(s, i)
      else s.(rejected := true) // the loop assumes this never happens
    case TimeOut(i) =>
      if !Is(s, i, Waked) then s
      else if s.newest != Some(i) || !s.attached then ReleaseLease(s, i)
      else if s.lane.pending != [] then s // it takes the next batch instead
      else SetPhase(s, i, Holding)
    case Drained(i) => if Is(s, i, Holding) then ReleaseLease(s, i) else s
    case Receive(response) =>
      if response !in s.wire || response.base != s.clientCursor then s
      else s.(clientCursor := s.clientCursor + 1, clientLog := s.clientLog + response.body)
    case Queue(kind, id, payload) =>
      if !s.attached || !Queueable(kind, id, payload) then s else s.(lane := Enqueued(s.lane, kind, id, payload))
    case Drop(id) => if !s.attached then s else s.(lane := Dropped(s.lane, id))
    case Detach => Detached(s)
  }

  function Run(s: State, ops: seq<Op>): State
    decreases |ops|
  {
    if ops == [] then s else Run(Step(s, ops[0]), ops[1..])
  }

  // ---------------------------------------------------------------- what every step keeps

  /** The token is in the slot, or with exactly one lease. */
  ghost predicate OneToken(s: State) {
    && (s.slot ==> forall i | i in s.leases :: !Owns(s.leases[i]))
    && (!s.slot ==> exists i :: i in s.leases && Owns(s.leases[i]))
    && (forall i, j | i in s.leases && j in s.leases && Owns(s.leases[i]) && Owns(s.leases[j]) :: i == j)
  }

  /** The lane's cursor counts the served bodies, the outstanding one is the last, and responses repeat them. */
  ghost predicate Recorded(l: GoodLane, sent: seq<bytes>, wire: set<Response>) {
    && |sent| == l.downCursor
    && Flatten(sent) == EncodeAll(l.ackedFrames + l.unackedFrames)
    && (l.unacked != [] ==> sent != [] && l.unacked == sent[|sent| - 1])
    && (forall r | r in wire :: r.base < |sent| && r.body == sent[r.base])
  }

  ghost predicate Replayable(s: State) {
    Recorded(s.lane, s.sent, s.wire)
  }

  /** The client holds the served bodies up to its cursor, each once and in order, and is at most one behind. */
  ghost predicate ExactlyOnce(s: State) {
    && s.clientCursor <= |s.sent|
    && s.clientLog == Flatten(s.sent[..s.clientCursor])
    && (s.attached ==> s.clientCursor + (if s.lane.unacked != [] then 1 else 0) >= |s.sent|)
  }

  /** A parked poll waits with nothing outstanding, at the lane's own cursor. */
  ghost predicate ParkedAtCursor(s: State) {
    s.attached ==> forall i | i in s.leases && s.leases[i].phase == Waked ::
      s.lane.unacked == [] && s.leases[i].cursor == s.lane.downCursor
  }

  /** With requests in order the newest poll asks for the client's next batch or for the outstanding one again. */
  ghost predicate Answerable(s: State) {
    && (forall i | i in s.leases :: s.leases[i].cursor <= s.clientCursor)
    && (s.newest.Some? ==> s.newest.value in s.leases)
    && (s.inOrder && |s.sent| < MAX_UINT64 ==> !s.rejected)
    && (s.inOrder && s.attached && s.newest.Some? && s.leases[s.newest.value].phase != Holding ==>
          var cursor := s.leases[s.newest.value].cursor;
          cursor == s.clientCursor || (s.lane.unacked != [] && cursor + 1 == s.clientCursor == s.lane.downCursor))
  }

  ghost predicate Good(s: State) {
    OneToken(s) && Replayable(s) && ExactlyOnce(s) && ParkedAtCursor(s) && Answerable(s)
  }

  // ---------------------------------------------------------------- serving

  /** What Serve and ServeNext may answer, in terms of the lane before and after. */
  ghost predicate Answered(l: GoodLane, cursor: nat, m: GoodLane, r: Served) {
    match r {
      case Replayed(body, _) => m == l && l.unacked != [] && body == l.unacked && cursor == l.unackedBase
      case BadCursor => l.downCursor >= MAX_UINT64 || cursor != l.downCursor
      case Parked =>
        && m.unacked == [] && m.downCursor == l.downCursor == cursor
        && m.ackedFrames + m.unackedFrames == l.ackedFrames + l.unackedFrames
      case Sent(body, _) =>
        && m.unacked == body && body != [] && m.downCursor == l.downCursor + 1 && cursor == l.downCursor
        && m.ackedFrames == l.ackedFrames + l.unackedFrames && body == EncodeAll(m.unackedFrames)
    }
  }

  lemma {:induction false} NextAnswered(l: GoodLane, cursor: nat, limit: nat)
    requires l.unacked == [] && cursor == l.downCursor
    ensures LaneOK(ServeNext(l, cursor, limit).0)
    ensures Answered(l, cursor, ServeNext(l, cursor, limit).0, ServeNext(l, cursor, limit).1)
  {
    hide TakeBatch, EncodeAll, FramesCost, CostOf, WindowIndex;
    ServeNextKeeps(l, cursor, limit);
    assert l.ackedFrames + [] == l.ackedFrames;
  }

  lemma {:induction false} ServeAnswered(l: GoodLane, cursor: nat, limit: nat)
    ensures LaneOK(Serve(l, cursor, limit).0)
    ensures Answered(l, cursor, Serve(l, cursor, limit).0, Serve(l, cursor, limit).1)
  {
    ServeKeeps(l, cursor, limit);
    hide ServeNext, EncodeAll, FramesCost, CostOf, WindowIndex;
    if !(l.unacked != [] && cursor == l.unackedBase) && cursor == l.downCursor {
      AcknowledgeKeeps(l);
      var a := if l.unacked != [] then Acknowledge(l) else l;
      NextAnswered(a, cursor, limit);
      assert a.unackedFrames == [] && a.ackedFrames + [] == l.ackedFrames + l.unackedFrames;
    }
  }

  lemma {:induction false} FlattenLast(parts: seq<bytes>, p: bytes)
    ensures Flatten(parts + [p]) == Flatten(parts) + p
  {
    FlattenAppend(parts, [p]);
    FlattenSingle(p);
  }

  lemma {:induction false} ReplayRecorded(l: GoodLane, sent: seq<bytes>, wire: set<Response>)
    requires Recorded(l, sent, wire) && l.unacked != []
    ensures Recorded(l, sent, wire + {Response(l.unackedBase, l.unacked)})
  {
    hide EncodeAll, FramesCost, CostOf, WindowIndex, Flatten;
  }

  lemma {:induction false} SentRecorded(l: GoodLane, sent: seq<bytes>, wire: set<Response>, cursor: nat, m: GoodLane, body: bytes)
    requires Recorded(l, sent, wire) && Answered(l, cursor, m, Sent(body, cursor + 1))
    ensures Recorded(m, sent + [body], wire + {Response(cursor, body)})
  {
    hide FramesCost, CostOf, WindowIndex, Flatten, EncodeAll;
    FlattenLast(sent, body);
    EncodeAllAppend(m.ackedFrames, m.unackedFrames);
  }

  lemma {:induction false} ParkRecorded(l: GoodLane, sent: seq<bytes>, wire: set<Response>, m: GoodLane)
    requires Recorded(l, sent, wire) && m.unacked == [] && m.downCursor == l.downCursor
    requires m.ackedFrames + m.unackedFrames == l.ackedFrames + l.unackedFrames
    ensures Recorded(m, sent, wire)
  {}

  lemma {:induction false} AnswerReplayable(s: State, i: nat, m: GoodLane, served: Served)
    requires Replayable(s) && i in s.leases && Answered(s.lane, s.leases[i].cursor, m, served)
    ensures served.BadCursor? || Replayable(Answer(s.(lane := m), i, served))
  {
    hide LaneOK, EncodeAll, Flatten;
    assert Recorded(s.lane, s.sent, s.wire);
    match served
    case Replayed(body, _) => ReplayRecorded(s.lane, s.sent, s.wire);
    case Sent(body, next) =>
      SentRecorded(s.lane, s.sent, s.wire, s.leases[i].cursor, m, body);
    case Parked => ParkRecorded(s.lane, s.sent, s.wire, m);
    case BadCursor =>
  }

  /** The client is at most one served body behind, whatever a served poll did. */
  lemma {:induction false} AnswerExactlyOnce(s: State, i: nat, m: GoodLane, served: Served)
    requires Replayable(s) && ExactlyOnce(s) && i in s.leases && s.leases[i].cursor <= s.clientCursor
    requires Answered(s.lane, s.leases[i].cursor, m, served)
    ensures served.BadCursor? || ExactlyOnce(Answer(s.(lane := m), i, served))
  {
    hide LaneOK, EncodeAll, Flatten;
    match served
    case Sent(body, _) => assert (s.sent + [body])[..s.clientCursor] == s.sent[..s.clientCursor];
    case _ =>
  }

  /** Serving a newest poll that may be answered never fails its cursor check. */
  lemma {:induction false} AnswerAnswerable(s: State, i: nat, m: GoodLane, served: Served)
    requires Answerable(s) && ExactlyOnce(s) && Replayable(s) && s.attached && s.newest == Some(i)
    requires s.leases[i].phase != Holding && Answered(s.lane, s.leases[i].cursor, m, served)
    requires served.BadCursor? ==>
             s.lane.downCursor >= MAX_UINT64
             || (s.leases[i].cursor != s.lane.downCursor && !(s.lane.unacked != [] && s.leases[i].cursor == s.lane.unackedBase))
    ensures Answerable(Answer(s.(lane := m), i, served))
  {
    hide EncodeAll, Flatten, CostOf, FramesCost, WindowIndex;
  }

  lemma {:induction false} ServeRejects(l: GoodLane, cursor: nat, limit: nat)
    ensures Serve(l, cursor, limit).1.BadCursor? ==>
            && Serve(l, cursor, limit).0 in {l, Acknowledge(l)}
            && (l.downCursor >= MAX_UINT64 || (cursor != l.downCursor && !(l.unacked != [] && cursor == l.unackedBase)))
  {
    hide TakeBatch, LaneOK;
  }

  // ---------------------------------------------------------------- one token

  lemma {:induction false} ReleaseToken(s: State, i: nat)
    requires OneToken(s) && i in s.leases
    ensures OneToken(ReleaseLease(s, i))
  {
    if !s.slot {
      var k :| k in s.leases && Owns(s.leases[k]);
      assert k == i || k in ReleaseLease(s, i).leases;
    }
  }

  lemma {:induction false} AnswerToken(s: State, i: nat, m: GoodLane, served: Served)
    requires OneToken(s) && i in s.leases && Owns(s.leases[i])
    ensures OneToken(Answer(s.(lane := m), i, served))
  {
    hide LaneOK;
    ReleaseToken(Detached(s.(lane := m)), i);
    var t := Answer(s.(lane := m), i, served);
    assert !served.BadCursor? ==> i in t.leases && Owns(t.leases[i]);
  }

  lemma {:induction false} AnswerParked(s: State, i: nat, m: GoodLane, served: Served)
    requires OneToken(s) && i in s.leases && Owns(s.leases[i]) && Answered(s.lane, s.leases[i].cursor, m, served)
    ensures ParkedAtCursor(Answer(s.(lane := m), i, served))
  {
    hide LaneOK, EncodeAll;
  }

  lemma {:induction false} DetachRecorded(s: State)
    requires Replayable(s)
    ensures Replayable(Detached(s))
  {
    hide CostOf, FramesCost, WindowIndex, Flatten, EncodeAll;
    assert (s.lane.ackedFrames + s.lane.unackedFrames) + [] == s.lane.ackedFrames + s.lane.unackedFrames;
  }

  lemma {:induction false} DetachGood(s: State)
    requires Good(s)
    ensures Good(Detached(s))
  {
    hide LaneOK, Recorded;
    DetachRecorded(s);
  }

  lemma {:induction false} ReleaseGood(s: State, i: nat)
    requires Good(s) && i in s.leases
    ensures Good(ReleaseLease(s, i))
  {
    hide LaneOK, OneToken, Recorded;
    ReleaseToken(s, i);
  }

  /** A rejected poll fails the lane. */
  lemma {:induction false} RejectGood(s: State, i: nat, m: GoodLane)
    requires Good(s) && i in s.leases && m in {s.lane, Acknowledge(s.lane)}
    requires Answerable(Answer(s.(lane := m), i, BadCursor))
    ensures Good(Answer(s.(lane := m), i, BadCursor))
  {
    hide LaneOK, Recorded, OneToken, Answerable;
    DetachGood(s);
    assert (s.lane.ackedFrames + s.lane.unackedFrames) + [] == s.lane.ackedFrames + s.lane.unackedFrames;
    assert Detached(s.(lane := m)) == Detached(s);
    ReleaseGood(Detached(s), i);
    RejectedFlag(ReleaseLease(Detached(s), i));
  }

  lemma {:induction false} RejectedFlag(s: State)
    requires Good(s) && Answerable(s.(rejected := true))
    ensures Good(s.(rejected := true))
  {
    hide LaneOK, Recorded, Answerable;
  }

  // ---------------------------------------------------------------- every step, every run

  lemma {:induction false} EnterGood(s: State, i: nat)
    requires Good(s) && Is(s, i, HasSlot) && s.newest == Some(i) && s.attached
    ensures Good(ServeLease(s, i))
  {
    hide LaneOK, OneToken, Recorded, ExactlyOnce, ParkedAtCursor, Answerable, Answer, Answered, Serve;
    var (cursor, limit) := (s.leases[i].cursor, s.limit);
    ServeAnswered(s.lane, cursor, limit);
    ServeRejects(s.lane, cursor, limit);
    var (m, served) := Serve(s.lane, cursor, limit);
    ServedGood(s, i, m, served);
  }

  lemma {:induction false} WakeGood(s: State, i: nat)
    requires Good(s) && Is(s, i, Waked) && s.newest == Some(i) && s.attached
    ensures s.lane.unacked == [] && s.leases[i].cursor == s.lane.downCursor
    ensures Good(WakeLease(s, i))
  {
    hide LaneOK, OneToken, Recorded, ExactlyOnce, Answerable, Answer, Answered;
    var (cursor, limit) := (s.leases[i].cursor, s.limit);
    NextAnswered(s.lane, cursor, limit);
    NextRejects(s.lane, cursor, limit);
    var (m, served) := ServeNext(s.lane, cursor, limit);
    ServedGood(s, i, m, served);
  }

  lemma {:induction false} NextRejects(l: GoodLane, cursor: nat, limit: nat)
    ensures ServeNext(l, cursor, limit).1.BadCursor? ==> ServeNext(l, cursor, limit).0 == l && l.downCursor >= MAX_UINT64
  {
    hide TakeBatch, LaneOK;
  }

  lemma {:induction false} ServedGood(s: State, i: nat, m: GoodLane, served: Served)
    requires Good(s) && i in s.leases && s.leases[i].phase in {HasSlot, Waked} && s.newest == Some(i) && s.attached
    requires Answered(s.lane, s.leases[i].cursor, m, served)
    requires served.BadCursor? ==>
             && m in {s.lane, Acknowledge(s.lane)}
             && (s.lane.downCursor >= MAX_UINT64
                 || (s.leases[i].cursor != s.lane.downCursor && !(s.lane.unacked != [] && s.leases[i].cursor == s.lane.unackedBase)))
    ensures Good(Answer(s.(lane := m), i, served))
  {
    hide LaneOK, OneToken, Recorded, ExactlyOnce, ParkedAtCursor, Answer, Answered;
    assert s.leases[i].cursor <= s.clientCursor;
    AnswerAnswerable(s, i, m, served);
    if served.BadCursor? {
      RejectGood(s, i, m);
    } else {
      AnswerToken(s, i, m, served);
      AnswerReplayable(s, i, m, served);
      AnswerExactlyOnce(s, i, m, served);
      AnswerParked(s, i, m, served);
    }
  }

  lemma {:induction false} TokenMoves(s: State, i: nat, phase: Phase)
    requires OneToken(s) && i in s.leases && phase != Waiting && (Owns(s.leases[i]) || s.slot)
    ensures OneToken(SetPhase(s, i, phase).(slot := false))
  {
    var t := SetPhase(s, i, phase).(slot := false);
    assert i in t.leases && Owns(t.leases[i]);
  }

  lemma {:induction false} PhaseGood(s: State, i: nat, phase: Phase)
    requires Good(s) && i in s.leases && (Owns(s.leases[i]) || s.slot)
    requires phase == Holding || (phase == HasSlot && s.leases[i].phase == Waiting)
    ensures Good(SetPhase(s, i, phase).(slot := false))
  {
    hide LaneOK, OneToken, Recorded;
    TokenMoves(s, i, phase);
  }

  lemma {:induction false} ClaimGood(s: State, i: nat, cursor: nat)
    requires Good(s)
    ensures Good(Step(s, Claim(i, cursor)))
  {
    hide LaneOK, Recorded, ReleaseLease, ServeLease, WakeLease, Detached;
    var t := Step(s, Claim(i, cursor));
    if t != s && !s.slot {
      var k :| k in s.leases && Owns(s.leases[k]);
      assert k in t.leases && Owns(t.leases[k]);
    }
  }

  lemma {:induction false} ReceiveGood(s: State, r: Response)
    requires Good(s)
    ensures Good(Step(s, Receive(r)))
  {
    hide LaneOK, OneToken, EncodeAll, Flatten, ReleaseLease, ServeLease, WakeLease, Detached;
    var t := Step(s, Receive(r));
    assert t.leases == s.leases && t.slot == s.slot && OneToken(t) by {
      SameToken(s, t);
    }
    if r in s.wire && r.base == s.clientCursor {
      var c := s.clientCursor;
      assert s.sent[..c + 1] == s.sent[..c] + [s.sent[c]];
      FlattenLast(s.sent[..c], s.sent[c]);
    }
  }

  lemma {:induction false} LaneGood(s: State, m: GoodLane)
    requires Good(s) && m == s.lane.(pending := m.pending, windows := m.windows)
    ensures Good(s.(lane := m))
  {
    hide LaneOK, OneToken, Flatten, EncodeAll;
    SameToken(s, s.(lane := m));
  }

  lemma {:induction false} SameToken(s: State, t: State)
    requires OneToken(s) && t.leases == s.leases && t.slot == s.slot
    ensures OneToken(t)
  {}

  lemma {:induction false} QueueGood(s: State, kind: byte, id: nat, payload: bytes)
    requires Good(s) && Queueable(kind, id, payload)
    ensures Good(s.(lane := Enqueued(s.lane, kind, id, payload))) && Good(s.(lane := Dropped(s.lane, id)))
  {
    hide LaneOK, Good, Enqueued, Dropped;
    LaneGood(s, Enqueued(s.lane, kind, id, payload));
    LaneGood(s, Dropped(s.lane, id));
  }

  lemma {:induction false} DropGood(s: State, id: nat)
    requires Good(s)
    ensures Good(s.(lane := Dropped(s.lane, id)))
  {
    hide LaneOK, Good, Dropped;
    LaneGood(s, Dropped(s.lane, id));
  }

  lemma {:induction false} SlotEmpty(s: State, i: nat)
    requires Good(s) && i in s.leases && Owns(s.leases[i])
    ensures !s.slot
  {}

  lemma {:induction false} StepGood(s: State, op: Op)
    requires Good(s)
    ensures Good(Step(s, op))
  {
    hide Good, ReleaseLease, ServeLease, WakeLease, Detached, LaneOK, Enqueued, Dropped, SetPhase;
    match op
    case Claim(i, cursor) => ClaimGood(s, i, cursor);
    case TakeSlot(i) => if Is(s, i, Waiting) && s.slot { PhaseGood(s, i, HasSlot); }
    case GiveUp(i) => if i in s.leases { ReleaseGood(s, i); }
    case Enter(i) =>
      if Is(s, i, HasSlot) {
        ReleaseGood(s, i);
        if s.newest == Some(i) && s.attached { EnterGood(s, i); }
      }
    case Wake(i) =>
      if Is(s, i, Waked) {
        ReleaseGood(s, i);
        if s.newest == Some(i) && s.attached { WakeGood(s, i); }
      }
    case TimeOut(i) =>
      if Is(s, i, Waked) {
        ReleaseGood(s, i);
        SlotEmpty(s, i);
        PhaseGood(s, i, Holding);
        SlotStays(s, i);
      }
    case Drained(i) => if i in s.leases { ReleaseGood(s, i); }
    case Receive(r) => ReceiveGood(s, r);
    case Queue(kind, id, payload) => if Queueable(kind, id, payload) { QueueGood(s, kind, id, payload); }
    case Drop(id) => DropGood(s, id);
    case Detach => DetachGood(s);
  }

  lemma {:induction false} SlotStays(s: State, i: nat)
    requires i in s.leases && !s.slot
    ensures SetPhase(s, i, Holding).(slot := false) == SetPhase(s, i, Holding)
  {}

  lemma {:induction false} StartGood(limit: nat)
    ensures Good(Start(limit))
  {
    assert Flatten<byte>([]) == [] && EncodeAll([]) == [];
  }

  lemma {:induction false} RunGood(s: State, ops: seq<Op>)
    requires Good(s)
    ensures Good(Run(s, ops))
    decreases |ops|
  {
    hide Good, Step;
    if ops != [] {
      StepGood(s, ops[0]);
      var next := Step(s, ops[0]);
      RunGood(next, ops[1..]);
    }
  }

  /**
   * End to end, on every interleaving: at most one request holds the lane's slot; responses to one cursor are
   * identical; and the client's log is exactly the encoding of the acknowledged frames, or of those and the
   * outstanding batch.
   */
  lemma {:induction false} ClientSeesEachFrameOnce(limit: nat, ops: seq<Op>, i: nat, j: nat, a: Response, b: Response)
    ensures var s := Run(Start(limit), ops);
            && (i in s.leases && j in s.leases && Owns(s.leases[i]) && Owns(s.leases[j]) ==> i == j && !s.slot)
            && (a in s.wire && b in s.wire && a.base == b.base ==> a == b)
            && (s.attached ==>
                 || s.clientLog == EncodeAll(s.lane.ackedFrames + s.lane.unackedFrames)
                 || (s.lane.unacked != [] && s.clientLog == EncodeAll(s.lane.ackedFrames)))
            && (s.inOrder && |s.sent| < MAX_UINT64 ==> !s.rejected)
  {
    hide Step;
    StartGood(limit);
    RunGood(Start(limit), ops);
    if Run(Start(limit), ops).attached {
      LogIsWhole(Run(Start(limit), ops));
    }
  }

  lemma {:induction false} LogIsWhole(s: State)
    requires Good(s) && s.attached
    ensures s.clientLog == EncodeAll(s.lane.ackedFrames + s.lane.unackedFrames)
            || (s.lane.unacked != [] && s.clientLog == EncodeAll(s.lane.ackedFrames))
  {
    hide OneToken, CostOf, FramesCost, WindowIndex, Flatten, EncodeAll;
    if s.clientCursor == |s.sent| {
      assert s.sent[..|s.sent|] == s.sent;
    } else {
      var n := |s.sent| - 1;
      assert s.sent == s.sent[..n] + [s.sent[n]];
      FlattenLast(s.sent[..n], s.sent[n]);
      EncodeAllAppend(s.lane.ackedFrames, s.lane.unackedFrames);
      Cancel(s.clientLog, EncodeAll(s.lane.ackedFrames), s.lane.unacked);
    }
  }

  lemma {:induction false} Cancel(a: bytes, b: bytes, tail: bytes)
    requires a + tail == b + tail
    ensures a == b
  {
    assert |a + tail| == |b + tail|;
    assert (a + tail)[..|a|] == a && (b + tail)[..|b|] == b;
  }
}
