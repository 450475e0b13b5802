/** Polling gets everything across: from any reachable state the client can be brought to hold all that was queued. */
module PollDrains {
  import opened Bytes
  import opened FrameCodec
  import opened DownlinkLane
  import opened PollProtocol

  /** What a client and the network can do, without a new frame and without ending the lane. */
  predicate Polling(op: Op) {
    op.Claim? || op.TakeSlot? || op.GiveUp? || op.Enter? || op.Drained? || op.Receive?
  }

  predicate AllPolling(ops: seq<Op>) {
    forall i | 0 <= i < |ops| :: Polling(ops[i])
  }

  lemma {:induction false} RunAppend(s: State, a: seq<Op>, b: seq<Op>)
    ensures Run(s, a + b) == Run(Run(s, a), b)
    decreases |a|
  {
    hide Step;
    if a == [] {
      assert a + b == b;
    } else {
      assert (a + b)[1..] == a[1..] + b;
      RunAppend(Step(s, a[0]), a[1..], b);
    }
  }

  lemma {:induction false} RunOne(s: State, op: Op)
    ensures Run(s, [op]) == Step(s, op)
  {
    hide Step;
    assert [op][1..] == [];
  }

  /** Everything but the claims: who waits for the slot, and who has it. */
  predicate SameLane(s: State, t: State) {
    && t.limit == s.limit && t.lane == s.lane && t.attached == s.attached && t.sent == s.sent && t.wire == s.wire
    && t.clientCursor == s.clientCursor && t.clientLog == s.clientLog
  }

  lemma {:induction false} Unused(keys: set<nat>) returns (n: nat)
    ensures forall k | k in keys :: k < n
  {
    if keys == {} {
      n := 0;
    } else {
      var k :| k in keys;
      var rest := Unused(keys - {k});
      n := if k < rest then rest else k + 1;
      forall x | x in keys ensures x < n {
        assert x == k || x in keys - {k};
      }
    }
  }

  /** The newest poll waits for the slot, which is free, and asks with the client's cursor. */
  ghost predicate NextInLine(s: State, i: nat) {
    && Good(s) && s.attached && Is(s, i, Waiting) && s.slot && s.newest == Some(i)
    && s.leases[i].cursor == s.clientCursor
  }

  lemma {:induction false} Claims(s: State, i: nat)
    requires Good(s) && s.attached && i !in s.leases
    ensures var t := Step(s, Claim(i, s.clientCursor));
            && Good(t) && SameLane(s, t) && Is(t, i, Waiting) && t.newest == Some(i) && t.slot == s.slot
            && t.leases[i].cursor == s.clientCursor
  {
    hide Good, LaneOK;
    StepGood(s, Claim(i, s.clientCursor));
  }

  /** The request that has the token gives it up, whatever it is doing, once a newer one has been claimed. */
  function Yield(s: State, h: nat): Op
    requires h in s.leases
  {
    match s.leases[h].phase
    case HasSlot => Enter(h)
    case Holding => Drained(h)
    case _ => GiveUp(h)
  }

  lemma {:induction false} Yields(s: State, i: nat, h: nat)
    requires Good(s) && s.attached && Is(s, i, Waiting) && s.newest == Some(i)
    requires h in s.leases && Owns(s.leases[h]) && s.leases[i].cursor == s.clientCursor
    ensures SameLane(s, Step(s, Yield(s, h))) && NextInLine(Step(s, Yield(s, h)), i) && Polling(Yield(s, h))
  {
    hide Good, LaneOK, ServeLease, WakeLease;
    StepGood(s, Yield(s, h));
    assert h != i;
    assert Step(s, Yield(s, h)) == ReleaseLease(s, h);
  }

  lemma {:induction false} GetsInLine(s: State) returns (i: nat, ops: seq<Op>)
    requires Good(s) && s.attached
    ensures AllPolling(ops) && SameLane(s, Run(s, ops)) && NextInLine(Run(s, ops), i)
  {
    hide LaneOK, Step, Replayable, ExactlyOnce, ParkedAtCursor, Answerable;
    i := Unused(s.leases.Keys);
    var t := Step(s, Claim(i, s.clientCursor));
    Claims(s, i);
    ops := [Claim(i, s.clientCursor)];
    RunOne(s, ops[0]);
    if !t.slot {
      var h :| h in t.leases && Owns(t.leases[h]);
      Yields(t, i, h);
      RunAppend(s, ops, [Yield(t, h)]);
      RunOne(t, Yield(t, h));
      ops := ops + [Yield(t, h)];
    }
  }

  // ---------------------------------------------------------------- one poll

  /** All that was ever queued on the lane and not dropped, in order. */
  function Everything(l: Lane): seq<Frame> {
    l.ackedFrames + l.unackedFrames + Frames(l.pending)
  }

  /** The client has not received the outstanding batch. */
  predicate Behind(s: State) {
    s.clientCursor < |s.sent|
  }

  /** The outstanding batch is served again, byte for byte, to the poll that asks for it again. */
  lemma {:induction false} ServesAgain(l: GoodLane, cursor: nat, limit: nat)
    requires l.unacked != [] && cursor + 1 == l.downCursor
    ensures Serve(l, cursor, limit) == (l, Replayed(l.unacked, l.downCursor))
  {}

  /** The poll that asks for the next batch acknowledges the outstanding one and gets as much as fits. */
  lemma {:induction false} ServesNext(l: GoodLane, limit: nat)
    requires l.pending != [] && l.downCursor < MAX_UINT64
    ensures var (m, r) := Serve(l, l.downCursor, limit);
            && LaneOK(m) && r.Sent? && r.body == m.unacked != [] && m.downCursor == l.downCursor + 1
            && |m.pending| < |l.pending| && Everything(m) == Everything(l)
            && m.ackedFrames == l.ackedFrames + l.unackedFrames
  {
    hide FramesCost, CostOf, WindowIndex, TakeBatch;
    assert l.unacked == [] ==> l.ackedFrames + l.unackedFrames == l.ackedFrames;
    AcknowledgeKeeps(l);
    var a: GoodLane := if l.unacked != [] then Acknowledge(l) else l;
    ServeNextKeeps(a, a.downCursor, limit);
    TakeBatchEffects(a, limit);
    var m := ServeNext(a, a.downCursor, limit).0;
    assert Everything(m) == m.ackedFrames + (m.unackedFrames + Frames(m.pending));
  }

  /** What the next poll is answered, and what that makes of the lane and of the bodies served so far. */
  ghost predicate GetsBody(s: State, t: State, body: bytes) {
    && t.attached && Good(t) && t.clientCursor == s.clientCursor && Everything(t.lane) == Everything(s.lane)
    && Response(s.clientCursor, body) in t.wire && Behind(t)
    && (if Behind(s) then t.lane == s.lane else |t.lane.pending| < |s.lane.pending|)
    && |t.sent| == s.clientCursor + 1
  }

  /** The poll next in line is served: the outstanding batch again, or else the next one. */
  lemma {:induction false} IsServed(s: State, i: nat)
    requires NextInLine(s, i)
    requires Behind(s) || (s.lane.pending != [] && s.lane.downCursor < MAX_UINT64)
    ensures var u := Step(Step(s, TakeSlot(i)), Enter(i));
            && Is(u, i, Holding) && exists body :: GetsBody(s, u, body)
  {
    hide Good, LaneOK, Serve, Everything, Answer, OneToken;
    var t := Step(s, TakeSlot(i));
    var u := Step(t, Enter(i));
    StepGood(s, TakeSlot(i));
    StepGood(t, Enter(i));
    Cursors(s);
    var c := s.clientCursor;
    var (m, r) := Serve(t.lane, c, s.limit);
    if Behind(s) {
      ServesAgain(s.lane, c, s.limit);
    } else {
      ServesNext(s.lane, s.limit);
    }
    AnswersWith(t, i, m, r);
    Cursors(u);
    assert GetsBody(s, u, r.body);
  }

  /** The client is at the lane's cursor, or one behind it with a batch outstanding. */
  lemma {:induction false} Cursors(s: State)
    requires Good(s)
    ensures |s.sent| == s.lane.downCursor && s.clientCursor <= |s.sent|
    ensures s.attached && Behind(s) ==> s.lane.unacked != [] && s.clientCursor + 1 == s.lane.downCursor
  {
    hide OneToken, ParkedAtCursor, Answerable, LaneOK, EncodeAll, Flatten;
  }

  lemma {:induction false} AnswersWith(s: State, i: nat, m: GoodLane, r: Served)
    requires i in s.leases && (r.Replayed? || r.Sent?)
    ensures var t := Answer(s.(lane := m), i, r);
            && Is(t, i, Holding) && t.lane == m && t.attached == s.attached && t.clientCursor == s.clientCursor
            && Response(s.leases[i].cursor, r.body) in t.wire
  {
    hide LaneOK;
  }

  /** The client receives its answer, and the token goes back. */
  lemma {:induction false} Receives(s: State, i: nat, body: bytes)
    requires Good(s) && s.attached && Is(s, i, Holding) && Response(s.clientCursor, body) in s.wire
    ensures var t := Step(Step(s, Receive(Response(s.clientCursor, body))), Drained(i));
            && Good(t) && t.attached && t.lane == s.lane && t.sent == s.sent && t.clientCursor == s.clientCursor + 1
  {
    hide Good, LaneOK;
    var r := Receive(Response(s.clientCursor, body));
    StepGood(s, r);
    StepGood(Step(s, r), Drained(i));
  }

  /** One poll brings the client level, and takes the next frames off the queue if it was level before. */
  ghost predicate Nearer(s: State, t: State) {
    && Good(t) && t.attached && !Behind(t) && Everything(t.lane) == Everything(s.lane)
    && (if Behind(s) then t.lane == s.lane else |t.lane.pending| < |s.lane.pending|)
    && t.lane.downCursor == s.clientCursor + 1
  }

  lemma {:induction false} OnePoll(s: State) returns (ops: seq<Op>)
    requires Good(s) && s.attached
    requires Behind(s) || (s.lane.pending != [] && s.lane.downCursor < MAX_UINT64)
    ensures AllPolling(ops) && Nearer(s, Run(s, ops))
  {
    hide Good, LaneOK, Step, Everything, NextInLine;
    var i, first := GetsInLine(s);
    var t := Run(s, first);
    assert Good(t) by { NextIsGood(t, i); }
    IsServed(t, i);
    var served := Step(Step(t, TakeSlot(i)), Enter(i));
    var body :| GetsBody(t, served, body);
    Receives(served, i, body);
    var rest := [TakeSlot(i), Enter(i), Receive(Response(t.clientCursor, body)), Drained(i)];
    RunAppend(s, first, rest);
    RunFour(t, rest[0], rest[1], rest[2], rest[3]);
    Cursors(Run(t, rest));
    ops := first + rest;
  }

  lemma {:induction false} NextIsGood(s: State, i: nat)
    requires NextInLine(s, i)
    ensures Good(s)
  {}

  lemma {:induction false} RunFour(s: State, a: Op, b: Op, c: Op, d: Op)
    ensures Run(s, [a, b, c, d]) == Step(Step(Step(Step(s, a), b), c), d)
  {
    hide Step;
    RunAppend(s, [a, b], [c, d]);
    assert [a, b] + [c, d] == [a, b, c, d] && [a, b] == [a] + [b] && [c, d] == [c] + [d];
    RunAppend(s, [a], [b]);
    RunAppend(Run(s, [a, b]), [c], [d]);
    RunOne(s, a);
    RunOne(Step(s, a), b);
    RunOne(Run(s, [a, b]), c);
    RunOne(Step(Run(s, [a, b]), c), d);
  }

  lemma {:induction false} ManyPolls(s: State) returns (ops: seq<Op>)
    requires Good(s) && s.attached && s.lane.downCursor + |s.lane.pending| <= MAX_UINT64
    ensures AllPolling(ops) && Run(s, ops).clientLog == EncodeAll(Everything(s.lane))
    decreases |s.lane.pending|, if Behind(s) then 1 else 0
  {
    hide Good, LaneOK, Step, Everything, EncodeAll;
    Cursors(s);
    if Behind(s) || s.lane.pending != [] {
      var first := OnePoll(s);
      var t := Run(s, first);
      var rest := ManyPolls(t);
      RunAppend(s, first, rest);
      ops := first + rest;
    } else {
      ops := [];
      LevelHasAll(s);
    }
  }

  lemma {:induction false} LevelHasAll(s: State)
    requires Good(s) && !Behind(s) && s.lane.pending == []
    ensures s.clientLog == EncodeAll(Everything(s.lane))
  {
    hide OneToken, ParkedAtCursor, Answerable, LaneOK, EncodeAll, Flatten;
    assert s.sent[..|s.sent|] == s.sent;
    assert Everything(s.lane) == s.lane.ackedFrames + s.lane.unackedFrames;
  }

  /**
   * Whatever polls, losses, duplicates and cancellations came before, while the lane lives the client can still get
   * everything: some polls and deliveries leave it with exactly the encoding of all that was queued, each frame once
   * and in order.
   */
  lemma {:induction false} EverythingArrives(limit: nat, before: seq<Op>)
    requires var s := Run(Start(limit), before); s.attached && s.lane.downCursor + |s.lane.pending| <= MAX_UINT64
    ensures var s := Run(Start(limit), before);
            exists ops :: AllPolling(ops) && Run(s, ops).clientLog == EncodeAll(Everything(s.lane))
  {
    hide Good, LaneOK, Step, Everything, EncodeAll;
    StartGood(limit);
    RunGood(Start(limit), before);
    var ops := ManyPolls(Run(Start(limit), before));
  }

  /** A parked poll that is still the newest is answered as soon as something is queued. */
  lemma {:induction false} ParkedIsServed(s: State, i: nat)
    requires Good(s) && s.attached && Is(s, i, Waked) && s.newest == Some(i)
    requires s.lane.pending != [] && s.lane.downCursor < MAX_UINT64
    ensures var t := Step(s, Wake(i));
            && Is(t, i, Holding) && Response(s.leases[i].cursor, t.lane.unacked) in t.wire
            && |t.lane.pending| < |s.lane.pending| && Everything(t.lane) == Everything(s.lane)
  {
    hide LaneOK, OneToken, Recorded, ExactlyOnce, Answerable, Serve, Everything, Answer, ServeNext;
    WakeGood(s, i);
    ServesNext(s.lane, s.limit);
    var (m, r) := ServeNext(s.lane, s.leases[i].cursor, s.limit);
    assert (m, r) == Serve(s.lane, s.lane.downCursor, s.limit) by { NothingToAcknowledge(s.lane, s.limit); }
    AnswersWith(s, i, m, r);
  }

  lemma {:induction false} NothingToAcknowledge(l: GoodLane, limit: nat)
    requires l.unacked == []
    ensures Serve(l, l.downCursor, limit) == ServeNext(l, l.downCursor, limit)
  {}

  /**
   * A parked poll whose time is up with nothing queued is answered without a body, and holds the token until that is
   * sent and no longer; with something queued it goes on, to be served.
   */
  lemma {:induction false} ParkedEnds(s: State, i: nat)
    requires Good(s) && Is(s, i, Waked)
    ensures s.attached && s.newest == Some(i) && s.lane.pending != [] ==> Step(s, TimeOut(i)) == s
    ensures !(s.attached && s.newest == Some(i) && s.lane.pending != []) ==>
            var t := Step(Step(s, TimeOut(i)), Drained(i));
            && i !in t.leases && t.slot && t.wire == s.wire && SameLane(s, t)
            && (s.attached && s.newest == Some(i) ==> Is(Step(s, TimeOut(i)), i, Holding) && !Step(s, TimeOut(i)).slot)
  {
    hide LaneOK, ServeLease, WakeLease, Replayable, ExactlyOnce, Answerable, ParkedAtCursor;
  }

  /** A frame joins what the lane will deliver, exactly as it was given; after a drop none of its stream is queued. */
  lemma {:induction false} QueuedArrives(s: State, kind: byte, id: nat, payload: bytes, observed: nat)
    requires s.attached && Queueable(kind, id, payload)
    ensures CommitEffect(s.lane, Step(s, Queue(kind, id, payload)).lane, kind, id, payload, observed)
    ensures forall i | 0 <= i < |Step(s, Drop(id)).lane.pending| :: Step(s, Drop(id)).lane.pending[i].frame.streamID != id
    ensures observed != id ==>
              && DataOf(observed, Frames(Step(s, Drop(id)).lane.pending)) == DataOf(observed, Frames(s.lane.pending))
              && CreditOf(observed, Frames(Step(s, Drop(id)).lane.pending)) == CreditOf(observed, Frames(s.lane.pending))
  {
    hide CommitEffect, Commit, DataOf, CreditOf, AllFaithful, EncodeAll, WindowIndex, Frames;
    CommitEffects(s.lane, kind, id, payload, observed);
    if observed != id {
      WithoutCarries(s.lane.pending, id, observed);
    }
    NoneLeft(s.lane.pending, id);
  }

  lemma {:induction false} NoneLeft(qs: seq<Queued>, id: nat)
    ensures forall i | 0 <= i < |Without(qs, id)| :: Without(qs, id)[i].frame.streamID != id
  {
    if qs != [] {
      NoneLeft(qs[..|qs| - 1], id);
    }
  }

  /** A detached lane serves nobody: what was queued or outstanding is gone, and no poll is taken any more. */
  lemma {:induction false} DetachedEnds(s: State, i: nat, cursor: nat)
    ensures var t := Step(s, Detach);
            && !t.attached && t.lane.pending == [] && t.lane.unacked == []
            && Step(t, Claim(i, cursor)) == t
  {
    hide LaneOK;
  }
}
