/**
 * A client that fills its session's pending items with the answers to refused OPENs, the manager granting everything:
 * a sequence number applied once in part and once whole, and written bytes whose credit is lost.
 */
module SessionFilling {
  import opened Bytes
  import opened FrameCodec
  import opened DownlinkLane
  import opened Limits
  import opened PendingBudget
  import opened SessionCore
  import opened SessionAccounting
  import opened SessionDelivery
  import opened SessionTheorems
  import opened SessionBatches
  import opened SessionCredit

  /** One stream, and one pending item more than the control reserve. */
  const SMALL := Limits(1024, 1024, 1, 1, 10000, 20000, 20, 40, 1, 1, 1)

  const ROOM := 19

  lemma {:induction false} SmallIsValid()
    ensures ValidLimits(SMALL)
  {}

  const ALWAYS := (n: nat) => true

  /** A manager with this session alone grants whatever the session admits: ALWAYS is its answer. */
  lemma {:induction false} ManagerGrantsAll(g: Ledger, cost: nat, items: nat, class_: PendingClass)
    requires SessionAdmits(SMALL, g, cost, items, class_)
    ensures ManagerGrants(SMALL, Totals(g.cost, g.items), cost, items, class_)
  {
    assert ControlReserve(SMALL) == (ROOM * (QUEUE_ITEM_COST + FRAME_HEADER_SIZE + 4), ROOM);
  }

  const OPENS := Frame(OPEN, 1, [])
  const CARRIES := Frame(DATA, 1, [7])

  /** OPENs of streams 2, 3, ... */
  function More(n: nat): seq<Frame> {
    seq(n, i requires 0 <= i < n => Frame(OPEN, i + 2, []))
  }

  /** One stream with one byte, and n OPENs that the session refuses. */
  function Batch(n: nat): seq<Frame> {
    [OPENS, CARRIES] + More(n)
  }

  // ---------------------------------------------------------------- the batch is legal

  lemma {:induction false} MoreTail(n: nat, k: nat)
    requires k < n
    ensures More(n)[k..] != [] && More(n)[k..][0] == Frame(OPEN, k + 2, []) && More(n)[k..][1..] == More(n)[k + 1..]
  {}

  lemma {:induction false} MoreEncoded(n: nat, k: nat)
    requires k <= n <= 20
    ensures AllWellShaped(More(n)[k..]) && |EncodeAll(More(n)[k..])| == FRAME_HEADER_SIZE * (n - k)
    decreases n - k
  {
    if k < n {
      MoreTail(n, k);
      MoreEncoded(n, k + 1);
    }
  }

  lemma {:induction false} BatchTail(n: nat)
    ensures Batch(n)[0] == OPENS && Batch(n)[1..][0] == CARRIES && Batch(n)[1..][1..] == More(n)[0..]
  {}

  lemma {:induction false} BatchParses(n: nat)
    requires n <= 20
    ensures AllWellShaped(Batch(n))
    ensures var body := EncodeAll(Batch(n)); |body| <= 1024 && ParseUplink(body, 0, false) == Ok(Batch(n))
  {
    MoreEncoded(n, 0);
    BatchTail(n);
    var fs := Batch(n);
    assert More(n)[0..] == More(n);
    assert AllWellShaped(fs);
    assert AllWellShaped(fs[1..]) && EncodeAll(fs) == Encode(OPENS) + EncodeAll(fs[1..]);
    assert EncodeAll(fs[1..]) == Encode(CARRIES) + EncodeAll(More(n)[0..]);
    ParseAcceptsExactly(EncodeAll(fs), fs);
  }

  lemma {:induction false} MoreLegal(used: set<nat>, c: Check, n: nat, k: nat)
    requires k <= n
    requires forall i | k + 2 <= i <= n + 1 :: i !in c.live && i !in c.usedInBatch && i !in used
    ensures CheckBatch(used, c, More(n)[k..]).Some?
    decreases n - k
  {
    if k < n {
      MoreTail(n, k);
      MoreLegal(used, CheckFrame(used, c, More(n)[k]).value, n, k + 1);
    }
  }

  lemma {:induction false} BatchLegal(n: nat)
    ensures CheckBatch({}, Check(map[], {}), Batch(n)).Some?
  {
    BatchTail(n);
    var c := CheckFrame({}, Check(map[], {}), OPENS).value;
    var d := CheckFrame({}, c, CARRIES).value;
    MoreLegal({}, d, n, 0);
    assert CheckBatch({}, c, Batch(n)[1..]) == CheckBatch({}, d, More(n)[0..]);
  }

  lemma {:induction false} MoreFree(live: set<nat>, n: nat, k: nat)
    requires k <= n
    ensures Advance(live, More(n)[k..]) == (0, 0)
    decreases n - k
  {
    if k < n {
      MoreTail(n, k);
      MoreFree(live + {k + 2}, n, k + 1);
    }
  }

  lemma {:induction false} BatchCharge(n: nat)
    ensures Advance({}, Batch(n)) == (1 + QUEUE_ITEM_COST, 1)
  {
    BatchTail(n);
    var live: set<nat> := {1};
    assert {} + live == live;
    MoreFree(live, n, 0);
    assert Advance(live, Batch(n)[1..]) == (1 + QUEUE_ITEM_COST, 1);
  }

  // ---------------------------------------------------------------- applying it

  const OPENED := AppendWrite(NEW_STREAM, [7])

  /** Stream 1 is open with its byte, and the answers to `n` refused OPENs wait on the lane. */
  ghost predicate Filled(s: Session, lane: CarrierLane, n: nat, last: nat) {
    && s.limits == SMALL && s.carrier == Https && !s.closed && (forall i: nat :: s.env(i))
    && s.streams == map[1 := OPENED] && (forall id :: id in s.used <==> 1 <= id <= last)
    && s.ledger.cost == 1 + QUEUE_ITEM_COST + CLOSE_FRAME_COST * n && s.ledger.items == 1 + n
    && s.lanes.Keys == {0} && s.lanes[0] == lane.(down := s.lanes[0].down)
    && s.lanes[0].down.windows == map[] && CreditOf(1, LaneLog(s.lanes[0].down)) == 0
  }

  lemma {:induction false} CloseKeepsWindows(l: GoodLane, id: StreamID)
    ensures Enqueued(l, CLOSE, id, []).windows == l.windows
  {
    hide LaneOK, Queueable;
    CloseIsAppended(l, id);
  }

  lemma {:induction false} CloseCharges(s: Session, id: StreamID)
    requires CloseRoom(s, id)
    ensures var (t, ok) := QueueFrame(s, CLOSE, id, []);
            ok && t == s.(asked := t.asked, lanes := t.lanes, ledger := Charge(s.ledger, CLOSE_FRAME_COST, 1))
  {
    hide LaneOK, PlanFrame, Enqueued, ControlReserve, UplinkReserve;
    CloseIsAppended(s.lanes[LaneID(s, id)].down, id);
  }

  lemma {:induction false} Declines(s: Session, id: StreamID)
    requires s.carrier == Https && |s.streams| >= s.limits.maxStreamsPerSession
    ensures Declining(s, id) == s.(used := s.used + {id}, tombstones := Declining(s, id).tombstones)
    ensures ApplyOpen(s, id) == QueueFrame(Declining(s, id), CLOSE, id, [])
  {
    hide Remember, LaneOK, QueueFrame;
  }

  lemma {:induction false} CloseJoins(s: Session, id: StreamID)
    requires CloseRoom(s, id) && s.carrier == Https && s.lanes.Keys == {0}
    ensures var t := QueueFrame(s, CLOSE, id, []).0;
            && t.lanes.Keys == {0} && t.lanes[0] == s.lanes[0].(down := t.lanes[0].down)
            && t.lanes[0].down.windows == s.lanes[0].down.windows
            && CreditOf(1, LaneLog(t.lanes[0].down)) == CreditOf(1, LaneLog(s.lanes[0].down))
  {
    hide LaneOK, QueueFrame, CreditOf, Enqueued, LaneLog;
    CloseCharges(s, id);
    QueueFrameLanes(s, CLOSE, id, []);
    CloseKeepsWindows(s.lanes[0].down, id);
    EnqueuedLogs(s.lanes[0].down, CLOSE, id, [], 1);
  }

  /** A refused OPEN with room for its CLOSE. */
  lemma {:induction false} Refuses(s: Session, lane: CarrierLane, n: nat)
    requires Filled(s, lane, n, n + 1) && n < ROOM
    ensures var (t, ok) := ApplyOpen(s, n + 2); ok && Filled(t, lane, n + 1, n + 2)
  {
    hide LaneOK, QueueFrame, CreditOf, LaneLog, Declining, ApplyOpen;
    var id: StreamID := n + 2;
    Declines(s, id);
    CloseCharges(Declining(s, id), id);
    CloseJoins(Declining(s, id), id);
  }

  /** And the one without. */
  lemma {:induction false} Stops(s: Session, lane: CarrierLane)
    requires Filled(s, lane, ROOM, ROOM + 1)
    ensures var (t, ok) := ApplyOpen(s, ROOM + 2); !ok && Filled(t, lane, ROOM, ROOM + 2)
  {
    hide LaneOK, QueueFrame, CreditOf, Declining, ApplyOpen;
    var id: StreamID := ROOM + 2;
    Declines(s, id);
    var u := Declining(s, id);
    CloseQueued(u, id);
    RefusedChangesNothing(u, id);
  }

  lemma {:induction false} RefusedChangesNothing(s: Session, id: StreamID)
    ensures var (t, ok) := QueueFrame(s, CLOSE, id, []); !ok ==> t == s.(asked := t.asked)
  {
    hide LaneOK, PlanFrame, Enqueued;
  }

  lemma {:induction false} Fills(a: Applied, lane: CarrierLane, n: nat, k: nat)
    requires a.ok && Filled(a.s, lane, k, k + 1) && k <= n <= 20 && k <= ROOM
    ensures var r := ApplyBatch(a, More(n)[k..]);
            && r == a.(s := r.s, ok := n <= ROOM)
            && Filled(r.s, lane, Min(n, ROOM), n + 1) && Taken(a, More(n)[k..]) == Min(n, ROOM) - k
    decreases n - k
  {
    hide Filled, ApplyOpen;
    if k < n {
      MoreTail(n, k);
      if k < ROOM {
        Refuses(a.s, lane, k);
        Fills(ApplyFrame(a, More(n)[k]), lane, n, k + 1);
      } else {
        Stops(a.s, lane);
      }
    }
  }

  // ---------------------------------------------------------------- the sections

  function Before(lane: CarrierLane): Session {
    NewSession(SMALL, Https, ALWAYS).(lanes := map[0 := lane])
  }

  function Charged(lane: CarrierLane): Session {
    Before(lane).(asked := 1, ledger := Ledger(1 + QUEUE_ITEM_COST, 1, false))
  }

  lemma {:induction false} Pays(lane: CarrierLane)
    ensures ReservePending(Before(lane), 1 + QUEUE_ITEM_COST, 1, Uplink) == (Charged(lane), true)
  {
    hide LaneOK, NewLane;
  }

  function Started(lane: CarrierLane): Applied {
    Applied(Charged(lane), 1 + QUEUE_ITEM_COST, 1, true)
  }

  /** The first two frames open stream 1 and queue its byte. */
  lemma {:induction false} Begins(lane: CarrierLane)
    requires lane.down == NEW_LANE
    ensures var a := ApplyFrame(Started(lane), OPENS);
            var b := ApplyFrame(a, CARRIES);
            a.ok && b == Applied(b.s, 0, 0, true) && Filled(b.s, lane, 0, 1)
  {
    hide LaneOK, ApplyFrame, NewLane, CreditOf;
    Opens1(lane);
    Carries1(ApplyFrame(Started(lane), OPENS));
    NothingQueued();
  }

  lemma {:induction false} Carries1(a: Applied)
    requires a.s.streams == map[1 := NEW_STREAM]
    ensures ApplyFrame(a, CARRIES)
            == a.(s := a.s.(streams := map[1 := OPENED]), unusedCost := a.unusedCost - 1 - QUEUE_ITEM_COST,
                  unusedItems := a.unusedItems - 1)
  {
    hide ApplyOpen, ApplyClose;
    assert a.s.streams[1 := OPENED] == map[1 := OPENED];
  }

  lemma {:induction false} Opens1(lane: CarrierLane)
    ensures ApplyFrame(Started(lane), OPENS)
            == Started(lane).(s := Charged(lane).(used := {1}, streams := map[1 := NEW_STREAM], openLog := [1], asked := 2))
  {
    hide LaneOK, ApplyClose, NewLane, Refused;
  }

  lemma {:induction false} NothingQueued()
    ensures CreditOf(1, LaneLog(NEW_LANE)) == 0
  {}

  lemma {:induction false} BatchApplied(lane: CarrierLane, n: nat)
    requires lane.down == NEW_LANE && n <= 20
    ensures var r := ApplyBatch(Started(lane), Batch(n));
            && r == Applied(r.s, 0, 0, n <= ROOM) && Filled(r.s, lane, Min(n, ROOM), n + 1)
            && Taken(Started(lane), Batch(n)) == 2 + Min(n, ROOM)
  {
    hide Filled, ApplyFrame, Charged;
    Begins(lane);
    BatchTail(n);
    var a := ApplyFrame(Started(lane), OPENS);
    var b := ApplyFrame(a, CARRIES);
    Fills(b, lane, n, 0);
    assert ApplyBatch(a, Batch(n)[1..]) == ApplyBatch(b, More(n)[0..]);
    assert Taken(a, Batch(n)[1..]) == 1 + Taken(b, More(n)[0..]);
  }

  /** The lane that carries the batch, claimed, and as the batch leaves it. */
  function Claimed(body: bytes): CarrierLane {
    NewLane(0).(upActive := Some(UpJob(1, body)))
  }

  function Recorded(body: bytes, n: nat): CarrierLane {
    RecordBatch(NewLane(0), UpJob(1, body), Batch(n)[..2 + Min(n, ROOM)], n <= ROOM)
  }

  lemma {:induction false} Unclaims(body: bytes)
    ensures Unclaimed(Before(Claimed(body)), 0) == Before(NewLane(0))
  {
    hide LaneOK;
    assert map[0 := Claimed(body)][0 := NewLane(0)] == map[0 := NewLane(0)];
  }

  lemma {:induction false} GetsThere(body: bytes, n: nat)
    requires ParseUplink(body, 0, false) == Ok(Batch(n))
    ensures var s := Before(Claimed(body));
            Applies(s, 0, 0) && Paid(s, 0).0 == Started(NewLane(0)) && FramesIn(s, 0) == Batch(n)
  {
    hide ParseUplink, LaneOK, Batch, Advance, CheckBatch, ReservePending;
    Unclaims(body);
    BatchCharge(n);
    BatchLegal(n);
    Pays(NewLane(0));
    assert Before(NewLane(0)).streams.Keys == {};
    assert Snapshot(Before(NewLane(0))) == Check(map[], {});
  }

  lemma {:induction false} SecondSection(body: bytes, n: nat)
    requires n <= 20 && ParseUplink(body, 0, false) == Ok(Batch(n))
    ensures var (t, r) := UpEnd(Before(Claimed(body)), 0, 0, None);
            && Filled(t, Recorded(body, n), Min(n, ROOM), n + 1)
            && r == if n <= ROOM then Acknowledged(1) else UpUnfinished
  {
    hide ParseUplink, LaneOK, Batch, UpEnd, Applies, Paid, FramesIn, CommitBatch, Charged, Filled;
    GetsThere(body, n);
    EndsInCommit(Before(Claimed(body)), 0, 0, None);
    Commits(UpJob(1, body), n);
  }

  lemma {:induction false} Commits(job: UpJob, n: nat)
    requires n <= 20
    ensures var (t, r) := CommitBatch(Charged(NewLane(0)), 0, job, Batch(n), 1 + QUEUE_ITEM_COST, 1);
            && Filled(t, RecordBatch(NewLane(0), job, Batch(n)[..2 + Min(n, ROOM)], n <= ROOM), Min(n, ROOM), n + 1)
            && r == if n <= ROOM then Acknowledged(job.sequence) else UpUnfinished
  {
    hide LaneOK, Batch, ApplyBatch, Taken, Filled, RecordBatch;
    BatchApplied(NewLane(0), n);
    var a := ApplyBatch(Started(NewLane(0)), Batch(n));
    HasLane(a.s, NewLane(0), Min(n, ROOM), n + 1);
    Records(a.s, NewLane(0), job, n);
  }

  lemma {:induction false} HasLane(s: Session, lane: CarrierLane, n: nat, last: nat)
    requires Filled(s, lane, n, last)
    ensures 0 in s.lanes
  {}

  lemma {:induction false} Records(s: Session, lane: CarrierLane, job: UpJob, n: nat)
    requires n <= 20 && Filled(s, lane, Min(n, ROOM), n + 1)
    ensures var frames := Batch(n)[..2 + Min(n, ROOM)];
            Filled(SetLane(s, 0, RecordBatch(s.lanes[0], job, frames, n <= ROOM)),
                   RecordBatch(lane, job, frames, n <= ROOM), Min(n, ROOM), n + 1)
  {
    hide LaneOK, Batch, CreditOf;
  }

  /** The client sends the batch; `Filled` is where the relay gets. */
  function Sending(n: nat): seq<Op>
    requires n <= 20
  {
    BatchParses(n);
    [UpStart(0, 1, EncodeAll(Batch(n)), None), UpFinish(0, 0, None)]
  }

  lemma {:induction false} FirstSection(body: bytes)
    requires |body| <= 1024
    ensures Step(NewSession(SMALL, Https, ALWAYS), UpStart(0, 1, body, None)) == Before(Claimed(body))
  {
    hide LaneOK;
    var s := NewSession(SMALL, Https, ALWAYS);
    assert s.lanes[0 := Claimed(body)] == map[0 := Claimed(body)];
  }

  lemma {:induction false} Sent(n: nat)
    requires n <= 20
    ensures AllWellShaped(Batch(n))
    ensures Filled(Run(NewSession(SMALL, Https, ALWAYS), Sending(n)), Recorded(EncodeAll(Batch(n)), n), Min(n, ROOM), n + 1)
  {
    BatchParses(n);
    var body := EncodeAll(Batch(n));
    var start := NewSession(SMALL, Https, ALWAYS);
    hide Filled, EncodeAll, Batch, UpEnd, UpBegin, ParseUplink, NewSession, Before;
    FirstSection(body);
    SecondSection(body, n);
    HttpsLane(Claimed(body));
    var ops := Sending(n);
    TwoSteps(start, ops);
  }

  lemma {:induction false} HttpsLane(lane: CarrierLane)
    ensures LaneID(Before(lane), 0) == 0
  {}

  lemma {:induction false} TwoSteps(s: Session, ops: seq<Op>)
    requires |ops| == 2
    ensures Run(s, ops) == Step(Step(s, ops[0]), ops[1])
  {
    hide Step;
    assert ops[1..][1..] == [];
    assert Run(Step(s, ops[0]), ops[1..]) == Step(Step(s, ops[0]), ops[1]);
  }

  // ---------------------------------------------------------------- one number, twice

  lemma {:induction false} RunAppend(s: Session, a: seq<Op>, b: seq<Op>)
    ensures Run(s, a + b) == Run(Run(s, a), b)
    decreases |a|
  {
    hide Step;
    if a == [] {
      assert a + b == b;
    } else {
      assert (a + b)[1..] == a[1..] + b;
      RunAppend(Step(s, a[0]), a[1..], b);
    }
  }

  const GRANTS := Frame(WINDOW, 1, PutBE32(5))

  lemma {:induction false} GrantParses()
    ensures DeltaOf(GRANTS.payload) == 5 && AllWellShaped([GRANTS])
    ensures var body := EncodeAll([GRANTS]); |body| == 12 && ParseUplink(body, 0, false) == Ok([GRANTS])
  {
    BE32RoundTrip(5);
    assert [GRANTS][1..] == [];
    ParseAcceptsExactly(EncodeAll([GRANTS]), [GRANTS]);
  }

  /** The client sends the first number again with another batch, before the session is closed. */
  function Again(n: nat): seq<Op>
    requires n <= 20
  {
    GrantParses();
    Sending(n) + [UpStart(0, 1, EncodeAll([GRANTS]), None), UpFinish(0, 0, None)]
  }

  /** The lane after the batch that stopped half way, claimed again. */
  ghost predicate Open(s: Session, lane: CarrierLane) {
    && Filled(s, lane, ROOM, 21) && lane.serial == 0 && lane.lastUpSequence == 0 && lane.upActive.None? && |lane.upTried| == 1
  }

  lemma {:induction false} GrantApplies(s: Session, lane: CarrierLane, body: bytes)
    requires Open(s, lane) && ParseUplink(body, 0, false) == Ok([GRANTS]) && DeltaOf(GRANTS.payload) == 5
    requires |body| == 12
    ensures var t := Step(Step(s, UpStart(0, 1, body, None)), UpFinish(0, 0, None));
            && !t.closed && 0 in t.lanes
            && t.lanes[0].upTried == lane.upTried + [Attempt(UpJob(1, body), [GRANTS], true)]
            && t.lanes[0].lastUpSequence == 1
  {
    hide LaneOK, ParseUplink, CreditOf, LaneLog;
    var claimed := s.lanes[0].(upActive := Some(UpJob(1, body)));
    var t := SetLane(s, 0, claimed);
    assert Step(s, UpStart(0, 1, body, None)) == t;
    GrantGetsThere(t, body);
    hide UpEnd, Applies, Paid, FramesIn, CommitBatch, Taken, ApplyBatch;
    EndsInCommit(t, 0, 0, None);
    GrantCommits(Unclaimed(t, 0), UpJob(1, body));
  }

  lemma {:induction false} GrantGetsThere(s: Session, body: bytes)
    requires 0 in s.lanes && s.lanes[0].serial == 0 && s.lanes[0].upActive == Some(UpJob(1, body)) && !s.closed
    requires s.carrier == Https && 1 in s.streams
    requires ParseUplink(body, 0, false) == Ok([GRANTS]) && DeltaOf(GRANTS.payload) == 5
    ensures Applies(s, 0, 0) && FramesIn(s, 0) == [GRANTS] && Paid(s, 0).0 == Applied(Unclaimed(s, 0), 0, 0, true)
  {
    hide LaneOK, ParseUplink;
    assert [GRANTS][1..] == [];
    assert Advance(s.streams.Keys, [GRANTS]) == (0, 0);
    var c := Snapshot(Unclaimed(s, 0));
    assert CheckBatch(s.used, c, [GRANTS]) == CheckBatch(s.used, CheckFrame(s.used, c, GRANTS).value, []);
  }

  lemma {:induction false} GrantCommits(s: Session, job: UpJob)
    requires 0 in s.lanes && 1 in s.streams && DeltaOf(GRANTS.payload) == 5
    ensures var t := CommitBatch(s, 0, job, [GRANTS], 0, 0).0;
            && t.closed == s.closed && 0 in t.lanes
            && t.lanes[0].upTried == s.lanes[0].upTried + [Attempt(job, [GRANTS], true)]
            && t.lanes[0].lastUpSequence == job.sequence
  {
    hide LaneOK;
    var start := Applied(s, 0, 0, true);
    assert [GRANTS][1..] == [] && [GRANTS][..1] == [GRANTS];
    var a := ApplyFrame(start, GRANTS);
    assert a.ok && a.s.lanes == s.lanes && a.unusedCost == 0 && a.unusedItems == 0;
    assert ApplyBatch(start, [GRANTS]) == a && Taken(start, [GRANTS]) == 1;
  }

  /** The session is open, and one number was applied in part with a byte, and whole with another batch. */
  predicate AppliedTwice(s: Session, number: nat) {
    && !s.closed && 0 in s.lanes
    && var tried := s.lanes[0].upTried;
       && |tried| == 2 && tried[0].job.sequence == number == tried[1].job.sequence
       && tried[0].job.body != tried[1].job.body
       && !tried[0].whole && DataOf(1, tried[0].frames) == [7]
       && tried[1].whole && tried[1].frames == [GRANTS] && s.lanes[0].lastUpSequence == number
  }

  lemma {:induction false} AgainApplied(s: Session, body: bytes, again: bytes)
    requires Filled(s, Recorded(body, 20), ROOM, 21) && |body| > 12 == |again|
    requires ParseUplink(again, 0, false) == Ok([GRANTS]) && DeltaOf(GRANTS.payload) == 5
    ensures AppliedTwice(Run(s, [UpStart(0, 1, again, None), UpFinish(0, 0, None)]), 1)
  {
    hide Filled, Recorded, Step, ParseUplink;
    HalfApplied(body);
    GrantApplies(s, Recorded(body, 20), again);
    TwoSteps(s, [UpStart(0, 1, again, None), UpFinish(0, 0, None)]);
  }

  /**
   * A run in which sequence number 1 is applied twice: a batch opens a stream, queues its byte and stops half way at the
   * one refused OPEN too many; before the session is closed another batch with the same number is applied whole and
   * acknowledged.
   */
  lemma {:induction false} NumberAppliedTwice(refused: nat)
    requires refused == ROOM + 1
    ensures ValidLimits(SMALL) && AppliedTwice(Reached(SMALL, Https, ALWAYS, Again(refused)), 1)
  {
    hide ValidLimits;
    SmallIsValid();
    GrantParses();
    Sent(refused);
    LongerBody(refused);
    hide NewSession, Step, EncodeAll, Batch, Filled, Recorded, AppliedTwice, ParseUplink, Run;
    var start := NewSession(SMALL, Https, ALWAYS);
    RunAppend(start, Sending(refused), [UpStart(0, 1, EncodeAll([GRANTS]), None), UpFinish(0, 0, None)]);
    AgainApplied(Run(start, Sending(refused)), EncodeAll(Batch(refused)), EncodeAll([GRANTS]));
  }

  lemma {:induction false} HalfApplied(body: bytes)
    ensures var lane := Recorded(body, 20);
            && lane.serial == 0 && lane.lastUpSequence == 0 && lane.upActive.None? && |lane.upTried| == 1
            && lane.upTried[0].job == UpJob(1, body) && !lane.upTried[0].whole && DataOf(1, lane.upTried[0].frames) == [7]
  {
    var frames := Batch(20)[..21];
    assert frames[0] == OPENS && frames[1..][0] == CARRIES && frames[1..][1..] == More(20)[..19];
    MoreCarries(20, 19);
    assert DataOf(1, frames[1..]) == [7] + DataOf(1, More(20)[..19]);
  }

  lemma {:induction false} MoreCarries(n: nat, k: nat)
    requires k <= n
    ensures DataOf(1, More(n)[..k]) == []
  {
    if k > 0 {
      assert More(n)[..k] == More(n)[..k - 1] + [More(n)[k - 1]];
      DataAppend(1, More(n)[..k - 1], [More(n)[k - 1]]);
      MoreCarries(n, k - 1);
      assert DataOf(1, [More(n)[k - 1]]) == [];
    }
  }

  lemma {:induction false} LongerBody(n: nat)
    requires n <= 20
    ensures AllWellShaped(Batch(n)) && |EncodeAll(Batch(n))| > 12
  {
    BatchParses(n);
    BatchTail(n);
    var fs := Batch(n);
    assert EncodeAll(fs) == Encode(OPENS) + EncodeAll(fs[1..]);
    assert EncodeAll(fs[1..]) == Encode(CARRIES) + EncodeAll(fs[1..][1..]);
  }

  // ---------------------------------------------------------------- lost credit

  /** As many refused OPENs as there is room for, and the backend takes the byte. */
  function Losing(n: nat): seq<Op>
    requires n <= 20
  {
    Sending(n) + [TakeWrite(1), Drained(1, 1)]
  }

  /** The byte is written, its credit is nowhere, and the writer has stopped. */
  predicate CreditLost(s: Session) {
    && !s.closed && 1 in s.streams && 0 in s.lanes && s.streams[1].written == [7] && s.streams[1].halted
    && CreditOf(1, LaneLog(s.lanes[0].down)) == 0
  }

  lemma {:induction false} DrainLoses(s: Session, lane: CarrierLane, last: nat)
    requires Filled(s, lane, ROOM, last)
    ensures CreditLost(Step(Step(s, TakeWrite(1)), Drained(1, 1)))
  {
    hide LaneOK, QueueFrame, CreditOf, LaneLog, JoinsQueued;
    var taken := OPENED.(writes := [], inFlight := Some([7]));
    assert OPENED.writes == [[7]] && OPENED.writes[1..] == [];
    var t := Step(s, TakeWrite(1));
    assert t == s.(streams := s.streams[1 := taken]);
    var v := ReleasePending(SetStream(t, 1, Drain(taken, 1)), 1, 0);
    assert v.ledger.items == 20 && v.lanes == s.lanes;
    WindowQueued(v, 1, 1);
    NoWindow(v.lanes[0].down);
    RefusedWindow(v, WindowPayload(1).value);
  }

  lemma {:induction false} NoWindow(l: Lane)
    requires l.windows == map[]
    ensures !JoinsQueued(l, 1, 1)
  {}

  lemma {:induction false} RefusedWindow(s: Session, payload: bytes)
    requires Queueable(WINDOW, 1, payload)
    ensures var (t, ok) := QueueFrame(s, WINDOW, 1, payload); !ok ==> t == s.(asked := t.asked)
  {
    hide LaneOK, PlanFrame, Enqueued, Queueable;
  }

  /** A run that loses credit, although the manager grants everything. */
  lemma {:induction false} CreditCanBeLost(refused: nat)
    requires refused == ROOM
    ensures ValidLimits(SMALL) && CreditLost(Reached(SMALL, Https, ALWAYS, Losing(refused)))
  {
    hide ValidLimits;
    SmallIsValid();
    Sent(refused);
    hide NewSession, Step, EncodeAll, Batch, Filled, Recorded, CreditLost, Run;
    var start := NewSession(SMALL, Https, ALWAYS);
    var tail := [TakeWrite(1), Drained(1, 1)];
    RunAppend(start, Sending(refused), tail);
    var s := Run(start, Sending(refused));
    DrainLoses(s, Recorded(EncodeAll(Batch(refused)), refused), refused + 1);
    TwoSteps(s, tail);
  }
}
