/**
 * One carrier lane's downlink queue: pending encoded frames with in-place DATA and WINDOW
 * coalescing, batch splitting, and a cursor-acknowledged replayable batch.
 *
 * `ackedFrames` and `unackedFrames` are the audit trail of what already left `pending`; the
 * relay itself stores only the bytes of the unacknowledged batch.
 */
module DownlinkLane {
  import opened Bytes
  import opened FrameCodec

  const QUEUE_ITEM_COST := 256

  /** A queued frame: the stored bytes, the frame they carry (its kind and stream are stored too) and the charge. */
  datatype Queued = Queued(encoded: bytes, frame: Frame, cost: nat)

  datatype Lane = Lane(
    pending: seq<Queued>,
    windows: map<nat, nat>,
    unacked: bytes,
    unackedCost: nat,
    unackedItems: nat,
    unackedBase: nat,
    downCursor: nat,
    ackedFrames: seq<Frame>,
    unackedFrames: seq<Frame>)

  const NEW_LANE := Lane([], map[], [], 0, 0, 0, 0, [], [])

  // ---------------------------------------------------------------- frames in a queue

  /** The stored bytes are the encoding of a relay-to-client frame and the charge is its size plus overhead. */
  predicate Faithful(q: Queued) {
    && ValidIn(q.frame, RelayToClient)
    && q.encoded == Encode(q.frame)
    && q.cost == FrameCost(q.frame)
  }

  predicate AllFaithful(qs: seq<Queued>) {
    forall i | 0 <= i < |qs| :: Faithful(qs[i])
  }

  predicate AllRelayFrames(fs: seq<Frame>) {
    forall i | 0 <= i < |fs| :: ValidIn(fs[i], RelayToClient)
  }

  function Frames(qs: seq<Queued>): (fs: seq<Frame>)
    ensures |fs| == |qs|
    ensures forall i | 0 <= i < |qs| :: fs[i] == qs[i].frame
  {
    if qs == [] then [] else [qs[0].frame] + Frames(qs[1..])
  }

  function Encodings(qs: seq<Queued>): bytes {
    if qs == [] then [] else qs[0].encoded + Encodings(qs[1..])
  }

  function CostOf(qs: seq<Queued>): nat {
    if qs == [] then 0 else qs[0].cost + CostOf(qs[1..])
  }

  function FrameCost(f: Frame): nat {
    |f.payload| + FRAME_HEADER_SIZE + QUEUE_ITEM_COST
  }

  function FramesCost(fs: seq<Frame>): nat {
    if fs == [] then 0 else FrameCost(fs[0]) + FramesCost(fs[1..])
  }

  /** The DATA bytes a frame sequence carries for one stream. */
  function DataOf(id: nat, fs: seq<Frame>): bytes {
    if fs == [] then []
    else (if fs[0].kind == DATA && fs[0].streamID == id then fs[0].payload else []) + DataOf(id, fs[1..])
  }

  function DeltaOf(payload: bytes): nat {
    match WindowDelta(payload) case Ok(d) => d case Err(_) => 0
  }

  /** The WINDOW credit a frame sequence grants to one stream. */
  function CreditOf(id: nat, fs: seq<Frame>): nat {
    if fs == [] then 0
    else (if fs[0].kind == WINDOW && fs[0].streamID == id then DeltaOf(fs[0].payload) else 0) + CreditOf(id, fs[1..])
  }

  lemma {:induction false} DataAppend(id: nat, a: seq<Frame>, b: seq<Frame>)
    ensures DataOf(id, a + b) == DataOf(id, a) + DataOf(id, b)
  {
    if a == [] {
      assert a + b == b;
    } else {
      assert (a + b)[1..] == a[1..] + b;
      DataAppend(id, a[1..], b);
    }
  }

  lemma {:induction false} CreditAppend(id: nat, a: seq<Frame>, b: seq<Frame>)
    ensures CreditOf(id, a + b) == CreditOf(id, a) + CreditOf(id, b)
  {
    if a == [] {
      assert a + b == b;
    } else {
      assert (a + b)[1..] == a[1..] + b;
      CreditAppend(id, a[1..], b);
    }
  }

  lemma {:induction false} CostAppend(a: seq<Queued>, b: seq<Queued>)
    ensures CostOf(a + b) == CostOf(a) + CostOf(b)
  {
    if a == [] {
      assert a + b == b;
    } else {
      assert (a + b)[1..] == a[1..] + b;
      CostAppend(a[1..], b);
    }
  }

  lemma {:induction false} FramesAppend(a: seq<Queued>, b: seq<Queued>)
    ensures Frames(a + b) == Frames(a) + Frames(b)
  {}

  lemma {:induction false} EncodingsAreFrames(qs: seq<Queued>)
    requires AllFaithful(qs)
    ensures AllRelayFrames(Frames(qs)) && AllWellShaped(Frames(qs))
    ensures Encodings(qs) == EncodeAll(Frames(qs)) && CostOf(qs) == FramesCost(Frames(qs))
  {
    if qs != [] {
      assert Faithful(qs[0]);
      assert Frames(qs)[1..] == Frames(qs[1..]);
      EncodingsAreFrames(qs[1..]);
    }
  }

  // ---------------------------------------------------------------- the window index

  /** The index pendingWindows must hold: for each stream its last queued WINDOW frame. */
  function WindowIndex(qs: seq<Queued>): map<nat, nat> {
    if qs == [] then map[]
    else
      var n := |qs| - 1;
      var m := WindowIndex(qs[..n]);
      if qs[n].frame.kind == WINDOW then m[qs[n].frame.streamID := n] else m
  }

  lemma {:induction false} WindowIndexSound(qs: seq<Queued>, id: nat)
    requires id in WindowIndex(qs)
    ensures var i := WindowIndex(qs)[id];
            i < |qs| && qs[i].frame.kind == WINDOW && qs[i].frame.streamID == id
  {
    var n := |qs| - 1;
    if !(qs[n].frame.kind == WINDOW && qs[n].frame.streamID == id) {
      WindowIndexSound(qs[..n], id);
    }
  }

  lemma {:induction false} WindowIndexKinds(a: seq<Queued>, b: seq<Queued>)
    requires |a| == |b|
    requires forall i | 0 <= i < |a| :: a[i].frame.kind == b[i].frame.kind && a[i].frame.streamID == b[i].frame.streamID
    ensures WindowIndex(a) == WindowIndex(b)
  {
    if a != [] {
      WindowIndexKinds(a[..|a| - 1], b[..|b| - 1]);
    }
  }

  function Shifted(m: map<nat, nat>, n: nat): map<nat, nat> {
    map id | id in m && m[id] >= n :: m[id] - n
  }

  lemma {:induction false} WindowIndexShift(qs: seq<Queued>, n: nat)
    requires n <= |qs|
    ensures WindowIndex(qs[n..]) == Shifted(WindowIndex(qs), n)
  {
    if n == |qs| {
      forall id | id in WindowIndex(qs) ensures WindowIndex(qs)[id] < n {
        WindowIndexSound(qs, id);
      }
    } else {
      var k := |qs| - 1;
      WindowIndexShift(qs[..k], n);
      assert qs[n..][..k - n] == qs[..k][n..];
    }
  }

  // ---------------------------------------------------------------- queueing one frame

  datatype Plan =
    | AddCredit(index: nat, total: nat)
    | ExtendLast
    | AppendNew
    | Refuse

  /** Which branch queueFrameLocked takes. */
  function PlanFrame(l: Lane, kind: byte, id: nat, payload: bytes): Plan {
    if kind == WINDOW && id in l.windows && l.windows[id] < |l.pending|
       && FRAME_HEADER_SIZE <= |l.pending[l.windows[id]].encoded|
       && DeltaOf(l.pending[l.windows[id]].encoded[FRAME_HEADER_SIZE..]) + DeltaOf(payload) <= MAX_UINT32 then
      AddCredit(l.windows[id], DeltaOf(l.pending[l.windows[id]].encoded[FRAME_HEADER_SIZE..]) + DeltaOf(payload))
    else if l.pending != [] && l.pending[|l.pending| - 1].frame.kind == DATA && kind == DATA
         && l.pending[|l.pending| - 1].frame.streamID == id
         && |l.pending[|l.pending| - 1].encoded| - FRAME_HEADER_SIZE + |payload| <= MAX_FRAME_PAYLOAD then
      ExtendLast
    else if WellShaped(Frame(kind, id, payload)) then AppendNew
    else Refuse
  }

  function PlanCost(p: Plan, payload: bytes): nat {
    match p
    case ExtendLast => |payload|
    case AppendNew => FRAME_HEADER_SIZE + |payload| + QUEUE_ITEM_COST
    case _ => 0
  }

  function PlanItems(p: Plan): nat {
    if p.AppendNew? then 1 else 0
  }

  function PatchCredit(q: Queued, total: nat): Queued
    requires FRAME_HEADER_SIZE + 4 <= |q.encoded| && total <= MAX_UINT32
  {
    q.(encoded := q.encoded[..FRAME_HEADER_SIZE] + PutBE32(total) + q.encoded[FRAME_HEADER_SIZE + 4..],
       frame := q.frame.(payload := PutBE32(total)))
  }

  function PatchData(q: Queued, payload: bytes): Queued
    requires FRAME_HEADER_SIZE <= |q.encoded| && |q.encoded| + |payload| <= MAX_UINT32
  {
    var grown := q.encoded + payload;
    q.(encoded := grown[..4] + PutBE32(|grown| - FRAME_HEADER_SIZE) + grown[FRAME_HEADER_SIZE..],
       frame := q.frame.(payload := q.frame.payload + payload),
       cost := q.cost + |payload|)
  }

  predicate LaneOK(l: Lane) {
    && AllFaithful(l.pending)
    && l.windows == WindowIndex(l.pending)
    && AllRelayFrames(l.unackedFrames) && AllWellShaped(l.unackedFrames)
    && AllRelayFrames(l.ackedFrames) && AllWellShaped(l.ackedFrames)
    && l.unacked == EncodeAll(l.unackedFrames)
    && l.unackedItems == |l.unackedFrames| <= MAX_BATCH_FRAMES
    && l.unackedCost == FramesCost(l.unackedFrames)
    && (l.unackedFrames == [] <==> l.unacked == [])
    && (l.unacked != [] ==> l.unackedBase + 1 == l.downCursor)
    && l.downCursor <= MAX_UINT64
  }

  /** A lane whose queue, window index and outstanding batch agree. */
  type GoodLane = l: Lane | LaneOK(l) witness NEW_LANE

  type StreamID = id: nat | 0 < id <= MAX_STREAM_ID witness 1

  /** The frames the relay ever queues: DATA with bytes, WINDOW with credit, CLOSE, each on a real stream. */
  predicate Queueable(kind: byte, id: nat, payload: bytes) {
    && 0 < id <= MAX_STREAM_ID
    && |payload| <= MAX_FRAME_PAYLOAD
    && (kind == DATA ==> payload != [])
    && (kind == WINDOW ==> WindowDelta(payload).Ok?)
    && (kind == CLOSE ==> payload == [])
    && kind in {DATA, WINDOW, CLOSE}
  }

  /** queueFrameLocked's effect on the lane once its charge has been granted. */
  function Commit(l: Lane, kind: byte, id: nat, payload: bytes): Lane
    requires LaneOK(l) && Queueable(kind, id, payload)
  {
    match PlanFrame(l, kind, id, payload)
    case AddCredit(i, total) =>
      WindowIndexSound(l.pending, id);
      assert Faithful(l.pending[i]);
      CarriedDelta(l.pending[i]);
      l.(pending := l.pending[i := PatchCredit(l.pending[i], total)])
    case ExtendLast =>
      assert Faithful(l.pending[|l.pending| - 1]);
      l.(pending := ExtendTail(l.pending, payload))
    case AppendNew =>
      l.(pending := l.pending + [Fresh(kind, id, payload)],
         windows := if kind == WINDOW then l.windows[id := |l.pending|] else l.windows)
    case Refuse => l
  }

  lemma {:induction false} PatchCreditFaithful(q: Queued, total: nat)
    requires Faithful(q) && q.frame.kind == WINDOW && 0 < total <= MAX_UINT32
    ensures |q.encoded| == FRAME_HEADER_SIZE + 4
    ensures Faithful(PatchCredit(q, total))
  {
    var p := PatchCredit(q, total);
    assert p.encoded == Header(q.frame.kind, q.frame.streamID, 4) + PutBE32(total);
    BE32RoundTrip(total);
  }

  lemma {:induction false} PatchDataFaithful(q: Queued, payload: bytes)
    requires Faithful(q) && q.frame.kind == DATA
    requires |q.encoded| - FRAME_HEADER_SIZE + |payload| <= MAX_FRAME_PAYLOAD
    ensures Faithful(PatchData(q, payload))
  {
    ExtendEncoding(q.frame, payload);
  }

  lemma {:induction false} SplitFrames(qs: seq<Queued>, i: nat)
    requires i < |qs|
    ensures Frames(qs) == Frames(qs[..i]) + ([qs[i].frame] + Frames(qs[i + 1..]))
  {
    var split := Frames(qs[..i]) + ([qs[i].frame] + Frames(qs[i + 1..]));
    forall k | 0 <= k < |qs| ensures split[k] == qs[k].frame {}
  }

  lemma {:induction false} SplitAt(qs: seq<Queued>, i: nat, id: nat)
    requires i < |qs|
    ensures DataOf(id, Frames(qs)) ==
            DataOf(id, Frames(qs[..i])) + (DataOf(id, [qs[i].frame]) + DataOf(id, Frames(qs[i + 1..])))
    ensures CreditOf(id, Frames(qs)) ==
            CreditOf(id, Frames(qs[..i])) + CreditOf(id, [qs[i].frame]) + CreditOf(id, Frames(qs[i + 1..]))
  {
    SplitFrames(qs, i);
    var a, b, c := Frames(qs[..i]), [qs[i].frame], Frames(qs[i + 1..]);
    DataAppend(id, a, b + c);
    DataAppend(id, b, c);
    CreditAppend(id, a, b + c);
    CreditAppend(id, b, c);
  }

  lemma {:induction false} SplitCost(qs: seq<Queued>, i: nat)
    requires i < |qs|
    ensures CostOf(qs) == CostOf(qs[..i]) + qs[i].cost + CostOf(qs[i + 1..])
  {
    var tail := [qs[i]] + qs[i + 1..];
    assert qs == qs[..i] + tail;
    CostAppend(qs[..i], tail);
    assert tail[1..] == qs[i + 1..];
  }

  lemma {:induction false} SingleFrame(id: nat, f: Frame)
    ensures DataOf(id, [f]) == if f.kind == DATA && f.streamID == id then f.payload else []
    ensures CreditOf(id, [f]) == if f.kind == WINDOW && f.streamID == id then DeltaOf(f.payload) else 0
  {
    assert DataOf(id, []) == [] && CreditOf(id, []) == 0;
  }

  /** What Commit must do, for one observed stream: nothing lost, duplicated or reordered, charge exact. */
  ghost predicate CommitEffect(l: Lane, m: Lane, kind: byte, id: nat, payload: bytes, observed: nat) {
    && DataOf(observed, Frames(m.pending)) ==
       DataOf(observed, Frames(l.pending)) + (if kind == DATA && observed == id then payload else [])
    && CreditOf(observed, Frames(m.pending)) ==
       CreditOf(observed, Frames(l.pending)) + (if kind == WINDOW && observed == id then DeltaOf(payload) else 0)
    && CostOf(m.pending) == CostOf(l.pending) + PlanCost(PlanFrame(l, kind, id, payload), payload)
    && |m.pending| == |l.pending| + PlanItems(PlanFrame(l, kind, id, payload))
    && m == l.(pending := m.pending, windows := m.windows)
  }

  lemma {:induction false} CreditAt(qs: seq<Queued>, i: nat, total: nat, observed: nat)
    requires i < |qs| && qs[i].frame.kind == WINDOW && FRAME_HEADER_SIZE + 4 <= |qs[i].encoded|
    requires 0 < total <= MAX_UINT32
    ensures var after := qs[i := PatchCredit(qs[i], total)];
            && WindowIndex(after) == WindowIndex(qs)
            && DataOf(observed, Frames(after)) == DataOf(observed, Frames(qs))
            && CreditOf(observed, Frames(after)) == CreditOf(observed, Frames(qs))
               + (if observed == qs[i].frame.streamID then total - DeltaOf(qs[i].frame.payload) else 0)
            && CostOf(after) == CostOf(qs)
  {
    var q := PatchCredit(qs[i], total);
    var after := qs[i := q];
    SplitAt(qs, i, observed);
    SplitAt(after, i, observed);
    SplitCost(qs, i);
    SplitCost(after, i);
    assert after[..i] == qs[..i] && after[i + 1..] == qs[i + 1..];
    WindowIndexKinds(qs, after);
    SingleFrame(observed, q.frame);
    SingleFrame(observed, qs[i].frame);
    BE32RoundTrip(total);
  }

  predicate Extendable(qs: seq<Queued>, payload: bytes) {
    && qs != []
    && qs[|qs| - 1].frame.kind == DATA
    && FRAME_HEADER_SIZE <= |qs[|qs| - 1].encoded|
    && |qs[|qs| - 1].encoded| - FRAME_HEADER_SIZE + |payload| <= MAX_FRAME_PAYLOAD
  }

  function ExtendTail(qs: seq<Queued>, payload: bytes): seq<Queued>
    requires Extendable(qs, payload)
  {
    qs[..|qs| - 1] + [PatchData(qs[|qs| - 1], payload)]
  }

  lemma {:induction false} ExtendedLast(qs: seq<Queued>, payload: bytes, observed: nat)
    requires Extendable(qs, payload)
    ensures var grown := ExtendTail(qs, payload);
            && WindowIndex(grown) == WindowIndex(qs)
            && DataOf(observed, Frames(grown)) ==
               DataOf(observed, Frames(qs)) + (if observed == qs[|qs| - 1].frame.streamID then payload else [])
            && CreditOf(observed, Frames(grown)) == CreditOf(observed, Frames(qs))
            && CostOf(grown) == CostOf(qs) + |payload|
  {
    hide DataOf, CostOf, Frames, WindowIndex, CreditOf;
    var front, last := qs[..|qs| - 1], qs[|qs| - 1];
    var q := PatchData(last, payload);
    assert qs == front + [last];
    Appended(front, last, observed);
    Appended(front, q, observed);
    SingleFrame(observed, q.frame);
    SingleFrame(observed, last.frame);
  }

  lemma {:induction false} Appended(qs: seq<Queued>, q: Queued, observed: nat)
    ensures WindowIndex(qs + [q]) ==
            if q.frame.kind == WINDOW then WindowIndex(qs)[q.frame.streamID := |qs|] else WindowIndex(qs)
    ensures DataOf(observed, Frames(qs + [q])) == DataOf(observed, Frames(qs)) + DataOf(observed, [q.frame])
    ensures CreditOf(observed, Frames(qs + [q])) == CreditOf(observed, Frames(qs)) + CreditOf(observed, [q.frame])
    ensures CostOf(qs + [q]) == CostOf(qs) + q.cost
  {
    FramesAppend(qs, [q]);
    assert Frames([q]) == [q.frame];
    DataAppend(observed, Frames(qs), Frames([q]));
    CreditAppend(observed, Frames(qs), Frames([q]));
    CostAppend(qs, [q]);
    assert (qs + [q])[..|qs|] == qs;
    assert CostOf([q][1..]) == 0;
  }

  function Fresh(kind: byte, id: nat, payload: bytes): Queued
    requires Queueable(kind, id, payload)
  {
    Queued(Encode(Frame(kind, id, payload)), Frame(kind, id, payload), FRAME_HEADER_SIZE + |payload| + QUEUE_ITEM_COST)
  }

  lemma {:induction false} FreshFaithful(kind: byte, id: nat, payload: bytes)
    requires Queueable(kind, id, payload)
    ensures WellShaped(Frame(kind, id, payload)) && Faithful(Fresh(kind, id, payload))
  {}

  /** The indexed frame is the stream's own WINDOW frame. */
  lemma {:induction false} CreditTarget(l: Lane, id: nat, payload: bytes)
    requires LaneOK(l) && Queueable(WINDOW, id, payload)
    requires PlanFrame(l, WINDOW, id, payload).AddCredit?
    ensures var AddCredit(i, total) := PlanFrame(l, WINDOW, id, payload);
            && i < |l.pending| && l.pending[i].frame.kind == WINDOW && l.pending[i].frame.streamID == id
            && |l.pending[i].encoded| == FRAME_HEADER_SIZE + 4
            && 0 < total == DeltaOf(l.pending[i].frame.payload) + DeltaOf(payload) <= MAX_UINT32
            && Faithful(PatchCredit(l.pending[i], total))
            && Commit(l, WINDOW, id, payload) == l.(pending := l.pending[i := PatchCredit(l.pending[i], total)])
  {
    var AddCredit(i, total) := PlanFrame(l, WINDOW, id, payload);
    WindowIndexSound(l.pending, id);
    assert Faithful(l.pending[i]);
    CarriedDelta(l.pending[i]);
    PatchCreditFaithful(l.pending[i], total);
  }

  lemma {:induction false} CommitCredit(l: Lane, id: nat, payload: bytes, observed: nat)
    requires LaneOK(l) && Queueable(WINDOW, id, payload)
    requires PlanFrame(l, WINDOW, id, payload).AddCredit?
    ensures LaneOK(Commit(l, WINDOW, id, payload))
    ensures CommitEffect(l, Commit(l, WINDOW, id, payload), WINDOW, id, payload, observed)
  {
    hide DataOf, CreditOf, CostOf, Frames, FramesCost, EncodeAll, PatchCredit, Faithful, WindowIndex, WellShaped, Commit,
         AllRelayFrames, AllWellShaped;
    var AddCredit(i, total) := PlanFrame(l, WINDOW, id, payload);
    CreditTarget(l, id, payload);
    CreditAt(l.pending, i, total, observed);
  }

  lemma {:induction false} CommitData(l: Lane, id: nat, payload: bytes, observed: nat)
    requires LaneOK(l) && Queueable(DATA, id, payload)
    requires PlanFrame(l, DATA, id, payload).ExtendLast?
    ensures LaneOK(Commit(l, DATA, id, payload))
    ensures CommitEffect(l, Commit(l, DATA, id, payload), DATA, id, payload, observed)
  {
    hide DataOf, CreditOf, CostOf, Frames, FramesCost, EncodeAll, PatchData, WindowIndex, WellShaped,
         AllRelayFrames, AllWellShaped;
    assert Faithful(l.pending[|l.pending| - 1]);
    PatchDataFaithful(l.pending[|l.pending| - 1], payload);
    ExtendedLast(l.pending, payload, observed);
  }

  lemma {:induction false} CommitNew(l: Lane, kind: byte, id: nat, payload: bytes, observed: nat)
    requires LaneOK(l) && Queueable(kind, id, payload)
    requires PlanFrame(l, kind, id, payload).AppendNew?
    ensures LaneOK(Commit(l, kind, id, payload))
    ensures CommitEffect(l, Commit(l, kind, id, payload), kind, id, payload, observed)
  {
    hide DataOf, CostOf, Frames, FramesCost, EncodeAll, WindowIndex, WellShaped, Faithful,
         AllRelayFrames, AllWellShaped;
    var q := Fresh(kind, id, payload);
    FreshFaithful(kind, id, payload);
    Appended(l.pending, q, observed);
    SingleFrame(observed, q.frame);
  }

  lemma {:induction false} PlanShape(l: Lane, kind: byte, id: nat, payload: bytes)
    requires Queueable(kind, id, payload)
    ensures var p := PlanFrame(l, kind, id, payload);
            && !p.Refuse?
            && (p.AddCredit? ==> kind == WINDOW)
            && (p.ExtendLast? ==> kind == DATA)
  {
    FreshFaithful(kind, id, payload);
  }

  /** Queueing one frame, whichever coalescing branch is taken, appends exactly its bytes or its credit. */
  lemma {:induction false} CommitEffects(l: Lane, kind: byte, id: nat, payload: bytes, observed: nat)
    requires LaneOK(l) && Queueable(kind, id, payload)
    ensures LaneOK(Commit(l, kind, id, payload))
    ensures CommitEffect(l, Commit(l, kind, id, payload), kind, id, payload, observed)
  {
    PlanShape(l, kind, id, payload);
    match PlanFrame(l, kind, id, payload)
    case AddCredit(_, _) => CommitCredit(l, id, payload, observed);
    case ExtendLast => CommitData(l, id, payload, observed);
    case AppendNew => CommitNew(l, kind, id, payload, observed);
  }

  lemma {:induction false} CarriedDelta(q: Queued)
    requires Faithful(q)
    ensures q.encoded[FRAME_HEADER_SIZE..] == q.frame.payload
  {}

  /** Commit on a well-kept lane leaves a well-kept lane and adds exactly the charge asked for. */
  function Enqueued(l: GoodLane, kind: byte, id: nat, payload: bytes): (m: GoodLane)
    requires Queueable(kind, id, payload)
    ensures CostOf(m.pending) == CostOf(l.pending) + PlanCost(PlanFrame(l, kind, id, payload), payload)
    ensures |m.pending| == |l.pending| + PlanItems(PlanFrame(l, kind, id, payload))
    ensures m == l.(pending := m.pending, windows := m.windows)
  {
    CommitEffects(l, kind, id, payload, id);
    Commit(l, kind, id, payload)
  }

  predicate WindowFor(q: Queued, id: nat) {
    q.frame.kind == WINDOW && q.frame.streamID == id
  }

  /** The index holds each stream's last queued WINDOW frame. */
  lemma {:induction false} WindowIndexIsLast(qs: seq<Queued>, id: nat, i: nat)
    requires i < |qs| && WindowFor(qs[i], id)
    ensures id in WindowIndex(qs) && i <= WindowIndex(qs)[id]
  {
    var n := |qs| - 1;
    if !WindowFor(qs[n], id) {
      WindowIndexIsLast(qs[..n], id, i);
    } else {
      assert WindowIndex(qs)[id] == n;
    }
  }

  /** The last queued WINDOW frame of the stream takes the credit within 32 bits. */
  predicate TakesCredit(l: Lane, id: nat, i: nat, amount: nat) {
    && i < |l.pending| && WindowFor(l.pending[i], id) && (forall j | i < j < |l.pending| :: !WindowFor(l.pending[j], id))
    && DeltaOf(l.pending[i].frame.payload) + amount <= MAX_UINT32
  }

  /** A frame takes no place of its own exactly when the last one can take its DATA, or a queued one its credit. */
  lemma {:induction false} CoalescesExactly(l: GoodLane, kind: byte, id: nat, payload: bytes)
    requires Queueable(kind, id, payload)
    ensures var joins :=
              || (kind == DATA && l.pending != []
                  && var last := l.pending[|l.pending| - 1].frame;
                     last.kind == DATA && last.streamID == id && |last.payload| + |payload| <= MAX_FRAME_PAYLOAD)
              || (kind == WINDOW && exists i :: TakesCredit(l, id, i, DeltaOf(payload)));
            |Enqueued(l, kind, id, payload).pending| == |l.pending| + (if joins then 0 else 1)
  {
    PlanShape(l, kind, id, payload);
    if kind == WINDOW {
      CreditJoins(l, id, payload);
    } else if l.pending != [] {
      assert Faithful(l.pending[|l.pending| - 1]);
      EncodedLength(l.pending[|l.pending| - 1]);
    }
    hide Enqueued, LaneOK;
  }

  lemma {:induction false} EncodedLength(q: Queued)
    requires Faithful(q)
    ensures |q.encoded| == FRAME_HEADER_SIZE + |q.frame.payload|
  {}

  lemma {:induction false} CreditJoins(l: GoodLane, id: nat, payload: bytes)
    requires Queueable(WINDOW, id, payload)
    ensures PlanFrame(l, WINDOW, id, payload).AddCredit? <==> exists i :: TakesCredit(l, id, i, DeltaOf(payload))
  {
    hide Queueable;
    forall i: nat | i < |l.pending| && WindowFor(l.pending[i], id) ensures id in l.windows && i <= l.windows[id] {
      WindowIndexIsLast(l.pending, id, i);
    }
    if id in l.windows {
      WindowIndexSound(l.pending, id);
      var i := l.windows[id];
      assert Faithful(l.pending[i]);
      CarriedDelta(l.pending[i]);
      EncodedLength(l.pending[i]);
      if PlanFrame(l, WINDOW, id, payload).AddCredit? {
        assert TakesCredit(l, id, i, DeltaOf(payload));
      }
      forall j | TakesCredit(l, id, j, DeltaOf(payload)) ensures j == i {}
    }
  }

  // ---------------------------------------------------------------- splitting a batch

  /** How many frames the batch loop takes from position `count` when `size` bytes are already in. */
  function TakeCount(qs: seq<Queued>, limit: nat, count: nat, size: nat): (n: nat)
    requires count <= |qs|
    ensures count <= n <= |qs|
    decreases |qs| - count
  {
    if count < |qs| && count < MAX_BATCH_FRAMES && (count == 0 || size + |qs[count].encoded| <= limit) then
      TakeCount(qs, limit, count + 1, size + |qs[count].encoded|)
    else count
  }

  datatype Batch = Batch(body: bytes, cost: nat, items: nat)

  function TakeBatch(l: Lane, limit: nat): (Lane, Batch) {
    var n := TakeCount(l.pending, limit, 0, 0);
    (l.(pending := l.pending[n..], windows := Shifted(l.windows, n)),
     Batch(Encodings(l.pending[..n]), CostOf(l.pending[..n]), n))
  }

  lemma {:induction false} EncodingsSnoc(qs: seq<Queued>, n: nat)
    requires n < |qs|
    ensures Encodings(qs[..n + 1]) == Encodings(qs[..n]) + qs[n].encoded
    ensures CostOf(qs[..n + 1]) == CostOf(qs[..n]) + qs[n].cost
    decreases n
  {
    if n == 0 {
      assert qs[..1] == [qs[0]] && qs[..0] == [];
      assert Encodings([qs[0]][1..]) == [] && CostOf([qs[0]][1..]) == 0;
    } else {
      EncodingsSnoc(qs[1..], n - 1);
      assert qs[1..][..n] == qs[..n + 1][1..];
      assert qs[1..][..n - 1] == qs[..n][1..];
    }
  }

  /** A batch is one frame, or several that fit the batch bound; it stops only at a bound or the end. */
  lemma {:induction false} TakeCountBound(qs: seq<Queued>, limit: nat, count: nat)
    requires count <= |qs| && count <= MAX_BATCH_FRAMES
    requires count <= 1 || |Encodings(qs[..count])| <= limit
    ensures var n := TakeCount(qs, limit, count, |Encodings(qs[..count])|);
            && n <= MAX_BATCH_FRAMES
            && (n <= 1 || |Encodings(qs[..n])| <= limit)
            && (qs != [] ==> 0 < n)
            && (n == |qs| || n == MAX_BATCH_FRAMES || |Encodings(qs[..n + 1])| > limit)
    decreases |qs| - count
  {
    if count < |qs| {
      EncodingsSnoc(qs, count);
      if count < MAX_BATCH_FRAMES && (count == 0 || |Encodings(qs[..count + 1])| <= limit) {
        TakeCountBound(qs, limit, count + 1);
      }
    }
  }

  lemma {:induction false} TakenPrefix(qs: seq<Queued>, n: nat)
    requires AllFaithful(qs) && n <= |qs|
    ensures Encodings(qs[..n]) == EncodeAll(Frames(qs[..n]))
    ensures CostOf(qs[..n]) == FramesCost(Frames(qs[..n]))
    ensures AllRelayFrames(Frames(qs[..n])) && AllWellShaped(Frames(qs[..n]))
    ensures Frames(qs) == Frames(qs[..n]) + Frames(qs[n..])
    ensures CostOf(qs) == CostOf(qs[..n]) + CostOf(qs[n..])
    ensures n > 0 ==> Encodings(qs[..n]) != []
  {
    EncodingsAreFrames(qs[..n]);
    assert qs == qs[..n] + qs[n..];
    FramesAppend(qs[..n], qs[n..]);
    CostAppend(qs[..n], qs[n..]);
    if n > 0 {
      assert Faithful(qs[..n][0]);
    }
  }

  /** Taking a batch: the longest prefix of the queue within the bounds leaves, whole, in order, at its exact charge. */
  lemma {:induction false} TakeBatchEffects(l: Lane, limit: nat)
    requires LaneOK(l) && l.pending != []
    ensures var (m, b) := TakeBatch(l, limit);
            var n := b.items;
            && 0 < n <= MAX_BATCH_FRAMES && n <= |l.pending|
            && b.body == Encodings(l.pending[..n]) && b.cost == CostOf(l.pending[..n])
            && (n == 1 || |b.body| <= limit)
            && (n == |l.pending| || n == MAX_BATCH_FRAMES || |Encodings(l.pending[..n + 1])| > limit)
            && m == l.(pending := l.pending[n..], windows := m.windows)
            && LaneOK(m)
  {
    var (m, b) := TakeBatch(l, limit);
    assert Encodings(l.pending[..0]) == [];
    TakeCountBound(l.pending, limit, 0);
    WindowIndexShift(l.pending, b.items);
  }

  /** Every served body parses back to relay-to-client frames, and is one frame or within the batch bound. */
  lemma {:induction false} ServedBodyParses(l: Lane, limit: nat)
    requires LaneOK(l) && l.pending != []
    ensures var b := TakeBatch(l, limit).1;
            && Parse(b.body) == Ok(Frames(l.pending[..b.items]))
            && AllRelayFrames(Frames(l.pending[..b.items]))
            && (b.items == 1 || |b.body| <= limit)
  {
    TakeBatchEffects(l, limit);
    var b := TakeBatch(l, limit).1;
    TakenPrefix(l.pending, b.items);
    ParseAcceptsExactly(b.body, Frames(l.pending[..b.items]));
  }

  // ---------------------------------------------------------------- dropping a closed stream

  function Without(qs: seq<Queued>, id: nat): seq<Queued> {
    if qs == [] then []
    else if qs[|qs| - 1].frame.streamID == id then Without(qs[..|qs| - 1], id)
    else Without(qs[..|qs| - 1], id) + [qs[|qs| - 1]]
  }

  /** Charge of the frames of one stream. */
  function CostFor(qs: seq<Queued>, id: nat): nat {
    if qs == [] then 0
    else CostFor(qs[..|qs| - 1], id) + (if qs[|qs| - 1].frame.streamID == id then qs[|qs| - 1].cost else 0)
  }

  function ItemsFor(qs: seq<Queued>, id: nat): nat {
    if qs == [] then 0
    else ItemsFor(qs[..|qs| - 1], id) + (if qs[|qs| - 1].frame.streamID == id then 1 else 0)
  }

  function DropStream(l: Lane, id: nat): Lane {
    var kept := Without(l.pending, id);
    l.(pending := kept, windows := WindowIndex(kept))
  }

  lemma {:induction false} WithoutCharge(qs: seq<Queued>, id: nat)
    ensures CostOf(qs) == CostOf(Without(qs, id)) + CostFor(qs, id)
    ensures |qs| == |Without(qs, id)| + ItemsFor(qs, id)
  {
    if qs != [] {
      var front, last := qs[..|qs| - 1], qs[|qs| - 1];
      WithoutCharge(front, id);
      assert qs == front + [last];
      Appended(front, last, id);
      Appended(Without(front, id), last, id);
    }
  }

  lemma {:induction false} WithoutFaithful(qs: seq<Queued>, id: nat)
    requires AllFaithful(qs)
    ensures AllFaithful(Without(qs, id))
    ensures forall i | 0 <= i < |Without(qs, id)| :: Without(qs, id)[i].frame.streamID != id
  {
    if qs != [] {
      WithoutFaithful(qs[..|qs| - 1], id);
    }
  }

  lemma {:induction false} WithoutCarries(qs: seq<Queued>, id: nat, observed: nat)
    requires observed != id
    ensures DataOf(observed, Frames(Without(qs, id))) == DataOf(observed, Frames(qs))
    ensures CreditOf(observed, Frames(Without(qs, id))) == CreditOf(observed, Frames(qs))
  {
    if qs != [] {
      var front, last := qs[..|qs| - 1], qs[|qs| - 1];
      WithoutCarries(front, id, observed);
      assert qs == front + [last];
      Appended(front, last, observed);
      Appended(Without(front, id), last, observed);
      SingleFrame(observed, last.frame);
    }
  }

  /** DropStream on a well-kept lane leaves a well-kept lane and frees exactly the stream's charge. */
  function Dropped(l: GoodLane, id: nat): (m: GoodLane)
    ensures CostOf(l.pending) == CostOf(m.pending) + CostFor(l.pending, id)
    ensures |l.pending| == |m.pending| + ItemsFor(l.pending, id)
    ensures m == l.(pending := m.pending, windows := m.windows)
  {
    WithoutFaithful(l.pending, id);
    WithoutCharge(l.pending, id);
    DropStream(l, id)
  }

  // ---------------------------------------------------------------- one poll's critical section

  datatype Served =
    | Replayed(body: bytes, next: nat)
    | Sent(body: bytes, next: nat)
    | Parked
    | BadCursor

  /** The charge an acknowledging cursor releases. */
  predicate Acknowledges(l: Lane, cursor: nat) {
    l.unacked != [] && cursor != l.unackedBase && cursor == l.downCursor
  }

  function Acknowledge(l: Lane): Lane {
    l.(unacked := [], unackedCost := 0, unackedItems := 0,
       ackedFrames := l.ackedFrames + l.unackedFrames, unackedFrames := [])
  }

  /** Take the next batch with nothing outstanding, or park. */
  function ServeNext(l: Lane, cursor: nat, limit: nat): (Lane, Served) {
    if l.pending == [] then (l, Parked)
    else if l.downCursor >= MAX_UINT64 then (l, BadCursor)
    else
      var (m, b) := TakeBatch(l, limit);
      (m.(downCursor := l.downCursor + 1, unackedBase := cursor, unacked := b.body,
          unackedCost := b.cost, unackedItems := b.items, unackedFrames := Frames(l.pending[..b.items])),
       Sent(b.body, l.downCursor + 1))
  }

  /** The cursor check, replay, acknowledgement and first iteration of pollCarrier's loop. */
  function Serve(l: Lane, cursor: nat, limit: nat): (Lane, Served) {
    if l.unacked != [] && cursor == l.unackedBase then (l, Replayed(l.unacked, l.downCursor))
    else if cursor != l.downCursor then (l, BadCursor)
    else ServeNext(if l.unacked != [] then Acknowledge(l) else l, cursor, limit)
  }

  lemma {:induction false} AcknowledgeKeeps(l: Lane)
    requires LaneOK(l)
    ensures LaneOK(Acknowledge(l))
  {}

  lemma {:induction false} ServeNextKeeps(l: Lane, cursor: nat, limit: nat)
    requires LaneOK(l) && l.unacked == [] && cursor == l.downCursor
    ensures var (m, r) := ServeNext(l, cursor, limit);
            && LaneOK(m)
            && m.ackedFrames == l.ackedFrames
            && m.unackedFrames + Frames(m.pending) == Frames(l.pending)
            && m.unackedCost + CostOf(m.pending) == CostOf(l.pending)
            && m.unackedItems + |m.pending| == |l.pending|
            && (r.Sent? ==> m.unacked == r.body != [] && m.downCursor == r.next == cursor + 1 && m.unackedBase == cursor)
            && (!r.Sent? ==> m == l)
  {
    if l.pending != [] && l.downCursor < MAX_UINT64 {
      TakeBatchEffects(l, limit);
      TakenPrefix(l.pending, TakeBatch(l, limit).1.items);
    } else {
      assert l.unackedFrames == [] && [] + Frames(l.pending) == Frames(l.pending);
    }
  }

  lemma {:induction false} ServeKeeps(l: Lane, cursor: nat, limit: nat)
    requires LaneOK(l)
    ensures LaneOK(Serve(l, cursor, limit).0)
  {
    if !(l.unacked != [] && cursor == l.unackedBase) && cursor == l.downCursor {
      AcknowledgeKeeps(l);
      ServeNextKeeps(if l.unacked != [] then Acknowledge(l) else l, cursor, limit);
    }
  }
}
