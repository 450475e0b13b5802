/** What becomes of every retained response, and whom an eviction may hit, in terms of the limits themselves. */
module PressureLaws {
  import opened Bytes
  import opened Sums
  import opened SeqSums
  import opened ResponsePressure

  /** The state in which the event has been stored, whatever the limits say. */
  function Stored(s: State, id: nat, e: Event): State
    requires Known(s, id)
  {
    Move(s, id, s.bindings[id].queue + [e], 1, Size(e))
  }

  /** An event is refused exactly when storing it would exceed a limit; otherwise it is the last of its FIFO. */
  lemma {:induction false} StoredExactly(s: State, id: nat, e: Event)
    requires WithinLimits(s) && Known(s, id)
    ensures Enqueue(s, id, e).1 <==> WithinLimits(Stored(s, id, e))
    ensures Enqueue(s, id, e).0 == if WithinLimits(Stored(s, id, e)) then Stored(s, id, e) else s
  {
    hide Size;
    var t := Stored(s, id, e);
    var slot := s.bindings[id].slot;
    assert t.bindings[id].items == s.bindings[id].items + 1 && t.slotItems[slot] == s.slotItems[slot] + 1;
    if Fits(s, id, Size(e)) {
      StoredWithin(s, id, e);
    }
  }

  lemma {:induction false} StoredWithin(s: State, id: nat, e: Event)
    requires WithinLimits(s) && Known(s, id) && Fits(s, id, Size(e))
    ensures WithinLimits(Stored(s, id, e))
  {
    hide Size;
  }

  // ---------------------------------------------------------------- whom an eviction may hit

  /** Without c's responses the level that refused the event would have room: its slot's, else the manager's. */
  predicate MakesRoom(s: State, id: nat, e: Event, c: nat)
    requires Known(s, id) && Known(s, c)
  {
    var slot := s.bindings[id].slot;
    if SlotRoom(s, slot, Size(e)) then GlobalRoom(Evict(s, c), Size(e))
    else s.bindings[c].slot == slot && SlotRoom(Evict(s, c), slot, Size(e))
  }

  /** A live neighbour. */
  predicate Other(s: State, id: nat, c: nat) {
    Known(s, id) && Known(s, c) && c != id && !s.bindings[c].terminal
  }

  lemma {:induction false} CandidateMakesRoom(s: State, id: nat, e: Event, c: nat)
    requires Known(s, id) && Known(s, c)
    ensures Candidate(s, id, Needed(s, id, Size(e)), c) <==> Other(s, id, c) && MakesRoom(s, id, e, c)
  {
    hide Size;
    var slot := s.bindings[id].slot;
    if s.bindings[c].slot == slot {
      assert Evict(s, c).slotItems[slot] == s.slotItems[slot] - s.bindings[c].items;
      assert Evict(s, c).slotBytes[slot] == s.slotBytes[slot] - s.bindings[c].bytes;
    }
  }

  /**
   * The incoming binding pays when its own limit refused the event or no live neighbour makes room alone. Otherwise
   * the victim is such a neighbour, and every other one holds fewer bytes, or as many in fewer events, or as many in as
   * many events with a later connection.
   */
  lemma {:induction false} VictimIsHeaviest(s: State, id: nat, e: Event, v: nat)
    requires Counted(s) && Known(s, id) && IsVictim(s, id, Size(e), v)
    ensures v == id <==> !BindingRoom(s, id, Size(e)) || forall c | Other(s, id, c) :: !MakesRoom(s, id, e, c)
    ensures v != id ==>
              && Other(s, id, v) && MakesRoom(s, id, e, v)
              && forall c | Other(s, id, c) && MakesRoom(s, id, e, c) && c != v ::
                   var (x, y) := (s.bindings[v], s.bindings[c]);
                   x.bytes >= y.bytes && (x.bytes == y.bytes ==> x.items >= y.items && (x.items == y.items ==> v < c))
  {
    hide Size, MakesRoom, Needed, Candidate, BindingRoom;
    var need := Needed(s, id, Size(e));
    assert v in s.bindings by { VictimKnown(s, id, Size(e), v); }
    assert Known(s, v);
    forall c | Known(s, c) ensures Candidate(s, id, need, c) <==> Other(s, id, c) && MakesRoom(s, id, e, c) {
      CandidateMakesRoom(s, id, e, c);
    }
    if v == id && BindingRoom(s, id, Size(e)) {
      forall c | Other(s, id, c) ensures !MakesRoom(s, id, e, c) {}
    }
  }

  lemma {:induction false} VictimKnown(s: State, id: nat, size: nat, v: nat)
    requires Known(s, id) && IsVictim(s, id, size, v)
    ensures v in s.bindings && (v != id ==> BindingRoom(s, id, size) && Candidate(s, id, Needed(s, id, size), v))
  {}

  // ---------------------------------------------------------------- what becomes of each response

  /** The responses c is offered in one step, and those its consumer takes. */
  function Came(s: State, op: Op, c: nat): seq<Event> {
    if op.Arrives? && op.id == c && Enabled(s, op) then [op.e] else []
  }

  function Went(s: State, op: Op, c: nat): seq<Event> {
    if op == Popped(c) && c in s.bindings then s.bindings[c].queue[..Min(1, |s.bindings[c].queue|)] else []
  }

  /**
   * A step throws c's responses away exactly when it evicts c: by name, as the victim of an arrival that does not
   * fit, or as the incoming binding whose arrival still does not fit.
   */
  predicate Loses(s: State, op: Op, c: nat) {
    && Enabled(s, op)
    && match op
       case Evicted(id) => c == id
       case Arrives(id, e, v) =>
         && !Fits(s, id, Size(e))
         && (c == v || (c == id && v != id && !Fits(Evict(s, v), id, Size(e))))
       case _ => false
  }

  predicate Leaves(s: State, op: Op, c: nat) {
    op == Released(c) && c in s.bindings && s.bindings[c].queue == []
  }

  predicate Closes(s: State, op: Op, c: nat) {
    Came(s, op, c) == [CloseExternal]
  }

  /** What one step makes of a resident binding. */
  predicate Kept(s: State, op: Op, c: nat) {
    var t := Step(s, op);
    c in s.bindings && c in t.bindings && t.bindings[c].slot == s.bindings[c].slot
    && (if Loses(s, op, c) then t.bindings[c].queue == [] && t.bindings[c].terminal
        else && Went(s, op, c) + t.bindings[c].queue == s.bindings[c].queue + Came(s, op, c)
             && (t.bindings[c].terminal <==> s.bindings[c].terminal || Closes(s, op, c)))
  }

  /**
   * One step, for any binding: it leaves when it is released with nothing retained. Otherwise it loses everything
   * exactly when the step evicts it, and apart from that what went and what is retained are what was retained and what came.
   */
  lemma {:induction false} StepKept(s: State, op: Op, c: nat)
    requires Good(s) && c in s.bindings
    ensures c in Step(s, op).bindings <==> !Leaves(s, op, c)
    ensures Leaves(s, op, c) || Kept(s, op, c)
  {
    assert Known(s, c) && Queued(s.bindings[c]);
    if op.Arrives? && Enabled(s, op) {
      ArrivesKept(s, op, c);
    } else {
      QuietKept(s, op, c);
    }
  }

  lemma {:induction false} QueueCounts(b: Retained)
    requires Queued(b)
    ensures b.items == 0 <==> b.queue == []
    ensures b.bytes == 0 <==> b.queue == []
    ensures b.queue != [] ==> Size(b.queue[0]) <= b.bytes
  {}

  lemma {:induction false} QuietKept(s: State, op: Op, c: nat)
    requires Known(s, c) && Queued(s.bindings[c]) && (op.Arrives? ==> !Enabled(s, op))
    requires op.Popped? && Known(s, op.id) ==> Queued(s.bindings[op.id])
    ensures c in Step(s, op).bindings <==> !Leaves(s, op, c)
    ensures Leaves(s, op, c) || Kept(s, op, c)
  {
    hide Queued, Total, Size, IsVictim, Fits, Pop, Evict;
    QueueCounts(s.bindings[c]);
    var q := s.bindings[c].queue;
    assert [] + q == q && q + [] == q;
    match op
    case Popped(id) => if Known(s, id) { PoppedKept(s, id, c); }
    case Evicted(id) => if Known(s, id) { EvictedKept(s, id, c); }
    case _ =>
  }

  /** Popping removes the oldest response, if there is one, and nothing else. */
  lemma {:induction false} PopTakesOldest(s: State, id: nat)
    requires Known(s, id) && Queued(s.bindings[id])
    ensures Pop(s, id).bindings.Keys == s.bindings.Keys
    ensures forall c | c in s.bindings ::
              var (b, after) := (s.bindings[c], Pop(s, id).bindings[c]);
              && after.slot == b.slot && after.terminal == b.terminal
              && after.queue == if c == id && b.queue != [] then b.queue[1..] else b.queue
  {
    hide Queued, Total, Size;
    QueueCounts(s.bindings[id]);
  }

  lemma {:induction false} PoppedKept(s: State, id: nat, c: nat)
    requires Known(s, id) && Known(s, c) && Queued(s.bindings[id])
    ensures Kept(s, Popped(id), c)
  {
    hide Queued, Total, Size, Pop;
    PopTakesOldest(s, id);
    var q := s.bindings[c].queue;
    assert q != [] ==> q[..1] + q[1..] == q;
    assert [] + q == q && q + [] == q;
  }

  lemma {:induction false} EvictedKept(s: State, id: nat, c: nat)
    requires Known(s, id) && Known(s, c)
    ensures Kept(s, Evicted(id), c)
  {
    var q := s.bindings[c].queue;
    assert [] + q == q && q + [] == q;
  }

  lemma {:induction false} ArrivesKept(s: State, op: Op, c: nat)
    requires op.Arrives? && Enabled(s, op) && Known(s, c)
    ensures Kept(s, op, c)
  {
    hide Fits, IsVictim, Size;
    var Arrives(id, e, v) := op;
    var q := s.bindings[c].queue;
    assert [] + q == q && q + [] == q && [] + (q + [e]) == q + [e];
    if !Fits(s, id, Size(e)) && v != id {
      assert Evict(s, v).bindings[id] == s.bindings[id];
    }
  }

  // ---------------------------------------------------------------- whole runs

  function Arrived(s: State, ops: seq<Op>, c: nat): seq<Event>
    decreases |ops|
  {
    if ops == [] then [] else Came(s, ops[0], c) + Arrived(Step(s, ops[0]), ops[1..], c)
  }

  function Taken(s: State, ops: seq<Op>, c: nat): seq<Event>
    decreases |ops|
  {
    if ops == [] then [] else Went(s, ops[0], c) + Taken(Step(s, ops[0]), ops[1..], c)
  }

  predicate Spared(s: State, ops: seq<Op>, c: nat)
    decreases |ops|
  {
    ops == [] || (!Loses(s, ops[0], c) && Spared(Step(s, ops[0]), ops[1..], c))
  }

  /**
   * On every run through which a binding stays resident and is not evicted, the responses it took followed by those
   * it retains are those it retained followed by those that came for it: each once, in order, with its packet.
   */
  lemma {:induction false} EveryResponseOnce(s: State, ops: seq<Op>, c: nat)
    requires Good(s) && c in s.bindings && Spared(s, ops, c) && Released(c) !in ops
    ensures c in Run(s, ops).bindings
    ensures Taken(s, ops, c) + Run(s, ops).bindings[c].queue == s.bindings[c].queue + Arrived(s, ops, c)
    decreases |ops|
  {
    hide Good, Step, Came, Went, Loses;
    if ops != [] {
      var t := Step(s, ops[0]);
      StepKept(s, ops[0], c);
      StepGood(s, ops[0]);
      assert Released(c) !in ops[1..];
      EveryResponseOnce(t, ops[1..], c);
      Regroup(Went(s, ops[0], c), Taken(t, ops[1..], c), Run(t, ops[1..]).bindings[c].queue,
              t.bindings[c].queue, s.bindings[c].queue, Came(s, ops[0], c), Arrived(t, ops[1..], c));
    }
  }

  lemma {:induction false} StepGood(s: State, op: Op)
    requires Good(s)
    ensures Good(Step(s, op))
  {
    hide Counted, WithinLimits, Queued, Step;
    StepCounted(s, op);
    StepFine(s, op);
  }

  lemma {:induction false} Regroup(went: seq<Event>, taken: seq<Event>, last: seq<Event>, next: seq<Event>,
                                   queue: seq<Event>, came: seq<Event>, more: seq<Event>)
    requires taken + last == next + more && went + next == queue + came
    ensures (went + taken) + last == queue + (came + more)
  {
    assert (went + taken) + last == went + (taken + last);
    assert went + (next + more) == (went + next) + more;
    assert queue + (came + more) == (queue + came) + more;
  }

  /** After an eviction nothing more is retained or taken until the binding is released. */
  lemma {:induction false} EvictedIsEmpty(s: State, ops: seq<Op>, c: nat)
    requires Good(s) && c in s.bindings && s.bindings[c].terminal && Released(c) !in ops
    ensures c in Run(s, ops).bindings && Run(s, ops).bindings[c].terminal && Arrived(s, ops, c) == []
    ensures Taken(s, ops, c) <= s.bindings[c].queue
    decreases |ops|
  {
    hide Good, Step, Came, Went, Loses;
    if ops != [] {
      var t := Step(s, ops[0]);
      StepKept(s, ops[0], c);
      StepGood(s, ops[0]);
      TerminalIsQuiet(s, ops[0], c);
      assert Released(c) !in ops[1..];
      EvictedIsEmpty(t, ops[1..], c);
      var (went, q, next) := (Went(s, ops[0], c), s.bindings[c].queue, t.bindings[c].queue);
      if went + next == q {
        assert Taken(s, ops, c) <= went + next;
      }
    }
  }

  lemma {:induction false} TerminalIsQuiet(s: State, op: Op, c: nat)
    requires c in s.bindings && s.bindings[c].terminal
    ensures Came(s, op, c) == [] && Went(s, op, c) <= s.bindings[c].queue
  {}
}
