/** When a connection ends, what its worker does with each message, and how its close gives everything back. */
module WebSocketLifecycle {
  import opened Bytes
  import opened Sums
  import F = WebSocketFrames
  import I = WebSocketInput
  import opened WebSocketConnection

  // ---------------------------------------------------------------- the local budget

  lemma {:induction false} OneEach(m: map<nat, I.Input>)
    ensures Sum(m, I.One) == |m|
    decreases |m|
  {
    if m != map[] {
      var k :| k in m;
      SumRemove(m, k, I.One);
      OneEach(m - {k});
    }
  }

  /** The inputs together would stay within the local budget with so many bytes and inputs more. */
  ghost predicate RoomFor(s: I.State, bytes: int, items: nat) {
    Sum(s.inputs, I.Share) + bytes <= s.budget.maxBytes && |s.inputs| + items <= s.budget.maxItems
  }

  /** An input is created exactly when there is room for it, and grows exactly when there is room for the difference. */
  lemma {:induction false} InputsExactly(s: I.State, id: nat, size: nat)
    requires I.Counted(s)
    ensures id !in s.inputs ==>
              I.Step(s, I.Open(id, size)).inputs == if RoomFor(s, size, 1) then s.inputs[id := I.Opening(size)] else s.inputs
    ensures id in s.inputs && s.inputs[id].Owned? && s.inputs[id].size != size ==>
              var was := s.inputs[id].size;
              I.Step(s, I.Resize(id, size)).inputs ==
              if RoomFor(s, size - was, 0) then s.inputs[id := I.Resizing(was, size)] else s.inputs
  {
    OneEach(s.inputs);
    if id in s.inputs {
      SumAtLeast(s.inputs, id, I.Share);
      SumAtLeast(s.inputs, id, I.One);
    }
  }

  // ---------------------------------------------------------------- when the event loop ends the connection

  /** The next frame's payload would be decoded into a message within every limit. */
  ghost predicate Admitted(c: Connection, h: F.Head) {
    && |c.machine.message| + h.length <= c.policy.maxMessage && Wanted(c, h) <= 2 * c.policy.maxMessage
    && RoomFor(c.io, Wanted(c, h) - c.machine.owned, if c.fragment.None? then 1 else 0)
  }

  predicate Lawful(c: Connection, h: F.Head) {
    F.HeadOK(h, c.machine.fragmented) && h.opcode != F.TEXT
  }

  /** A frame's payload is read next: nothing of it has arrived. */
  predicate Reading(c: Connection, h: F.Head) {
    c.asked.None? && c.machine.pending == Some(F.Frame(h, []))
  }

  /**
   * A frame ends the connection exactly when the protocol forbids it or its message would pass a limit. A control
   * frame's payload is read at once, a data frame's once the session has granted what its message then needs.
   */
  lemma {:induction false} HeaderExactly(c: Connection, h: F.Head)
    requires Sound(c) && Enabled(c, Reads(h))
    ensures WellFormed(c) && Masked(h)
    ensures var d := Header(c, h);
            && (d.machine.closed <==> !(Lawful(c, h) && (F.Control(h.opcode) || Admitted(c, h))))
            && (!d.machine.closed ==>
                  if F.Control(h.opcode) || (c.fragment.Some? && Wanted(c, h) == c.machine.owned) then
                    Reading(d, h) && d.io == c.io
                  else
                    && d.asked.Some? && d.asked.value.head == h && d.asked.value.size == Wanted(c, h)
                    && RoomFor(c.io, Wanted(c, h) - c.machine.owned, 0))
  {
    var size := Wanted(c, h);
    var id := if c.fragment.Some? then c.fragment.value else c.next;
    assert c.next !in c.io.inputs;
    assert c.fragment.Some? ==> id in c.io.inputs && c.io.inputs[id] == I.Owned(c.machine.owned);
    InputsExactly(c.io, id, size);
    Counted(c);
    Prepares(c.policy, c.machine, h);
    Granted(c.policy, c.machine, h);
    hide I.Step, I.Counted, I.Growing, Base, F.Nodes, Sum, F.HeadOK, F.Prepare, F.Control;
  }

  lemma {:induction false} Granted(p: F.Policy, m: F.Machine, h: F.Head)
    requires F.MachineOK(m) && Masked(h)
    ensures var r := F.Prepare(Answering(p, false), m, h);
            && (r.Ready? <==> F.HeadOK(h, m.fragmented) && h.opcode != F.TEXT && F.Control(h.opcode))
            && (r == F.Refused(F.Resource) <==>
                  F.HeadOK(h, m.fragmented) && h.opcode != F.TEXT && !F.Control(h.opcode) && |m.message| + h.length <= p.maxMessage)
            && (r.Ready? ==> r.m == m.(pending := Some(F.Frame(h, []))))
  {}

  lemma {:induction false} Counted(c: Connection)
    requires Sound(c)
    ensures Sum(c.io.inputs, I.Share) <= c.io.budget.maxBytes && |c.io.inputs| <= c.io.budget.maxItems
  {
    OneEach(c.io.inputs);
  }

  /** The session's refusal ends the connection; its grant lets the payload be read, with the reservation it asked for. */
  lemma {:induction false} AnsweredExactly(c: Connection, granted: bool)
    requires Sound(c) && c.asked.Some? && !c.machine.closed
    ensures WellFormed(c)
    ensures var (d, a) := (Answered(c, granted), c.asked.value);
            && (d.machine.closed <==> !granted)
            && (granted ==> Reading(d, a.head) && d.fragment == Some(a.id) && d.machine.owned == a.size)
  {
    SoundIsWellFormed(c);
    Prepares(c.policy, c.machine, c.asked.value.head);
    hide I.Step, Base, F.Nodes, F.Prepare;
  }

  /** The message a piece of payload completes. */
  function Completed(c: Connection, s: bytes): Option<F.Applied>
    requires WellFormed(c) && Fits(c, s)
  {
    var m := F.Receive(c.machine, s);
    if F.Whole(m) then Some(F.Apply(c.policy, m)) else None
  }

  predicate Binary(a: Option<F.Applied>) {
    a.Some? && a.value.Applied? && a.value.message.Some? && a.value.message.value.opcode == F.BINARY
  }

  /**
   * Payload ends the connection exactly when it completes a frame that breaks the protocol, a close, or a message the
   * full queue has no room for. Any other complete message joins the queue with the reservation it was decoded under.
   */
  lemma {:induction false} PayloadExactly(c: Connection, s: bytes)
    requires Sound(c) && Enabled(c, Receives(s))
    ensures WellFormed(c)
    ensures var (d, a) := (Payload(c, s), Completed(c, s));
            && (d.machine.closed <==>
                  a.Some? && (a.value.Failed? || (a.value.message.Some? && a.value.message.value.opcode == F.CLOSE)
                              || (Binary(a) && |c.queue| >= MAX_QUEUED)))
            && (d.queue == if Binary(a) && |c.queue| < MAX_QUEUED
                           then c.queue + [Inbound(c.fragment.value, |a.value.message.value.payload|)] else c.queue)
  {
    SoundIsWellFormed(c);
    var m := F.Receive(c.machine, s);
    if F.Whole(m) {
      FinishesOpen(c.policy, m);
      if F.Apply(c.policy, m).Applied? {
        Applies(c.policy, m);
      }
    }
    hide Base, F.Apply;
  }

  /** The event loop's own end hands the open message's reservation to the close, and an idle worker then stops. */
  lemma {:induction false} ShutsExactly(c: Connection)
    requires Sound(c) && !c.machine.closed && c.asked.None?
    ensures WellFormed(c)
    ensures var d := Step(c, Shuts);
            && d.machine.closed && d.queue == c.queue && d.io == c.io && d.fragment.None?
            && d.leaving == if c.fragment.Some? then c.leaving + {c.fragment.value} else c.leaving
    ensures c.worker.Idle? ==> Step(Step(c, Shuts), Stops).worker == Stopped
  {
    SoundIsWellFormed(c);
    hide Base, ReaderOK, Covered;
  }

  lemma {:induction false} FinishesOpen(p: F.Policy, m: F.Machine)
    requires F.MachineOK(m) && F.Whole(m)
    ensures F.Apply(p, m).Applied? && F.Apply(p, m).m.closed ==>
              m.closed || (F.Apply(p, m).message.Some? && F.Apply(p, m).message.value.opcode == F.CLOSE)
  {}

  // ---------------------------------------------------------------- every message, once, in order

  function Payloads(queue: seq<Inbound>): seq<nat> {
    seq(|queue|, i requires 0 <= i < |queue| => queue[i].payload)
  }

  /** The binary messages a step completes, and those the worker begins. */
  function Decoded(c: Connection, op: Op): seq<nat>
    requires WellFormed(c)
  {
    if op.Receives? && Enabled(c, op) && Binary(Completed(c, op.payload)) then
      [|Completed(c, op.payload).value.message.value.payload|]
    else []
  }

  function Begun(c: Connection, op: Op): seq<nat> {
    if op.Takes? && Enabled(c, op) then [c.queue[0].payload] else []
  }

  /** Reading a frame's header and hearing the session's answer hand nothing over. */
  lemma {:induction false} LoopQuiet(c: Connection, op: Op)
    requires WellFormed(c) && (op.Reads? || op.IsAnswered?)
    ensures Step(c, op).queue == c.queue
    ensures c.machine.closed ==> Step(c, op).machine.closed
  {
    hide I.Step, F.Prepare;
    if op.Reads? && Enabled(c, op) {
      PrepareKeepsOpen(Answering(c.policy, false), c.machine, op.head);
      PrepareKeepsOpen(Answering(c.policy, true), c.machine, op.head);
    } else if op.IsAnswered? && Enabled(c, op) {
      PrepareKeepsOpen(Answering(c.policy, op.granted), c.machine, c.asked.value.head);
    }
  }

  lemma {:induction false} PrepareKeepsOpen(p: F.Policy, m: F.Machine, h: F.Head)
    requires F.MachineOK(m) && Masked(h)
    ensures F.Prepare(p, m, h).Ready? ==> F.Prepare(p, m, h).m.closed == m.closed
  {}

  lemma {:induction false} GrowQuiet(c: Connection)
    requires c.worker.Holding?
    ensures Grow(c).queue == c.queue && Grow(c).machine == c.machine
  {}

  lemma {:induction false} StepInOrder(c: Connection, op: Op)
    requires Sound(c)
    ensures WellFormed(c)
    ensures c.machine.closed ==> Step(c, op).machine.closed
    ensures !Step(c, op).machine.closed ==>
              Begun(c, op) + Payloads(Step(c, op).queue) == Payloads(c.queue) + Decoded(c, op)
  {
    hide Sound, I.Step, WellFormed, Completed, Header, Answered, Payload, Grow, Fits, Masked;
    SoundIsWellFormed(c);
    if op.Reads? || op.IsAnswered? {
      LoopQuiet(c, op);
    } else if op.Receives? && Enabled(c, op) {
      PayloadExactly(c, op.payload);
    } else if op.Grows? && Enabled(c, op) {
      GrowQuiet(c);
    }
    var q := Payloads(c.queue);
    assert [] + q == q && q + [] == q;
    assert op.Takes? && Enabled(c, op) ==> Payloads(c.queue) == [c.queue[0].payload] + Payloads(c.queue[1..]);
  }

  function AllDecoded(c: Connection, ops: seq<Op>): seq<nat>
    requires WellFormed(c)
    decreases |ops|
  {
    if ops == [] then [] else Decoded(c, ops[0]) + AllDecoded(Step(c, ops[0]), ops[1..])
  }

  function AllBegun(c: Connection, ops: seq<Op>): seq<nat>
    requires WellFormed(c)
    decreases |ops|
  {
    if ops == [] then [] else Begun(c, ops[0]) + AllBegun(Step(c, ops[0]), ops[1..])
  }

  lemma {:induction false} InOrder(c: Connection, ops: seq<Op>)
    requires Sound(c) && WellFormed(c) && !Run(c, ops).machine.closed
    ensures !c.machine.closed
    ensures AllBegun(c, ops) + Payloads(Run(c, ops).queue) == Payloads(c.queue) + AllDecoded(c, ops)
    decreases |ops|
  {
    hide Sound, WellFormed, Step, Begun, Decoded, Payloads;
    if ops != [] {
      var d := Step(c, ops[0]);
      StepSound(c, ops[0]);
      StepInOrder(c, ops[0]);
      InOrder(d, ops[1..]);
      assert AllBegun(c, ops) + Payloads(Run(c, ops).queue) == Begun(c, ops[0]) + (AllBegun(d, ops[1..]) + Payloads(Run(d, ops[1..]).queue));
      assert Payloads(c.queue) + AllDecoded(c, ops) == (Payloads(c.queue) + Decoded(c, ops[0])) + AllDecoded(d, ops[1..]);
    }
  }

  /** As long as a connection is open, its worker began, in order, every message decoded but those still queued. */
  lemma {:induction false} MessagesInOrder(policy: F.Policy, ops: seq<Op>)
    requires !Run(New(policy), ops).machine.closed
    ensures AllBegun(New(policy), ops) + Payloads(Run(New(policy), ops).queue) == AllDecoded(New(policy), ops)
  {
    hide Run, AllBegun, AllDecoded;
    NewSound(policy);
    InOrder(New(policy), ops);
    assert Payloads(New(policy).queue) == [];
  }

  // ---------------------------------------------------------------- the worker

  /** From the message it holds to the next one: grow, send, release in both budgets. */
  function OneMessageOps(granted: bool, sent: bool): seq<Op> {
    [Grows, HasGrown(granted), Sends(sent), Returns]
  }

  lemma {:induction false} RunFour(c: Connection, a: Op, b: Op, d: Op, e: Op)
    requires WellFormed(c)
    ensures Run(c, [a, b, d, e]) == Step(Step(Step(Step(c, a), b), d), e)
  {
    hide WellFormed, Step;
    var (x, y, z) := (Step(c, a), Step(Step(c, a), b), Step(Step(Step(c, a), b), d));
    assert [a, b, d, e][1..] == [b, d, e] && [b, d, e][1..] == [d, e] && [d, e][1..] == [e] && [e][1..] == [];
    assert Run(z, [e]) == Step(z, e);
    assert Run(y, [d, e]) == Run(z, [e]);
    assert Run(x, [b, d, e]) == Run(y, [d, e]);
  }

  /** Only the worker's own input, and the worker, change. */
  ghost predicate WorkerOnly(c: Connection, d: Connection, id: nat) {
    && d == c.(io := d.io, worker := d.worker) && d.io.inputs.Keys == c.io.inputs.Keys
    && (forall x | x in c.io.inputs && x != id :: d.io.inputs[x] == c.io.inputs[x])
  }

  /** Growing is asked for exactly when the body has to fit beside the chunks, and does. */
  lemma {:induction false} GrowsExactly(c: Connection)
    requires Sound(c) && c.worker.Holding?
    ensures var (d, input) := (Step(c, Grows), c.worker.input);
            && Sound(d) && WorkerOnly(c, d, input.id)
            && d.worker == if input.payload == 0 then Ready(input.id, true)
                           else if RoomFor(c.io, input.payload, 0) then Growing(input.id) else Ready(input.id, false)
  {
    hide Sound, WellFormed, I.Counted, RoomFor, I.Step, Step;
    SoundIsWellFormed(c);
    var Inbound(id, payload) := c.worker.input;
    Holds(c);
    InputsExactly(c.io, id, c.io.inputs[id].size + payload);
    StepSound(c, Grows);
    StepIsGrow(c);
  }

  lemma {:induction false} StepIsGrow(c: Connection)
    requires WellFormed(c) && c.worker.Holding?
    ensures Step(c, Grows) == Grow(c)
  {}

  lemma {:induction false} HasGrownExactly(c: Connection, granted: bool)
    requires Sound(c) && (c.worker.Growing? || c.worker.Ready?)
    ensures var d := Step(c, HasGrown(granted));
            && Sound(d) && WorkerOnly(c, d, c.worker.id)
            && d.worker == if c.worker.Growing? then Ready(c.worker.id, granted) else c.worker
  {
    hide Sound, WellFormed, I.Step;
    SoundIsWellFormed(c);
    StepSound(c, HasGrown(granted));
    if c.worker.Growing? {
      Grown(c, granted);
    }
  }

  lemma {:induction false} Grown(c: Connection, granted: bool)
    requires Sound(c) && c.worker.Growing?
    ensures var (id, t) := (c.worker.id, I.Step(c.io, I.ResizeAnswered(c.worker.id, granted)).inputs);
            id in c.io.inputs && t.Keys == c.io.inputs.Keys && forall x | x in t && x != id :: t[x] == c.io.inputs[x]
  {
    InputStep(c.io, I.ResizeAnswered(c.worker.id, granted));
    Becomes(c.io, I.ResizeAnswered(c.worker.id, granted));
    hide I.Step, I.Counted, I.Growing;
  }

  lemma {:induction false} SendsExactly(c: Connection, sent: bool)
    requires Sound(c) && c.worker.Ready?
    ensures var d := Step(c, Sends(sent));
            && Sound(d) && WorkerOnly(c, d, c.worker.id) && d.worker == Releasing(c.worker.id, c.worker.grown && sent)
  {
    assert c.worker.id in c.io.inputs;
    hide Sound, WellFormed;
    SoundIsWellFormed(c);
    StepSound(c, Sends(sent));
  }

  lemma {:induction false} ReturnsExactly(c: Connection)
    requires Sound(c) && c.worker.Releasing?
    ensures var d := Step(c, Returns);
            && Sound(d) && d == c.(io := d.io, worker := d.worker) && d.io.inputs == c.io.inputs - {c.worker.id}
            && d.worker == if c.worker.ok && !c.machine.closed then Idle else Stopped
  {
    hide Sound, WellFormed, I.Step;
    SoundIsWellFormed(c);
    StepSound(c, Returns);
    Frees(c, c.worker.id);
  }

  /**
   * One message, from its input to the end of it: the reservation leaves the budget whatever happens, and the worker
   * goes on exactly when the body fitted beside the chunks, the session granted it, it was sent, and the connection
   * is still open.
   */
  lemma {:induction false} OneMessage(c: Connection, granted: bool, sent: bool)
    requires Sound(c) && c.worker.Holding?
    ensures WellFormed(c)
    ensures var (t, input) := (Run(c, OneMessageOps(granted, sent)), c.worker.input);
            && Sound(t) && t == c.(io := t.io, worker := t.worker) && t.io.inputs == c.io.inputs - {input.id}
            && t.worker == if (input.payload == 0 || (RoomFor(c.io, input.payload, 0) && granted)) && sent && !c.machine.closed
                           then Idle else Stopped
  {
    SoundIsWellFormed(c);
    hide Sound, WellFormed, Step, RoomFor, Run, WorkerOnly;
    RunFour(c, Grows, HasGrown(granted), Sends(sent), Returns);
    var d := Step(c, Grows);
    GrowsExactly(c);
    var e := Step(d, HasGrown(granted));
    HasGrownExactly(d, granted);
    var f := Step(e, Sends(sent));
    SendsExactly(e, sent);
    ReturnsExactly(f);
    WorkerOnlyTwice(c, d, e, c.worker.input.id);
    WorkerOnlyTwice(c, e, f, c.worker.input.id);
  }

  lemma {:induction false} WorkerOnlyTwice(c: Connection, d: Connection, e: Connection, id: nat)
    requires WorkerOnly(c, d, id) && WorkerOnly(d, e, id)
    ensures WorkerOnly(c, e, id) && e.io.inputs - {id} == c.io.inputs - {id} && e == c.(io := e.io, worker := e.worker)
  {}

  lemma {:induction false} Holds(c: Connection)
    requires Sound(c) && c.worker.Holding?
    ensures c.worker.input.id in c.io.inputs && c.io.inputs[c.worker.input.id].Owned? && I.Counted(c.io)
  {}

  lemma {:induction false} Frees(c: Connection, id: nat)
    requires Sound(c) && c.worker.Releasing? && c.worker.id == id
    ensures id in c.io.inputs && I.Step(c.io, I.ReleaseLocal(id)).inputs == c.io.inputs - {id}
  {
    SumAtLeast(c.io.inputs, id, I.Share);
    SumAtLeast(c.io.inputs, id, I.One);
  }

  // ---------------------------------------------------------------- the close

  /** What the worker and the close do by themselves, with the session refusing and the connection gone. */
  predicate Closing(op: Op) {
    op in {Takes, Grows, HasGrown(false), Sends(false), Returns, Drains} || op.Leaves? || op.HasLeft?
  }

  predicate AllClosing(ops: seq<Op>) {
    forall i | 0 <= i < |ops| :: Closing(ops[i])
  }

  /** A closed connection's decoder waits for nothing. */
  predicate ReaderDone(c: Connection) {
    c.machine.closed ==> c.asked.None? && c.fragment.None?
  }

  lemma {:induction false} StepReaderDone(c: Connection, op: Op)
    requires Sound(c) && ReaderDone(c)
    ensures WellFormed(c) && ReaderDone(Step(c, op))
  {
    SoundIsWellFormed(c);
    hide I.Step, Base, F.Prepare, F.Apply;
    if op.Reads? && Enabled(c, op) {
      Prepares(c.policy, c.machine, op.head);
    } else if op.IsAnswered? && Enabled(c, op) {
      Prepares(c.policy, c.machine, c.asked.value.head);
    } else if op.Receives? && Enabled(c, op) && F.Whole(F.Receive(c.machine, op.payload)) {
      FinishesOpen(c.policy, F.Receive(c.machine, op.payload));
    }
  }

  lemma {:induction false} RunReaderDone(c: Connection, ops: seq<Op>)
    requires Sound(c) && WellFormed(c) && ReaderDone(c)
    ensures ReaderDone(Run(c, ops))
    decreases |ops|
  {
    hide Sound, WellFormed, Step, ReaderDone;
    if ops != [] {
      StepSound(c, ops[0]);
      StepReaderDone(c, ops[0]);
      RunReaderDone(Step(c, ops[0]), ops[1..]);
    }
  }

  lemma {:induction false} RunAppend(c: Connection, a: seq<Op>, b: seq<Op>)
    requires WellFormed(c)
    ensures Run(c, a + b) == Run(Run(c, a), b)
    decreases |a|
  {
    hide Step, WellFormed;
    if a == [] {
      assert a + b == b;
    } else {
      assert (a + b)[1..] == a[1..] + b;
      RunAppend(Step(c, a[0]), a[1..], b);
    }
  }

  /** The worker, wherever it is, ends with no input of its own. */
  lemma {:induction false} WorkerRests(c: Connection) returns (ops: seq<Op>)
    requires Sound(c) && WellFormed(c)
    ensures AllClosing(ops)
    ensures var t := Run(c, ops); Sound(t) && t == c.(io := t.io, worker := t.worker) && WorkerId(t).None?
    decreases if c.worker.Growing? then 1 else 0
  {
    hide Sound, WellFormed, Step;
    match c.worker
    case Holding(_) =>
      OneMessage(c, false, false);
      ops := OneMessageOps(false, false);
    case Growing(_) =>
      var d := Step(c, HasGrown(false));
      HasGrownExactly(c, false);
      SoundIsWellFormed(d);
      ops := [HasGrown(false)];
      assert Run(c, ops) == d by { RunOne(c, ops[0]); }
      var rest := WorkerRests(d);
      RunAppend(c, ops, rest);
      ops := ops + rest;
    case Ready(_, _) =>
      var d := Step(c, Sends(false));
      SendsExactly(c, false);
      SoundIsWellFormed(d);
      ReturnsExactly(d);
      ops := [Sends(false), Returns];
      RunOne(c, Sends(false));
      RunOne(d, Returns);
      RunAppend(c, [Sends(false)], [Returns]);
      assert ops == [Sends(false)] + [Returns];
    case Releasing(_, _) =>
      ReturnsExactly(c);
      RunOne(c, Returns);
      ops := [Returns];
    case _ => ops := [];
  }

  lemma {:induction false} RunOne(c: Connection, op: Op)
    requires WellFormed(c)
    ensures Run(c, [op]) == Step(c, op)
  {
    hide Step, WellFormed;
    assert [op][1..] == [];
  }

  lemma {:induction false} EmptiesQueue(c: Connection) returns (ops: seq<Op>)
    requires Sound(c) && WellFormed(c) && c.machine.closed
    ensures AllClosing(ops)
    ensures var t := Run(c, ops);
            Sound(t) && t.queue == [] && t.machine == c.machine && t.worker == c.worker && t.asked == c.asked && t.fragment == c.fragment
    decreases |c.queue|
  {
    hide Sound, WellFormed;
    ops := [];
    if c.queue != [] {
      var d := Step(c, Drains);
      StepSound(c, Drains);
      var rest := EmptiesQueue(d);
      RunOne(c, Drains);
      RunAppend(c, [Drains], rest);
      ops := [Drains] + rest;
    }
  }

  /** One reservation is given back, in both budgets. */
  lemma {:induction false} Leaving(c: Connection, id: nat) returns (ops: seq<Op>)
    requires Sound(c) && WellFormed(c) && id in c.leaving
    ensures AllClosing(ops)
    ensures var t := Run(c, ops); Sound(t) && t == c.(io := t.io, leaving := c.leaving - {id})
  {
    var d := Step(c, Leaves(id));
    StepSound(c, Leaves(id));
    StepSound(d, HasLeft(id));
    LeavesFirst(c, id);
    hide Sound, WellFormed, I.Step;
    RunOne(c, Leaves(id));
    RunOne(d, HasLeft(id));
    ops := [Leaves(id)] + [HasLeft(id)];
    RunAppend(c, [Leaves(id)], [HasLeft(id)]);
  }

  lemma {:induction false} LeavesFirst(c: Connection, id: nat)
    requires Sound(c) && WellFormed(c) && id in c.leaving
    ensures var d := Step(c, Leaves(id)); id in d.leaving && id in d.io.inputs && d.io.inputs[id].Releasing? && d == c.(io := d.io)
  {}

  lemma {:induction false} EmptiesLeaving(c: Connection) returns (ops: seq<Op>)
    requires Sound(c) && WellFormed(c)
    ensures AllClosing(ops)
    ensures var t := Run(c, ops); Sound(t) && t == c.(io := t.io, leaving := {})
    decreases |c.leaving|
  {
    hide Sound, WellFormed, Step;
    ops := [];
    if c.leaving != {} {
      var id :| id in c.leaving;
      var first := Leaving(c, id);
      var d := Run(c, first);
      assert c.leaving == d.leaving + {id};
      var rest := EmptiesLeaving(d);
      RunAppend(c, first, rest);
      ops := first + rest;
    }
  }

  /**
   * However a connection came to close, its worker and its close can finish without the client or the session's
   * help, and then its whole budget has been returned.
   */
  lemma {:induction false} CloseFinishes(policy: F.Policy, before: seq<Op>)
    requires Run(New(policy), before).machine.closed
    ensures exists ops :: AllClosing(ops) && Finished(Run(New(policy), before + ops))
                          && Run(New(policy), before + ops).io.inputs == map[]
  {
    hide Sound, WellFormed, Step, Run, New;
    var n := New(policy);
    NewSound(policy);
    SoundIsWellFormed(n);
    NewReaderDone(policy);
    RunSound(n, before);
    RunReaderDone(n, before);
    var c := Run(n, before);
    var a := WorkerRests(c);
    var d := Run(c, a);
    var b := EmptiesQueue(d);
    var e := Run(d, b);
    var f := EmptiesLeaving(e);
    RunAppend(c, a, b);
    RunAppend(c, a + b, f);
    var ops := a + b + f;
    RunAppend(n, before, ops);
    assert Run(c, ops) == Run(e, f);
    assert Finished(Run(n, before + ops));
    NothingLeaks(policy, before + ops);
  }

  lemma {:induction false} NewReaderDone(policy: F.Policy)
    ensures ReaderDone(New(policy))
  {}
}
