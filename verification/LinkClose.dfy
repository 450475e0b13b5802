/** What a link does once it has begun to close, what it announces, and how it deals with a read. */
module LinkClose {
  import opened Bytes
  import opened SeqSums
  import opened LinkCore
  import opened LinkRuns
  import opened LinkEnds

  // ---------------------------------------------------------------- submissions

  /** What is queued or being written, and one more, within the limits. */
  predicate RoomFor(c: Config, s: State, x: Submission) {
    && |s.queue| + (if s.active.Some? then 1 else 0) < c.maxItems
    && Total(s.queue, Charge) + (if s.active.Some? then s.active.value.size else 0) + x.size <= c.maxBytes
  }

  /** The verdict on a submission: too large is what no link would take, backpressure what this one may take later. */
  lemma {:induction false} SubmitsExactly(c: Config, s: State, x: Submission)
    requires Sound(c, s)
    ensures var (t, v) := TrySubmit(c, s, x);
            && v == (if s.status != Ready then LinkClosed else if c.maxBytes < x.size then TooLarge
                     else if RoomFor(c, s, x) then Accepted else Backpressure)
            && (v == Accepted ==> t.queue == s.queue + [x] && t.log.accepted == s.log.accepted + [x])
            && (v != Accepted ==> t == s)
  {
    hide Total, Flight, Payloads;
  }

  // ---------------------------------------------------------------- announcing room

  /** Room is announced exactly by the result of a submission's frame, until the submitter takes the announcement. */
  lemma {:induction false} AnnouncedExactly(c: Config, s: State, op: Op)
    requires Enabled(c, s, op) && s.status == Ready
    ensures Step(c, s, op).capacity <==>
              !op.TakeCapacity? && (s.capacity || (op.OwnerResult? && s.results[0].ok && s.results[0].job.submission.Some?))
  {
    hide Payloads, Total, Reconcile;
    if op.Snapshot? {
      ReconcileFrame(s);
    } else if op.OwnerAct? {
      ActLeavesCapacity(c, s);
    }
  }

  lemma {:induction false} ActLeavesCapacity(c: Config, s: State)
    requires s.owner.Reading? && s.owner.todo != []
    ensures Act(c, s).capacity == s.capacity
  {
    hide Payloads, Total;
  }

  // ---------------------------------------------------------------- the close

  /** What the engine's own goroutines do after the connection is gone: its writes fail. */
  predicate Closing(op: Op) {
    op in {OwnerTake, OwnerSend, OwnerCheck, OwnerSignal, OwnerAct, OwnerStop, WriterExit, WriterFinish, FinishTerminal, WriterWrite(0, true)}
  }

  function Stage(o: Owner): nat {
    match o
    case Stopped => 0
    case Idle => 1
    case Reading(todo) => 2 + |todo|
    case _ => 2
  }

  function OwnerOp(o: Owner): Op {
    match o
    case Woken => OwnerTake
    case Took => OwnerSend
    case Waking => OwnerCheck
    case Signalling => OwnerSignal
    case Reading(_) => OwnerAct
    case _ => OwnerStop
  }

  lemma {:induction false} ActOnce(c: Config, s: State)
    requires s.owner.Reading? && s.owner.todo != [] && s.status == LinkCore.Closing
    ensures var t := Act(c, s); Stage(t.owner) < Stage(s.owner) && t.status == s.status && t.writer == s.writer
  {
    hide Payloads, Reconcile;
  }

  lemma {:induction false} SectionOnce(c: Config, s: State)
    requires s.status == LinkCore.Closing && s.owner != Stopped && !s.owner.Reading?
    requires s.owner == Took ==> s.active.Some? && |s.jobs| < c.Lanes()
    ensures var t := Step(c, s, OwnerOp(s.owner));
            Stage(t.owner) < Stage(s.owner) && t.status == s.status && t.writer == s.writer
  {
    hide Payloads, Act, Write, HandleResult, Reconcile, Publish, TrySubmit, Finish;
  }

  /** Each step of the owner brings it nearer its end. */
  lemma {:induction false} OwnerNearer(c: Config, s: State)
    requires Sound(c, s) && s.status == LinkCore.Closing && s.owner != Stopped
    ensures var t := Step(c, s, OwnerOp(s.owner));
            Sound(c, t) && Stage(t.owner) < Stage(s.owner) && t.status == s.status && t.writer == s.writer
  {
    hide Sound, Step, Act, Stage;
    StepIsSound(c, s, OwnerOp(s.owner));
    OwnerCan(c, s);
    if s.owner.Reading? {
      ActOnce(c, s);
      ActsThen(c, s);
    } else {
      SectionOnce(c, s);
    }
  }

  lemma {:induction false} ActsThen(c: Config, s: State)
    requires s.owner.Reading? && s.owner.todo != []
    ensures Step(c, s, OwnerAct) == Act(c, s)
  {}

  lemma {:induction false} OwnerCan(c: Config, s: State)
    requires Sound(c, s) && s.status != Closed
    ensures s.owner == Took ==> s.active.Some? && |s.jobs| < c.Lanes()
    ensures s.owner.Reading? ==> s.owner.todo != []
  {
    SoundWhileOpen(c, s);
  }

  lemma {:induction false} SoundWhileOpen(c: Config, s: State)
    requires Sound(c, s) && s.status != Closed
    ensures Single(s) && ChannelsOK(c, s)
  {}

  lemma {:induction false} RunAppend(c: Config, s: State, a: seq<Op>, b: seq<Op>)
    ensures Run(c, s, a + b) == Run(c, Run(c, s, a), b)
    decreases |a|
  {
    hide Step;
    if a == [] {
      assert a + b == b;
    } else {
      assert (a + b)[1..] == a[1..] + b;
      RunAppend(c, Step(c, s, a[0]), a[1..], b);
    }
  }

  lemma {:induction false} RunOne(c: Config, s: State, op: Op)
    ensures Run(c, s, [op]) == Step(c, s, op)
  {
    hide Step;
    assert [op][1..] == [];
  }

  lemma {:induction false} OwnerStops(c: Config, s: State) returns (ops: seq<Op>)
    requires Sound(c, s) && s.status == LinkCore.Closing
    ensures forall op <- ops :: Closing(op)
    ensures var t := Run(c, s, ops); Sound(c, t) && t.status == s.status && t.owner == Stopped && t.writer == s.writer
    decreases Stage(s.owner)
  {
    hide Sound, Step, Stage;
    ops := [];
    if s.owner != Stopped {
      OwnerNearer(c, s);
      var first := [OwnerOp(s.owner)];
      RunOne(c, s, first[0]);
      var rest := OwnerStops(c, Run(c, s, first));
      RunAppend(c, s, first, rest);
      ops := first + rest;
    }
  }

  /** The writer whose frame is not out yet fails or finishes. */
  function Interrupt(w: Writer): Op
    requires w.current.Some?
  {
    if w.count < |w.current.value.wire| then WriterWrite(0, true) else WriterFinish
  }

  lemma {:induction false} Interrupts(c: Config, s: State)
    requires Sound(c, s) && !s.writer.gone && s.writer.current.Some? && s.writer.report.None?
    ensures var t := Step(c, s, Interrupt(s.writer));
            Sound(c, t) && t.status == s.status && t.owner == s.owner && !t.writer.gone && t.writer.report.Some?
  {
    hide Sound, Payloads, Act, Reconcile, Finish, Publish, TrySubmit, HandleResult, Send, Take;
    StepIsSound(c, s, Interrupt(s.writer));
    WriterShort(c, s);
  }

  lemma {:induction false} WriterShort(c: Config, s: State)
    requires Sound(c, s) && s.writer.current.Some?
    ensures s.writer.count <= |s.writer.current.value.wire|
  {}

  lemma {:induction false} Exits(c: Config, s: State)
    requires Sound(c, s) && s.status != Ready && !s.writer.gone && (s.writer.report.Some? || s.writer.current.None?)
    ensures var t := Step(c, s, WriterExit);
            Sound(c, t) && t.status == s.status && t.owner == s.owner && t.writer.gone
  {
    hide Sound, Step;
    StepIsSound(c, s, WriterExit);
    ExitStep(c, s);
  }

  lemma {:induction false} ExitStep(c: Config, s: State)
    requires s.status != Ready && !s.writer.gone && (s.writer.report.Some? || s.writer.current.None?)
    ensures Step(c, s, WriterExit) == s.(writer := s.writer.(report := None, gone := true))
  {
    hide Payloads, Act, Write, HandleResult, Reconcile, Publish, TrySubmit, Finish, Send, Take;
  }

  lemma {:induction false} WriterLeaves(c: Config, s: State) returns (ops: seq<Op>)
    requires Sound(c, s) && s.status == LinkCore.Closing
    ensures forall op <- ops :: Closing(op)
    ensures var t := Run(c, s, ops); Sound(c, t) && t.status == s.status && t.owner == s.owner && t.writer.gone
    decreases if s.writer.report.Some? then 0 else 1
  {
    hide Sound, Step;
    var w := s.writer;
    ops := [];
    if !w.gone {
      if w.report.Some? || w.current.None? {
        Exits(c, s);
        ops := [WriterExit];
        RunOne(c, s, WriterExit);
      } else {
        Interrupts(c, s);
        ops := [Interrupt(w)];
        RunOne(c, s, ops[0]);
        var rest := WriterLeaves(c, Run(c, s, ops));
        RunAppend(c, s, ops, rest);
        ops := ops + rest;
      }
    }
  }

  lemma {:induction false} FinishesTerminal(c: Config, s: State)
    requires s.status == LinkCore.Closing && s.owner == Stopped && s.writer.gone
    ensures var t := Step(c, s, FinishTerminal);
            t.status == Closed && t.queue == [] && t.jobs == [] && t.results == [] && t.active == None
            && t.items == 0 && t.octets == 0 && t.eventItems == 0 && t.eventBytes == 0
            && t.log.accepted == s.log.accepted && t.events == s.events
  {
    hide Reconcile, Act, Write;
  }

  /**
   * A link that has begun to close closes: its own goroutines, whatever they were doing, end without the peer, the
   * submitters or the consumer, and then nothing is queued and nothing is charged.
   */
  lemma {:induction false} LinkCloses(c: Config, s: State) returns (ops: seq<Op>)
    requires Sound(c, s) && s.status == LinkCore.Closing
    ensures forall op <- ops :: Closing(op)
    ensures var t := Run(c, s, ops);
            t.status == Closed && t.queue == [] && t.jobs == [] && t.results == [] && t.active == None
            && t.items == 0 && t.octets == 0 && t.eventItems == 0 && t.eventBytes == 0
  {
    hide Sound, Step;
    var first := OwnerStops(c, s);
    var t := Run(c, s, first);
    var then_ := WriterLeaves(c, t);
    var u := Run(c, t, then_);
    FinishesTerminal(c, u);
    RunOne(c, u, FinishTerminal);
    RunAppend(c, s, first, then_);
    RunAppend(c, s, first + then_, [FinishTerminal]);
    ops := first + then_ + [FinishTerminal];
  }

  // ---------------------------------------------------------------- a read

  /** Everything a read asks for, one after the other. */
  function Acts(n: nat): seq<Op> {
    if n == 0 then [] else [OwnerAct] + Acts(n - 1)
  }

  function Delivered(todo: seq<Action>): seq<Event> {
    if todo == [] then []
    else (match todo[0] case Deliver(e) => [e] case _ => []) + Delivered(todo[1..])
  }

  function Replied(todo: seq<Action>): seq<bytes> {
    if todo == [] then []
    else (match todo[0] case Reply(p) => [p] case _ => []) + Replied(todo[1..])
  }

  lemma {:induction false} PayloadsSnoc(entries: seq<Entry>, e: Entry)
    ensures Payloads(entries + [e]) == Payloads(entries) + [e.payload]
  {}

  /** An action that does not end the link publishes its event, or encodes its reply. */
  lemma {:induction false} ActDoes(c: Config, s: State)
    requires s.status == Ready && s.owner.Reading? && s.owner.todo != [] && Act(c, s).status == Ready
    ensures var (t, a) := (Act(c, s), s.owner.todo[0]);
            && t.owner == (if s.owner.todo[1..] == [] then Idle else Reading(s.owner.todo[1..]))
            && t.log.published == s.log.published + (if a.Deliver? then [a.event] else [])
            && Payloads(t.log.history) == Payloads(s.log.history) + (if a.Reply? then [a.payload] else [])
  {
    hide Payloads, Reconcile;
    var a := s.owner.todo[0];
    var t := s.(owner := if s.owner.todo[1..] == [] then Idle else Reading(s.owner.todo[1..]));
    if a.Deliver? {
      ReconcileFrame(t);
    } else if a.Reply? {
      PayloadsSnoc(s.log.history, Entry(a.payload, c.encode(Payloads(s.log.history), a.payload).value, None));
    }
  }

  lemma {:induction false} ActsExactly(c: Config, s: State)
    requires Sound(c, s) && Calm(c, s) && s.owner.Reading?
    ensures s.owner.todo != []
    ensures var (t, a) := (Step(c, s, OwnerAct), s.owner.todo[0]);
            && Sound(c, t) && Calm(c, t) && t.owner == (if s.owner.todo[1..] == [] then Idle else Reading(s.owner.todo[1..]))
            && t.log.published == s.log.published + (if a.Deliver? then [a.event] else [])
            && Payloads(t.log.history) == Payloads(s.log.history) + (if a.Reply? then [a.payload] else [])
  {
    hide Sound, Calm, Act, Step, Payloads;
    CalmIsReady(c, s);
    OwnerCan(c, s);
    StepIsSound(c, s, OwnerAct);
    assert Enabled(c, s, OwnerAct);
    CalmStep(c, s, OwnerAct);
    ActsThen(c, s);
    CalmIsReady(c, Act(c, s));
    ActDoes(c, s);
  }

  lemma {:induction false} ActsAll(c: Config, s: State)
    requires Sound(c, s) && Calm(c, s)
    ensures var (t, todo) := (Run(c, s, Acts(|Todo(s.owner)|)), Todo(s.owner));
            && t.status == Ready && t.owner == (if s.owner.Reading? then Idle else s.owner)
            && t.log.published == s.log.published + Delivered(todo)
            && Payloads(t.log.history) == Payloads(s.log.history) + Replied(todo)
    decreases |Todo(s.owner)|
  {
    hide Sound, Calm, Step, Payloads, Run, Acts, Delivered, Replied;
    CalmIsReady(c, s);
    if s.owner.Reading? {
      var todo := s.owner.todo;
      ActsExactly(c, s);
      var t := Step(c, s, OwnerAct);
      assert Todo(t.owner) == todo[1..];
      ActsAll(c, t);
      ActsMore(c, s, |todo|);
      DoneMore(todo);
    } else {
      NoActs(c, s);
      DoneMore([]);
    }
  }

  lemma {:induction false} DoneMore(todo: seq<Action>)
    ensures Delivered([]) == [] && Replied([]) == []
    ensures todo != [] ==>
              && Delivered(todo) == (if todo[0].Deliver? then [todo[0].event] else []) + Delivered(todo[1..])
              && Replied(todo) == (if todo[0].Reply? then [todo[0].payload] else []) + Replied(todo[1..])
  {}

  lemma {:induction false} ActsMore(c: Config, s: State, n: nat)
    requires 0 < n
    ensures Run(c, s, Acts(n)) == Run(c, Step(c, s, OwnerAct), Acts(n - 1))
  {
    hide Step;
    assert Acts(n)[1..] == Acts(n - 1);
  }

  lemma {:induction false} NoActs(c: Config, s: State)
    ensures Run(c, s, Acts(0)) == s
  {}

  /**
   * A read that fits and holds no error is done with whole: each of its events is published and each of its replies is
   * encoded, in its order, and the owner is free again.
   */
  lemma {:induction false} ReadIsDone(c: Config, s: State, todo: seq<Action>)
    requires Sound(c, s) && s.owner == Idle && todo != [] && Calm(c, s.(owner := Reading(todo)))
    ensures var t := Run(c, s, [OwnerRead(todo)] + Acts(|todo|));
            && t.status == Ready && t.owner == Idle
            && t.log.published == s.log.published + Delivered(todo)
            && Payloads(t.log.history) == Payloads(s.log.history) + Replied(todo)
  {
    hide Sound, Calm, Payloads, Acts;
    var t := Step(c, s, OwnerRead(todo));
    StepIsSound(c, s, OwnerRead(todo));
    assert ([OwnerRead(todo)] + Acts(|todo|))[1..] == Acts(|todo|);
    ActsAll(c, t);
  }
}
