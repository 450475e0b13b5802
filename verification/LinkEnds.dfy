/** When a link ends, and that nothing else keeps it from writing everything it accepted. */
module LinkEnds {
  import opened Bytes
  import opened SeqSums
  import opened LinkCore
  import opened LinkRuns

  function EventSize(e: Event): nat {
    e.size
  }

  /** The retained events leave room for one more. */
  predicate EventFits(c: Config, s: State, e: Event) {
    |s.events| < c.maxEvents && Total(s.events, EventSize) + e.size <= c.maxEventBytes
  }

  /** What the owner does next with a read is terminal. */
  predicate ActionEnds(c: Config, s: State, a: Action) {
    match a
    case Broken => true
    case Deliver(event) => !EventFits(c, s, event)
    case Reply(payload) => c.encode(Payloads(s.log.history), payload).None? || |s.jobs| == c.Lanes()
  }

  /**
   * The steps that end a ready link: its close, a write that failed, a submission or a reply that cannot be encoded, a
   * reply without room for its frame, an event the limits do not admit, and an error in what was read.
   */
  predicate Ends(c: Config, s: State, op: Op) {
    || op.BeginClose?
    || (op.OwnerResult? && s.results != [] && !s.results[0].ok)
    || (op.OwnerSend? && s.active.Some? && c.encode(Payloads(s.log.history), s.active.value.payload).None?)
    || (op.OwnerAct? && s.owner.Reading? && s.owner.todo != [] && ActionEnds(c, s, s.owner.todo[0]))
  }

  // ---------------------------------------------------------------- events

  lemma {:induction false} SizesAre(sizes: seq<nat>, events: seq<Event>)
    requires |sizes| == |events| && forall i | 0 <= i < |events| :: sizes[i] == events[i].size
    ensures Total(sizes, Itself) == Total(events, EventSize)
  {
    if events != [] {
      SizesAre(sizes[1..], events[1..]);
    }
  }

  /** Whatever the accounting has not looked at yet, an event is published exactly when the retained ones leave room. */
  lemma {:induction false} PublishedExactly(c: Config, s: State, e: Event)
    requires EventsOK(c, s) && s.status == Ready
    ensures Publish(c, s, e).1 <==> EventFits(c, s, e)
  {
    hide Total, Reconcile, Publish;
    PublishKeepsEvents(c, s, e);
    ReconciledSizes(c, s);
    var t := Reconcile(s);
    SizesAre(t.sizes, s.events);
  }

  lemma {:induction false} ReconciledSizes(c: Config, s: State)
    requires EventsOK(c, s) && s.status == Ready
    ensures var t := Reconcile(s);
            && |t.sizes| == |s.events| && t.eventBytes == Total(t.sizes, Itself)
            && forall i | 0 <= i < |s.events| :: t.sizes[i] == s.events[i].size
  {
    hide Total;
    ReconcileKeepsEvents(c, s);
    ReconcileFrame(s);
  }

  // ---------------------------------------------------------------- exactly these

  lemma {:induction false} ActEndsExactly(c: Config, s: State)
    requires EventsOK(c, s) && s.status == Ready && s.owner.Reading? && s.owner.todo != []
    ensures Act(c, s).status != Ready <==> ActionEnds(c, s, s.owner.todo[0])
  {
    hide Publish, EventFits, EventsOK;
    var rest := s.owner.todo[1..];
    var t := s.(owner := if rest == [] then Idle else Reading(rest));
    if s.owner.todo[0].Deliver? {
      assert EventsOK(c, t) by { EventsFollow(c, s, t); }
      PublishedExactly(c, t, s.owner.todo[0].event);
      PublishFrame(c, t, s.owner.todo[0].event);
      assert EventFits(c, t, s.owner.todo[0].event) == EventFits(c, s, s.owner.todo[0].event) by { SameFit(c, s, t, s.owner.todo[0].event); }
    }
  }

  lemma {:induction false} SameFit(c: Config, s: State, t: State, e: Event)
    requires t.events == s.events
    ensures EventFits(c, t, e) == EventFits(c, s, e)
  {}

  /** A ready link leaves that state in exactly those steps. */
  lemma {:induction false} EndsExactly(c: Config, s: State, op: Op)
    requires Sound(c, s) && s.status == Ready && Enabled(c, s, op)
    ensures Step(c, s, op).status != Ready <==> Ends(c, s, op)
  {
    hide Ordered, Continuous, Fair, Single, Counted, NeverStranded, EventsOK, Act, Reconcile, Write, Payloads, ActionEnds;
    match op
    case OwnerAct => ActEndsExactly(c, s);
    case Snapshot => ReconcileFrame(s);
    case WriterWrite(n, failed) => WriteFrame(s, n, failed);
    case _ =>
  }

  // ---------------------------------------------------------------- nothing terminal is pending

  function ReplyCount(a: Action): nat {
    if a.Reply? then 1 else 0
  }

  function DeliverCount(a: Action): nat {
    if a.Deliver? then 1 else 0
  }

  function DeliverSize(a: Action): nat {
    match a case Deliver(e) => e.size case _ => 0
  }

  function Todo(o: Owner): seq<Action> {
    match o case Reading(todo) => todo case _ => []
  }

  /** Frames and submissions can be encoded, no write failed, and what is still to be done with a read fits. */
  ghost predicate Calm(c: Config, s: State) {
    && s.status == Ready
    && (forall h, p :: c.encode(h, p).Some?)
    && (forall r <- s.results :: r.ok)
    && (s.writer.report.Some? ==> s.writer.report.value.ok)
    && var todo := Todo(s.owner);
       && (forall a <- todo :: !a.Broken?)
       && |s.jobs| + Total(todo, ReplyCount) <= c.Lanes()
       && |s.events| + Total(todo, DeliverCount) <= c.maxEvents
       && Total(s.events, EventSize) + Total(todo, DeliverSize) <= c.maxEventBytes
  }

  lemma {:induction false} CalmGoesOn(c: Config, s: State, op: Op)
    requires Calm(c, s) && Internal(op) && Enabled(c, s, op)
    ensures !Ends(c, s, op)
  {
    hide Payloads;
    if op.OwnerResult? {
      assert s.results[0] in s.results;
    } else if op.OwnerAct? {
      var todo := s.owner.todo;
      assert todo[0] in todo && todo == Todo(s.owner);
    }
  }

  lemma {:induction false} WriterStaysCalm(c: Config, s: State, op: Op)
    requires Calm(c, s) && Internal(op) && Enabled(c, s, op) && ByWriter(op)
    ensures Calm(c, Step(c, s, op))
  {
    hide Total, Write;
    if op.WriterWrite? {
      WriteFrame(s, op.n, op.failed);
    }
  }

  lemma {:induction false} ActStaysCalm(c: Config, s: State)
    requires Sound(c, s) && Calm(c, s) && s.owner.Reading? && s.owner.todo != [] && Act(c, s).status == Ready
    ensures Calm(c, Act(c, s))
  {
    hide Total, Publish, Payloads, Sound;
    var (todo, t) := (s.owner.todo, Act(c, s));
    ActMovesOn(c, s);
    assert todo == [todo[0]] + todo[1..];
    assert Todo(t.owner) == todo[1..];
    TotalAppend([todo[0]], todo[1..], ReplyCount);
    TotalAppend([todo[0]], todo[1..], DeliverCount);
    TotalAppend([todo[0]], todo[1..], DeliverSize);
    TotalOf(todo[0]);
    if todo[0].Deliver? {
      DeliveredOne(c, s);
      TotalSnoc(s.events, todo[0].event, EventSize);
    }
  }

  lemma {:induction false} TotalOf(a: Action)
    ensures Total([a], ReplyCount) == ReplyCount(a) && Total([a], DeliverCount) == DeliverCount(a) && Total([a], DeliverSize) == DeliverSize(a)
  {
    assert [a][1..] == [];
  }

  lemma {:induction false} DeliveredOne(c: Config, s: State)
    requires s.owner.Reading? && s.owner.todo != [] && s.owner.todo[0].Deliver? && Act(c, s).status == Ready
    ensures var t := Act(c, s);
            t.events == s.events + [s.owner.todo[0].event] && t.jobs == s.jobs && t.results == s.results && t.writer == s.writer
  {
    hide Reconcile;
    ReconcileFrame(s.(owner := if s.owner.todo[1..] == [] then Idle else Reading(s.owner.todo[1..])));
  }

  /** Between reads nothing is to be done, whatever else the owner does. */
  lemma {:induction false} IdleStaysCalm(c: Config, s: State, t: State)
    requires Calm(c, s) && Todo(s.owner) == [] && Todo(t.owner) == [] && t.status == Ready
    requires t.events == s.events && t.writer == s.writer && |t.jobs| <= c.Lanes()
    requires t.results == s.results || (s.results != [] && t.results == s.results[1..])
    ensures Calm(c, t)
  {
    NothingToDo();
    hide Total;
    assert forall r <- t.results :: r in s.results;
  }

  lemma {:induction false} OwnerFrame(c: Config, s: State, op: Op)
    requires Internal(op) && Enabled(c, s, op) && !ByWriter(op) && !op.OwnerAct? && Step(c, s, op).status == Ready && |s.jobs| <= c.Lanes()
    ensures var t := Step(c, s, op);
            && Todo(s.owner) == [] && Todo(t.owner) == [] && t.events == s.events && t.writer == s.writer && |t.jobs| <= c.Lanes()
            && (t.results == s.results || (s.results != [] && t.results == s.results[1..]))
  {
    hide Payloads;
  }

  lemma {:induction false} OwnerStaysCalm(c: Config, s: State, op: Op)
    requires Sound(c, s) && Calm(c, s) && Internal(op) && Enabled(c, s, op) && !ByWriter(op) && Step(c, s, op).status == Ready
    ensures Calm(c, Step(c, s, op))
  {
    hide Calm, Act, Ordered, Continuous, Fair, Single, Counted, NeverStranded, EventsOK;
    if op.OwnerAct? {
      ActStaysCalm(c, s);
    } else {
      OwnerFrame(c, s, op);
      hide Step, Enabled;
      IdleStaysCalm(c, s, Step(c, s, op));
    }
  }

  lemma {:induction false} NothingToDo()
    ensures Total([], ReplyCount) == 0 && Total([], DeliverCount) == 0 && Total([], DeliverSize) == 0
  {}

  // ---------------------------------------------------------------- the link drains

  /**
   * From any moment on, if the peer and the submitters pause, the link drains or ends; and it drains if frames can be
   * encoded, no write has failed and what is still to be done with a read fits.
   */
  lemma {:induction false} LinkDrains(c: Config, s: State) returns (ops: seq<Op>)
    requires Sound(c, s)
    ensures forall op <- ops :: Internal(op)
    ensures Drained(Run(c, s, ops)) || Run(c, s, ops).status != Ready
    ensures Calm(c, s) ==> Drained(Run(c, s, ops)) && Run(c, s, ops).status == Ready
    decreases Left(s).0, Left(s).1, Left(s).2, Left(s).3, Left(s).4
  {
    hide Sound, Drained, Step, Left, Choose, Enabled, Calm, Ends;
    if s.status != Ready || Drained(s) {
      ops := [];
      CalmIsReady(c, s);
    } else {
      var op := Choose(c, s);
      WorkOrDone(c, s);
      assert ChannelsOK(c, s) by { SoundChannels(c, s); }
      WorkDescends(c, s, op);
      StepIsSound(c, s, op);
      CalmStep(c, s, op);
      var t := Step(c, s, op);
      if t.status != Ready {
        ops := [op];
        assert Run(c, s, ops) == Run(c, t, []);
      } else {
        var rest := LinkDrains(c, t);
        ops := [op] + rest;
        assert ops[1..] == rest;
      }
    }
  }

  lemma {:induction false} CalmIsReady(c: Config, s: State)
    ensures Calm(c, s) ==> s.status == Ready
  {}

  lemma {:induction false} CalmStep(c: Config, s: State, op: Op)
    requires Sound(c, s) && s.status == Ready && Internal(op) && Enabled(c, s, op)
    ensures Calm(c, s) ==> Step(c, s, op).status == Ready && Calm(c, Step(c, s, op))
  {
    hide Sound, Calm, Enabled, Step, Ends, Internal;
    if Calm(c, s) {
      CalmGoesOn(c, s, op);
      EndsExactly(c, s, op);
      if ByWriter(op) {
        WriterStaysCalm(c, s, op);
      } else {
        OwnerStaysCalm(c, s, op);
      }
    }
  }

  /** And from any moment after a refusal the owner and the writer can bring room about, unless the link ends. */
  lemma {:induction false} RefusedGetsRoom(c: Config, s: State, x: Submission) returns (ops: seq<Op>)
    requires Sound(c, s) && TrySubmit(c, s, x).1 == Backpressure && 0 < c.maxItems
    ensures forall op <- ops :: Internal(op)
    ensures var t := Run(c, s, ops);
            t.status != Ready || (t.capacity && TrySubmit(c, t, x).1 == Accepted)
    ensures Calm(c, s) ==> var t := Run(c, s, ops); t.capacity && TrySubmit(c, t, x).1 == Accepted
  {
    hide Sound, Calm;
    ops := LinkDrains(c, s);
    RoomIsAnnounced(c, s, x, ops);
  }
}
