/** What every interleaving of a link's owner, writer, submitters and consumer keeps, and what it amounts to. */
module LinkRuns {
  import opened Bytes
  import opened SeqSums
  import opened LinkCore

  // ---------------------------------------------------------------- sequences of frames

  lemma {:induction false} SubmissionsAppend(a: seq<Entry>, b: seq<Entry>)
    ensures Submissions(a + b) == Submissions(a) + Submissions(b)
  {
    if b == [] {
      assert a + b == a;
    } else {
      assert (a + b)[..|a + b| - 1] == a + b[..|b| - 1];
      SubmissionsAppend(a, b[..|b| - 1]);
    }
  }

  lemma {:induction false} SubmissionsOne(e: Entry)
    ensures Submissions([e]) == (match e.submission case None => [] case Some(x) => [x])
  {
    assert [e][..0] == [];
  }

  lemma {:induction false} WiresMore(a: seq<Entry>, e: Entry)
    ensures Wires(a + [e]) == Wires(a) + e.wire
  {
    assert (a + [e])[..|a|] == a;
  }

  // ---------------------------------------------------------------- what a section leaves alone

  /** The same but for the event accounting, the owner's progress and the end of the link. */
  predicate EventFrame(s: State, t: State) {
    && t == s.(sizes := t.sizes, eventItems := t.eventItems, eventBytes := t.eventBytes, events := t.events,
               log := s.log.(published := t.log.published), owner := t.owner, status := t.status)
    && (t.status == s.status || (s.status == Ready && t.status == Closing))
  }

  lemma {:induction false} DeliverFrame(c: Config, s: State)
    requires s.owner.Reading? && s.owner.todo != [] && !s.owner.todo[0].Reply?
    ensures EventFrame(s, Act(c, s)) && Act(c, s).owner != Took
    ensures Act(c, s).owner == Stopped || Act(c, s).status == s.status
  {
    hide Total;
  }

  /** A reply is encoded and either queued for the writer or, with the link, dropped. */
  lemma {:induction false} ReplyEffect(c: Config, s: State)
    requires s.owner.Reading? && s.owner.todo != [] && s.owner.todo[0].Reply?
    ensures var t := Act(c, s);
            && t.owner != Took && (t.owner == Stopped || t.status == s.status)
            && (t.status == s.status || (s.status == Ready && t.status == Closing))
            && match c.encode(Payloads(s.log.history), s.owner.todo[0].payload)
               case None => t == s.(status := t.status, owner := Stopped)
               case Some(wire) =>
                 var e := Entry(s.owner.todo[0].payload, wire, None);
                 if |s.jobs| == c.Lanes() then
                   t == s.(log := s.log.(history := s.log.history + [e], dropped := s.log.dropped + [e]), status := t.status, owner := Stopped)
                 else t == s.(log := s.log.(history := s.log.history + [e]), jobs := s.jobs + [e], owner := t.owner)
  {}

  lemma {:induction false} WriteFrame(s: State, n: nat, failed: bool)
    requires s.writer.current.Some? && s.writer.count + n <= |s.writer.current.value.wire|
    ensures var t := Write(s, n, failed);
            t == s.(log := s.log.(socket := s.log.socket + s.writer.current.value.wire[s.writer.count..s.writer.count + n]),
                    writer := s.writer.(count := s.writer.count + n,
                    report := if failed || n == 0 then Some(Result(s.writer.current.value, false)) else s.writer.report))
  {}

  // ---------------------------------------------------------------- order on the wire

  lemma {:induction false} StartKeepsOrder(c: Config, s: State)
    requires Ordered(s) && Enabled(c, s, WriterStart)
    ensures Ordered(Step(c, s, WriterStart))
  {
    hide Wires;
    assert s.writer.current == None;
    assert s.jobs == [s.jobs[0]] + s.jobs[1..];
    assert s.log.written + [] + s.jobs + s.log.dropped == s.log.written + [s.jobs[0]] + s.jobs[1..] + s.log.dropped;
    assert Wires(s.log.written) + s.jobs[0].wire[..0] == Wires(s.log.written) + [];
  }

  lemma {:induction false} WriteKeepsOrder(c: Config, s: State, n: nat, failed: bool)
    requires Ordered(s) && Enabled(c, s, WriterWrite(n, failed))
    ensures Ordered(Step(c, s, WriterWrite(n, failed)))
  {
    hide Wires, Write;
    var (w, wire) := (s.writer, s.writer.current.value.wire);
    WriteFrame(s, n, failed);
    assert wire[..w.count] + wire[w.count..w.count + n] == wire[..w.count + n];
  }

  lemma {:induction false} FinishKeepsOrder(c: Config, s: State)
    requires Ordered(s) && Enabled(c, s, WriterFinish)
    ensures Ordered(Step(c, s, WriterFinish))
  {
    hide Wires;
    var w := s.writer;
    WiresMore(s.log.written, w.current.value);
    assert w.current.value.wire[..w.count] == w.current.value.wire;
  }

  lemma {:induction false} ActKeepsOrder(c: Config, s: State)
    requires Ordered(s) && s.owner.Reading? && s.owner.todo != []
    ensures Ordered(Act(c, s))
  {
    hide Wires, Act;
    if s.owner.todo[0].Reply? {
      ReplyEffect(c, s);
    } else {
      DeliverFrame(c, s);
    }
  }

  lemma {:induction false} SubmitFrame(c: Config, s: State, x: Submission)
    ensures var t := TrySubmit(c, s, x).0;
            t == s.(queue := t.queue, items := t.items, octets := t.octets, wake := t.wake, log := s.log.(accepted := t.log.accepted))
  {}

  lemma {:induction false} OrderFollows(s: State, t: State)
    requires Ordered(s) && t.log.history == s.log.history && t.log.written == s.log.written && t.log.dropped == s.log.dropped
    requires t.writer.current == s.writer.current && t.writer.count == s.writer.count
    requires t.jobs == s.jobs && t.log.socket == s.log.socket && (s.owner == Stopped ==> t.owner == Stopped)
    ensures Ordered(t)
  {
    hide Wires;
  }

  lemma {:induction false} SendKeepsOrder(c: Config, s: State)
    requires Ordered(s) && Enabled(c, s, OwnerSend)
    ensures Ordered(Send(c, s))
  {
    hide Wires;
  }

  lemma {:induction false} EndKeepsOrder(s: State)
    requires Ordered(s) && s.owner == Stopped
    ensures Ordered(Finish(s))
  {
    hide Wires;
  }

  lemma {:induction false} StepKeepsOrder(c: Config, s: State, op: Op)
    requires Ordered(s)
    ensures Ordered(Step(c, s, op))
  {
    hide Ordered, Wires, Act, Reconcile, Write, Send, Payloads, TrySubmit, Finish;
    if Enabled(c, s, op) {
      match op
      case WriterStart => StartKeepsOrder(c, s);
      case WriterWrite(n, failed) => WriteKeepsOrder(c, s, n, failed);
      case WriterFinish => FinishKeepsOrder(c, s);
      case OwnerAct => ActKeepsOrder(c, s);
      case OwnerSend => SendKeepsOrder(c, s);
      case FinishTerminal => EndKeepsOrder(s);
      case Snapshot => ReconcileFrame(s); OrderFollows(s, Step(c, s, op));
      case Submit(x) => SubmitFrame(c, s, x); OrderFollows(s, Step(c, s, op));
      case _ => OrderFollows(s, Step(c, s, op));
    }
  }

  lemma {:induction false} ReconcileFrame(s: State)
    ensures EventFrame(s, Reconcile(s)) && Reconcile(s).owner == s.owner && Reconcile(s).status == s.status
    ensures Reconcile(s).events == s.events && Reconcile(s).log.published == s.log.published
  {
    hide Total;
  }

  // ---------------------------------------------------------------- the cipher state

  lemma {:induction false} EncodeContinues(c: Config, s: State, payload: bytes, submission: Option<Submission>)
    requires Continuous(c, s.log.history)
    ensures Continuous(c, Encode(c, s, payload, submission).0.log.history)
  {
    var t := Encode(c, s, payload, submission).0;
    assert t.log.history[..|s.log.history|] == s.log.history;
    forall i | 0 <= i < |s.log.history| ensures t.log.history[..i] == s.log.history[..i] {}
  }

  lemma {:induction false} StepContinues(c: Config, s: State, op: Op)
    requires Continuous(c, s.log.history)
    ensures Continuous(c, Step(c, s, op).log.history)
  {
    hide Continuous, Reconcile, Act, Write;
    if Enabled(c, s, op) {
      match op
      case OwnerSend => EncodeContinues(c, s, s.active.value.payload, s.active);
      case OwnerAct =>
        if s.owner.todo[0].Reply? {
          ReplyEffect(c, s);
          EncodeContinues(c, s, s.owner.todo[0].payload, None);
        } else {
          DeliverFrame(c, s);
        }
      case Snapshot => ReconcileFrame(s);
      case WriterWrite(n, failed) => WriteFrame(s, n, failed);
      case _ =>
    }
  }

  // ---------------------------------------------------------------- order of submissions

  lemma {:induction false} SendIsFair(c: Config, s: State)
    requires Fair(s) && Enabled(c, s, OwnerSend)
    ensures Fair(Send(c, s))
  {
    hide Submissions;
    match Encode(c, s, s.active.value.payload, s.active)
    case (_, None) =>
    case (_, Some(e)) =>
      SubmissionsAppend(s.log.history, [e]);
      SubmissionsOne(e);
      assert Send(c, s).log.history == s.log.history + [e];
  }

  lemma {:induction false} ActIsFair(c: Config, s: State)
    requires Fair(s) && s.owner.Reading? && s.owner.todo != []
    ensures Fair(Act(c, s))
  {
    hide Submissions, Act;
    var t := Act(c, s);
    if s.owner.todo[0].Reply? {
      ReplyEffect(c, s);
      if t.log.history != s.log.history {
        SubmissionsAppend(s.log.history, [t.log.history[|s.log.history|]]);
        SubmissionsOne(t.log.history[|s.log.history|]);
        assert t.log.history == s.log.history + [t.log.history[|s.log.history|]];
      }
    } else {
      DeliverFrame(c, s);
    }
  }

  lemma {:induction false} SubmitIsFair(c: Config, s: State, x: Submission)
    requires Fair(s)
    ensures Fair(TrySubmit(c, s, x).0)
  {
    hide Submissions;
    if s.owner != Stopped {
      var took := if s.owner == Took && s.active.Some? then [s.active.value] else [];
      assert Submissions(s.log.history) + took + (s.queue + [x]) == (Submissions(s.log.history) + took + s.queue) + [x];
    }
  }

  lemma {:induction false} StepIsFair(c: Config, s: State, op: Op)
    requires Fair(s)
    requires s.owner == Took ==> s.active.Some?
    ensures Fair(Step(c, s, op))
  {
    hide Submissions, Reconcile, Act, Send, Write, TrySubmit;
    if Enabled(c, s, op) {
      match op
      case Submit(x) => SubmitIsFair(c, s, x);
      case OwnerSend => SendIsFair(c, s);
      case OwnerAct => ActIsFair(c, s);
      case Snapshot => ReconcileFrame(s);
      case WriterWrite(n, failed) => WriteFrame(s, n, failed);
      case _ =>
    }
  }

  // ---------------------------------------------------------------- frames in flight

  lemma {:induction false} JobsMore(results: seq<Result>, r: Result)
    ensures Jobs(results + [r]) == Jobs(results) + [r.job]
  {}

  /** The writer moves frames along without losing or reordering them. */
  lemma {:induction false} WriterKeepsFlight(c: Config, s: State, op: Op)
    requires ChannelsOK(c, s)
    requires op.WriterStart? || op.WriterWrite? || op.WriterFinish? || op.WriterReport?
    ensures Flight(Step(c, s, op)) == Flight(s)
  {
    if Enabled(c, s, op) {
      match op
      case WriterStart => assert s.jobs == [s.jobs[0]] + s.jobs[1..];
      case WriterReport => JobsMore(s.results, s.writer.report.value);
      case _ =>
    }
  }

  lemma {:induction false} SubmissionsAround(a: seq<Entry>, b: seq<Entry>, d: seq<Entry>)
    ensures Submissions(a + b + d) == Submissions(a) + Submissions(b) + Submissions(d)
    ensures Submissions(a + d) == Submissions(a) + Submissions(d)
  {
    SubmissionsAppend(a, b);
    SubmissionsAppend(a + b, d);
    SubmissionsAppend(a, d);
  }

  lemma {:induction false} ExitKeepsSingle(c: Config, s: State)
    requires Single(s) && ChannelsOK(c, s) && Enabled(c, s, WriterExit)
    ensures Single(Step(c, s, WriterExit))
  {
    hide Submissions;
    var mid := if s.writer.report.Some? then [s.writer.report.value.job] else [];
    assert s.writer.current.None? || s.writer.report.Some?;
    assert Flight(s) == Jobs(s.results) + mid + s.jobs;
    var t := Step(c, s, WriterExit);
    assert Flight(t) == Jobs(s.results) + s.jobs;
    SubmissionsAround(Jobs(s.results), mid, s.jobs);
  }

  lemma {:induction false} FlightGrows(s: State, t: State, e: Entry)
    requires t.jobs == s.jobs + [e] && t.results == s.results && t.writer == s.writer
    ensures Flight(t) == Flight(s) + [e]
    ensures Submissions(Flight(t)) == Submissions(Flight(s)) + (match e.submission case None => [] case Some(x) => [x])
  {
    assert Flight(t) == Flight(s) + [e];
    SubmissionsAppend(Flight(s), [e]);
    SubmissionsOne(e);
  }

  lemma {:induction false} FlightShrinks(s: State, t: State)
    requires s.results != [] && t.results == s.results[1..] && t.jobs == s.jobs && t.writer == s.writer
    ensures Flight(s) == [s.results[0].job] + Flight(t)
    ensures Submissions(Flight(s)) ==
            (match s.results[0].job.submission case None => [] case Some(x) => [x]) + Submissions(Flight(t))
  {
    assert Jobs(s.results) == [s.results[0].job] + Jobs(t.results);
    assert Flight(s) == [s.results[0].job] + Flight(t);
    SubmissionsAppend([s.results[0].job], Flight(t));
    SubmissionsOne(s.results[0].job);
  }

  lemma {:induction false} SendKeepsSingle(c: Config, s: State)
    requires Single(s) && Enabled(c, s, OwnerSend)
    ensures Single(Send(c, s))
  {
    hide Submissions, Flight;
    match Encode(c, s, s.active.value.payload, s.active)
    case (_, None) => assert Flight(Send(c, s)) == Flight(s) by { SameFlight(s, Send(c, s)); }
    case (_, Some(e)) => FlightGrows(s, Send(c, s), e);
  }

  lemma {:induction false} SameFlight(s: State, t: State)
    requires t.jobs == s.jobs && t.results == s.results && t.writer == s.writer
    ensures Flight(t) == Flight(s)
  {}

  lemma {:induction false} ActKeepsSingle(c: Config, s: State)
    requires Single(s) && s.owner.Reading? && s.owner.todo != []
    ensures Single(Act(c, s))
  {
    hide Submissions, Flight, Act;
    var t := Act(c, s);
    if s.owner.todo[0].Reply? {
      ReplyEffect(c, s);
    } else {
      DeliverFrame(c, s);
    }
    if t.jobs == s.jobs {
      SameFlight(s, t);
    } else {
      FlightGrows(s, t, t.jobs[|s.jobs|]);
    }
  }

  lemma {:induction false} ResultKeepsSingle(c: Config, s: State)
    requires Single(s) && Enabled(c, s, OwnerResult)
    ensures Single(HandleResult(s))
    ensures s.results[0].job.submission.Some? ==> s.active == s.results[0].job.submission
  {
    hide Submissions, Flight;
    var t := HandleResult(s);
    FlightShrinks(s, t);
    match s.results[0].job.submission
    case None => assert [] + Submissions(Flight(t)) == Submissions(Flight(t));
    case Some(x) =>
      var all := [x] + Submissions(Flight(t));
      assert all[0] == x && |all| == 1 + |Submissions(Flight(t))|;
  }

  lemma {:induction false} StepKeepsSingle(c: Config, s: State, op: Op)
    requires Single(s) && ChannelsOK(c, s) && s.status != Closed && op != FinishTerminal
    ensures Single(Step(c, s, op))
  {
    hide Submissions, Flight, Act, Send, HandleResult, Single;
    if Enabled(c, s, op) {
      match op
      case OwnerSend => SendKeepsSingle(c, s);
      case OwnerAct => ActKeepsSingle(c, s);
      case OwnerResult => ResultKeepsSingle(c, s);
      case WriterExit => ExitKeepsSingle(c, s);
      case WriterStart => WriterKeepsFlight(c, s, op); SingleFollows(s, Step(c, s, op));
      case WriterWrite(_, _) => WriterKeepsFlight(c, s, op); SingleFollows(s, Step(c, s, op));
      case WriterFinish => WriterKeepsFlight(c, s, op); SingleFollows(s, Step(c, s, op));
      case WriterReport => WriterKeepsFlight(c, s, op); SingleFollows(s, Step(c, s, op));
      case OwnerTake => SameFlight(s, Step(c, s, op)); TakeKeepsSingle(c, s);
      case _ => SameFlight(s, Step(c, s, op)); SingleFollows(s, Step(c, s, op));
    }
  }

  lemma {:induction false} SingleFollows(s: State, t: State)
    requires Single(s) && Flight(t) == Flight(s) && t.active == s.active
    requires s.status != Ready ==> t.status != Ready
    requires s.owner == Took <==> t.owner == Took
    ensures Single(t)
  {
    hide Submissions, Flight;
  }

  lemma {:induction false} TakeKeepsSingle(c: Config, s: State)
    requires Single(s) && s.owner == Woken
    ensures Single(Take(c, s))
  {
    hide Submissions, Flight;
    SameFlight(s, Take(c, s));
  }

  // ---------------------------------------------------------------- submission charges

  lemma {:induction false} ActCharges(c: Config, s: State)
    requires s.owner.Reading? && s.owner.todo != []
    ensures var t := Act(c, s); t.items == s.items && t.octets == s.octets && t.queue == s.queue && t.active == s.active
  {
    hide Act;
    if s.owner.todo[0].Reply? {
      ReplyEffect(c, s);
    } else {
      DeliverFrame(c, s);
    }
  }

  lemma {:induction false} SubmitKeepsCounts(c: Config, s: State, x: Submission)
    requires Counted(c, s)
    ensures Counted(c, TrySubmit(c, s, x).0)
  {
    hide Total;
    TotalSnoc(s.queue, x, Charge);
  }

  lemma {:induction false} TakeKeepsCounts(c: Config, s: State)
    requires Counted(c, s)
    ensures Counted(c, Take(c, s))
  {}

  lemma {:induction false} StepKeepsCounts(c: Config, s: State, op: Op)
    requires Counted(c, s) && Single(s) && s.status != Closed && op != FinishTerminal
    ensures Counted(c, Step(c, s, op))
  {
    hide Total, Act, Reconcile, Write, Take, TrySubmit, Single, Payloads;
    if Enabled(c, s, op) {
      match op
      case Submit(x) => SubmitKeepsCounts(c, s, x);
      case OwnerTake => TakeKeepsCounts(c, s);
      case OwnerResult => ResultKeepsSingle(c, s);
      case OwnerAct => ActCharges(c, s);
      case Snapshot => ReconcileFrame(s);
      case WriterWrite(n, failed) => WriteFrame(s, n, failed);
      case _ =>
    }
  }

  // ---------------------------------------------------------------- wakeups

  /** A full write channel, or an active submission not just taken, is in flight: its result will wake the owner. */
  lemma {:induction false} InFlight(c: Config, s: State)
    requires Single(s) && s.status == Ready
    ensures s.owner != Took && s.active.Some? ==> Flight(s) != []
    ensures s.jobs != [] ==> Flight(s) != []
  {}

  lemma {:induction false} SendInFlight(c: Config, s: State)
    requires Enabled(c, s, OwnerSend)
    ensures Send(c, s).status == Ready ==> Flight(Send(c, s)) != []
  {}

  lemma {:induction false} ActKeepsWake(c: Config, s: State)
    requires NeverStranded(s) && s.owner.Reading? && s.owner.todo != []
    ensures NeverStranded(Act(c, s))
  {
    hide Act, Flight;
    var t := Act(c, s);
    if s.owner.todo[0].Reply? {
      ReplyEffect(c, s);
      if t.jobs != s.jobs {
        FlightGrows(s, t, t.jobs[|s.jobs|]);
      } else {
        SameFlight(s, t);
      }
    } else {
      DeliverFrame(c, s);
      SameFlight(s, t);
    }
  }

  lemma {:induction false} WakeFollows(s: State, t: State)
    requires NeverStranded(s) && t.queue == s.queue && t.owner == s.owner && t.wake == s.wake
    requires Flight(t) == Flight(s) && (t.status == Ready ==> s.status == Ready)
    ensures NeverStranded(t)
  {
    hide Flight;
  }

  lemma {:induction false} StepNeverStrands(c: Config, s: State, op: Op)
    requires NeverStranded(s) && Single(s) && ChannelsOK(c, s)
    ensures NeverStranded(Step(c, s, op))
  {
    hide Act, Reconcile, Write, Flight, Single, Payloads, Send, ChannelsOK;
    var t := Step(c, s, op);
    if Enabled(c, s, op) {
      match op
      case OwnerAct => ActKeepsWake(c, s);
      case OwnerSend => SendInFlight(c, s);
      case OwnerTake => if s.status == Ready { InFlight(c, s); SameFlight(s, t); }
      case WriterStart => WriterKeepsFlight(c, s, op); WakeFollows(s, t);
      case WriterWrite(n, failed) => WriterKeepsFlight(c, s, op); WriteFrame(s, n, failed); WakeFollows(s, t);
      case WriterFinish => WriterKeepsFlight(c, s, op); WakeFollows(s, t);
      case WriterReport => WriterKeepsFlight(c, s, op); WakeFollows(s, t);
      case Snapshot => ReconcileFrame(s); SameFlight(s, t); WakeFollows(s, t);
      case OwnerRead(_) => SameFlight(s, t);
      case Consume => SameFlight(s, t); WakeFollows(s, t);
      case BeginClose => SameFlight(s, t);
      case TakeCapacity => SameFlight(s, t); WakeFollows(s, t);
      case Submit(x) => SubmitFrame(c, s, x); SameFlight(s, t);
      case _ =>
    }
  }

  // ---------------------------------------------------------------- channels

  lemma {:induction false} ActKeepsChannels(c: Config, s: State)
    requires ChannelsOK(c, s) && s.owner.Reading? && s.owner.todo != []
    ensures ChannelsOK(c, Act(c, s))
  {
    hide Act;
    if s.owner.todo[0].Reply? {
      ReplyEffect(c, s);
    } else {
      DeliverFrame(c, s);
    }
    ActMovesOn(c, s);
  }

  lemma {:induction false} ActMovesOn(c: Config, s: State)
    requires s.owner.Reading? && s.owner.todo != []
    ensures var t := Act(c, s);
            t.owner == (if |s.owner.todo| == 1 then Idle else Reading(s.owner.todo[1..])) ||
            (t.owner == Stopped && t.status != Ready)
  {
    hide Publish, Payloads;
    var rest := s.owner.todo[1..];
    var t := s.(owner := if rest == [] then Idle else Reading(rest));
    if s.owner.todo[0].Deliver? {
      PublishFrame(c, t, s.owner.todo[0].event);
    }
  }

  lemma {:induction false} PublishFrame(c: Config, s: State, e: Event)
    ensures Publish(c, s, e).0.owner == s.owner && Publish(c, s, e).0.status == s.status
  {
    hide Total;
  }

  predicate ByWriter(op: Op) {
    op.WriterStart? || op.WriterWrite? || op.WriterFinish? || op.WriterReport? || op.WriterExit?
  }

  lemma {:induction false} WriterKeepsChannels(c: Config, s: State, op: Op)
    requires ChannelsOK(c, s) && ByWriter(op)
    ensures ChannelsOK(c, Step(c, s, op))
  {
    hide Write;
    if Enabled(c, s, op) && op.WriterWrite? {
      WriteFrame(s, op.n, op.failed);
    }
  }

  lemma {:induction false} ResultKeepsChannels(c: Config, s: State)
    requires ChannelsOK(c, s) && Enabled(c, s, OwnerResult)
    ensures ChannelsOK(c, HandleResult(s))
  {
    assert |s.results| > 1 ==> s.results[1..][|s.results| - 2] == s.results[|s.results| - 1];
  }

  lemma {:induction false} SubmissionKeepsChannels(c: Config, s: State)
    requires ChannelsOK(c, s)
    ensures Enabled(c, s, OwnerTake) ==> ChannelsOK(c, Take(c, s))
    ensures Enabled(c, s, OwnerSend) ==> ChannelsOK(c, Send(c, s))
  {
    hide Payloads;
  }

  lemma {:induction false} StepKeepsChannels(c: Config, s: State, op: Op)
    requires ChannelsOK(c, s)
    ensures ChannelsOK(c, Step(c, s, op))
  {
    hide Act, Reconcile, Write, Payloads, Send, Take, HandleResult, TrySubmit;
    if ByWriter(op) {
      WriterKeepsChannels(c, s, op);
    } else if Enabled(c, s, op) {
      match op
      case OwnerResult => ResultKeepsChannels(c, s);
      case OwnerTake => SubmissionKeepsChannels(c, s);
      case OwnerSend => SubmissionKeepsChannels(c, s);
      case OwnerAct => ActKeepsChannels(c, s);
      case Snapshot => ReconcileFrame(s);
      case Submit(x) => SubmitFrame(c, s, x);
      case _ =>
    }
  }

  // ---------------------------------------------------------------- events

  lemma {:induction false} ReconcileKeepsEvents(c: Config, s: State)
    requires EventsOK(c, s)
    ensures EventsOK(c, Reconcile(s)) && (s.status != Closed ==> |Reconcile(s).sizes| == |s.events|)
  {
    if s.status != Closed && |s.sizes| > |s.events| {
      var gone := |s.sizes| - |s.events|;
      assert s.sizes == s.sizes[..gone] + s.sizes[gone..];
      TotalAppend(s.sizes[..gone], s.sizes[gone..], Itself);
    }
  }

  /** An event the limits admit always finds room in the channel: the event queue never overflows. */
  lemma {:induction false} PublishKeepsEvents(c: Config, s: State, e: Event)
    requires EventsOK(c, s)
    ensures EventsOK(c, Publish(c, s, e).0)
    ensures Publish(c, s, e).1 <==>
            && s.status == Ready && |s.events| < c.maxEvents
            && e.size <= c.maxEventBytes - Reconcile(s).eventBytes
  {
    hide Total, Reconcile;
    if s.status == Ready {
      ReconcileFrame(s);
      ReconcileKeepsEvents(c, s);
      var t := Reconcile(s);
      TotalSnoc(t.sizes, e.size, Itself);
    }
  }

  lemma {:induction false} EventsFollow(c: Config, s: State, t: State)
    requires EventsOK(c, s) && t.log.published == s.log.published && t.log.consumed == s.log.consumed && t.events == s.events
    requires t.sizes == s.sizes && t.eventItems == s.eventItems && t.eventBytes == s.eventBytes
    requires t.status == Closed <==> s.status == Closed
    ensures EventsOK(c, t)
  {}

  lemma {:induction false} ActKeepsEvents(c: Config, s: State)
    requires EventsOK(c, s) && s.owner.Reading? && s.owner.todo != []
    ensures EventsOK(c, Act(c, s))
  {
    hide EventsOK, Publish;
    var rest := s.owner.todo[1..];
    var t := s.(owner := if rest == [] then Idle else Reading(rest));
    match s.owner.todo[0]
    case Reply(_) => ReplyEffect(c, s); EventsFollow(c, s, Act(c, s));
    case Broken => EventsFollow(c, s, Act(c, s));
    case Deliver(event) =>
      EventsFollow(c, s, t);
      PublishKeepsEvents(c, t, event);
      EventsFollow(c, Publish(c, t, event).0, Act(c, s));
  }

  lemma {:induction false} ConsumeKeepsEvents(c: Config, s: State)
    requires EventsOK(c, s) && s.events != []
    ensures EventsOK(c, Step(c, s, Consume))
  {
    hide Total;
    assert s.events == [s.events[0]] + s.events[1..];
  }

  lemma {:induction false} WriterKeepsEvents(c: Config, s: State, op: Op)
    requires EventsOK(c, s) && (ByWriter(op) || op.OwnerResult? || op.OwnerTake? || op.OwnerSend?)
    ensures EventsOK(c, Step(c, s, op))
  {
    hide EventsOK, Write, Payloads;
    if Enabled(c, s, op) {
      if op.WriterWrite? {
        WriteFrame(s, op.n, op.failed);
      }
      EventsFollow(c, s, Step(c, s, op));
    }
  }

  lemma {:induction false} StepKeepsEvents(c: Config, s: State, op: Op)
    requires EventsOK(c, s) && (s.status == Closed ==> s.owner == Stopped)
    ensures EventsOK(c, Step(c, s, op))
  {
    hide EventsOK, Act, Reconcile, Write, Payloads, TrySubmit, Finish, Send, Take, HandleResult;
    var t := Step(c, s, op);
    if ByWriter(op) || op.OwnerResult? || op.OwnerTake? || op.OwnerSend? {
      WriterKeepsEvents(c, s, op);
    } else if Enabled(c, s, op) {
      match op
      case OwnerAct => ActKeepsEvents(c, s);
      case Snapshot => ReconcileKeepsEvents(c, s);
      case Consume => ConsumeKeepsEvents(c, s);
      case FinishTerminal => FinishKeepsEvents(c, s);
      case Submit(x) => SubmitFrame(c, s, x); EventsFollow(c, s, t);
      case _ => EventsFollow(c, s, t);
    }
  }

  lemma {:induction false} FinishKeepsEvents(c: Config, s: State)
    requires EventsOK(c, s)
    ensures EventsOK(c, Finish(s))
  {}

  // ---------------------------------------------------------------- every run

  lemma {:induction false} StepIsSound(c: Config, s: State, op: Op)
    requires Sound(c, s)
    ensures Sound(c, Step(c, s, op))
  {
    hide Ordered, Continuous, Fair, Single, Counted, NeverStranded, ChannelsOK, EventsOK, Step;
    if s.status == Closed {
      ClosedStays(c, s, op);
    } else {
      SoundParts(c, s);
      StepKeepsOrder(c, s, op);
      StepContinues(c, s, op);
      StepIsFair(c, s, op);
      StepKeepsChannels(c, s, op);
      StepKeepsEvents(c, s, op);
      StepNeverStrands(c, s, op);
      if op == FinishTerminal {
        EndIsClean(c, s);
      } else {
        StepKeepsSingle(c, s, op);
        StepKeepsCounts(c, s, op);
        StaysOpen(c, s, op);
      }
    }
  }

  lemma {:induction false} SoundParts(c: Config, s: State)
    requires Single(s)
    ensures s.owner == Took ==> s.active.Some?
  {}

  lemma {:induction false} StaysOpen(c: Config, s: State, op: Op)
    requires s.status != Closed && op != FinishTerminal
    ensures Step(c, s, op).status != Closed
  {
    hide Act, Reconcile, Write, Payloads;
    if Enabled(c, s, op) {
      match op
      case OwnerAct => if s.owner.todo[0].Reply? { ReplyEffect(c, s); } else { DeliverFrame(c, s); }
      case Snapshot => ReconcileFrame(s);
      case WriterWrite(n, failed) => WriteFrame(s, n, failed);
      case _ =>
    }
  }

  lemma {:induction false} EndIsClean(c: Config, s: State)
    requires s.status != Closed
    ensures var t := Step(c, s, FinishTerminal);
            if Enabled(c, s, FinishTerminal) then
              && t.status == Closed && t.queue == [] && t.items == 0 && t.octets == 0 && t.active == None && t.jobs == []
              && t.results == [] && t.owner == Stopped && t.writer.gone
            else t == s
  {}

  /** After the end only the consumer moves, draining what was published. */
  lemma {:induction false} ClosedStays(c: Config, s: State, op: Op)
    requires Sound(c, s) && s.status == Closed
    ensures Sound(c, Step(c, s, op))
    ensures var t := Step(c, s, op);
            t == s || t == s.(capacity := false) ||
            (op == Consume && t == s.(events := s.events[1..], log := s.log.(consumed := s.log.consumed + [s.events[0]])))
  {
    hide Ordered, Continuous, Fair, Single, Counted, NeverStranded, Wires, Submissions;
    StepKeepsEvents(c, s, op);
    StepKeepsOrder(c, s, op);
    StepIsFair(c, s, op);
    StepContinues(c, s, op);
    StepKeepsChannels(c, s, op);
    ClosedIsQuiet(c, s, op);
  }

  lemma {:induction false} ClosedIsQuiet(c: Config, s: State, op: Op)
    requires s.status == Closed && s.owner == Stopped && s.writer.gone
    ensures var t := Step(c, s, op);
            t == s || t == s.(capacity := false) ||
            (op == Consume && t == s.(events := s.events[1..], log := s.log.(consumed := s.log.consumed + [s.events[0]])))
    ensures NeverStranded(Step(c, s, op))
  {}

  lemma {:induction false} StartIsSound(c: Config, todo: seq<Action>)
    ensures Sound(c, Start(todo))
  {}

  /** Whatever the interleaving, from the moment the link is ready. */
  lemma {:induction false} RunIsSound(c: Config, s: State, ops: seq<Op>)
    requires Sound(c, s)
    ensures Sound(c, Run(c, s, ops))
    decreases |ops|
  {
    hide Sound, Step;
    if ops != [] {
      StepIsSound(c, s, ops[0]);
      RunIsSound(c, Step(c, s, ops[0]), ops[1..]);
    }
  }

  // ---------------------------------------------------------------- what a run amounts to

  predicate Prefix(a: bytes, b: bytes) {
    |a| <= |b| && b[..|a|] == a
  }

  lemma {:induction false} WiresAppend(a: seq<Entry>, b: seq<Entry>)
    ensures Wires(a + b) == Wires(a) + Wires(b)
  {
    if b == [] {
      assert a + b == a;
    } else {
      assert (a + b)[..|a + b| - 1] == a + b[..|b| - 1];
      WiresAppend(a, b[..|b| - 1]);
    }
  }

  /**
   * At every moment the socket has taken a prefix of what was encoded, frames in the order of encoding and each
   * encoded in the state its predecessors left, and the submissions among them are a prefix of those accepted.
   */
  lemma {:induction false} SocketInEncodeOrder(c: Config, todo: seq<Action>, ops: seq<Op>)
    ensures var t := Run(c, Start(todo), ops);
            && Prefix(t.log.socket, Wires(t.log.history)) && Continuous(c, t.log.history)
            && Submissions(t.log.history) <= t.log.accepted
  {
    hide Sound, Continuous, Wires, Submissions;
    StartIsSound(c, todo);
    RunIsSound(c, Start(todo), ops);
    var t := Run(c, Start(todo), ops);
    OrderedIsPrefix(c, t);
  }

  lemma {:induction false} OrderedIsPrefix(c: Config, t: State)
    requires Sound(c, t)
    ensures Prefix(t.log.socket, Wires(t.log.history)) && Continuous(c, t.log.history) && Submissions(t.log.history) <= t.log.accepted
  {
    hide Continuous, Wires, Submissions, Single, Counted, NeverStranded, ChannelsOK, EventsOK;
    var current := if t.writer.current.Some? then [t.writer.current.value] else [];
    WiresAppend(t.log.written + current + t.jobs, t.log.dropped);
    WiresAppend(t.log.written + current, t.jobs);
    WiresAppend(t.log.written, current);
    if t.writer.current.Some? {
      WiresMore([], t.writer.current.value);
      assert [] + [t.writer.current.value] == [t.writer.current.value];
      NoWires();
    }
  }

  lemma {:induction false} NoWires()
    ensures Wires([]) == []
  {}

  /**
   * A charge outlives the write: whatever was accepted but is not yet completely on the socket is still queued or
   * active, and so still counted.
   */
  lemma {:induction false} ChargedUntilWritten(c: Config, s: State)
    requires Sound(c, s) && s.status == Ready
    ensures Submissions(s.log.written) <= s.log.accepted
    ensures var out := s.log.accepted[|Submissions(s.log.written)|..];
            && (out == s.queue || (s.active.Some? && out == [s.active.value] + s.queue))
            && Total(out, Charge) <= s.octets && |out| <= s.items
  {
    hide Continuous, Wires, Submissions, EventsOK, Total, NeverStranded, Flight;
    var tail := (if s.writer.current.Some? then [s.writer.current.value] else []) + s.jobs;
    var took := if s.owner == Took && s.active.Some? then [s.active.value] else [];
    assert s.log.history == s.log.written + tail;
    SubmissionsAppend(s.log.written, tail);
    PartOfFlight(c, s, tail);
    assert s.log.accepted == Submissions(s.log.written) + (Submissions(tail) + took + s.queue);
    assert s.log.accepted[|Submissions(s.log.written)|..] == Submissions(tail) + took + s.queue;
    if s.active.Some? {
      TotalHead(s.active.value, s.queue);
    }
  }

  lemma {:induction false} TotalHead(x: Submission, rest: seq<Submission>)
    ensures Total([x] + rest, Charge) == x.size + Total(rest, Charge)
  {
    assert ([x] + rest)[1..] == rest;
  }

  /** What the writer still holds is among the frames in flight, so it carries at most the active submission. */
  lemma {:induction false} PartOfFlight(c: Config, s: State, tail: seq<Entry>)
    requires Single(s) && ChannelsOK(c, s) && s.status == Ready
    requires tail == (if s.writer.current.Some? then [s.writer.current.value] else []) + s.jobs
    ensures Submissions(tail) == [] || (s.owner != Took && s.active.Some? && Submissions(tail) == [s.active.value])
  {
    hide Submissions;
    var (n, w) := (|s.results|, s.writer);
    var mid := if w.report.Some? then [w.report.value.job] else if w.current.Some? && !w.gone then [w.current.value] else [];
    if w.gone {
      assert s.results == s.results[..n - 1] + [s.results[n - 1]];
      JobsMore(s.results[..n - 1], s.results[n - 1]);
      assert Flight(s) == Jobs(s.results[..n - 1]) + tail;
      SubmissionsAppend(Jobs(s.results[..n - 1]), tail);
    } else if w.current.Some? {
      assert Flight(s) == Jobs(s.results) + tail;
      SubmissionsAppend(Jobs(s.results), tail);
    } else {
      assert tail == s.jobs;
      SubmissionsAppend(Jobs(s.results) + mid, tail);
    }
  }

  /** Steps of the owner and the writer that need no input, the socket taking some bytes of each write. */
  predicate Internal(op: Op) {
    || op.OwnerWake? || op.OwnerTake? || op.OwnerSend? || op.OwnerResult? || op.OwnerCheck? || op.OwnerSignal?
    || op.OwnerAct? || op.WriterStart? || (op.WriterWrite? && 0 < op.n && !op.failed) || op.WriterFinish?
    || op.WriterReport?
  }

  /** Everything accepted has been written and released. */
  predicate Drained(s: State) {
    && s.queue == [] && s.items == 0 && s.octets == 0 && s.active == None
    && s.log.written == s.log.history && s.log.socket == Wires(s.log.history) && Submissions(s.log.history) == s.log.accepted
  }

  /** A step that can be taken next in a ready link that is not quiet. */
  function Choose(c: Config, s: State): Op {
    var w := s.writer;
    if w.report.Some? && |s.results| < c.Lanes() then WriterReport
    else if w.current.Some? && w.report.None? && !w.gone then
      if w.count < |w.current.value.wire| then WriterWrite(|w.current.value.wire| - w.count, false) else WriterFinish
    else match s.owner
      case Woken => OwnerTake
      case Took => OwnerSend
      case Waking => OwnerCheck
      case Signalling => OwnerSignal
      case Reading(_) => OwnerAct
      case _ => if s.results != [] then OwnerResult else if s.wake then OwnerWake else WriterStart
  }

  /**
   * No accepted submission is stranded and nothing deadlocks: in a ready link either some step of the owner or the
   * writer can be taken, or every accepted submission has been written, in order, and its charge released.
   */
  lemma {:induction false} WorkOrDone(c: Config, s: State)
    requires Sound(c, s) && s.status == Ready
    ensures Drained(s) || (Internal(Choose(c, s)) && Enabled(c, s, Choose(c, s)))
  {
    hide Continuous, Wires, Submissions, EventsOK, Total;
    var w := s.writer;
    if !Enabled(c, s, Choose(c, s)) {
      assert s.owner == Idle && s.results == [] && !s.wake && w.report.None? && w.current.None? && s.jobs == [];
      NothingInFlight(s);
      assert s.queue == [] && s.active == None;
      QuietIsDone(c, s);
    }
  }

  lemma {:induction false} NothingInFlight(s: State)
    requires s.results == [] && s.writer.report.None? && s.writer.current.None? && s.jobs == []
    ensures Flight(s) == [] && Submissions(Flight(s)) == []
  {}

  lemma {:induction false} QuietIsDone(c: Config, s: State)
    requires Ordered(s) && Fair(s) && Counted(c, s) && s.status == Ready && ChannelsOK(c, s)
    requires s.owner == Idle && s.writer.current.None? && s.jobs == [] && s.queue == [] && s.active == None
    ensures Drained(s)
  {
    hide Wires, Submissions;
    assert s.log.written + [] + [] + [] == s.log.written;
    assert Submissions(s.log.history) + [] + [] == Submissions(s.log.history);
    assert Wires(s.log.written) + [] == Wires(s.log.written);
  }

  // ---------------------------------------------------------------- and it finishes

  function Rank(o: Owner): nat {
    match o
    case Woken => 1
    case Signalling => 3
    case Waking => 4
    case _ => 0
  }

  function Left(s: State): (nat, nat, nat, nat, nat) {
    var w := s.writer;
    (2 * |s.queue| + (if s.owner == Took then 1 else 0) + (if s.owner.Reading? then |s.owner.todo| else 0),
     |s.jobs|,
     if w.report.Some? then 1 else if !w.gone && w.current.Some? && w.count <= |w.current.value.wire|
                                   then 2 + |w.current.value.wire| - w.count else 0,
     |s.results|,
     Rank(s.owner) + (if s.wake then 2 else 0))
  }

  predicate Below(a: (nat, nat, nat, nat, nat), b: (nat, nat, nat, nat, nat)) {
    || a.0 < b.0
    || (a.0 == b.0 && (a.1 < b.1 || (a.1 == b.1 && (a.2 < b.2 || (a.2 == b.2 &&
        (a.3 < b.3 || (a.3 == b.3 && a.4 < b.4)))))))
  }

  lemma {:induction false} WriterDescends(c: Config, s: State, op: Op)
    requires ByWriter(op) && Internal(op) && Enabled(c, s, op) && ChannelsOK(c, s)
    ensures Below(Left(Step(c, s, op)), Left(s))
  {
    hide Write;
    if op.WriterWrite? {
      WriteFrame(s, op.n, op.failed);
    }
  }

  /** Each such step uses up some of what is left, whatever the order they come in; failures end the link instead. */
  lemma {:induction false} WorkDescends(c: Config, s: State, op: Op)
    requires Internal(op) && Enabled(c, s, op) && ChannelsOK(c, s)
    ensures Step(c, s, op).status != Ready || Below(Left(Step(c, s, op)), Left(s))
  {
    hide Payloads, Act, Write, TrySubmit, Reconcile, ChannelsOK;
    if ByWriter(op) {
      WriterDescends(c, s, op);
    } else if op.OwnerAct? {
      ActMovesOn(c, s);
      ActCharges(c, s);
    }
  }

  lemma {:induction false} SoundChannels(c: Config, s: State)
    requires Sound(c, s)
    ensures ChannelsOK(c, s)
  {}

  // ---------------------------------------------------------------- room is announced

  /** Since `before`, either room has been announced or nothing has been released. */
  predicate Held(before: State, s: State) {
    s.status == Ready ==> s.capacity || (before.items <= s.items && before.octets <= s.octets)
  }

  lemma {:induction false} StepHeld(c: Config, before: State, s: State, op: Op)
    requires Sound(c, s) && Held(before, s) && op != TakeCapacity
    ensures Held(before, Step(c, s, op))
  {
    hide Ordered, Continuous, Fair, Counted, NeverStranded, EventsOK, Act, Reconcile, Write, Payloads, Flight, Single;
    if Enabled(c, s, op) {
      match op
      case OwnerAct => ActCharges(c, s); if s.owner.todo[0].Reply? { ReplyEffect(c, s); } else { DeliverFrame(c, s); }
      case Snapshot => ReconcileFrame(s);
      case WriterWrite(n, failed) => WriteFrame(s, n, failed);
      case _ =>
    }
  }

  lemma {:induction false} RunHeld(c: Config, before: State, s: State, ops: seq<Op>)
    requires Sound(c, s) && Held(before, s) && TakeCapacity !in ops
    ensures Held(before, Run(c, s, ops))
    decreases |ops|
  {
    hide Sound, Step, Held;
    if ops != [] {
      assert ops[0] in ops;
      assert forall op <- ops[1..] :: op in ops;
      StepHeld(c, before, s, ops[0]);
      StepIsSound(c, s, ops[0]);
      RunHeld(c, before, Step(c, s, ops[0]), ops[1..]);
    }
  }

  /**
   * A submission refused for lack of room leaves a charge behind whose release will be announced: whenever it would
   * be accepted, the announcement has been made since, and at most taken.
   */
  lemma {:induction false} RoomIsAnnounced(c: Config, s: State, x: Submission, ops: seq<Op>)
    requires Sound(c, s) && TrySubmit(c, s, x).1 == Backpressure && TakeCapacity !in ops && 0 < c.maxItems
    ensures 0 < s.items
    ensures TrySubmit(c, Run(c, s, ops), x).1 == Accepted ==> Run(c, s, ops).capacity
  {
    hide Ordered, Continuous, Fair, NeverStranded, EventsOK, Flight, Single, ChannelsOK;
    RunHeld(c, s, s, ops);
  }
}
