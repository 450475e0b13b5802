/** When a binding stops counting against its slot, and the bindings nothing releases any more. */
module ReadinessRelease {
  import opened Bytes
  import opened Readiness
  import opened ReadinessLaws

  /** All is over but, perhaps, a request: its consumer has seen the end, or its close has been answered. */
  predicate Over(s: State, id: nat) {
    && id in s.bindings && id !in s.ready
    && var b := s.bindings[id];
       b.terminal && b.items == 0 && !b.result && !b.leased && (b.terminalObserved || b.closeSet)
  }

  /** What releaseTerminalBindingLocked asks for: nothing is left to do with the binding. */
  predicate Settled(s: State, id: nat) {
    Over(s, id) && s.bindings[id].request == Nothing
  }

  /** Nothing is left to do with the binding, and it still counts against its slot and the manager. */
  predicate LeftBehind(s: State, id: nat) {
    Settled(s, id) && s.bindings[id].resident
  }

  /** A step leaves no binding behind, and releases none too early. */
  predicate Prompt(s: State, t: State, id: nat) {
    && id in s.bindings && id in t.bindings
    && (LeftBehind(t, id) ==> LeftBehind(s, id))
    && (s.bindings[id].resident && !t.bindings[id].resident ==> Settled(t, id))
    && (t.bindings[id].resident ==> s.bindings[id].resident)
  }

  /** Only the fields of readiness change: whom the slot counts does not. */
  predicate SameResidence(s: State, t: State, id: nat) {
    id in s.bindings && id in t.bindings && t.bindings[id].resident == s.bindings[id].resident
  }

  lemma {:induction false} SameResidenceThen(s: State, t: State, u: State, id: nat)
    requires SameResidence(s, t, id) && SameResidence(t, u, id)
    ensures SameResidence(s, u, id)
  {}

  lemma {:induction false} PutSame(s: State, id: nat, b: Binding)
    requires id in s.bindings && b.resident == s.bindings[id].resident
    ensures SameResidence(s, Put(s, id, b), id)
  {}

  lemma {:induction false} ListingSame(s: State, id: nat)
    requires id in s.bindings
    ensures SignalBinding(s, id).bindings == s.bindings && EnqueueReady(s, id).bindings == s.bindings
    ensures UnlinkReady(s, id).bindings == s.bindings && RefreshReady(s, id).bindings == s.bindings
    ensures PublishTerminal(s, id).bindings == s.bindings[id := s.bindings[id].(terminal := true)]
    ensures InvalidateReady(s, id).bindings == s.bindings[id := s.bindings[id].(leased := false)]
    ensures SameResidence(s, PublishTerminal(s, id), id) && SameResidence(s, InvalidateReady(s, id), id)
  {
    hide Without, HasReason;
  }

  /** A section that ends by trying to release its binding. */
  lemma {:induction false} Releases(s: State, u: State, id: nat)
    requires SameResidence(s, u, id)
    ensures Prompt(s, ReleaseTerminal(u, id), id) && !LeftBehind(ReleaseTerminal(u, id), id)
  {}

  /** A section after which something is left to do. */
  lemma {:induction false} Busy(s: State, t: State, id: nat)
    requires SameResidence(s, t, id)
    requires var b := t.bindings[id]; !b.terminal || b.items > 0 || b.request != Nothing || b.result || b.leased
    ensures Prompt(s, t, id)
  {}

  lemma {:induction false} SamePrompt(s: State, t: State, id: nat)
    requires id in s.bindings && t.bindings == s.bindings && t.ready == s.ready
    ensures Prompt(s, t, id)
  {}

  lemma {:induction false} CloseDownPrompt(s: State, u: State, id: nat)
    requires SameResidence(s, u, id)
    ensures Prompt(s, CloseDown(u, id), id)
  {
    hide PublishTerminal, InvalidateReady, ReleaseTerminal, Prompt, LeftBehind;
    ListingSame(u, id);
    var t := PublishTerminal(u, id);
    var v := Put(t, id, t.bindings[id].(closeSet := true, terminalObserved := true));
    ListingSame(v, id);
    Releases(s, InvalidateReady(v, id), id);
  }

  lemma {:induction false} PublishPrompt(s: State, u: State, id: nat)
    requires SameResidence(s, u, id)
    ensures Prompt(s, ReleaseTerminal(PublishTerminal(u, id), id), id)
  {
    hide PublishTerminal, ReleaseTerminal, Prompt, LeftBehind;
    ListingSame(u, id);
    Releases(s, PublishTerminal(u, id), id);
  }

  lemma {:induction false} BeginClosePrompt(s: State, id: nat, queued: bool, down: bool)
    requires id in s.bindings
    ensures Prompt(s, BeginClose(s, id, queued, down), id)
  {
    hide InvalidateReady, CloseDown, Prompt;
    var b := s.bindings[id];
    if b.closeStarted {
      SamePrompt(s, s, id);
    } else {
      var c := b.(closeStarted := true, active := false, items := 0, result := false);
      var t := InvalidateReady(Put(s, id, c), id);
      ListingSame(Put(s, id, c), id);
      var d := t.bindings[id];
      var u := if d.request == Waiting || d.request.Reserved? then Put(t, id, d.(request := Nothing)) else t;
      if b.remoteClosed || b.terminal || down || !queued {
        CloseDownPrompt(s, u, id);
      } else {
        Busy(s, u, id);
      }
    }
  }

  lemma {:induction false} EvictPrompt(s: State, id: nat)
    requires id in s.bindings
    ensures Prompt(s, Evict(s, id), id)
  {
    hide InvalidateReady, PublishTerminal, ReleaseTerminal, Prompt;
    var u := Put(s, id, s.bindings[id].(active := false, items := 0, result := false));
    ListingSame(u, id);
    var t := InvalidateReady(u, id);
    PublishPrompt(s, Put(t, id, t.bindings[id].(request := Nothing)), id);
  }

  lemma {:induction false} ArrivePrompt(s: State, id: nat, external: bool)
    requires id in s.bindings
    ensures Prompt(s, Arrive(s, id, external), id)
  {
    hide SignalBinding, PublishTerminal, Prompt;
    var b := s.bindings[id];
    if b.terminal || b.closeStarted {
      SamePrompt(s, s, id);
    } else {
      var u := Put(s, id, b.(items := b.items + 1));
      ListingSame(u, id);
      var t := SignalBinding(u, id);
      var v := Put(t, id, t.bindings[id].(remoteClosed := true, active := false));
      ListingSame(v, id);
      Busy(s, if external then PublishTerminal(v, id) else t, id);
    }
  }

  lemma {:induction false} EndsPrompt(s: State, op: Op, id: nat)
    requires id in s.bindings && op in {RemoteClose(id), Reject(id), FailSlot(id), CloseAccepted(id)}
    requires op.FailSlot? ==> !s.bindings[id].remoteClosed
    ensures Prompt(s, Step(s, op), id)
  {
    hide CloseDown, PublishTerminal, ReleaseTerminal, Prompt;
    var b := s.bindings[id];
    var u := Put(s, id, b.(active := false, request := Nothing));
    SamePrompt(s, s, id);
    CloseDownPrompt(s, s, id);
    CloseDownPrompt(s, Put(s, id, b.(remoteClosed := true, request := Nothing)), id);
    CloseDownPrompt(s, u, id);
    PublishPrompt(s, u, id);
  }

  lemma {:induction false} TakenPrompt(s: State)
    requires s.ready != [] && s.ready[0] in s.bindings
    ensures Prompt(s, TakeReady(s), s.ready[0])
  {
    hide UnlinkReady, Prompt;
    ListingSame(s.(awake := false), s.ready[0]);
    Busy(s, TakeReady(s), s.ready[0]);
  }

  lemma {:induction false} LeasePrompt(s: State, op: Op, lease: Lease)
    requires op in {TakeReservation(lease), TakeResult(lease), TakeTerminal(lease)} && Valid(s, lease)
    ensures Prompt(s, Step(s, op), lease.binding)
  {
    hide ReleaseTerminal, Prompt;
    var id := lease.binding;
    var b := s.bindings[id];
    SamePrompt(s, s, id);
    match op
    case TakeReservation(_) => if b.request == Reserved(false) { Busy(s, Step(s, op), id); }
    case TakeResult(_) => Releases(s, Put(s, id, b.(result := false)), id);
    case TakeTerminal(_) => Releases(s, Put(s, id, b.(terminalObserved := true)), id);
  }

  lemma {:induction false} TakeEventIs(s: State, lease: Lease)
    requires Valid(s, lease)
    ensures var b := s.bindings[lease.binding];
            Step(s, TakeEvent(lease)) ==
            if b.mode == Blocking then s else PopEvent(Put(s, lease.binding, b.(mode := Token)), lease.binding)
  {
    hide PopEvent;
  }

  lemma {:induction false} TakeEventPrompt(s: State, lease: Lease)
    requires Valid(s, lease)
    ensures Prompt(s, Step(s, TakeEvent(lease)), lease.binding)
  {
    hide ReleaseTerminal, Prompt, Step;
    TakeEventIs(s, lease);
    var id := lease.binding;
    var b := s.bindings[id];
    SamePrompt(s, s, id);
    var t := Put(s, id, b.(mode := Token));
    Busy(s, t, id);
    if b.items > 0 {
      Releases(s, Put(t, id, t.bindings[id].(items := b.items - 1)), id);
    }
  }

  lemma {:induction false} AckPrompt(s: State, lease: Lease)
    requires Valid(s, lease)
    ensures Prompt(s, Acknowledge(s, lease), lease.binding)
  {
    hide ReleaseTerminal, EnqueueReady, HasReason, Prompt;
    var id := lease.binding;
    var t := Put(s, id, s.bindings[id].(leased := false));
    ListingSame(t, id);
    Releases(s, if HasReason(t.bindings[id]) then EnqueueReady(t, id) else t, id);
  }

  lemma {:induction false} FindPrompt(s: State, t: State, id: nat)
    requires SameResidence(s, t, id)
    ensures Prompt(s, FindEvent(t, id), id)
  {
    hide ReleaseTerminal, Prompt;
    var b := t.bindings[id];
    if b.items > 0 {
      Releases(s, Put(t, id, b.(items := b.items - 1)), id);
    } else if b.terminal {
      Releases(s, Put(t, id, b.(terminalObserved := true)), id);
    } else {
      Busy(s, FindEvent(t, id), id);
    }
  }

  lemma {:induction false} BlockPrompt(s: State, id: nat)
    requires id in s.bindings
    ensures Prompt(s, NextEvent(s, id), id)
  {
    hide RefreshReady, FindEvent, Prompt;
    SamePrompt(s, s, id);
    var t := Put(s, id, s.bindings[id].(mode := Blocking));
    ListingSame(t, id);
    FindPrompt(s, EnterBlocking(s, id), id);
  }

  // ---------------------------------------------------------------- every section

  /** The end of a request, after which nobody looks at the binding. */
  predicate EndsRequest(op: Op, id: nat, b: Binding) {
    match op
    case Done(x, accepted, tooLarge, canceled) => x == id && !canceled && b.request == Held && (accepted || !tooLarge || b.closeStarted)
    case Drop(x) => x == id && b.request != Nothing
    case FailSlot(x) => x == id && b.remoteClosed && b.request != Nothing
    case _ => false
  }

  /** The consumer or the close is through with a binding whose last request ends now. */
  predicate Forgets(s: State, op: Op, id: nat) {
    Over(s, id) && s.bindings[id].resident && EndsRequest(op, id, s.bindings[id])
  }

  lemma {:induction false} ConsumerPrompt(s: State, op: Op)
    requires ByConsumer(op) && Subject(s, op) in s.bindings
    ensures Prompt(s, Step(s, op), Subject(s, op))
  {
    hide Prompt, TakeReady, Acknowledge, NextEvent, Valid;
    var id := Subject(s, op);
    SamePrompt(s, s, id);
    match op
    case Receive => SamePrompt(s, Step(s, op), id);
    case Take => TakePrompt(s);
    case TakeReservation(lease) => if Valid(s, lease) { LeasePrompt(s, op, lease); } else { InvalidStays(s, op, lease); }
    case TakeResult(lease) => if Valid(s, lease) { LeasePrompt(s, op, lease); } else { InvalidStays(s, op, lease); }
    case TakeTerminal(lease) => if Valid(s, lease) { LeasePrompt(s, op, lease); } else { InvalidStays(s, op, lease); }
    case TakeEvent(lease) => if Valid(s, lease) { TakeEventPrompt(s, lease); } else { InvalidStays(s, op, lease); }
    case Ack(lease) => if Valid(s, lease) { AckPrompt(s, lease); }
    case Block(_) => BlockPrompt(s, id);
    case Notified(_) => SamePrompt(s, Step(s, op), id);
    case GiveUp(_) => SamePrompt(s, Step(s, op), id);
  }

  lemma {:induction false} InvalidStays(s: State, op: Op, lease: Lease)
    requires op in {TakeReservation(lease), TakeResult(lease), TakeEvent(lease), TakeTerminal(lease)} && !Valid(s, lease)
    ensures Step(s, op) == s
  {}

  lemma {:induction false} TakePrompt(s: State)
    requires Subject(s, Take) in s.bindings
    ensures Prompt(s, TakeReady(s), Subject(s, Take))
  {
    hide Prompt, UnlinkReady;
    if s.ready != [] {
      TakenPrompt(s);
    } else {
      SamePrompt(s, TakeReady(s), Subject(s, Take));
    }
  }

  /** Sections of the manager and the link that do not end a request behind the consumer's back. */
  lemma {:induction false} SectionPrompt(s: State, op: Op)
    requires !ByConsumer(op) && Subject(s, op) in s.bindings && !op.Done? && !op.Drop? && !op.Shutdown?
    requires op.FailSlot? ==> !s.bindings[op.id].remoteClosed
    ensures Prompt(s, Step(s, op), Subject(s, op))
  {
    hide Prompt, SignalBinding, BeginClose, Evict, Arrive, RemoteCloses, Terminalize, SlotFails, CloseDown;
    var id := Subject(s, op);
    SamePrompt(s, s, id);
    match op
    case Bind(_, _) =>
    case Prepare(_, direct) => if Step(s, op) != s { Busy(s, Step(s, op), id); }
    case Promote(_) => PromotePrompt(s, id);
    case Claim(_) => if Step(s, op) != s { Busy(s, Step(s, op), id); }
    case Event(_, external) => ArrivePrompt(s, id, external);
    case Pressure(_) => EvictPrompt(s, id);
    case Close(_, queued, down) => BeginClosePrompt(s, id, queued, down);
    case CloseAccepted(_) => EndsPrompt(s, op, id);
    case RemoteClose(_) => EndsPrompt(s, op, id);
    case Reject(_) => EndsPrompt(s, op, id);
    case FailSlot(_) => EndsPrompt(s, op, id);
  }

  lemma {:induction false} PromotePrompt(s: State, id: nat)
    requires id in s.bindings
    ensures Prompt(s, Step(s, Promote(id)), id)
  {
    hide Prompt, SignalBinding;
    SamePrompt(s, s, id);
    if s.bindings[id].request == Waiting {
      var t := Put(s, id, s.bindings[id].(request := Reserved(false)));
      ListingSame(t, id);
      Busy(s, SignalBinding(t, id), id);
    }
  }

  /** What holds on every run: an end was observed, and a close answered, only after it; and a close answered while
      the binding counts has been observed. */
  predicate Concluded(b: Binding) {
    (b.terminalObserved || b.closeSet ==> b.terminal) && (b.resident && b.closeSet ==> b.terminalObserved)
  }

  /** A request's end, exactly. */
  predicate Exactly(s: State, op: Op, t: State, id: nat) {
    && id in s.bindings && id in t.bindings && t.bindings[id].resident == s.bindings[id].resident
    && (LeftBehind(t, id) <==> LeftBehind(s, id) || Forgets(s, op, id))
  }

  /** What Exactly and LeftBehind look at, with the request and the result as given. */
  predicate Becomes(s: State, t: State, id: nat, request: Pending, result: bool) {
    && id in s.bindings && id in t.bindings
    && var (b, c) := (s.bindings[id], t.bindings[id]);
       && c == b.(request := request, result := result, active := c.active, terminal := c.terminal)
       && (c.terminal <==> b.terminal)
  }

  lemma {:induction false} DoneIs(s: State, id: nat, op: Op)
    requires op.Done? && op.id == id && id in s.bindings
    requires op.canceled || s.bindings[id].request != Held || (op.accepted || !op.tooLarge)
    ensures var (t, b) := (Step(s, op), s.bindings[id]);
            var ends := !op.canceled && b.request == Held;
            var collected := ends && op.accepted && !b.closeStarted && !b.terminal;
            && Becomes(s, t, id, if ends then Nothing else b.request, b.result || collected)
            && (!collected ==> t.ready == s.ready)
  {
    hide Step, SignalBinding, PublishTerminal;
    DoneStep(s, id, op);
    ListingSame(Put(s, id, s.bindings[id].(request := Nothing, result := true)), id);
  }

  lemma {:induction false} DoneStep(s: State, id: nat, op: Op)
    requires op.Done? && op.id == id && id in s.bindings
    ensures Step(s, op) ==
            if op.canceled || s.bindings[id].request == Held then RequestDone(s, id, op.accepted, op.tooLarge, op.canceled) else s
  {
    hide RequestDone;
  }

  lemma {:induction false} DonePlain(s: State, id: nat, op: Op)
    requires op.Done? && op.id == id && id in s.bindings
    requires op.canceled || s.bindings[id].request != Held || (op.accepted || !op.tooLarge)
    ensures Exactly(s, op, Step(s, op), id)
  {
    hide Step;
    DoneIs(s, id, op);
  }

  lemma {:induction false} SignalsExactly(s: State, id: nat)
    requires id in s.bindings
    ensures id in SignalBinding(s, id).ready <==> id in s.ready || (HasReason(s.bindings[id]) && !s.bindings[id].leased)
  {}

  lemma {:induction false} TooLargeIs(s: State, id: nat, op: Op)
    requires op.Done? && op.id == id && id in s.bindings
    requires !op.canceled && s.bindings[id].request == Held && !op.accepted && op.tooLarge
    ensures var b := s.bindings[id];
            Step(s, op) == PublishTerminal(Put(s, id, b.(request := Nothing, result := b.result || !b.closeStarted, active := false)), id)
  {
    hide PublishTerminal;
  }

  /** A request the link will never take: the binding ends, with the refusal as its result unless it is closing. */
  lemma {:induction false} DoneTooLarge(s: State, id: nat, op: Op)
    requires op.Done? && op.id == id && id in s.bindings && Concluded(s.bindings[id])
    requires !op.canceled && s.bindings[id].request == Held && !op.accepted && op.tooLarge
    ensures Exactly(s, op, Step(s, op), id)
  {
    hide Step, SignalBinding, PublishTerminal;
    TooLargeIs(s, id, op);
    var b := s.bindings[id];
    var u := Put(s, id, b.(request := Nothing, result := b.result || !b.closeStarted, active := false));
    ListingSame(u, id);
    PublishesExactly(u, id);
  }

  lemma {:induction false} PublishesExactly(s: State, id: nat)
    requires id in s.bindings
    ensures id in PublishTerminal(s, id).ready <==>
              id in s.ready || (HasReason(s.bindings[id].(terminal := true)) && !s.bindings[id].leased)
  {
    hide SignalBinding, HasReason;
    SignalsExactly(Put(s, id, s.bindings[id].(terminal := true)), id);
  }

  lemma {:induction false} RequestExactly(s: State, op: Op, id: nat)
    requires id in s.bindings && Concluded(s.bindings[id])
    requires op == Drop(id) || (op == FailSlot(id) && s.bindings[id].remoteClosed) || (op.Done? && op.id == id)
    ensures Exactly(s, op, Step(s, op), id)
  {
    hide PublishTerminal, SignalBinding, CloseDown, ReleaseTerminal, RequestDone, Exactly;
    if op.Done? {
      if op.canceled || s.bindings[id].request != Held || op.accepted || !op.tooLarge {
        DonePlain(s, id, op);
      } else {
        DoneTooLarge(s, id, op);
      }
    } else {
      PlainExactly(s, op, id);
    }
  }

  lemma {:induction false} PlainExactly(s: State, op: Op, id: nat)
    requires id in s.bindings && (op == Drop(id) || (op == FailSlot(id) && s.bindings[id].remoteClosed))
    ensures Exactly(s, op, Step(s, op), id)
  {
    hide PublishTerminal, CloseDown, ReleaseTerminal;
  }

  lemma {:induction false} ShutdownReleases(s: State, id: nat)
    requires id in s.bindings
    ensures var t := Step(s, Shutdown(id)); id in t.bindings && !t.bindings[id].resident
  {
    hide ManagerPublishes, InvalidateReady, Step, HasReason, ReleaseTerminal;
    ShutdownIs(s, id);
    if s.bindings[id].resident {
      PublishesHere(s, id);
      var v := Put(ManagerPublishes(s, id), id, ManagerPublishes(s, id).bindings[id].(closeSet := true));
      ListingSame(Put(v, id, v.bindings[id].(terminalObserved := true)), id);
    }
  }

  lemma {:induction false} ShutdownIs(s: State, id: nat)
    requires id in s.bindings
    ensures Step(s, Shutdown(id)) == if s.bindings[id].resident then ManagerCloses(s, id) else s
  {
    hide ManagerCloses;
  }

  lemma {:induction false} PublishesHere(s: State, id: nat)
    requires id in s.bindings
    ensures id in ManagerPublishes(s, id).bindings
  {
    hide InvalidateReady, PublishTerminal;
    var u := Put(s, id, s.bindings[id].(active := false, items := 0, result := false));
    ListingSame(u, id);
    var t := InvalidateReady(u, id);
    ListingSame(Put(t, id, t.bindings[id].(request := Nothing)), id);
  }

  /** The others keep their fields and their places. */
  lemma {:induction false} OthersStay(s: State, op: Op, id: nat)
    requires id in s.bindings && id != Subject(s, op)
    ensures var t := Step(s, op);
            id in t.bindings && t.bindings[id] == s.bindings[id] && (id in t.ready <==> id in s.ready)
  {
    LifeIsFate(s, op);
    if Subject(s, op) !in s.bindings {
      NobodyListed(s, op, id);
    } else {
      hide Step, Fate, Subject;
      var x := Subject(s, op);
      assert Without(Step(s, op).ready, x) == Without(s.ready, x);
    }
  }

  lemma {:induction false} NobodyListed(s: State, op: Op, id: nat)
    requires id != Subject(s, op) && Subject(s, op) !in s.bindings
    ensures Step(s, op).ready == s.ready
  {
    hide Without, Acknowledge, NextEvent, BeginClose, RequestDone, Evict, Arrive, RemoteCloses, Terminalize, SlotFails, ManagerCloses,
         CloseDown, PopEvent, ReleaseTerminal, SignalBinding, HasReason;
  }

  /**
   * After any section a binding that was not left behind is left behind exactly when the section ended the last
   * request of a binding with which its consumer, or its close, was through. And it stops counting against its slot
   * only when nothing is left to do with it, or the manager closes.
   */
  lemma {:induction false} LeftBehindExactly(s: State, op: Op, id: nat)
    requires id in s.bindings && Concluded(s.bindings[id]) && !LeftBehind(s, id)
    ensures var t := Step(s, op);
            && id in t.bindings
            && (LeftBehind(t, id) <==> Forgets(s, op, id))
            && (t.bindings[id].resident ==> s.bindings[id].resident)
            && (s.bindings[id].resident && !t.bindings[id].resident ==> op == Shutdown(id) || Settled(t, id))
  {
    hide Step, Concluded;
    if id != Subject(s, op) {
      OthersStay(s, op, id);
    } else if ByConsumer(op) {
      ConsumerPrompt(s, op);
    } else if op.Shutdown? {
      ShutdownReleases(s, id);
    } else if op.Done? || op.Drop? || (op.FailSlot? && s.bindings[id].remoteClosed) {
      RequestExactly(s, op, id);
    } else {
      SectionPrompt(s, op);
    }
  }

  // ---------------------------------------------------------------- every run

  lemma {:induction false} FateConcludes(b: Binding, op: Op, valid: bool, waits: bool)
    requires Concluded(b) && !op.Shutdown?
    ensures Concluded(Fate(b, op, valid, waits).(resident := b.resident))
  {
    hide Closing, Finished, Passed, Concluded, Fate;
    if op.Done? {
      DoneFate(b, op, valid, waits);
      FinishedConcludes(b, op.accepted, op.tooLarge, op.canceled);
    } else if op.Close? {
      CloseFate(b, op, valid, waits);
      ClosingConcludes(b, op.queued, op.down);
    } else {
      OtherFates(b, op, valid, waits);
    }
  }

  lemma {:induction false} DoneFate(b: Binding, op: Op, valid: bool, waits: bool)
    requires op.Done?
    ensures Fate(b, op, valid, waits) == if op.canceled || b.request == Held then Finished(b, op.accepted, op.tooLarge, op.canceled) else b
  {
    hide Finished;
  }

  lemma {:induction false} CloseFate(b: Binding, op: Op, valid: bool, waits: bool)
    requires op.Close?
    ensures Fate(b, op, valid, waits) == Closing(b, op.queued, op.down)
  {
    hide Closing;
  }

  lemma {:induction false} FinishedConcludes(b: Binding, accepted: bool, tooLarge: bool, canceled: bool)
    requires Concluded(b)
    ensures Concluded(Finished(b, accepted, tooLarge, canceled).(resident := b.resident)) && Concluded(b.(resident := b.resident))
  {}

  lemma {:induction false} ClosingConcludes(b: Binding, queued: bool, down: bool)
    requires Concluded(b)
    ensures Concluded(Closing(b, queued, down).(resident := b.resident))
  {}

  lemma {:induction false} OtherFates(b: Binding, op: Op, valid: bool, waits: bool)
    requires Concluded(b) && !op.Shutdown? && !op.Done? && !op.Close?
    ensures Concluded(Fate(b, op, valid, waits).(resident := b.resident))
  {
    hide Closing, Finished, Concluded, Fate, Passed;
    if ByConsumer(op) {
      ConsumerMarks(b, op, valid, waits);
    } else {
      SectionMarks(b, op, valid, waits);
    }
    Marked(b, Fate(b, op, valid, waits));
  }

  /** The end is new, or observed, or the marks stay. */
  predicate Marks(b: Binding, c: Binding) {
    (c.terminal && c.terminalObserved) || (c.terminalObserved == b.terminalObserved && c.closeSet == b.closeSet && (b.terminal ==> c.terminal))
  }

  lemma {:induction false} Marked(b: Binding, c: Binding)
    requires Concluded(b) && Marks(b, c)
    ensures Concluded(c.(resident := b.resident))
  {}

  lemma {:induction false} ConsumerMarks(b: Binding, op: Op, valid: bool, waits: bool)
    requires ByConsumer(op)
    ensures Marks(b, Fate(b, op, valid, waits))
  {
    hide Marks, Fate;
    if op.Block? {
      BlockFate(b, op, valid, waits);
      PassedMarks(b);
      PlainMarks(b, b);
    } else {
      LeaseFate(b, op, valid, waits);
    }
  }

  lemma {:induction false} BlockFate(b: Binding, op: Op, valid: bool, waits: bool)
    requires op.Block?
    ensures Fate(b, op, valid, waits) in {b, Passed(b)}
  {
    hide Passed;
  }

  lemma {:induction false} LeaseFate(b: Binding, op: Op, valid: bool, waits: bool)
    requires ByConsumer(op) && !op.Block?
    ensures Marks(b, Fate(b, op, valid, waits))
  {
    hide Passed, Closing, Finished, Ended, ClosedDown, Discarded;
  }

  lemma {:induction false} PassedMarks(b: Binding)
    ensures Marks(b, Passed(b))
  {}

  lemma {:induction false} PlainMarks(b: Binding, c: Binding)
    requires c == b.(request := c.request, result := c.result, mode := c.mode, items := c.items)
    ensures Marks(b, c)
    ensures b.terminal ==> Marks(b, b.(terminalObserved := true))
  {}

  lemma {:induction false} SectionMarks(b: Binding, op: Op, valid: bool, waits: bool)
    requires !ByConsumer(op) && !op.Shutdown? && !op.Done? && !op.Close?
    ensures Marks(b, Fate(b, op, valid, waits))
  {}

  predicate AllConcluded(s: State) {
    forall id | id in s.bindings :: Concluded(s.bindings[id])
  }

  /** A binding that does not count any more never counts again. */
  lemma {:induction false} StaysReleased(s: State, op: Op, id: nat)
    requires id in s.bindings && Concluded(s.bindings[id])
    ensures id in Step(s, op).bindings && (Step(s, op).bindings[id].resident ==> s.bindings[id].resident)
  {
    hide Step, Concluded;
    if id != Subject(s, op) {
      OthersStay(s, op, id);
    } else if ByConsumer(op) {
      ConsumerPrompt(s, op);
    } else if op.Shutdown? {
      ShutdownReleases(s, id);
    } else if op.Done? || op.Drop? || (op.FailSlot? && s.bindings[id].remoteClosed) {
      RequestExactly(s, op, id);
    } else {
      SectionPrompt(s, op);
    }
  }

  lemma {:induction false} StepConcludes(s: State, op: Op)
    requires AllConcluded(s)
    ensures AllConcluded(Step(s, op))
  {
    hide Step, Concluded, Fate;
    var t := Step(s, op);
    LifeIsFate(s, op);
    forall id | id in t.bindings ensures Concluded(t.bindings[id]) {
      if id in s.bindings {
        OneConcludes(s, op, id);
      } else {
        NewConcluded(s, op, id);
      }
    }
  }

  lemma {:induction false} NewConcluded(s: State, op: Op, id: nat)
    requires id !in s.bindings && id in Step(s, op).bindings
    ensures Concluded(Step(s, op).bindings[id])
  {
    hide Fate, Step;
    LifeIsFate(s, op);
  }

  lemma {:induction false} OneConcludes(s: State, op: Op, id: nat)
    requires id in s.bindings && Concluded(s.bindings[id])
    ensures id in Step(s, op).bindings && Concluded(Step(s, op).bindings[id])
  {
    hide Step, Fate;
    var t := Step(s, op);
    StaysReleased(s, op, id);
    if id != Subject(s, op) {
      OthersStay(s, op, id);
    } else {
      LifeIsFate(s, op);
      var b := s.bindings[id];
      var valid := LeaseOf(op).Some? && Valid(s, LeaseOf(op).value);
      if op.Shutdown? {
        ShutdownReleases(s, id);
        ShutdownConcludes(b, op, valid, id in s.parked);
      } else {
        FateConcludes(b, op, valid, id in s.parked);
      }
    }
  }

  lemma {:induction false} ShutdownConcludes(b: Binding, op: Op, valid: bool, waits: bool)
    requires op.Shutdown? && Concluded(b)
    ensures Concluded(Fate(b, op, valid, waits).(resident := false))
  {}

  lemma {:induction false} RunConcludes(s: State, ops: seq<Op>)
    requires AllConcluded(s)
    ensures AllConcluded(Run(s, ops))
    decreases |ops|
  {
    hide AllConcluded, Step;
    if ops != [] {
      StepConcludes(s, ops[0]);
      RunConcludes(Step(s, ops[0]), ops[1..]);
    }
  }

  /**
   * On every run, whatever comes next: a binding is left behind exactly by the end of the last request of a binding
   * with which its consumer, or its close, was through; otherwise it is released in the very section that leaves
   * nothing to do with it, and never before.
   */
  lemma {:induction false} ReleasedInTime(ops: seq<Op>, op: Op, id: nat)
    requires id in Run(START, ops).bindings && !LeftBehind(Run(START, ops), id)
    ensures var (s, t) := (Run(START, ops), Step(Run(START, ops), op));
            && id in t.bindings
            && (LeftBehind(t, id) <==> Forgets(s, op, id))
            && (s.bindings[id].resident && !t.bindings[id].resident ==> op == Shutdown(id) || Settled(t, id))
  {
    hide Run, Step, LeftBehind, Forgets, Settled, Concluded;
    RunConcludes(START, ops);
    LeftBehindExactly(Run(START, ops), op, id);
  }

  /** A binding whose close finds no room in the control queue while its request is on its way to the link. */
  const FORGETTING := [Bind(1, true), Prepare(1, true), Close(1, false, false), Done(1, true, false, false)]

  function Forgotten(n: nat): State {
    var b := NewBinding(Token);
    START.(bindings := if n == 0 then map[]
                       else map[1 := if n == 1 then b else if n == 2 then b.(request := Held)
                                     else b.(request := if n == 3 then Held else Nothing, active := false, closeStarted := true,
                                             terminal := true, terminalObserved := true, closeSet := true)],
           notified := if n < 3 then {} else {1},
           ready := [], signal := n >= 3)
  }

  lemma {:induction false} Forgets1(n: nat)
    requires n < 4
    ensures Step(Forgotten(n), FORGETTING[n]) == Forgotten(n + 1)
  {
    hide Step;
    var (s, u) := (Forgotten(n), Forgotten(n + 1));
    if n == 0 {
      BindStep(s);
      assert Put(s, 1, NewBinding(Token)).bindings == u.bindings;
    } else if n == 1 {
      PrepareStep(s);
      assert Put(s, 1, s.bindings[1].(request := Held)).bindings == u.bindings;
    } else if n == 2 {
      CloseStep(s);
      ClosesForgotten();
    } else {
      DoneStep(s, 1, FORGETTING[3]);
      assert Put(s, 1, s.bindings[1].(request := Nothing)).bindings == u.bindings;
    }
  }

  lemma {:induction false} BindStep(s: State)
    requires 1 !in s.bindings
    ensures Step(s, Bind(1, true)) == Put(s, 1, NewBinding(Token))
  {}

  lemma {:induction false} PrepareStep(s: State)
    requires 1 in s.bindings && s.bindings[1].active && s.bindings[1].request == Nothing && !s.bindings[1].result
    ensures Step(s, Prepare(1, true)) == Put(s, 1, s.bindings[1].(request := Held))
  {}

  lemma {:induction false} CloseStep(s: State)
    requires 1 in s.bindings
    ensures Step(s, Close(1, false, false)) == BeginClose(s, 1, false, false)
  {
    hide BeginClose;
  }

  lemma {:induction false} ClosesForgotten()
    ensures BeginClose(Forgotten(2), 1, false, false) == Forgotten(3)
  {
    var none: seq<nat> := [];
    assert none + [1] == [1] && Without([1], 1) == [] && Without(none, 1) == [];
    var (t, u) := (BeginClose(Forgotten(2), 1, false, false), Forgotten(3));
    assert t.bindings == u.bindings && t.notified == u.notified && t.ready == u.ready;
  }

  lemma {:induction false} ForgettingRuns()
    ensures Run(START, FORGETTING) == Forgotten(4)
  {
    hide Step, Forgotten;
    assert START == Forgotten(0) by { StartsForgotten(); }
    Forgets1(0); Forgets1(1); Forgets1(2); Forgets1(3);
    RunsFour(START, FORGETTING[0], FORGETTING[1], FORGETTING[2], FORGETTING[3]);
  }

  lemma {:induction false} StartsForgotten()
    ensures START == Forgotten(0)
  {}

  lemma {:induction false} RunsFour(s: State, a: Op, b: Op, c: Op, d: Op)
    ensures Run(s, [a, b, c, d]) == Step(Step(Step(Step(s, a), b), c), d)
  {
    hide Step;
    assert [a, b, c, d] == [a] + [b, c, d] && [b, c, d] == [b] + [c, d] && [c, d] == [c] + [d] && [d] == [d] + [];
    RunsOn(s, a, [b, c, d]);
    RunsOn(Step(s, a), b, [c, d]);
    RunsOn(Step(Step(s, a), b), c, [d]);
    RunsOn(Step(Step(Step(s, a), b), c), d, []);
  }

  lemma {:induction false} RunsOn(s: State, op: Op, more: seq<Op>)
    ensures Run(s, [op] + more) == Run(Step(s, op), more)
  {
    hide Step;
    assert ([op] + more)[1..] == more;
  }

  /** What can still reach a binding that a token consumer was through with: a refusal, its slot's failure, the end of the manager. */
  predicate Reaches(op: Op, id: nat) {
    op in {Reject(id), FailSlot(id), Shutdown(id), CloseAccepted(id)}
  }

  /**
   * It does happen: a close that finds no room in the control queue while the binding's request is on its way to the
   * link leaves the binding behind once the link takes the request. And so it stays, whatever its consumer does.
   */
  lemma {:induction false} CloseCanLeaveBehind(op: Op)
    ensures LeftBehind(Run(START, FORGETTING), 1)
    ensures !Reaches(op, 1) ==> LeftBehind(Step(Run(START, FORGETTING), op), 1)
  {
    hide Step, Run;
    ForgettingRuns();
    LeftForGood(Forgotten(4), op, 1);
  }

  /** A binding of a token consumer that was left behind stays so until one of these reaches it. */
  lemma {:induction false} LeftForGood(s: State, op: Op, id: nat)
    requires LeftBehind(s, id) && s.bindings[id].mode == Token && !s.bindings[id].active && s.bindings[id].closeStarted
    ensures !Reaches(op, id) ==>
              var t := Step(s, op);
              LeftBehind(t, id) && t.bindings[id].mode == Token && !t.bindings[id].active && t.bindings[id].closeStarted
  {
    if id != Subject(s, op) {
      hide Step;
      OthersStay(s, op, id);
    } else if !Reaches(op, id) {
      hide SignalBinding, ReleaseTerminal, CloseDown, Evict, Terminalize, SlotFails, ManagerCloses, PublishTerminal, FindEvent, EnterBlocking, InvalidateReady;
    }
  }

  // ---------------------------------------------------------------- waiting

  /** A blocking consumer waits exactly when it finds neither a response nor the end. */
  lemma {:induction false} BlocksExactly(s: State, id: nat)
    requires id in s.bindings && id !in s.parked && s.bindings[id].mode != Token
    ensures var (b, t) := (s.bindings[id], Step(s, Block(id)));
            t.parked == if b.items == 0 && !b.terminal then s.parked + {id} else s.parked
  {
    hide Without, HasReason, ReleaseTerminal, RefreshReady;
    var t := Put(s, id, s.bindings[id].(mode := Blocking));
    ListingSame(t, id);
    KeepsParked(t, id);
    var u := EnterBlocking(s, id);
    assert u.parked == s.parked && u.bindings[id].items == s.bindings[id].items && u.bindings[id].terminal == s.bindings[id].terminal;
    KeepsParked(Put(u, id, u.bindings[id].(items := if u.bindings[id].items > 0 then u.bindings[id].items - 1 else 0)), id);
    KeepsParked(Put(u, id, u.bindings[id].(terminalObserved := true)), id);
  }

  /** A notified consumer goes on, and its notification is used up. */
  lemma {:induction false} WakesExactly(s: State, id: nat)
    ensures var t := Step(s, Notified(id));
            if id in s.parked && id in s.notified then t.parked == s.parked - {id} && t.notified == s.notified - {id}
            else t == s
  {}

  lemma {:induction false} KeepsParked(s: State, id: nat)
    requires id in s.bindings
    ensures ReleaseTerminal(s, id).parked == s.parked && RefreshReady(s, id).parked == s.parked
  {
    hide Without, HasReason;
  }
}
