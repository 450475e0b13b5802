/**
 * What readiness amounts to, spelled out by the fields of a binding: which reasons are listed, what is announced, and
 * that listing and leasing never change what becomes of a binding.
 */
module ReadinessLaws {
  import opened Bytes
  import opened Readiness

  // ---------------------------------------------------------------- every reason is listed

  /** Binding `id` is in the ready list or its consumer holds a lease of it. */
  predicate Attended(s: State, id: nat) {
    id in s.bindings && (id in s.ready || s.bindings[id].leased)
  }

  /**
   * On every run each of the four reasons has its binding attended: a retained event and an unobserved end unless the
   * consumer blocks, an uncollected result, and a reservation not yet handed over. Never is a binding both listed and
   * leased, and a list that is not empty is announced, or about to be looked at.
   */
  lemma {:induction false} ReasonsAttended(ops: seq<Op>, id: nat)
    requires id in Run(START, ops).bindings
    ensures var s := Run(START, ops);
            var b := s.bindings[id];
            && (b.items > 0 && b.mode != Blocking ==> Attended(s, id))
            && (b.terminal && !b.terminalObserved && b.mode != Blocking ==> Attended(s, id))
            && (b.result ==> Attended(s, id))
            && (b.request.Reserved? && !b.request.handed ==> Attended(s, id))
            && !(id in s.ready && b.leased)
            && (s.ready != [] ==> s.signal || s.awake)
  {
    hide Run, Step;
    RunSound(ops);
  }

  /** A waiting request that is promoted has its reservation listed, and the list announced, or its binding is leased. */
  lemma {:induction false} PromotionAnnounced(ops: seq<Op>, id: nat)
    requires var s := Run(START, ops); id in s.bindings && s.bindings[id].request == Waiting
    ensures var t := Step(Run(START, ops), Promote(id));
            && id in t.bindings && t.bindings[id].request == Reserved(false) && Attended(t, id)
            && (id in t.ready ==> t.signal || t.awake)
  {
    hide Run, Sound, SignalBinding;
    RunSound(ops);
    var s := Run(START, ops);
    StepSound(s, Promote(id));
    SignalLists(Put(s, id, s.bindings[id].(request := Reserved(false))), id);
    SoundIsBut(Step(s, Promote(id)), id);
  }

  /** Those four and nothing else. */
  predicate Reason(b: Binding) {
    || (b.items > 0 && b.mode != Blocking)
    || (b.terminal && !b.terminalObserved && b.mode != Blocking)
    || b.result
    || (b.request.Reserved? && !b.request.handed)
  }

  // ---------------------------------------------------------------- edits of one binding

  /** The others keep their places in the ready list; `id` keeps its own, leaves, or goes to the end. */
  predicate Queues(s: State, t: State, id: nat) {
    && Without(t.ready, id) == Without(s.ready, id)
    && (id in t.ready ==> t.ready == s.ready || t.ready[|t.ready| - 1] == id)
  }

  /**
   * Binding `id` becomes b, but for its leases and whether its slot still counts it; the others stay as they are, and
   * where they are in the ready list.
   */
  predicate Made(s: State, t: State, id: nat, b: Binding) {
    && Queues(s, t, id)
    && id in s.bindings && id in t.bindings
    && t.bindings[id] == b.(leased := t.bindings[id].leased, epoch := t.bindings[id].epoch, resident := t.bindings[id].resident)
    && (forall x | x in s.bindings && x != id :: x in t.bindings && t.bindings[x] == s.bindings[x])
    && (forall x | x in t.bindings :: x in s.bindings)
  }

  lemma {:induction false} MadeThen(s: State, t: State, u: State, id: nat, a: Binding, b: Binding)
    requires Made(s, t, id, a) && Made(t, u, id, b)
    ensures Made(s, u, id, b)
  {}

  /** An edit that does not look at the fields Made leaves open. */
  lemma {:induction false} MadeAt(s: State, t: State, id: nat, b: Binding)
    requires Made(s, t, id, b)
    ensures id in t.bindings && t.bindings[id] == b.(leased := t.bindings[id].leased, epoch := t.bindings[id].epoch, resident := t.bindings[id].resident)
  {}

  lemma {:induction false} MadeAlike(s: State, t: State, id: nat, a: Binding, b: Binding)
    requires Made(s, t, id, a) && b == a.(leased := b.leased, epoch := b.epoch, resident := b.resident)
    ensures Made(s, t, id, b)
  {}

  lemma {:induction false} PutMade(s: State, id: nat, b: Binding)
    requires id in s.bindings
    ensures Made(s, Put(s, id, b), id, b)
  {}

  lemma {:induction false} SameMade(s: State, t: State, id: nat)
    requires id in s.bindings && t.bindings == s.bindings && (t.ready == s.ready || Queues(s, t, id))
    ensures Made(s, t, id, s.bindings[id])
  {}

  lemma {:induction false} SameQueue(s: State, t: State, id: nat)
    requires t.ready == s.ready
    ensures Queues(s, t, id)
  {}

  lemma {:induction false} WithoutLast(ready: seq<nat>, id: nat)
    ensures Without(ready + [id], id) == Without(ready, id)
  {
    if ready == [] {
      assert ([id])[1..] == [];
    } else {
      assert (ready + [id])[1..] == ready[1..] + [id];
      WithoutLast(ready[1..], id);
    }
  }

  lemma {:induction false} WithoutTwice(ready: seq<nat>, id: nat)
    ensures Without(Without(ready, id), id) == Without(ready, id)
  {
    if ready != [] {
      WithoutTwice(ready[1..], id);
      if ready[0] != id {
        assert Without(ready, id)[1..] == Without(ready[1..], id);
      }
    }
  }

  lemma {:induction false} ListQueues(s: State, id: nat)
    requires id in s.bindings
    ensures Queues(s, EnqueueReady(s, id), id) && Queues(s, SignalBinding(s, id), id)
  {
    hide Without, HasReason;
    WithoutLast(s.ready, id);
  }

  lemma {:induction false} UnlistQueues(s: State, id: nat)
    ensures Queues(s, UnlinkReady(s, id), id)
  {
    hide NoDuplicates;
    WithoutTwice(s.ready, id);
    assert id !in UnlinkReady(s, id).ready;
  }

  lemma {:induction false} QueuesThen(s: State, t: State, u: State, id: nat)
    requires Queues(s, t, id) && Queues(t, u, id)
    ensures Queues(s, u, id)
  {
    hide Without;
  }

  lemma {:induction false} RefreshQueues(s: State, id: nat)
    requires id in s.bindings
    ensures Queues(s, RefreshReady(s, id), id)
  {
    hide Queues, EnqueueReady, UnlinkReady;
    SameQueue(s, s, id);
    if !s.bindings[id].leased {
      UnlistQueues(s, id);
      UnlinkLists(s, id);
      ListQueues(UnlinkReady(s, id), id);
      QueuesThen(s, UnlinkReady(s, id), RefreshReady(s, id), id);
    }
  }

  lemma {:induction false} SignalMade(s: State, id: nat)
    requires id in s.bindings
    ensures Made(s, SignalBinding(s, id), id, s.bindings[id]) && Made(s, RefreshReady(s, id), id, s.bindings[id])
    ensures Made(s, EnqueueReady(s, id), id, s.bindings[id])
  {
    hide Made, Queues, SignalBinding, RefreshReady, EnqueueReady;
    SignalLists(s, id);
    ListQueues(s, id);
    RefreshQueues(s, id);
    SameMade(s, SignalBinding(s, id), id);
    SameMade(s, RefreshReady(s, id), id);
    SameMade(s, EnqueueReady(s, id), id);
  }

  lemma {:induction false} TerminalMade(s: State, id: nat)
    requires id in s.bindings
    ensures Made(s, PublishTerminal(s, id), id, s.bindings[id].(terminal := true))
  {
    hide Made, Queues, SignalBinding;
    var b := s.bindings[id].(terminal := true);
    PutMade(s, id, b);
    SignalMade(Put(s, id, b), id);
    MadeThen(s, Put(s, id, b), PublishTerminal(s, id), id, b, b);
  }

  lemma {:induction false} WithdrawMade(s: State, id: nat)
    requires id in s.bindings
    ensures Made(s, InvalidateReady(s, id), id, s.bindings[id]) && Made(s, ReleaseTerminal(s, id), id, s.bindings[id])
  {
    hide Made, Queues, UnlinkReady;
    var b := s.bindings[id];
    UnlinkLists(s, id);
    UnlistQueues(s, id);
    var t := UnlinkReady(s, id);
    SameMade(s, t, id);
    PutMade(t, id, b.(leased := false));
    MadeThen(s, t, InvalidateReady(s, id), id, b, b.(leased := false));
    MadeAlike(s, InvalidateReady(s, id), id, b.(leased := false), b);
    SameMade(s, s, id);
    PutMade(s, id, b.(resident := false));
    MadeAlike(s, Put(s, id, b.(resident := false)), id, b.(resident := false), b);
  }

  // ---------------------------------------------------------------- the list

  /** The list gains at most `id`, and that for a reason. */
  predicate Lists(s: State, t: State, id: nat) {
    forall x | x in t.ready :: x in s.ready || (x == id && x in t.bindings && Reason(t.bindings[x]))
  }

  lemma {:induction false} SignalLists(s: State, id: nat)
    requires id in s.bindings
    ensures Lists(s, SignalBinding(s, id), id) && SignalBinding(s, id).bindings == s.bindings
    ensures Lists(s, RefreshReady(s, id), id) && RefreshReady(s, id).bindings == s.bindings
    ensures Lists(s, EnqueueReady(s, id), id) && EnqueueReady(s, id).bindings == s.bindings
  {}

  lemma {:induction false} TerminalLists(s: State, id: nat)
    requires id in s.bindings
    ensures Lists(s, PublishTerminal(s, id), id)
    ensures PublishTerminal(s, id).bindings == s.bindings[id := s.bindings[id].(terminal := true)]
  {
    hide SignalBinding;
    SignalLists(Put(s, id, s.bindings[id].(terminal := true)), id);
  }

  lemma {:induction false} InvalidateLists(s: State, id: nat)
    requires id in s.bindings
    ensures forall x | x in InvalidateReady(s, id).ready :: x in s.ready && x != id
    ensures InvalidateReady(s, id).bindings == s.bindings[id := s.bindings[id].(leased := false)]
  {
    hide UnlinkReady;
    UnlinkLists(s, id);
  }

  lemma {:induction false} UnlinkLists(s: State, id: nat)
    ensures forall x | x in UnlinkReady(s, id).ready :: x in s.ready && x != id
    ensures UnlinkReady(s, id).bindings == s.bindings
  {
    hide NoDuplicates;
  }

  lemma {:induction false} ReleaseLists(s: State, id: nat)
    requires id in s.bindings
    ensures var t := ReleaseTerminal(s, id);
            && t.ready == s.ready && id in t.bindings
            && t.bindings == s.bindings[id := s.bindings[id].(resident := t.bindings[id].resident)]
  {
    assert s.bindings == s.bindings[id := s.bindings[id]];
  }

  lemma {:induction false} CloseDownLists(s: State, id: nat)
    requires id in s.bindings
    ensures forall x | x in CloseDown(s, id).ready :: x in s.ready
    ensures Made(s, CloseDown(s, id), id, s.bindings[id].(terminal := true, closeSet := true, terminalObserved := true))
  {
    hide PublishTerminal, InvalidateReady, ReleaseTerminal, Lists, Made;
    var b := s.bindings[id].(terminal := true, closeSet := true, terminalObserved := true);
    var t := PublishTerminal(s, id);
    TerminalLists(s, id);
    TerminalMade(s, id);
    var u := Put(t, id, t.bindings[id].(closeSet := true, terminalObserved := true));
    PutMade(t, id, u.bindings[id]);
    MadeThen(s, t, u, id, s.bindings[id].(terminal := true), u.bindings[id]);
    MadeAlike(s, u, id, u.bindings[id], b);
    var v := InvalidateReady(u, id);
    InvalidateLists(u, id);
    WithdrawMade(u, id);
    MadeThen(s, u, v, id, b, u.bindings[id]);
    MadeAlike(s, v, id, u.bindings[id], b);
    MadeAt(s, v, id, b);
    ReleaseLists(v, id);
    WithdrawMade(v, id);
    MadeThen(s, v, ReleaseTerminal(v, id), id, b, v.bindings[id]);
    MadeAlike(s, ReleaseTerminal(v, id), id, v.bindings[id], b);
    OnlyItself(s, t, v, id);
  }

  lemma {:induction false} OnlyItself(s: State, t: State, v: State, id: nat)
    requires Lists(s, t, id) && forall x | x in v.ready :: x in t.ready && x != id
    ensures forall x | x in v.ready :: x in s.ready
  {}

  lemma {:induction false} BeginCloseLists(s: State, id: nat, queued: bool, down: bool)
    requires id in s.bindings
    ensures forall x | x in BeginClose(s, id, queued, down).ready :: x in s.ready
  {
    hide InvalidateReady, CloseDown;
    var b := s.bindings[id];
    var c := b.(closeStarted := true, active := false, items := 0, result := false);
    InvalidateLists(Put(s, id, c), id);
    var t := InvalidateReady(Put(s, id, c), id);
    CloseDownLists(t, id);
    CloseDownLists(Put(t, id, t.bindings[id].(request := Nothing)), id);
  }

  /** After any edit of the binding that leaves the list alone. */
  lemma {:induction false} PublishLists(s: State, b: Binding, id: nat)
    requires id in s.bindings
    ensures var t := PublishTerminal(Put(s, id, b), id);
            Lists(s, t, id) && id in t.bindings && Lists(s, ReleaseTerminal(t, id), id)
    ensures Lists(s, CloseDown(Put(s, id, b), id), id) && Lists(s, SignalBinding(Put(s, id, b), id), id)
  {
    hide PublishTerminal, ReleaseTerminal, CloseDown, SignalBinding;
    TerminalLists(Put(s, id, b), id);
    ReleaseLists(PublishTerminal(Put(s, id, b), id), id);
    CloseDownLists(Put(s, id, b), id);
    SignalLists(Put(s, id, b), id);
  }

  lemma {:induction false} EvictLists(s: State, id: nat)
    requires id in s.bindings
    ensures Lists(s, Evict(s, id), id) && Lists(s, ManagerPublishes(s, id), id)
    ensures id in ManagerPublishes(s, id).bindings && !ManagerPublishes(s, id).bindings[id].leased
  {
    hide PublishTerminal, ReleaseTerminal, InvalidateReady;
    var b := s.bindings[id].(active := false, items := 0, result := false);
    InvalidateLists(Put(s, id, b), id);
    var t := InvalidateReady(Put(s, id, b), id);
    PublishLists(t, t.bindings[id].(request := Nothing), id);
    TerminalLists(Put(t, id, t.bindings[id].(request := Nothing)), id);
  }

  lemma {:induction false} ManagerLists(s: State, id: nat)
    requires id in s.bindings
    ensures Lists(s, ManagerCloses(s, id), id)
  {
    hide ManagerPublishes, InvalidateReady;
    EvictLists(s, id);
    var u := ManagerPublishes(s, id);
    var v := Put(u, id, u.bindings[id].(closeSet := true));
    InvalidateLists(Put(v, id, v.bindings[id].(terminalObserved := true)), id);
  }

  lemma {:induction false} ClosingLists(s: State, id: nat)
    requires id in s.bindings
    ensures Lists(s, RemoteCloses(s, id), id) && Lists(s, Terminalize(s, id), id) && Lists(s, SlotFails(s, id), id)
    ensures Lists(s, CloseDown(s, id), id)
  {
    hide PublishTerminal, ReleaseTerminal, CloseDown;
    var b := s.bindings[id];
    PublishLists(s, b.(remoteClosed := true, request := Nothing), id);
    PublishLists(s, b.(active := false, request := Nothing), id);
    CloseDownLists(s, id);
  }

  lemma {:induction false} ArriveLists(s: State, id: nat, external: bool)
    requires id in s.bindings
    ensures Lists(s, Arrive(s, id, external), id)
  {
    hide PublishTerminal, SignalBinding;
    var b := s.bindings[id].(items := s.bindings[id].items + 1);
    SignalLists(Put(s, id, b), id);
    var t := SignalBinding(Put(s, id, b), id);
    TerminalLists(Put(t, id, t.bindings[id].(remoteClosed := true, active := false)), id);
  }

  lemma {:induction false} RequestLists(s: State, id: nat, accepted: bool, tooLarge: bool, canceled: bool)
    requires id in s.bindings
    ensures Lists(s, RequestDone(s, id, accepted, tooLarge, canceled), id)
  {
    hide PublishTerminal, SignalBinding;
    var b := s.bindings[id];
    var c := if !canceled then b.(request := Nothing) else b;
    PublishLists(s, c.(result := true), id);
    PublishLists(s, c.(result := c.result || (!canceled && !b.closeStarted), active := false), id);
  }

  lemma {:induction false} AcknowledgeLists(s: State, lease: Lease)
    requires Valid(s, lease)
    ensures Lists(s, Acknowledge(s, lease), lease.binding)
  {
    hide ReleaseTerminal, EnqueueReady;
    var id := lease.binding;
    var t := Put(s, id, s.bindings[id].(leased := false));
    SignalLists(t, id);
    ReleaseLists(if HasReason(t.bindings[id]) then EnqueueReady(t, id) else t, id);
  }

  lemma {:induction false} EnterLists(s: State, id: nat)
    requires id in s.bindings && s.bindings[id].mode != Token
    ensures var b := s.bindings[id].(mode := Blocking);
            var t := EnterBlocking(s, id);
            && t.bindings == s.bindings[id := b]
            && forall x | x in t.ready :: x in s.ready || (x == id && (b.result || b.request == Reserved(false)))
  {
    hide RefreshReady;
    SignalLists(Put(s, id, s.bindings[id].(mode := Blocking)), id);
    Unchanged(s, id);
  }

  lemma {:induction false} Unchanged(s: State, id: nat)
    requires id in s.bindings
    ensures s.bindings[id := s.bindings[id]] == s.bindings
  {}

  /** What the blocking consumer's pass makes of its binding. */
  function Passed(b: Binding): Binding {
    if b.items > 0 then b.(mode := Blocking, items := b.items - 1)
    else if b.terminal then b.(mode := Blocking, terminalObserved := true)
    else b.(mode := Blocking)
  }

  lemma {:induction false} FindLists(s: State, id: nat)
    requires id in s.bindings && s.bindings[id].mode == Blocking
    ensures FindEvent(s, id).ready == s.ready && Made(s, FindEvent(s, id), id, Passed(s.bindings[id]))
  {
    hide ReleaseTerminal, Made;
    var b := s.bindings[id];
    var c := Passed(b);
    if b.items > 0 || b.terminal {
      var t := Put(s, id, c);
      PutMade(s, id, c);
      ReleaseLists(t, id);
      WithdrawMade(t, id);
      MadeThen(s, t, ReleaseTerminal(t, id), id, c, c);
    } else {
      SameMade(s, FindEvent(s, id), id);
    }
  }

  /** Once it blocks, a binding is listed for a result or a reservation, which waiting for events leaves alone. */
  lemma {:induction false} NextEventLists(s: State, id: nat)
    requires id in s.bindings
    ensures Lists(s, NextEvent(s, id), id)
    ensures s.bindings[id].mode != Token ==> Made(s, NextEvent(s, id), id, Passed(s.bindings[id]))
  {
    hide EnterBlocking, FindEvent, Made, Lists, Passed;
    if s.bindings[id].mode == Token {
      SameLists(s, id);
    } else {
      EnterLists(s, id);
      EnterQueues(s, id);
      var t := EnterBlocking(s, id);
      var b := s.bindings[id].(mode := Blocking);
      assert id in t.bindings && t.bindings[id] == b;
      assert NextEvent(s, id) == FindEvent(t, id);
      hide NextEvent;
      FindLists(t, id);
      EnterMade(s, t, id, b);
      PassedIs(s.bindings[id]);
      MadeThen(s, t, FindEvent(t, id), id, b, Passed(b));
      MadeAt(s, FindEvent(t, id), id, Passed(b));
      StillListed(s, t, FindEvent(t, id), id, b);
    }
  }

  lemma {:induction false} EnterQueues(s: State, id: nat)
    requires id in s.bindings
    ensures Queues(s, EnterBlocking(s, id), id)
  {
    hide Queues, RefreshReady;
    var t := Put(s, id, s.bindings[id].(mode := Blocking));
    SameQueue(s, s, id);
    if s.bindings[id].mode == Unset {
      SameQueue(s, t, id);
      RefreshQueues(t, id);
      QueuesThen(s, t, RefreshReady(t, id), id);
    }
  }

  lemma {:induction false} EnterMade(s: State, t: State, id: nat, b: Binding)
    requires id in s.bindings && t.bindings == s.bindings[id := b] && Queues(s, t, id)
    ensures Made(s, t, id, b)
  {}

  lemma {:induction false} PassedIs(b: Binding)
    ensures Passed(b.(mode := Blocking)) == Passed(b)
    ensures Passed(b).result == b.result && Passed(b).request == b.request
  {
    if b.items > 0 {
      assert Passed(b.(mode := Blocking)) == b.(mode := Blocking, items := b.items - 1);
    } else if b.terminal {
      assert Passed(b.(mode := Blocking)) == b.(mode := Blocking, terminalObserved := true);
    } else {
      assert Passed(b.(mode := Blocking)) == b.(mode := Blocking);
    }
  }

  lemma {:induction false} StillListed(s: State, t: State, u: State, id: nat, b: Binding)
    requires forall x | x in t.ready :: x in s.ready || (x == id && (b.result || b.request == Reserved(false)))
    requires u.ready == t.ready && id in u.bindings && u.bindings[id].result == b.result && u.bindings[id].request == b.request
    ensures Lists(s, u, id)
  {}

  lemma {:induction false} SameLists(s: State, id: nat)
    ensures Lists(s, s, id)
  {}

  lemma {:induction false} TakeLists(s: State, op: Op, lease: Lease)
    requires Valid(s, lease)
    requires op in {TakeReservation(lease), TakeResult(lease), TakeEvent(lease), TakeTerminal(lease)}
    ensures Step(s, op).ready == s.ready
  {
    hide ReleaseTerminal;
    var (id, b) := (lease.binding, s.bindings[lease.binding]);
    ReleaseLists(Put(s, id, b.(result := false)), id);
    ReleaseLists(Put(s, id, b.(terminalObserved := true)), id);
    ReleaseLists(Put(Put(s, id, b.(mode := Token)), id, b.(mode := Token, items := if b.items == 0 then 0 else b.items - 1)), id);
  }

  /** The binding a section is about. */
  function Subject(s: State, op: Op): nat {
    match op
    case Bind(id, _) => id
    case Receive => 0
    case Take => if s.ready == [] then 0 else s.ready[0]
    case TakeReservation(lease) => lease.binding
    case TakeResult(lease) => lease.binding
    case TakeEvent(lease) => lease.binding
    case TakeTerminal(lease) => lease.binding
    case Ack(lease) => lease.binding
    case Prepare(id, _) => id
    case Promote(id) => id
    case Claim(id) => id
    case Drop(id) => id
    case Done(id, _, _, _) => id
    case Event(id, _) => id
    case Pressure(id) => id
    case Block(id) => id
    case Notified(id) => id
    case GiveUp(id) => id
    case Close(id, _, _) => id
    case CloseAccepted(id) => id
    case RemoteClose(id) => id
    case Reject(id) => id
    case FailSlot(id) => id
    case Shutdown(id) => id
  }

  function LeaseOf(op: Op): Option<Lease> {
    match op
    case TakeReservation(lease) => Some(lease)
    case TakeResult(lease) => Some(lease)
    case TakeEvent(lease) => Some(lease)
    case TakeTerminal(lease) => Some(lease)
    case Ack(lease) => Some(lease)
    case _ => None
  }

  /** Nothing but a reason puts a binding in the list, and a section lists only the binding it is about. */
  lemma {:induction false} ListedForAReason(s: State, op: Op)
    ensures Lists(s, Step(s, op), Subject(s, op))
  {
    hide Acknowledge, NextEvent, BeginClose, RequestDone, Evict, Arrive, RemoteCloses, Terminalize, SlotFails, ManagerCloses,
         CloseDown, PopEvent, ReleaseTerminal, SignalBinding, Reason;
    match op
    case TakeResult(lease) => if Valid(s, lease) { TakeLists(s, op, lease); }
    case TakeEvent(lease) => if Valid(s, lease) { TakeLists(s, op, lease); }
    case TakeTerminal(lease) => if Valid(s, lease) { TakeLists(s, op, lease); }
    case Ack(lease) => if Valid(s, lease) { AcknowledgeLists(s, lease); }
    case Promote(id) => if id in s.bindings { PublishLists(s, s.bindings[id].(request := Reserved(false)), id); }
    case Done(id, accepted, tooLarge, canceled) => if id in s.bindings { RequestLists(s, id, accepted, tooLarge, canceled); }
    case Event(id, external) => if id in s.bindings { ArriveLists(s, id, external); }
    case Pressure(id) => if id in s.bindings { EvictLists(s, id); }
    case Block(id) => if id in s.bindings { NextEventLists(s, id); }
    case Close(id, queued, down) => if id in s.bindings { BeginCloseLists(s, id, queued, down); }
    case CloseAccepted(id) => if id in s.bindings { ClosingLists(s, id); }
    case RemoteClose(id) => if id in s.bindings { ClosingLists(s, id); }
    case Reject(id) => if id in s.bindings { ClosingLists(s, id); }
    case FailSlot(id) => if id in s.bindings { ClosingLists(s, id); }
    case Shutdown(id) => if id in s.bindings { ManagerLists(s, id); }
    case _ =>
  }

  // ---------------------------------------------------------------- what becomes of a binding

  /** Its end, which its consumer has not observed unless the binding says so. */
  function Ended(b: Binding): Binding {
    b.(terminal := true)
  }

  /** Its end after a close: nobody has to observe it. */
  function ClosedDown(b: Binding): Binding {
    b.(terminal := true, closeSet := true, terminalObserved := true)
  }

  function Discarded(b: Binding): Binding {
    b.(active := false, items := 0, result := false)
  }

  /** An orderly close, unless another is under way. */
  function Closing(b: Binding, queued: bool, down: bool): Binding {
    if b.closeStarted then b
    else
      var c := Discarded(b).(closeStarted := true, request := if b.request == Held then Held else Nothing);
      if b.remoteClosed || b.terminal || down || !queued then ClosedDown(c) else c
  }

  function Finished(b: Binding, accepted: bool, tooLarge: bool, canceled: bool): Binding {
    if canceled then b
    else
      var open := !b.closeStarted;
      if accepted then b.(request := Nothing, result := b.result || (open && !b.terminal))
      else if tooLarge then b.(request := Nothing, result := b.result || open, active := false, terminal := true)
      else b.(request := Nothing)
  }

  /**
   * What a section makes of the binding it is about. `valid`: the lease it is given is; `waits`: the blocking consumer is
   * waiting already.
   */
  function Fate(b: Binding, op: Op, valid: bool, waits: bool): Binding {
    match op
    case TakeReservation(_) => if valid && b.request == Reserved(false) then b.(request := Reserved(true)) else b
    case TakeResult(_) => if valid then b.(result := false) else b
    case TakeEvent(_) => if valid && b.mode != Blocking then b.(mode := Token, items := if b.items == 0 then 0 else b.items - 1) else b
    case TakeTerminal(_) =>
      if valid && b.terminal && b.items == 0 && !b.result && b.request == Nothing then b.(terminalObserved := true) else b
    case Prepare(_, direct) =>
      if b.active && b.request == Nothing && !b.result then b.(request := if direct then Held else Waiting) else b
    case Promote(_) => if b.request == Waiting then b.(request := Reserved(false)) else b
    case Claim(_) => if b.request == Reserved(true) then b.(request := Held) else b
    case Drop(_) => b.(request := Nothing)
    case Done(_, accepted, tooLarge, canceled) =>
      if canceled || b.request == Held then Finished(b, accepted, tooLarge, canceled) else b
    case Event(_, external) =>
      if b.terminal || b.closeStarted then b
      else if external then Ended(b.(items := b.items + 1, remoteClosed := true, active := false))
      else b.(items := b.items + 1)
    case Pressure(_) => if b.terminal || b.closeStarted then b else Ended(Discarded(b).(request := Nothing))
    case Block(_) =>
      if waits || b.mode == Token then b else Passed(b)
    case Close(_, queued, down) => Closing(b, queued, down)
    case CloseAccepted(_) => if b.closeStarted then ClosedDown(b) else b
    case RemoteClose(_) => if b.terminal || !b.closeStarted then b else ClosedDown(b.(remoteClosed := true, request := Nothing))
    case Reject(_) =>
      if !b.resident then b
      else if b.closeStarted then ClosedDown(b.(active := false, request := Nothing))
      else Ended(b.(active := false, request := Nothing))
    case FailSlot(_) =>
      if b.remoteClosed then b.(request := Nothing)
      else if b.closeStarted then ClosedDown(b.(active := false, request := Nothing))
      else Ended(b.(active := false, request := Nothing))
    case Shutdown(_) =>
      if !b.resident then b
      else if b.mode == Token then Ended(Discarded(b).(request := Nothing, closeSet := true))
      else ClosedDown(Discarded(b).(request := Nothing))
    case _ => b
  }

  lemma {:induction false} EditMade(s: State, id: nat, b: Binding)
    requires id in s.bindings
    ensures Made(s, PublishTerminal(Put(s, id, b), id), id, Ended(b)) && id in PublishTerminal(Put(s, id, b), id).bindings
    ensures Made(s, ReleaseTerminal(PublishTerminal(Put(s, id, b), id), id), id, Ended(b))
    ensures Made(s, CloseDown(Put(s, id, b), id), id, ClosedDown(b))
    ensures Made(s, SignalBinding(Put(s, id, b), id), id, b) && Made(s, ReleaseTerminal(Put(s, id, b), id), id, b)
    ensures Made(s, InvalidateReady(Put(s, id, b), id), id, b)
  {
    hide Made, Queues, PublishTerminal, ReleaseTerminal, CloseDown, SignalBinding, InvalidateReady;
    var t := Put(s, id, b);
    PutMade(s, id, b);
    TerminalMade(t, id);
    MadeThen(s, t, PublishTerminal(t, id), id, b, Ended(b));
    MadeAt(s, PublishTerminal(t, id), id, Ended(b));
    WithdrawMade(PublishTerminal(t, id), id);
    var c := PublishTerminal(t, id).bindings[id];
    MadeThen(s, PublishTerminal(t, id), ReleaseTerminal(PublishTerminal(t, id), id), id, Ended(b), c);
    MadeAlike(s, ReleaseTerminal(PublishTerminal(t, id), id), id, c, Ended(b));
    CloseDownLists(t, id);
    MadeThen(s, t, CloseDown(t, id), id, b, ClosedDown(b));
    SignalMade(t, id);
    MadeThen(s, t, SignalBinding(t, id), id, b, b);
    WithdrawMade(t, id);
    MadeThen(s, t, ReleaseTerminal(t, id), id, b, b);
    MadeThen(s, t, InvalidateReady(t, id), id, b, b);
  }

  /** A second edit, of what the first one left. */
  lemma {:induction false} AgainMade(s: State, t: State, u: State, id: nat, a: Binding, b: Binding, c: Binding)
    requires Made(s, t, id, a) && Made(t, u, id, b) && c == b.(leased := c.leased, epoch := c.epoch, resident := c.resident)
    ensures Made(s, u, id, c)
  {}

  lemma {:induction false} CloseMade(s: State, id: nat, queued: bool, down: bool)
    requires id in s.bindings
    ensures Made(s, BeginClose(s, id, queued, down), id, Closing(s.bindings[id], queued, down))
  {
    hide Made, Queues, InvalidateReady, CloseDown;
    SameMade(s, s, id);
    var b := s.bindings[id];
    if !b.closeStarted {
      var c := b.(closeStarted := true, active := false, items := 0, result := false);
      EditMade(s, id, c);
      var t := InvalidateReady(Put(s, id, c), id);
      MadeAt(s, t, id, c);
      var d := t.bindings[id];
      var e := d.(request := if b.request == Held then Held else Nothing);
      var u := if d.request == Waiting || d.request.Reserved? then Put(t, id, d.(request := Nothing)) else t;
      PutMade(t, id, d.(request := Nothing));
      SameMade(t, t, id);
      assert Made(t, u, id, e);
      MadeAt(t, u, id, e);
      CloseEnds(s, t, u, id, c, e);
    }
  }

  lemma {:induction false} CloseEnds(s: State, t: State, u: State, id: nat, c: Binding, e: Binding)
    requires Made(s, t, id, c) && Made(t, u, id, e)
    requires e == c.(request := e.request, leased := e.leased, epoch := e.epoch, resident := e.resident)
    ensures id in u.bindings
    ensures Made(s, u, id, c.(request := e.request)) && Made(s, CloseDown(u, id), id, ClosedDown(c.(request := e.request)))
  {
    hide Made, Queues, CloseDown, ClosedDown;
    var life := c.(request := e.request);
    AgainMade(s, t, u, id, c, e, life);
    MadeAt(s, u, id, life);
    var d := u.bindings[id];
    CloseDownLists(u, id);
    ClosedAlike(life, d);
    AgainMade(s, u, CloseDown(u, id), id, life, ClosedDown(d), ClosedDown(life));
  }

  lemma {:induction false} ClosedAlike(a: Binding, b: Binding)
    requires b == a.(leased := b.leased, epoch := b.epoch, resident := b.resident)
    ensures ClosedDown(b) == b.(terminal := true, closeSet := true, terminalObserved := true)
    ensures ClosedDown(a) == ClosedDown(b).(leased := ClosedDown(a).leased, epoch := ClosedDown(a).epoch, resident := ClosedDown(a).resident)
  {}

  lemma {:induction false} EvictMade(s: State, id: nat)
    requires id in s.bindings
    ensures var b := Ended(Discarded(s.bindings[id]).(request := Nothing));
            Made(s, Evict(s, id), id, b) && Made(s, ManagerPublishes(s, id), id, b)
  {
    hide Made, Queues, PublishTerminal, ReleaseTerminal, InvalidateReady;
    var b := Discarded(s.bindings[id]);
    EditMade(s, id, b);
    var t := InvalidateReady(Put(s, id, b), id);
    MadeAt(s, t, id, b);
    var c := t.bindings[id].(request := Nothing);
    EditMade(t, id, c);
    var life := Ended(b.(request := Nothing));
    AgainMade(s, t, PublishTerminal(Put(t, id, c), id), id, b, Ended(c), life);
    AgainMade(s, t, ReleaseTerminal(PublishTerminal(Put(t, id, c), id), id), id, b, Ended(c), life);
  }

  lemma {:induction false} ShutdownMade(s: State, id: nat)
    requires id in s.bindings
    ensures var c := Discarded(s.bindings[id]).(request := Nothing);
            Made(s, ManagerCloses(s, id), id, if s.bindings[id].mode == Token then Ended(c.(closeSet := true)) else ClosedDown(c))
  {
    hide Made, Queues, ManagerPublishes, InvalidateReady;
    var c := Discarded(s.bindings[id]).(request := Nothing);
    EvictMade(s, id);
    var u := ManagerPublishes(s, id);
    MadeAt(s, u, id, Ended(c));
    var b := u.bindings[id].(closeSet := true);
    var v := Put(u, id, b);
    PutMade(u, id, b);
    AgainMade(s, u, v, id, Ended(c), b, Ended(c.(closeSet := true)));
    PutMade(v, id, b.(resident := false));
    AgainMade(s, v, Put(v, id, b.(resident := false)), id, Ended(c.(closeSet := true)), b.(resident := false), Ended(c.(closeSet := true)));
    var d := b.(terminalObserved := true);
    EditMade(v, id, d);
    var w := InvalidateReady(Put(v, id, d), id);
    AgainMade(s, v, w, id, Ended(c.(closeSet := true)), d, ClosedDown(c));
    MadeAt(s, w, id, ClosedDown(c));
    var e := w.bindings[id].(resident := false);
    PutMade(w, id, e);
    AgainMade(s, w, Put(w, id, e), id, ClosedDown(c), e, ClosedDown(c));
  }

  lemma {:induction false} EndMade(s: State, id: nat)
    requires id in s.bindings
    ensures var b := s.bindings[id];
            && Made(s, RemoteCloses(s, id), id,
                    if b.terminal || !b.closeStarted then b else ClosedDown(b.(remoteClosed := true, request := Nothing)))
            && Made(s, Terminalize(s, id), id,
                    var c := b.(active := false, request := Nothing);
                    if !b.resident then b else if b.closeStarted then ClosedDown(c) else Ended(c))
            && Made(s, SlotFails(s, id), id,
                    var c := b.(active := false, request := Nothing);
                    if b.remoteClosed then b.(request := Nothing) else if b.closeStarted then ClosedDown(c) else Ended(c))
            && Made(s, CloseDown(s, id), id, ClosedDown(b))
  {
    hide Made, Queues, PublishTerminal, ReleaseTerminal, CloseDown;
    var b := s.bindings[id];
    SameMade(s, s, id);
    PutMade(s, id, b.(request := Nothing));
    EditMade(s, id, b.(remoteClosed := true, request := Nothing));
    EditMade(s, id, b.(active := false, request := Nothing));
    CloseDownLists(s, id);
  }

  lemma {:induction false} ArriveMade(s: State, id: nat, external: bool)
    requires id in s.bindings
    ensures Made(s, Arrive(s, id, external), id, Fate(s.bindings[id], Event(id, external), true, true))
  {
    hide Made, Queues, PublishTerminal, SignalBinding;
    SameMade(s, s, id);
    var b := s.bindings[id].(items := s.bindings[id].items + 1);
    EditMade(s, id, b);
    var t := SignalBinding(Put(s, id, b), id);
    MadeAt(s, t, id, b);
    var c := t.bindings[id].(remoteClosed := true, active := false);
    EditMade(t, id, c);
    AgainMade(s, t, PublishTerminal(Put(t, id, c), id), id, b, Ended(c), Ended(b.(remoteClosed := true, active := false)));
  }

  lemma {:induction false} DoneMade(s: State, id: nat, accepted: bool, tooLarge: bool, canceled: bool)
    requires id in s.bindings
    ensures Made(s, RequestDone(s, id, accepted, tooLarge, canceled), id, Finished(s.bindings[id], accepted, tooLarge, canceled))
  {
    hide Made, Queues, PublishTerminal, SignalBinding;
    var b := s.bindings[id];
    var c := b.(request := Nothing);
    PutMade(s, id, b);
    PutMade(s, id, c);
    EditMade(s, id, c.(result := true));
    EditMade(s, id, c.(result := c.result || !b.closeStarted, active := false));
  }

  lemma {:induction false} LeaseMade(s: State, op: Op, lease: Lease)
    requires Valid(s, lease)
    requires op in {TakeReservation(lease), TakeResult(lease), TakeTerminal(lease)}
    ensures Made(s, Step(s, op), lease.binding, Fate(s.bindings[lease.binding], op, true, true))
  {
    hide Made, Queues, ReleaseTerminal;
    var (id, b) := (lease.binding, s.bindings[lease.binding]);
    SameMade(s, s, id);
    PutMade(s, id, b.(request := Reserved(true)));
    EditMade(s, id, b.(result := false));
    EditMade(s, id, b.(terminalObserved := true));
  }

  lemma {:induction false} EventMade(s: State, lease: Lease)
    requires Valid(s, lease)
    ensures Made(s, Step(s, TakeEvent(lease)), lease.binding, Fate(s.bindings[lease.binding], TakeEvent(lease), true, true))
  {
    hide Made, Queues, ReleaseTerminal;
    var (id, b) := (lease.binding, s.bindings[lease.binding].(mode := Token));
    SameMade(s, s, id);
    var t := Put(s, id, b);
    PutMade(s, id, b);
    if b.items > 0 {
      var c := b.(items := b.items - 1);
      EditMade(t, id, c);
      MadeThen(s, t, ReleaseTerminal(Put(t, id, c), id), id, b, c);
    }
  }

  lemma {:induction false} AckMade(s: State, lease: Lease)
    requires Valid(s, lease)
    ensures Made(s, Acknowledge(s, lease), lease.binding, s.bindings[lease.binding])
  {
    hide Made, Queues, ReleaseTerminal, EnqueueReady, HasReason;
    var (id, b) := (lease.binding, s.bindings[lease.binding]);
    var c := b.(leased := false);
    var t := Put(s, id, c);
    PutMade(s, id, c);
    SignalMade(t, id);
    SameMade(t, t, id);
    var u := if HasReason(c) then EnqueueReady(t, id) else t;
    MadeThen(s, t, u, id, c, c);
    MadeAt(s, u, id, c);
    WithdrawMade(u, id);
    AgainMade(s, u, ReleaseTerminal(u, id), id, c, u.bindings[id], b);
  }

  lemma {:induction false} TakenQueues(s: State, t: State, u: State, v: State, id: nat)
    requires Queues(t, u, id) && t.ready == s.ready && v.ready == u.ready
    ensures Queues(s, v, id)
  {}

  lemma {:induction false} TakeMade(s: State)
    requires s.ready != [] && s.ready[0] in s.bindings
    ensures Made(s, TakeReady(s), s.ready[0], s.bindings[s.ready[0]])
  {
    hide Made, Queues, UnlinkReady;
    var id := s.ready[0];
    var t := s.(awake := false);
    UnlinkLists(t, id);
    UnlistQueues(t, id);
    TakenQueues(s, t, UnlinkReady(t, id), TakeReady(s), id);
    var c := TakeReady(s).bindings[id];
    EnterMade(s, TakeReady(s), id, c);
    MadeAlike(s, TakeReady(s), id, c, s.bindings[id]);
  }

  /** The life `Fate` gives the binding of a section. */
  predicate Fated(s: State, op: Op) {
    var id := Subject(s, op);
    && id in s.bindings
    && Made(s, Step(s, op), id, Fate(s.bindings[id], op, LeaseOf(op).Some? && Valid(s, LeaseOf(op).value), id in s.parked))
  }

  predicate ByConsumer(op: Op) {
    || op.Receive? || op.Take? || op.TakeReservation? || op.TakeResult? || op.TakeEvent? || op.TakeTerminal? || op.Ack? || op.Block?
    || op.Notified? || op.GiveUp?
  }

  lemma {:induction false} ConsumerFate(s: State, op: Op)
    requires ByConsumer(op) && Subject(s, op) in s.bindings
    ensures Fated(s, op)
  {
    hide Made, Queues, TakeReady, Acknowledge, NextEvent, PopEvent, ReleaseTerminal, Passed;
    var (t, id) := (Step(s, op), Subject(s, op));
    SameMade(s, s, id);
    match op
    case Receive => SameMade(s, t, id);
    case Take => PlainMade(s, op, id);
    case TakeReservation(lease) => if Valid(s, lease) { LeaseMade(s, op, lease); }
    case TakeResult(lease) => if Valid(s, lease) { LeaseMade(s, op, lease); }
    case TakeEvent(lease) => if Valid(s, lease) { EventMade(s, lease); }
    case TakeTerminal(lease) => if Valid(s, lease) { LeaseMade(s, op, lease); }
    case Ack(lease) => if Valid(s, lease) { AckMade(s, lease); }
    case Block(_) => BlockMade(s, id);
    case Notified(_) => SameMade(s, t, id);
    case GiveUp(_) => SameMade(s, t, id);
  }

  lemma {:induction false} SectionFate(s: State, op: Op)
    requires !ByConsumer(op) && Subject(s, op) in s.bindings
    ensures Fated(s, op)
  {
    hide Made, Queues, BeginClose, RequestDone, Evict, Arrive, RemoteCloses, Terminalize, SlotFails, ManagerCloses, CloseDown, SignalBinding,
         Closing, Finished, ReleaseTerminal;
    var id := Subject(s, op);
    SameMade(s, s, id);
    match op
    case Bind(_, _) =>
    case Prepare(_, direct) => PutMade(s, id, s.bindings[id].(request := if direct then Held else Waiting));
    case Promote(_) => EditMade(s, id, s.bindings[id].(request := Reserved(false)));
    case Claim(_) => PutMade(s, id, s.bindings[id].(request := Held));
    case Drop(_) => PutMade(s, id, s.bindings[id].(request := Nothing));
    case Done(_, accepted, tooLarge, canceled) => DoneMade(s, id, accepted, tooLarge, canceled);
    case Event(_, external) => ArriveMade(s, id, external);
    case Pressure(_) => EvictMade(s, id);
    case Close(_, queued, down) => CloseMade(s, id, queued, down);
    case CloseAccepted(_) => EndMade(s, id);
    case RemoteClose(_) => EndMade(s, id);
    case Reject(_) => EndMade(s, id);
    case FailSlot(_) => EndMade(s, id);
    case Shutdown(_) => ShutdownMade(s, id);
  }

  /**
   * Listing, leasing and waking never change what becomes of a binding: every section gives the binding it is about
   * the life `Fate` says, whatever the ready list, and leaves every other binding alone.
   */
  lemma {:induction false} LifeIsFate(s: State, op: Op)
    ensures var id := Subject(s, op);
            if id in s.bindings then Fated(s, op)
            else if op.Bind? then Step(s, op) == Put(s, id, NewBinding(if op.token then Token else Unset))
            else Step(s, op).bindings == s.bindings
  {
    if Subject(s, op) in s.bindings {
      hide Fated, Step;
      if ByConsumer(op) {
        ConsumerFate(s, op);
      } else {
        SectionFate(s, op);
      }
    } else {
      hide TakeReady, Acknowledge, NextEvent, BeginClose, RequestDone, Evict, Arrive, RemoteCloses, Terminalize, SlotFails,
           ManagerCloses, CloseDown, PopEvent, ReleaseTerminal, SignalBinding;
      if op.Take? {
        Nobody(s);
      }
    }
  }

  lemma {:induction false} Nobody(s: State)
    requires Subject(s, Take) !in s.bindings
    ensures TakeReady(s).bindings == s.bindings
  {}

  lemma {:induction false} BlockMade(s: State, id: nat)
    requires id in s.bindings
    ensures Made(s, NextEvent(s, id), id, if s.bindings[id].mode == Token then s.bindings[id] else Passed(s.bindings[id]))
  {
    hide Made, Queues;
    NextEventLists(s, id);
    SameMade(s, s, id);
  }

  lemma {:induction false} PlainMade(s: State, op: Op, id: nat)
    requires op == Take && id == Subject(s, op) && id in s.bindings
    ensures Made(s, Step(s, op), id, s.bindings[id])
  {
    hide Made, Queues;
    if s.ready != [] {
      TakeMade(s);
    } else {
      SameMade(s, TakeReady(s), id);
    }
  }
}
