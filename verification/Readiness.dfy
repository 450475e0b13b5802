/**
 * Readiness of fixed bindings: the coalesced ready list, its leases with epochs, and every section of
 * the manager that gives a binding a reason to be looked at or takes one away.
 *
 * Decisions made elsewhere (which waiter is promoted, whether a close could be queued, whether the slot
 * is down) are parameters of the steps, so the statements hold for every such decision.
 */
module Readiness {
  datatype Mode = Unset | Blocking | Token

  /** A binding's request as readiness sees it; Held covers marshalling, queued and being submitted. */
  datatype Pending = Nothing | Waiting | Reserved(handed: bool) | Held

  datatype Binding = Binding(
    mode: Mode,
    items: nat,             // retained responses
    result: bool,
    request: Pending,
    terminal: bool,
    terminalObserved: bool,
    closeStarted: bool,
    closeSet: bool,
    remoteClosed: bool,
    active: bool,
    resident: bool,
    leased: bool,
    epoch: nat)

  function NewBinding(mode: Mode): Binding {
    Binding(mode, 0, false, Nothing, false, false, false, false, false, true, true, false, 0)
  }

  datatype Lease = Lease(binding: nat, epoch: nat)

  datatype State = State(
    bindings: map<nat, Binding>,
    ready: seq<nat>,        // the ready list
    signal: bool,           // a token is in the Ready channel
    awake: bool,            // the consumer took it and has not looked yet
    notified: set<nat>,     // bindings with a token in their notify channel
    parked: set<nat>,       // bindings whose blocking consumer waits for one
    issued: set<Lease>)     // audit: every lease TryNextReady returned

  const START := State(map[], [], false, false, {}, {}, {})

  // ---------------------------------------------------------------- the manager's helpers

  /** bindingHasReadyReasonLocked. */
  predicate HasReason(b: Binding) {
    || (b.mode != Blocking && b.items > 0)
    || (b.mode != Blocking && b.terminal && !b.terminalObserved)
    || b.result
    || b.request == Reserved(false)
  }

  function Put(s: State, id: nat, b: Binding): State {
    s.(bindings := s.bindings[id := b])
  }

  /** enqueueReadyLocked. */
  function EnqueueReady(s: State, id: nat): State
    requires id in s.bindings
  {
    if id in s.ready || s.bindings[id].leased || !HasReason(s.bindings[id]) then s
    else s.(ready := s.ready + [id], signal := true)
  }

  function Without(ready: seq<nat>, id: nat): (r: seq<nat>)
    ensures id !in r
    ensures forall x | x in r :: x in ready
    ensures forall x | x in ready && x != id :: x in r
    ensures NoDuplicates(ready) ==> NoDuplicates(r)
  {
    if ready == [] then []
    else
      var rest := Without(ready[1..], id);
      assert forall x | x in ready && x != ready[0] :: x in ready[1..];
      assert NoDuplicates(ready) ==> NoDuplicates(ready[1..]) && ready[0] !in ready[1..];
      if ready[0] == id then rest else [ready[0]] + rest
  }

  predicate NoDuplicates(ready: seq<nat>) {
    forall i, j | 0 <= i < j < |ready| :: ready[i] != ready[j]
  }

  /** unlinkReadyLocked: what remains is announced again. */
  function UnlinkReady(s: State, id: nat): State {
    if id !in s.ready then s
    else s.(ready := Without(s.ready, id), signal := s.signal || Without(s.ready, id) != [])
  }

  /** signalBindingLocked. */
  function SignalBinding(s: State, id: nat): State
    requires id in s.bindings
  {
    var t := s.(notified := s.notified + {id});
    if HasReason(s.bindings[id]) then EnqueueReady(t, id) else t
  }

  /** invalidateReadyLocked. */
  function InvalidateReady(s: State, id: nat): State
    requires id in s.bindings
  {
    var t := UnlinkReady(s, id);
    Put(t, id, t.bindings[id].(leased := false))
  }

  /** publishBindingTerminalLocked. */
  function PublishTerminal(s: State, id: nat): State
    requires id in s.bindings
  {
    SignalBinding(Put(s, id, s.bindings[id].(terminal := true)), id)
  }

  /** releaseTerminalBindingLocked. */
  function ReleaseTerminal(s: State, id: nat): State
    requires id in s.bindings
  {
    var b := s.bindings[id];
    if !b.resident || !b.terminal || b.items != 0 || b.request != Nothing || b.result || id in s.ready || b.leased
       || (!b.terminalObserved && !b.closeSet) then s
    else Put(s, id, b.(resident := false))
  }

  /** Publish the terminal state and the close result, mark it observed and withdraw readiness. */
  function CloseDown(s: State, id: nat): State
    requires id in s.bindings
  {
    var t := PublishTerminal(s, id);
    var u := Put(t, id, t.bindings[id].(closeSet := true, terminalObserved := true));
    ReleaseTerminal(InvalidateReady(u, id), id)
  }

  // ---------------------------------------------------------------- sections

  predicate Valid(s: State, lease: Lease) {
    lease in s.issued && lease.binding in s.bindings && s.bindings[lease.binding].leased
    && s.bindings[lease.binding].epoch == lease.epoch
  }

  /** TryNextReady. */
  function TakeReady(s: State): State {
    var t := s.(awake := false);
    if s.ready == [] || s.ready[0] !in s.bindings then t
    else
      var id := s.ready[0];
      var u := UnlinkReady(t, id);
      var b := u.bindings[id];
      Put(u, id, b.(epoch := b.epoch + 1, leased := true)).(issued := u.issued + {Lease(id, b.epoch + 1)})
  }

  /** Ack. */
  function Acknowledge(s: State, lease: Lease): State
    requires Valid(s, lease)
  {
    var id := lease.binding;
    var t := Put(s, id, s.bindings[id].(leased := false));
    ReleaseTerminal(if HasReason(t.bindings[id]) then EnqueueReady(t, id) else t, id)
  }

  /** popBindingEventLocked. */
  function PopEvent(s: State, id: nat): State
    requires id in s.bindings
  {
    var b := s.bindings[id];
    if b.items == 0 then s else ReleaseTerminal(Put(s, id, b.(items := b.items - 1)), id)
  }

  /** refreshReadyLocked. */
  function RefreshReady(s: State, id: nat): State
    requires id in s.bindings
  {
    if s.bindings[id].leased then s else EnqueueReady(UnlinkReady(s, id), id)
  }

  /** What the blocking consumer finds: an event, the end, or nothing, and then it waits for its notify channel. */
  function FindEvent(s: State, id: nat): State
    requires id in s.bindings
  {
    var b := s.bindings[id];
    if b.items > 0 then PopEvent(s, id)
    else if b.terminal then ReleaseTerminal(Put(s, id, b.(terminalObserved := true)), id)
    else s.(parked := s.parked + {id})
  }

  /** A binding's first blocking call chooses its consumer; the reasons a blocking consumer does not have leave the list. */
  function EnterBlocking(s: State, id: nat): State
    requires id in s.bindings
  {
    if s.bindings[id].mode == Unset then RefreshReady(Put(s, id, s.bindings[id].(mode := Blocking)), id) else s
  }

  /** One pass of nextEvent's loop for the blocking consumer. */
  function NextEvent(s: State, id: nat): State
    requires id in s.bindings
  {
    if s.bindings[id].mode == Token then s
    else
      var t := EnterBlocking(s, id);
      if id in t.bindings then FindEvent(t, id) else t
  }

  /** beginClose: `queued` says the ordered close fitted the control queue, `down` that the slot or the manager is gone. */
  function BeginClose(s: State, id: nat, queued: bool, down: bool): State
    requires id in s.bindings
  {
    var b := s.bindings[id];
    if b.closeStarted then s
    else
      var c := b.(closeStarted := true, active := false, items := 0, result := false);
      var t := InvalidateReady(Put(s, id, c), id);
      var d := t.bindings[id];
      var u := if d.request == Waiting || d.request.Reserved? then Put(t, id, d.(request := Nothing)) else t;
      if b.remoteClosed || b.terminal || down || !queued then CloseDown(u, id) else u
  }

  /** finishRequestAttemptLocked once the request leaves the FIFO. */
  function RequestDone(s: State, id: nat, accepted: bool, tooLarge: bool, canceled: bool): State
    requires id in s.bindings
  {
    var b := s.bindings[id];
    var open := !canceled && !b.closeStarted;
    var c := if !canceled then b.(request := Nothing) else b;
    if accepted then
      if open && !b.terminal then SignalBinding(Put(s, id, c.(result := true)), id) else Put(s, id, c)
    else if tooLarge && !canceled then
      PublishTerminal(Put(s, id, c.(result := c.result || open, active := false)), id)
    else Put(s, id, c)
  }

  /** evictBackpressuredBindingLocked. */
  function Evict(s: State, id: nat): State
    requires id in s.bindings
  {
    var t := InvalidateReady(Put(s, id, s.bindings[id].(active := false, items := 0, result := false)), id);
    var u := Put(t, id, t.bindings[id].(request := Nothing));
    ReleaseTerminal(PublishTerminal(u, id), id)
  }

  /** routeEvent's retained responses, and CloseExternal on an open binding. */
  function Arrive(s: State, id: nat, external: bool): State
    requires id in s.bindings
  {
    var b := s.bindings[id];
    if b.terminal || b.closeStarted then s
    else
      var t := SignalBinding(Put(s, id, b.(items := b.items + 1)), id);
      if external then PublishTerminal(Put(t, id, t.bindings[id].(remoteClosed := true, active := false)), id) else t
  }

  /** routeEvent: CloseExternal while the local close is under way. */
  function RemoteCloses(s: State, id: nat): State
    requires id in s.bindings
  {
    var b := s.bindings[id];
    if b.terminal || !b.closeStarted then s
    else CloseDown(Put(s, id, b.(remoteClosed := true, request := Nothing)), id)
  }

  /** terminalizeBinding. */
  function Terminalize(s: State, id: nat): State
    requires id in s.bindings
  {
    var b := s.bindings[id];
    if !b.resident then s
    else
      var t := Put(s, id, b.(active := false, request := Nothing));
      if b.closeStarted then CloseDown(t, id) else ReleaseTerminal(PublishTerminal(t, id), id)
  }

  /** failSlot on one binding; its queued requests have been cancelled. */
  function SlotFails(s: State, id: nat): State
    requires id in s.bindings
  {
    var b := s.bindings[id];
    if b.remoteClosed then Put(s, id, b.(request := Nothing))
    else
      var t := Put(s, id, b.(active := false, request := Nothing));
      if b.closeStarted then CloseDown(t, id) else ReleaseTerminal(PublishTerminal(t, id), id)
  }

  /** ManagerCloses up to its terminal publication. */
  function ManagerPublishes(s: State, id: nat): (u: State)
    requires id in s.bindings
  {
    var t := InvalidateReady(Put(s, id, s.bindings[id].(active := false, items := 0, result := false)), id);
    PublishTerminal(Put(t, id, t.bindings[id].(request := Nothing)), id)
  }

  /** beginTerminal on one binding: a token consumer keeps its terminal token. */
  function ManagerCloses(s: State, id: nat): State
    requires id in s.bindings
  {
    var u := ManagerPublishes(s, id);
    var v := Put(u, id, u.bindings[id].(closeSet := true));
    if s.bindings[id].mode != Token then
      var w := InvalidateReady(Put(v, id, v.bindings[id].(terminalObserved := true)), id);
      Put(w, id, w.bindings[id].(resident := false))
    else Put(v, id, v.bindings[id].(resident := false))
  }

  datatype Op =
    | Bind(id: nat, token: bool)
    | Receive
    | Take
    | TakeReservation(lease: Lease)
    | TakeResult(lease: Lease)
    | TakeEvent(lease: Lease)
    | TakeTerminal(lease: Lease)
    | Ack(lease: Lease)
    | Prepare(id: nat, direct: bool)
    | Promote(id: nat)
    | Claim(id: nat)
    | Drop(id: nat)
    | Done(id: nat, accepted: bool, tooLarge: bool, canceled: bool)
    | Event(id: nat, external: bool)
    | Pressure(id: nat)
    | Block(id: nat)
    | Notified(id: nat)
    | GiveUp(id: nat) // the waiting consumer's context ends
    | Close(id: nat, queued: bool, down: bool)
    | CloseAccepted(id: nat)
    | RemoteClose(id: nat)
    | Reject(id: nat)
    | FailSlot(id: nat)
    | Shutdown(id: nat)

  function Step(s: State, op: Op): State {
    match op
    case Bind(id, token) => if id in s.bindings then s else Put(s, id, NewBinding(if token then Token else Unset))
    case Receive => if s.signal then s.(signal := false, awake := true) else s
    case Take => TakeReady(s)
    case TakeReservation(lease) =>
      if !Valid(s, lease) || s.bindings[lease.binding].request != Reserved(false) then s
      else Put(s, lease.binding, s.bindings[lease.binding].(request := Reserved(true)))
    case TakeResult(lease) =>
      if !Valid(s, lease) || !s.bindings[lease.binding].result then s
      else ReleaseTerminal(Put(s, lease.binding, s.bindings[lease.binding].(result := false)), lease.binding)
    case TakeEvent(lease) =>
      if !Valid(s, lease) || s.bindings[lease.binding].mode == Blocking then s
      else PopEvent(Put(s, lease.binding, s.bindings[lease.binding].(mode := Token)), lease.binding)
    case TakeTerminal(lease) =>
      if !Valid(s, lease) then s
      else
        var b := s.bindings[lease.binding];
        if !b.terminal || b.items != 0 || b.result || b.request != Nothing then s
        else ReleaseTerminal(Put(s, lease.binding, b.(terminalObserved := true)), lease.binding)
    case Ack(lease) => if Valid(s, lease) then Acknowledge(s, lease) else s
    case Prepare(id, direct) =>
      if id !in s.bindings || !s.bindings[id].active || s.bindings[id].request != Nothing || s.bindings[id].result then s
      else Put(s, id, s.bindings[id].(request := if direct then Held else Waiting))
    case Promote(id) =>
      if id !in s.bindings || s.bindings[id].request != Waiting then s
      else SignalBinding(Put(s, id, s.bindings[id].(request := Reserved(false))), id)
    case Claim(id) =>
      if id !in s.bindings || s.bindings[id].request != Reserved(true) then s
      else Put(s, id, s.bindings[id].(request := Held))
    case Drop(id) => if id in s.bindings then Put(s, id, s.bindings[id].(request := Nothing)) else s
    case Done(id, accepted, tooLarge, canceled) =>
      if id !in s.bindings || (!canceled && s.bindings[id].request != Held) then s
      else RequestDone(s, id, accepted, tooLarge, canceled)
    case Event(id, external) => if id in s.bindings then Arrive(s, id, external) else s
    case Pressure(id) => if id in s.bindings && !s.bindings[id].terminal && !s.bindings[id].closeStarted then Evict(s, id) else s
    case Block(id) => if id in s.bindings && id !in s.parked then NextEvent(s, id) else s
    case Notified(id) =>
      if id in s.parked && id in s.notified then s.(parked := s.parked - {id}, notified := s.notified - {id}) else s
    case GiveUp(id) => s.(parked := s.parked - {id})
    case Close(id, queued, down) => if id in s.bindings then BeginClose(s, id, queued, down) else s
    case CloseAccepted(id) => if id in s.bindings && s.bindings[id].closeStarted then CloseDown(s, id) else s
    case RemoteClose(id) => if id in s.bindings then RemoteCloses(s, id) else s
    case Reject(id) => if id in s.bindings then Terminalize(s, id) else s
    case FailSlot(id) => if id in s.bindings then SlotFails(s, id) else s
    case Shutdown(id) => if id in s.bindings && s.bindings[id].resident then ManagerCloses(s, id) else s
  }

  function Run(s: State, ops: seq<Op>): State
    decreases |ops|
  {
    if ops == [] then s else Run(Step(s, ops[0]), ops[1..])
  }

  // ---------------------------------------------------------------- what every step keeps

  /** A closing binding owes its consumer nothing; a terminal one takes no new work. */
  predicate Withdrawn(b: Binding) {
    && (b.closeStarted ==> b.items == 0 && !b.result && b.request in {Nothing, Held} && !b.active)
    && (b.terminal ==> !b.active)
  }

  /** A reason is queued or leased, never both. */
  predicate BindingOK(b: Binding, queued: bool) {
    (HasReason(b) ==> queued || b.leased) && !(queued && b.leased) && Withdrawn(b)
  }

  /** The ready list has no duplicates, its first entry is announced, and leases are those of the current epoch. */
  predicate Listed(s: State) {
    && NoDuplicates(s.ready)
    && (forall id | id in s.ready :: id in s.bindings)
    && (s.ready != [] ==> s.signal || s.awake)
    && (forall l | l in s.issued :: l.binding in s.bindings && l.epoch <= s.bindings[l.binding].epoch)
    && (forall id | id in s.bindings && s.bindings[id].leased :: Lease(id, s.bindings[id].epoch) in s.issued)
  }

  predicate OthersOK(s: State, id: nat) {
    forall x | x in s.bindings && x != id :: BindingOK(s.bindings[x], x in s.ready)
  }

  predicate Sound(s: State) {
    Listed(s) && forall x | x in s.bindings :: BindingOK(s.bindings[x], x in s.ready)
  }

  /** Sound but for `id`, which is not both queued and leased. */
  predicate SoundBut(s: State, id: nat) {
    && Listed(s) && OthersOK(s, id) && id in s.bindings
    && !(id in s.ready && s.bindings[id].leased)
  }

  lemma {:induction false} ButSound(s: State, id: nat)
    requires id in s.bindings && SoundBut(s, id) && Withdrawn(s.bindings[id])
    requires HasReason(s.bindings[id]) ==> id in s.ready || s.bindings[id].leased
    ensures Sound(s)
  {}

  lemma {:induction false} SoundIsBut(s: State, id: nat)
    requires Sound(s) && id in s.bindings
    ensures SoundBut(s, id) && BindingOK(s.bindings[id], id in s.ready)
  {}

  /** Editing a binding without touching its lease. */
  lemma {:induction false} PutBut(s: State, id: nat, b: Binding)
    requires id in s.bindings && SoundBut(s, id) && b.leased == s.bindings[id].leased && b.epoch == s.bindings[id].epoch
    ensures SoundBut(Put(s, id, b), id)
  {}

  lemma {:induction false} EnqueueBut(s: State, id: nat)
    requires id in s.bindings && SoundBut(s, id)
    ensures var t := EnqueueReady(s, id);
            && SoundBut(t, id) && t.bindings == s.bindings
            && (HasReason(t.bindings[id]) ==> id in t.ready || t.bindings[id].leased)
            && (id in s.ready ==> t == s)
  {}

  lemma {:induction false} UnlinkBut(s: State, id: nat)
    requires id in s.bindings && SoundBut(s, id)
    ensures var t := UnlinkReady(s, id); SoundBut(t, id) && t.bindings == s.bindings && id !in t.ready
  {}

  lemma {:induction false} InvalidateBut(s: State, id: nat)
    requires id in s.bindings && SoundBut(s, id)
    ensures var t := InvalidateReady(s, id);
            SoundBut(t, id) && t.bindings == s.bindings[id := s.bindings[id].(leased := false)] && id !in t.ready
  {
    UnlinkBut(s, id);
  }

  lemma {:induction false} SignalBut(s: State, id: nat)
    requires id in s.bindings && SoundBut(s, id)
    ensures var t := SignalBinding(s, id);
            && SoundBut(t, id) && t.bindings == s.bindings
            && (HasReason(t.bindings[id]) ==> id in t.ready || t.bindings[id].leased)
  {
    EnqueueBut(s, id);
  }

  lemma {:induction false} TerminalBut(s: State, id: nat)
    requires id in s.bindings && SoundBut(s, id)
    ensures var t := PublishTerminal(s, id);
            && SoundBut(t, id) && t.bindings == s.bindings[id := s.bindings[id].(terminal := true)]
            && (HasReason(t.bindings[id]) ==> id in t.ready || t.bindings[id].leased)
  {
    hide SoundBut;
    PutBut(s, id, s.bindings[id].(terminal := true));
    SignalBut(Put(s, id, s.bindings[id].(terminal := true)), id);
  }

  lemma {:induction false} ReleaseBut(s: State, id: nat)
    requires id in s.bindings && SoundBut(s, id)
    ensures var t := ReleaseTerminal(s, id);
            && SoundBut(t, id) && t.ready == s.ready
            && t.bindings == s.bindings[id := s.bindings[id].(resident := t.bindings[id].resident)]
  {
    hide SoundBut;
    PutBut(s, id, s.bindings[id].(resident := false));
    assert s.bindings == s.bindings[id := s.bindings[id]];
  }

  lemma {:induction false} CloseDownSound(s: State, id: nat)
    requires id in s.bindings && SoundBut(s, id) && !s.bindings[id].active && s.bindings[id].items == 0 && !s.bindings[id].result
    requires s.bindings[id].request in {Nothing, Held}
    ensures Sound(CloseDown(s, id))
  {
    hide SoundBut;
    var t := PublishTerminal(s, id);
    TerminalBut(s, id);
    var u := Put(t, id, t.bindings[id].(closeSet := true, terminalObserved := true));
    PutBut(t, id, t.bindings[id].(closeSet := true, terminalObserved := true));
    InvalidateBut(u, id);
    ReleaseBut(InvalidateReady(u, id), id);
    ButSound(CloseDown(s, id), id);
  }

  lemma {:induction false} ReleaseSound(s: State, id: nat)
    requires id in s.bindings && SoundBut(s, id) && Withdrawn(s.bindings[id])
    requires HasReason(s.bindings[id]) ==> id in s.ready || s.bindings[id].leased
    ensures Sound(ReleaseTerminal(s, id))
  {
    hide SoundBut;
    ReleaseBut(s, id);
    ButSound(ReleaseTerminal(s, id), id);
  }

  lemma {:induction false} PutSound(s: State, id: nat, b: Binding)
    requires Sound(s) && id in s.bindings && b.leased == s.bindings[id].leased && b.epoch == s.bindings[id].epoch
    requires BindingOK(b, id in s.ready)
    ensures Sound(Put(s, id, b))
  {
    hide Listed;
    SoundIsBut(s, id);
    PutBut(s, id, b);
    ButSound(Put(s, id, b), id);
  }

  // ---------------------------------------------------------------- every section

  lemma {:induction false} TakeReadySound(s: State)
    requires Sound(s)
    ensures Sound(TakeReady(s))
    ensures forall l | l in TakeReady(s).issued && l !in s.issued :: Valid(TakeReady(s), l)
  {
    if s.ready == [] {
    } else {
      var id := s.ready[0];
      var u := UnlinkReady(s.(awake := false), id);
      assert u.ready != [] ==> u.signal;
      assert id in s.bindings && id in s.ready;
    }
  }

  lemma {:induction false} AcknowledgeSound(s: State, lease: Lease)
    requires Sound(s) && Valid(s, lease)
    ensures Sound(Acknowledge(s, lease))
  {
    hide SoundBut;
    var id := lease.binding;
    var t := Put(s, id, s.bindings[id].(leased := false));
    UnleaseBut(s, id);
    EnqueueBut(t, id);
    SoundIsBut(s, id);
    ReleaseSound(if HasReason(t.bindings[id]) then EnqueueReady(t, id) else t, id);
  }

  lemma {:induction false} UnleaseBut(s: State, id: nat)
    requires Sound(s) && id in s.bindings
    ensures SoundBut(Put(s, id, s.bindings[id].(leased := false)), id)
  {}

  lemma {:induction false} PopEventSound(s: State, id: nat)
    requires Sound(s) && id in s.bindings
    ensures Sound(PopEvent(s, id))
  {
    hide Listed;
    SoundIsBut(s, id);
    if s.bindings[id].items != 0 {
      var b := s.bindings[id].(items := s.bindings[id].items - 1);
      PutBut(s, id, b);
      ReleaseSound(Put(s, id, b), id);
    }
  }

  lemma {:induction false} RefreshSound(s: State, id: nat)
    requires id in s.bindings && SoundBut(s, id) && Withdrawn(s.bindings[id])
    ensures Sound(RefreshReady(s, id)) && RefreshReady(s, id).bindings == s.bindings
  {
    hide SoundBut;
    if !s.bindings[id].leased {
      UnlinkBut(s, id);
      EnqueueBut(UnlinkReady(s, id), id);
    }
    ButSound(RefreshReady(s, id), id);
  }

  lemma {:induction false} ToBlockingSound(s: State, id: nat)
    requires Sound(s) && id in s.bindings
    ensures var c := s.bindings[id].(mode := Blocking);
            var t := RefreshReady(Put(s, id, c), id);
            Sound(t) && t.bindings == s.bindings[id := c]
  {
    hide Listed, SoundBut, RefreshReady;
    SoundIsBut(s, id);
    PutBut(s, id, s.bindings[id].(mode := Blocking));
    RefreshSound(Put(s, id, s.bindings[id].(mode := Blocking)), id);
  }

  lemma {:induction false} ObservedSound(s: State, id: nat)
    requires Sound(s) && id in s.bindings
    ensures Sound(ReleaseTerminal(Put(s, id, s.bindings[id].(terminalObserved := true)), id))
  {
    hide Listed, SoundBut, ReleaseTerminal;
    SoundIsBut(s, id);
    PutBut(s, id, s.bindings[id].(terminalObserved := true));
    ReleaseSound(Put(s, id, s.bindings[id].(terminalObserved := true)), id);
  }

  lemma {:induction false} NextEventSound(s: State, id: nat)
    requires Sound(s) && id in s.bindings
    ensures Sound(NextEvent(s, id))
  {
    hide Sound, RefreshReady, PopEvent, ReleaseTerminal;
    if s.bindings[id].mode != Token {
      ToBlockingSound(s, id);
      var t := if s.bindings[id].mode == Unset then RefreshReady(Put(s, id, s.bindings[id].(mode := Blocking)), id) else s;
      PopEventSound(t, id);
      ObservedSound(t, id);
      WaitingSound(t, t.(parked := t.parked + {id}));
    }
  }

  lemma {:induction false} WaitingSound(s: State, t: State)
    requires Sound(s) && t == s.(parked := t.parked, notified := t.notified)
    ensures Sound(t)
  {}

  lemma {:induction false} BeginCloseSound(s: State, id: nat, queued: bool, down: bool)
    requires Sound(s) && id in s.bindings
    ensures Sound(BeginClose(s, id, queued, down))
  {
    hide Listed, SoundBut, CloseDown;
    SoundIsBut(s, id);
    var b := s.bindings[id];
    if !b.closeStarted {
      var c := b.(closeStarted := true, active := false, items := 0, result := false);
      PutBut(s, id, c);
      InvalidateBut(Put(s, id, c), id);
      var t := InvalidateReady(Put(s, id, c), id);
      var d := t.bindings[id];
      PutBut(t, id, d.(request := Nothing));
      var u := if d.request == Waiting || d.request.Reserved? then Put(t, id, d.(request := Nothing)) else t;
      if b.remoteClosed || b.terminal || down || !queued {
        CloseDownSound(u, id);
      } else {
        ButSound(u, id);
      }
    }
  }

  lemma {:induction false} SignaledSound(s: State, id: nat)
    requires id in s.bindings && SoundBut(s, id) && Withdrawn(s.bindings[id])
    ensures Sound(SignalBinding(s, id)) && SignalBinding(s, id).bindings == s.bindings
  {
    hide Listed, SoundBut, SignalBinding;
    SignalBut(s, id);
    ButSound(SignalBinding(s, id), id);
  }

  lemma {:induction false} PublishedSound(s: State, id: nat)
    requires id in s.bindings && SoundBut(s, id) && !s.bindings[id].active
    requires s.bindings[id].closeStarted ==> s.bindings[id].items == 0 && !s.bindings[id].result && s.bindings[id].request in {Nothing, Held}
    ensures Sound(PublishTerminal(s, id)) && Sound(ReleaseTerminal(PublishTerminal(s, id), id))
  {
    hide Listed, SoundBut, ReleaseTerminal;
    TerminalBut(s, id);
    ButSound(PublishTerminal(s, id), id);
    ReleaseSound(PublishTerminal(s, id), id);
  }

  lemma {:induction false} AcceptedSound(s: State, id: nat, canceled: bool)
    requires Sound(s) && id in s.bindings && (!canceled ==> s.bindings[id].request == Held)
    ensures Sound(RequestDone(s, id, true, false, canceled)) && Sound(RequestDone(s, id, true, true, canceled))
  {
    hide Listed, SoundBut, Sound, PublishTerminal, SignalBinding;
    SoundIsBut(s, id);
    var b := s.bindings[id];
    var c := if !canceled then b.(request := Nothing) else b;
    if !canceled && !b.closeStarted && !b.terminal {
      PutBut(s, id, c.(result := true));
      SignaledSound(Put(s, id, c.(result := true)), id);
    } else {
      PutSound(s, id, c);
    }
  }

  lemma {:induction false} RefusedSound(s: State, id: nat, tooLarge: bool, canceled: bool)
    requires Sound(s) && id in s.bindings && (!canceled ==> s.bindings[id].request == Held)
    ensures Sound(RequestDone(s, id, false, tooLarge, canceled))
  {
    hide Listed, SoundBut, Sound, PublishTerminal, SignalBinding;
    SoundIsBut(s, id);
    var b := s.bindings[id];
    if tooLarge && !canceled {
      var c := b.(request := Nothing, result := b.result || !b.closeStarted, active := false);
      PutBut(s, id, c);
      PublishedSound(Put(s, id, c), id);
    } else {
      PutSound(s, id, if !canceled then b.(request := Nothing) else b);
    }
  }

  lemma {:induction false} RequestDoneSound(s: State, id: nat, accepted: bool, tooLarge: bool, canceled: bool)
    requires Sound(s) && id in s.bindings && (!canceled ==> s.bindings[id].request == Held)
    ensures Sound(RequestDone(s, id, accepted, tooLarge, canceled))
  {
    hide Sound, RequestDone;
    AcceptedSound(s, id, canceled);
    RefusedSound(s, id, tooLarge, canceled);
  }

  lemma {:induction false} EvictSound(s: State, id: nat)
    requires Sound(s) && id in s.bindings
    ensures Sound(Evict(s, id))
  {
    hide Listed, SoundBut, PublishTerminal, ReleaseTerminal;
    SoundIsBut(s, id);
    var b := s.bindings[id].(active := false, items := 0, result := false);
    PutBut(s, id, b);
    InvalidateBut(Put(s, id, b), id);
    var t := InvalidateReady(Put(s, id, b), id);
    PutBut(t, id, t.bindings[id].(request := Nothing));
    PublishedSound(Put(t, id, t.bindings[id].(request := Nothing)), id);
  }

  lemma {:induction false} ArriveSound(s: State, id: nat, external: bool)
    requires Sound(s) && id in s.bindings
    ensures Sound(Arrive(s, id, external))
  {
    hide Listed, SoundBut, PublishTerminal, SignalBinding;
    SoundIsBut(s, id);
    var b := s.bindings[id];
    if !b.terminal && !b.closeStarted {
      var c := b.(items := b.items + 1);
      PutBut(s, id, c);
      SignaledSound(Put(s, id, c), id);
      var t := SignalBinding(Put(s, id, c), id);
      SoundIsBut(t, id);
      var d := t.bindings[id].(remoteClosed := true, active := false);
      PutBut(t, id, d);
      PublishedSound(Put(t, id, d), id);
    }
  }

  lemma {:induction false} ClosingSections(s: State, id: nat)
    requires Sound(s) && id in s.bindings
    ensures Sound(RemoteCloses(s, id)) && Sound(Terminalize(s, id)) && Sound(SlotFails(s, id))
    ensures s.bindings[id].closeStarted ==> Sound(CloseDown(s, id))
  {
    hide Listed, SoundBut, Sound, PublishTerminal, ReleaseTerminal, CloseDown;
    SoundIsBut(s, id);
    var b := s.bindings[id];
    PutBut(s, id, b.(remoteClosed := true, request := Nothing));
    PutBut(s, id, b.(active := false, request := Nothing));
    PutBut(s, id, b.(request := Nothing));
    if b.closeStarted {
      CloseDownSound(s, id);
      CloseDownSound(Put(s, id, b.(remoteClosed := true, request := Nothing)), id);
      CloseDownSound(Put(s, id, b.(active := false, request := Nothing)), id);
    }
    PublishedSound(Put(s, id, b.(active := false, request := Nothing)), id);
    ButSound(Put(s, id, b.(request := Nothing)), id);
  }

  lemma {:induction false} ManagerPublishesSound(s: State, id: nat)
    requires Sound(s) && id in s.bindings
    ensures var u := ManagerPublishes(s, id);
            Sound(u) && id in u.bindings && !u.bindings[id].active && u.bindings[id].items == 0
            && !u.bindings[id].result && u.bindings[id].request == Nothing
  {
    hide Listed, SoundBut, Sound, PublishTerminal, InvalidateReady;
    SoundIsBut(s, id);
    var b := s.bindings[id].(active := false, items := 0, result := false);
    PutBut(s, id, b);
    InvalidateBut(Put(s, id, b), id);
    var t := InvalidateReady(Put(s, id, b), id);
    PutBut(t, id, t.bindings[id].(request := Nothing));
    PublishedSound(Put(t, id, t.bindings[id].(request := Nothing)), id);
    TerminalBut(Put(t, id, t.bindings[id].(request := Nothing)), id);
  }

  lemma {:induction false} ManagerClosesSound(s: State, id: nat)
    requires Sound(s) && id in s.bindings
    ensures Sound(ManagerCloses(s, id))
  {
    hide Listed, SoundBut, Sound, ManagerPublishes, InvalidateReady;
    ManagerPublishesSound(s, id);
    var u := ManagerPublishes(s, id);
    SoundIsBut(u, id);
    PutSound(u, id, u.bindings[id].(closeSet := true));
    var v := Put(u, id, u.bindings[id].(closeSet := true));
    if s.bindings[id].mode != Token {
      LeavesSound(v, id);
    } else {
      SoundIsBut(v, id);
      PutSound(v, id, v.bindings[id].(resident := false));
    }
  }

  lemma {:induction false} LeavesSound(v: State, id: nat)
    requires Sound(v) && id in v.bindings
    requires !v.bindings[id].active && v.bindings[id].items == 0 && !v.bindings[id].result
    requires v.bindings[id].request == Nothing
    ensures var w := InvalidateReady(Put(v, id, v.bindings[id].(terminalObserved := true)), id);
            id in w.bindings && Sound(Put(w, id, w.bindings[id].(resident := false)))
  {
    hide Listed, SoundBut, Sound, InvalidateReady;
    SoundIsBut(v, id);
    PutBut(v, id, v.bindings[id].(terminalObserved := true));
    InvalidateBut(Put(v, id, v.bindings[id].(terminalObserved := true)), id);
    var w := InvalidateReady(Put(v, id, v.bindings[id].(terminalObserved := true)), id);
    PutBut(w, id, w.bindings[id].(resident := false));
    ButSound(Put(w, id, w.bindings[id].(resident := false)), id);
  }

  lemma {:induction false} LeaseSections(s: State, lease: Lease)
    requires Sound(s) && Valid(s, lease)
    ensures Sound(Step(s, TakeReservation(lease))) && Sound(Step(s, TakeEvent(lease)))
  {
    hide Listed, Sound, ReleaseTerminal, PopEvent;
    var id := lease.binding;
    var b := s.bindings[id];
    SoundIsBut(s, id);
    PutSound(s, id, b.(mode := Token));
    PopEventSound(Put(s, id, b.(mode := Token)), id);
    if b.request == Reserved(false) {
      PutSound(s, id, b.(request := Reserved(true)));
    }
  }

  lemma {:induction false} LeaseReleases(s: State, lease: Lease)
    requires Sound(s) && Valid(s, lease)
    ensures Sound(Step(s, TakeResult(lease))) && Sound(Step(s, TakeTerminal(lease)))
  {
    hide Listed, SoundBut, Sound, ReleaseTerminal;
    var id := lease.binding;
    var b := s.bindings[id];
    SoundIsBut(s, id);
    PutBut(s, id, b.(result := false));
    ReleaseSound(Put(s, id, b.(result := false)), id);
    PutBut(s, id, b.(terminalObserved := true));
    ReleaseSound(Put(s, id, b.(terminalObserved := true)), id);
  }

  lemma {:induction false} PrepareSound(s: State, id: nat, direct: bool)
    requires Sound(s) && id in s.bindings
    ensures Sound(Step(s, Prepare(id, direct)))
  {
    hide Listed, Sound;
    var b := s.bindings[id];
    SoundIsBut(s, id);
    if b.active && b.request == Nothing && !b.result {
      PutSound(s, id, b.(request := if direct then Held else Waiting));
    }
  }

  lemma {:induction false} ClaimSound(s: State, id: nat)
    requires Sound(s) && id in s.bindings
    ensures Sound(Step(s, Claim(id))) && Sound(Step(s, Drop(id)))
  {
    hide Listed, Sound;
    var b := s.bindings[id];
    SoundIsBut(s, id);
    PutSound(s, id, b.(request := Nothing));
    if b.request == Reserved(true) {
      PutSound(s, id, b.(request := Held));
    }
  }

  lemma {:induction false} PromoteSound(s: State, id: nat)
    requires Sound(s) && id in s.bindings
    ensures Sound(Step(s, Promote(id)))
  {
    hide Listed, SoundBut, Sound, SignalBinding;
    var b := s.bindings[id];
    SoundIsBut(s, id);
    if b.request == Waiting {
      PutBut(s, id, b.(request := Reserved(false)));
      SignaledSound(Put(s, id, b.(request := Reserved(false))), id);
    }
  }

  lemma {:induction false} ListSections(s: State, id: nat, token: bool)
    requires Sound(s)
    ensures Sound(Step(s, Bind(id, token))) && Sound(Step(s, Receive))
  {}

  lemma {:induction false} StepSound(s: State, op: Op)
    requires Sound(s)
    ensures Sound(Step(s, op))
  {
    hide Sound, TakeReady, Acknowledge, NextEvent, BeginClose, RequestDone, Evict, Arrive, RemoteCloses, Terminalize,
         SlotFails, ManagerCloses, CloseDown, PopEvent, ReleaseTerminal, SignalBinding;
    match op
    case Bind(id, token) => ListSections(s, id, token);
    case Receive => ListSections(s, 0, false);
    case Take => TakeReadySound(s);
    case TakeReservation(lease) => if Valid(s, lease) { LeaseSections(s, lease); }
    case TakeResult(lease) => if Valid(s, lease) { LeaseReleases(s, lease); }
    case TakeEvent(lease) => if Valid(s, lease) { LeaseSections(s, lease); }
    case TakeTerminal(lease) => if Valid(s, lease) { LeaseReleases(s, lease); }
    case Ack(lease) => if Valid(s, lease) { AcknowledgeSound(s, lease); }
    case Prepare(id, direct) => if id in s.bindings { PrepareSound(s, id, direct); }
    case Promote(id) => if id in s.bindings { PromoteSound(s, id); }
    case Claim(id) => if id in s.bindings { ClaimSound(s, id); }
    case Drop(id) => if id in s.bindings { ClaimSound(s, id); }
    case Done(id, accepted, tooLarge, canceled) =>
      if id in s.bindings && (canceled || s.bindings[id].request == Held) { RequestDoneSound(s, id, accepted, tooLarge, canceled); }
    case Event(id, external) => if id in s.bindings { ArriveSound(s, id, external); }
    case Pressure(id) => if id in s.bindings { EvictSound(s, id); }
    case Block(id) => if id in s.bindings { NextEventSound(s, id); }
    case Notified(id) => WaitingSound(s, Step(s, op));
    case GiveUp(id) => WaitingSound(s, Step(s, op));
    case Close(id, queued, down) => if id in s.bindings { BeginCloseSound(s, id, queued, down); }
    case CloseAccepted(id) => if id in s.bindings { ClosingSections(s, id); }
    case RemoteClose(id) => if id in s.bindings { ClosingSections(s, id); }
    case Reject(id) => if id in s.bindings { ClosingSections(s, id); }
    case FailSlot(id) => if id in s.bindings { ClosingSections(s, id); }
    case Shutdown(id) => if id in s.bindings { ManagerClosesSound(s, id); }
  }

  /**
   * On every run no wakeup is lost: a binding with a reason is in the ready list or leased, never both; a
   * non-empty list is announced or being looked at; and at most the newest lease of a binding is valid.
   */
  lemma {:induction false} RunSound(ops: seq<Op>)
    ensures Sound(Run(START, ops))
  {
    RunKeepsSound(START, ops);
  }

  lemma {:induction false} RunKeepsSound(s: State, ops: seq<Op>)
    requires Sound(s)
    ensures Sound(Run(s, ops))
    decreases |ops|
  {
    hide Sound, Step;
    if ops != [] {
      StepSound(s, ops[0]);
      var next := Step(s, ops[0]);
      RunKeepsSound(next, ops[1..]);
    }
  }

  // ---------------------------------------------------------------- leases

  /** No lease of an old epoch comes back, and none of the current one comes back once given up. */
  predicate Ages(s: State, t: State, id: nat) {
    id in s.bindings ==>
      && id in t.bindings && s.bindings[id].epoch <= t.bindings[id].epoch
      && (t.bindings[id].epoch == s.bindings[id].epoch && t.bindings[id].leased ==> s.bindings[id].leased)
  }

  /** Only binding x changes, it gets no new lease. */
  predicate Touches(s: State, t: State, x: nat) {
    && x in s.bindings && x in t.bindings && t.bindings == s.bindings[x := t.bindings[x]]
    && t.bindings[x].epoch == s.bindings[x].epoch && (t.bindings[x].leased ==> s.bindings[x].leased)
  }

  lemma {:induction false} TouchesAges(s: State, t: State, x: nat, id: nat)
    requires Touches(s, t, x)
    ensures Ages(s, t, id)
  {}

  lemma {:induction false} Then(s: State, t: State, u: State, x: nat)
    requires Touches(s, t, x) && Touches(t, u, x)
    ensures Touches(s, u, x)
  {}

  lemma {:induction false} PutTouches(s: State, x: nat, b: Binding)
    requires x in s.bindings && b.epoch == s.bindings[x].epoch && (b.leased ==> s.bindings[x].leased)
    ensures Touches(s, Put(s, x, b), x)
  {}

  lemma {:induction false} SameTouches(s: State, t: State, x: nat)
    requires x in s.bindings && t.bindings == s.bindings
    ensures Touches(s, t, x)
  {}

  lemma {:induction false} SignalKeeps(s: State, x: nat)
    requires x in s.bindings
    ensures SignalBinding(s, x).bindings == s.bindings && RefreshReady(s, x).bindings == s.bindings
    ensures EnqueueReady(s, x).bindings == s.bindings
  {
    hide HasReason, Without;
  }

  lemma {:induction false} InvalidateTouches(s: State, x: nat)
    requires x in s.bindings
    ensures Touches(s, InvalidateReady(s, x), x)
  {
    hide Without;
  }

  lemma {:induction false} ReleaseTouches(s: State, x: nat)
    requires x in s.bindings
    ensures Touches(s, ReleaseTerminal(s, x), x)
  {
    assert s.bindings == s.bindings[x := s.bindings[x]];
  }

  lemma {:induction false} SignalTouches(s: State, x: nat)
    requires x in s.bindings
    ensures SignalBinding(s, x).bindings == s.bindings && RefreshReady(s, x).bindings == s.bindings
    ensures Touches(s, InvalidateReady(s, x), x) && Touches(s, ReleaseTerminal(s, x), x)
  {
    hide Touches, SignalBinding, RefreshReady, InvalidateReady, ReleaseTerminal;
    SignalKeeps(s, x);
    InvalidateTouches(s, x);
    ReleaseTouches(s, x);
  }

  lemma {:induction false} TerminalTouches(s: State, x: nat)
    requires x in s.bindings
    ensures Touches(s, PublishTerminal(s, x), x)
  {
    hide SignalBinding;
    SignalTouches(Put(s, x, s.bindings[x].(terminal := true)), x);
  }

  lemma {:induction false} Exists(s: State, t: State, x: nat)
    requires Touches(s, t, x)
    ensures x in s.bindings && x in t.bindings
    ensures t.bindings[x].epoch == s.bindings[x].epoch && (t.bindings[x].leased ==> s.bindings[x].leased)
  {}

  lemma {:induction false} CloseDownTouches(s: State, x: nat)
    requires x in s.bindings
    ensures Touches(s, CloseDown(s, x), x)
  {
    hide Touches, PublishTerminal, InvalidateReady, ReleaseTerminal;
    TerminalTouches(s, x);
    var t := PublishTerminal(s, x);
    Exists(s, t, x);
    var u := Put(t, x, t.bindings[x].(closeSet := true, terminalObserved := true));
    PutTouches(t, x, t.bindings[x].(closeSet := true, terminalObserved := true));
    Then(s, t, u, x);
    var v := InvalidateReady(u, x);
    SignalTouches(u, x);
    Then(s, u, v, x);
    Exists(s, v, x);
    SignalTouches(v, x);
    Then(s, v, ReleaseTerminal(v, x), x);
  }

  lemma {:induction false} BeginCloseTouches(s: State, x: nat, queued: bool, down: bool)
    requires x in s.bindings
    ensures Touches(s, BeginClose(s, x, queued, down), x)
  {
    hide Touches, InvalidateReady, CloseDown;
    SameTouches(s, s, x);
    var b := s.bindings[x].(closeStarted := true, active := false, items := 0, result := false);
    PutTouches(s, x, b);
    var t := InvalidateReady(Put(s, x, b), x);
    SignalTouches(Put(s, x, b), x);
    Then(s, Put(s, x, b), t, x);
    Exists(s, t, x);
    var c := t.bindings[x].(request := Nothing);
    PutTouches(t, x, c);
    Then(s, t, Put(t, x, c), x);
    CloseDownTouches(t, x);
    Then(s, t, CloseDown(t, x), x);
    CloseDownTouches(Put(t, x, c), x);
    Then(s, Put(t, x, c), CloseDown(Put(t, x, c), x), x);
  }

  /** Publish the terminal state, then release: after any edit of the binding. */
  lemma {:induction false} PublishTouches(s: State, t: State, x: nat)
    requires Touches(s, t, x)
    ensures x in t.bindings && Touches(s, PublishTerminal(t, x), x) && x in PublishTerminal(t, x).bindings
    ensures Touches(s, ReleaseTerminal(PublishTerminal(t, x), x), x) && Touches(s, CloseDown(t, x), x)
  {
    hide Touches, PublishTerminal, ReleaseTerminal, CloseDown;
    Exists(s, t, x);
    TerminalTouches(t, x);
    Then(s, t, PublishTerminal(t, x), x);
    Exists(s, PublishTerminal(t, x), x);
    SignalTouches(PublishTerminal(t, x), x);
    Then(s, PublishTerminal(t, x), ReleaseTerminal(PublishTerminal(t, x), x), x);
    CloseDownTouches(t, x);
    Then(s, t, CloseDown(t, x), x);
  }

  lemma {:induction false} ClosingTouches(s: State, x: nat)
    requires x in s.bindings
    ensures Touches(s, RemoteCloses(s, x), x) && Touches(s, Terminalize(s, x), x) && Touches(s, SlotFails(s, x), x)
  {
    hide Touches, PublishTerminal, ReleaseTerminal, CloseDown;
    SameTouches(s, s, x);
    var b := s.bindings[x];
    PutTouches(s, x, b.(remoteClosed := true, request := Nothing));
    PublishTouches(s, Put(s, x, b.(remoteClosed := true, request := Nothing)), x);
    PutTouches(s, x, b.(active := false, request := Nothing));
    PublishTouches(s, Put(s, x, b.(active := false, request := Nothing)), x);
    PutTouches(s, x, b.(request := Nothing));
  }

  lemma {:induction false} EvictTouches(s: State, x: nat)
    requires x in s.bindings
    ensures Touches(s, Evict(s, x), x) && Touches(s, ManagerPublishes(s, x), x)
  {
    hide Touches, PublishTerminal, ReleaseTerminal, InvalidateReady;
    var b := s.bindings[x].(active := false, items := 0, result := false);
    PutTouches(s, x, b);
    SignalTouches(Put(s, x, b), x);
    var t := InvalidateReady(Put(s, x, b), x);
    Then(s, Put(s, x, b), t, x);
    Exists(s, t, x);
    PutTouches(t, x, t.bindings[x].(request := Nothing));
    Then(s, t, Put(t, x, t.bindings[x].(request := Nothing)), x);
    PublishTouches(s, Put(t, x, t.bindings[x].(request := Nothing)), x);
  }

  lemma {:induction false} ArriveTouches(s: State, x: nat, external: bool)
    requires x in s.bindings
    ensures Touches(s, Arrive(s, x, external), x)
  {
    hide Touches, PublishTerminal, SignalBinding;
    SameTouches(s, s, x);
    var b := s.bindings[x].(items := s.bindings[x].items + 1);
    PutTouches(s, x, b);
    SignalTouches(Put(s, x, b), x);
    var t := SignalBinding(Put(s, x, b), x);
    SameTouches(Put(s, x, b), t, x);
    Then(s, Put(s, x, b), t, x);
    Exists(s, t, x);
    PutTouches(t, x, t.bindings[x].(remoteClosed := true, active := false));
    Then(s, t, Put(t, x, t.bindings[x].(remoteClosed := true, active := false)), x);
    PublishTouches(s, Put(t, x, t.bindings[x].(remoteClosed := true, active := false)), x);
  }

  lemma {:induction false} ManagerTouches(s: State, x: nat)
    requires x in s.bindings
    ensures Touches(s, ManagerCloses(s, x), x)
  {
    hide Touches, ManagerPublishes, InvalidateReady;
    EvictTouches(s, x);
    var u := ManagerPublishes(s, x);
    Exists(s, u, x);
    PutTouches(u, x, u.bindings[x].(closeSet := true));
    var v := Put(u, x, u.bindings[x].(closeSet := true));
    Then(s, u, v, x);
    PutTouches(v, x, v.bindings[x].(resident := false));
    Then(s, v, Put(v, x, v.bindings[x].(resident := false)), x);
    PutTouches(v, x, v.bindings[x].(terminalObserved := true));
    var o := Put(v, x, v.bindings[x].(terminalObserved := true));
    Then(s, v, o, x);
    var w := InvalidateReady(o, x);
    SignalTouches(o, x);
    Then(s, o, w, x);
    Exists(s, w, x);
    PutTouches(w, x, w.bindings[x].(resident := false));
    Then(s, w, Put(w, x, w.bindings[x].(resident := false)), x);
    ManagerClosesIs(s, x);
  }

  lemma {:induction false} ManagerClosesIs(s: State, x: nat)
    requires x in s.bindings
    ensures ManagerCloses(s, x) ==
            var u := ManagerPublishes(s, x);
            var v := Put(u, x, u.bindings[x].(closeSet := true));
            if s.bindings[x].mode != Token then
              var w := InvalidateReady(Put(v, x, v.bindings[x].(terminalObserved := true)), x);
              Put(w, x, w.bindings[x].(resident := false))
            else Put(v, x, v.bindings[x].(resident := false))
  {
    hide PublishTerminal, InvalidateReady;
  }

  lemma {:induction false} ReleasedTouches(s: State, x: nat, b: Binding)
    requires x in s.bindings && b.epoch == s.bindings[x].epoch && (b.leased ==> s.bindings[x].leased)
    ensures Touches(s, Put(s, x, b), x) && Touches(s, ReleaseTerminal(Put(s, x, b), x), x)
  {
    hide Touches, ReleaseTerminal;
    PutTouches(s, x, b);
    SignalTouches(Put(s, x, b), x);
    Then(s, Put(s, x, b), ReleaseTerminal(Put(s, x, b), x), x);
  }

  lemma {:induction false} TakeTouches(s: State, lease: Lease)
    requires Valid(s, lease)
    ensures Touches(s, Step(s, TakeResult(lease)), lease.binding) && Touches(s, Step(s, TakeTerminal(lease)), lease.binding)
  {
    hide Touches, ReleaseTerminal;
    var x := lease.binding;
    SameTouches(s, s, x);
    ReleasedTouches(s, x, s.bindings[x].(result := false));
    ReleasedTouches(s, x, s.bindings[x].(terminalObserved := true));
  }

  lemma {:induction false} PopTouches(s: State, x: nat)
    requires x in s.bindings
    ensures Touches(s, PopEvent(s, x), x)
  {
    hide Touches, ReleaseTerminal;
    SameTouches(s, s, x);
    if s.bindings[x].items != 0 {
      ReleasedTouches(s, x, s.bindings[x].(items := s.bindings[x].items - 1));
    }
  }

  lemma {:induction false} TakeEventTouches(s: State, lease: Lease)
    requires Valid(s, lease)
    ensures Touches(s, Step(s, TakeEvent(lease)), lease.binding)
  {
    hide Touches, PopEvent;
    var x := lease.binding;
    SameTouches(s, s, x);
    var t := Put(s, x, s.bindings[x].(mode := Token));
    PutTouches(s, x, s.bindings[x].(mode := Token));
    PopTouches(t, x);
    Then(s, t, PopEvent(t, x), x);
  }

  lemma {:induction false} AcknowledgeTouches(s: State, lease: Lease)
    requires Valid(s, lease)
    ensures Touches(s, Acknowledge(s, lease), lease.binding)
  {
    hide Touches, ReleaseTerminal, EnqueueReady, HasReason;
    var x := lease.binding;
    var t := Put(s, x, s.bindings[x].(leased := false));
    var u := if HasReason(t.bindings[x]) then EnqueueReady(t, x) else t;
    PutTouches(s, x, s.bindings[x].(leased := false));
    SignalKeeps(t, x);
    SameTouches(t, u, x);
    Then(s, t, u, x);
    SignalTouches(u, x);
    Then(s, u, ReleaseTerminal(u, x), x);
  }

  lemma {:induction false} BlockingTouches(s: State, x: nat)
    requires x in s.bindings
    ensures var c := Put(s, x, s.bindings[x].(mode := Blocking)); Touches(s, RefreshReady(c, x), x)
  {
    hide Touches, RefreshReady;
    var c := Put(s, x, s.bindings[x].(mode := Blocking));
    PutTouches(s, x, s.bindings[x].(mode := Blocking));
    SignalTouches(c, x);
    SameTouches(c, RefreshReady(c, x), x);
    Then(s, c, RefreshReady(c, x), x);
  }

  lemma {:induction false} NextEventTouches(s: State, x: nat)
    requires x in s.bindings
    ensures Touches(s, NextEvent(s, x), x)
  {
    hide Touches, ReleaseTerminal, RefreshReady, PopEvent;
    SameTouches(s, s, x);
    BlockingTouches(s, x);
    var t := if s.bindings[x].mode == Unset then RefreshReady(Put(s, x, s.bindings[x].(mode := Blocking)), x) else s;
    Exists(s, t, x);
    PopTouches(t, x);
    Then(s, t, PopEvent(t, x), x);
    ReleasedTouches(t, x, t.bindings[x].(terminalObserved := true));
    Then(s, t, ReleaseTerminal(Put(t, x, t.bindings[x].(terminalObserved := true)), x), x);
    SameTouches(t, t.(parked := t.parked + {x}), x);
    Then(s, t, t.(parked := t.parked + {x}), x);
  }

  lemma {:induction false} PutSignalTouches(s: State, x: nat, b: Binding)
    requires x in s.bindings && b.epoch == s.bindings[x].epoch && b.leased == s.bindings[x].leased
    ensures Touches(s, SignalBinding(Put(s, x, b), x), x)
  {
    hide Touches, SignalBinding;
    var t := Put(s, x, b);
    PutTouches(s, x, b);
    SignalTouches(t, x);
    SameTouches(t, SignalBinding(t, x), x);
    Then(s, t, SignalBinding(t, x), x);
  }

  lemma {:induction false} PromoteTouches(s: State, x: nat)
    requires x in s.bindings
    ensures Touches(s, Step(s, Promote(x)), x)
  {
    hide Touches, SignalBinding;
    SameTouches(s, s, x);
    PutSignalTouches(s, x, s.bindings[x].(request := Reserved(false)));
  }

  lemma {:induction false} RequestTouches(s: State, x: nat, accepted: bool, tooLarge: bool, canceled: bool)
    requires x in s.bindings
    ensures Touches(s, RequestDone(s, x, accepted, tooLarge, canceled), x)
  {
    hide Touches, PublishTerminal, SignalBinding;
    var b := s.bindings[x];
    var open := !canceled && !b.closeStarted;
    var c := if !canceled then b.(request := Nothing) else b;
    if accepted && open && !b.terminal {
      PutSignalTouches(s, x, c.(result := true));
    } else if !accepted && tooLarge && !canceled {
      PutTouches(s, x, c.(result := c.result || open, active := false));
      PublishTouches(s, Put(s, x, c.(result := c.result || open, active := false)), x);
    } else {
      PutTouches(s, x, c);
    }
  }

  lemma {:induction false} TakeReadyAges(s: State, id: nat)
    ensures Ages(s, TakeReady(s), id)
  {}

  lemma {:induction false} SameAges(s: State, id: nat)
    ensures Ages(s, s, id)
  {}

  lemma {:induction false} PlainAges(s: State, op: Op, id: nat)
    requires op.Bind? || op.Receive? || op.TakeReservation? || op.Prepare? || op.Claim? || op.Drop? || op.Notified? || op.GiveUp?
    ensures Ages(s, Step(s, op), id)
  {}

  lemma {:induction false} StepAges(s: State, op: Op, id: nat)
    ensures Ages(s, Step(s, op), id)
  {
    hide Touches, TakeReady, Acknowledge, NextEvent, BeginClose, RequestDone, Evict, Arrive, RemoteCloses, Terminalize, SlotFails,
         ManagerCloses, CloseDown, PopEvent, ReleaseTerminal, SignalBinding, Ages;
    var t := Step(s, op);
    SameAges(s, id);
    match op
    case Take => TakeReadyAges(s, id);
    case TakeResult(lease) => if Valid(s, lease) { TakeTouches(s, lease); TouchesAges(s, t, lease.binding, id); }
    case TakeEvent(lease) => if Valid(s, lease) { TakeEventTouches(s, lease); TouchesAges(s, t, lease.binding, id); }
    case TakeTerminal(lease) => if Valid(s, lease) { TakeTouches(s, lease); TouchesAges(s, t, lease.binding, id); }
    case Ack(lease) => if Valid(s, lease) { AcknowledgeTouches(s, lease); TouchesAges(s, t, lease.binding, id); }
    case Promote(x) => if x in s.bindings { PromoteTouches(s, x); TouchesAges(s, t, x, id); }
    case Done(x, accepted, tooLarge, canceled) =>
      if x in s.bindings { RequestTouches(s, x, accepted, tooLarge, canceled); SameTouches(s, s, x); TouchesAges(s, t, x, id); }
    case Event(x, external) => if x in s.bindings { ArriveTouches(s, x, external); TouchesAges(s, t, x, id); }
    case Pressure(x) => if x in s.bindings { EvictTouches(s, x); SameTouches(s, s, x); TouchesAges(s, t, x, id); }
    case Block(x) => if x in s.bindings { NextEventTouches(s, x); SameTouches(s, s, x); TouchesAges(s, t, x, id); }
    case Close(x, queued, down) => if x in s.bindings { BeginCloseTouches(s, x, queued, down); TouchesAges(s, t, x, id); }
    case CloseAccepted(x) => if x in s.bindings { CloseDownTouches(s, x); SameTouches(s, s, x); TouchesAges(s, t, x, id); }
    case RemoteClose(x) => if x in s.bindings { ClosingTouches(s, x); TouchesAges(s, t, x, id); }
    case Reject(x) => if x in s.bindings { ClosingTouches(s, x); TouchesAges(s, t, x, id); }
    case FailSlot(x) => if x in s.bindings { ClosingTouches(s, x); TouchesAges(s, t, x, id); }
    case Shutdown(x) => if x in s.bindings { ManagerTouches(s, x); SameTouches(s, s, x); TouchesAges(s, t, x, id); }
    case _ => PlainAges(s, op, id);
  }

  /** A lease once stale stays stale: acknowledging, withdrawing or closing can never revive an old token. */
  lemma {:induction false} StaleForever(s: State, ops: seq<Op>, lease: Lease)
    requires lease.binding in s.bindings && lease.epoch <= s.bindings[lease.binding].epoch
    requires !(s.bindings[lease.binding].leased && s.bindings[lease.binding].epoch == lease.epoch)
    ensures !Valid(Run(s, ops), lease)
    decreases |ops|
  {
    hide Step;
    if ops != [] {
      StepAges(s, ops[0], lease.binding);
      var next := Step(s, ops[0]);
      StaleForever(next, ops[1..], lease);
    }
  }

  /** Two valid leases of one binding are the same lease. */
  lemma {:induction false} OneValidLease(s: State, a: Lease, b: Lease)
    requires Valid(s, a) && Valid(s, b) && a.binding == b.binding
    ensures a == b
  {}

  // ---------------------------------------------------------------- the blocking consumer

  predicate Owes(b: Binding) {
    b.items > 0 || b.terminal
  }

  /** Whoever waits on the notify channel of a binding that has an event or its end for it finds a token there. */
  predicate Roused(s: State) {
    forall id | id in s.parked :: id in s.bindings && (Owes(s.bindings[id]) ==> id in s.notified)
  }

  /** Binding `id` is given nothing to wait for without a token; the others stay as they are. */
  predicate Rouses(s: State, t: State, id: nat) {
    && t.parked == s.parked && s.notified <= t.notified && id in s.bindings && id in t.bindings
    && (forall x | x in s.bindings && x != id :: x in t.bindings && t.bindings[x] == s.bindings[x])
    && (Owes(t.bindings[id]) ==> id in t.notified || Owes(s.bindings[id]))
  }

  lemma {:induction false} RousedStays(s: State, t: State, id: nat)
    requires Roused(s) && Rouses(s, t, id)
    ensures Roused(t)
  {}

  lemma {:induction false} RousesTwice(s: State, t: State, u: State, id: nat)
    requires Rouses(s, t, id) && Rouses(t, u, id)
    ensures Rouses(s, u, id)
  {}

  lemma {:induction false} RousedThere(s: State, t: State, id: nat)
    requires Rouses(s, t, id)
    ensures id in t.bindings
  {}

  lemma {:induction false} PutRouses(s: State, id: nat, b: Binding)
    requires id in s.bindings && (Owes(b) ==> Owes(s.bindings[id]))
    ensures Rouses(s, Put(s, id, b), id)
  {}

  lemma {:induction false} ListRouses(s: State, id: nat)
    requires id in s.bindings
    ensures Rouses(s, s, id) && Rouses(s, EnqueueReady(s, id), id) && Rouses(s, UnlinkReady(s, id), id)
    ensures UnlinkReady(s, id).bindings == s.bindings && EnqueueReady(s, id).bindings == s.bindings
  {
    hide Without, HasReason;
  }

  lemma {:induction false} InvalidateRouses(s: State, id: nat)
    requires id in s.bindings
    ensures Rouses(s, InvalidateReady(s, id), id)
  {
    hide UnlinkReady, Rouses;
    ListRouses(s, id);
    var t := UnlinkReady(s, id);
    PutRouses(t, id, t.bindings[id].(leased := false));
    RousesTwice(s, t, InvalidateReady(s, id), id);
  }

  lemma {:induction false} ReleaseRouses(s: State, id: nat)
    requires id in s.bindings
    ensures Rouses(s, ReleaseTerminal(s, id), id)
  {
    hide Rouses;
    ListRouses(s, id);
    PutRouses(s, id, s.bindings[id].(resident := false));
  }

  lemma {:induction false} RefreshRouses(s: State, id: nat)
    requires id in s.bindings
    ensures Rouses(s, RefreshReady(s, id), id)
  {
    hide UnlinkReady, EnqueueReady, Rouses;
    ListRouses(s, id);
    var t := UnlinkReady(s, id);
    ListRouses(t, id);
    RousesTwice(s, t, EnqueueReady(t, id), id);
  }

  /** Whatever it owes by then, a signalled binding's consumer has its token. */
  lemma {:induction false} SignalRouses(s: State, t: State, id: nat)
    requires id in s.bindings && t.parked == s.parked && s.notified <= t.notified && id in t.bindings
    requires forall x | x in s.bindings && x != id :: x in t.bindings && t.bindings[x] == s.bindings[x]
    ensures Rouses(s, SignalBinding(t, id), id)
  {
    hide HasReason;
  }

  lemma {:induction false} TerminalRouses(s: State, t: State, id: nat)
    requires Rouses(s, t, id)
    ensures Rouses(s, PublishTerminal(t, id), id)
  {
    hide SignalBinding;
    SignalRouses(s, Put(t, id, t.bindings[id].(terminal := true)), id);
  }

  lemma {:induction false} CloseDownRouses(s: State, t: State, id: nat)
    requires Rouses(s, t, id)
    ensures Rouses(s, CloseDown(t, id), id)
  {
    hide PublishTerminal, InvalidateReady, ReleaseTerminal;
    TerminalRouses(s, t, id);
    var u := PublishTerminal(t, id);
    var b := u.bindings[id].(closeSet := true, terminalObserved := true);
    PutRouses(u, id, b);
    var v := Put(u, id, b);
    InvalidateRouses(v, id);
    var w := InvalidateReady(v, id);
    ReleaseRouses(w, id);
    hide Rouses;
    RousesTwice(s, u, v, id);
    RousesTwice(s, v, w, id);
    RousesTwice(s, w, ReleaseTerminal(w, id), id);
  }

  /** Edits that owe no more, then the terminal state, then the release. */
  lemma {:induction false} PublishRouses(s: State, t: State, id: nat)
    requires Rouses(s, t, id)
    ensures Rouses(s, PublishTerminal(t, id), id) && Rouses(s, ReleaseTerminal(PublishTerminal(t, id), id), id)
  {
    hide PublishTerminal, ReleaseTerminal;
    TerminalRouses(s, t, id);
    ReleaseRouses(PublishTerminal(t, id), id);
    hide Rouses;
    RousesTwice(s, PublishTerminal(t, id), ReleaseTerminal(PublishTerminal(t, id), id), id);
  }

  lemma {:induction false} EditRouses(s: State, t: State, id: nat, b: Binding)
    requires Rouses(s, t, id) && (Owes(b) ==> Owes(t.bindings[id]))
    ensures Rouses(s, Put(t, id, b), id)
  {
    PutRouses(t, id, b);
    hide Rouses;
    RousesTwice(s, t, Put(t, id, b), id);
  }

  lemma {:induction false} ClearsRouses(s: State, id: nat, b: Binding)
    requires id in s.bindings && (Owes(b) ==> Owes(s.bindings[id]))
    ensures var t := InvalidateReady(Put(s, id, b), id); Rouses(s, t, id) && t.bindings[id] == b.(leased := false)
  {
    hide UnlinkReady;
    PutRouses(s, id, b);
    ListRouses(Put(s, id, b), id);
    InvalidateRouses(Put(s, id, b), id);
    hide Rouses;
    RousesTwice(s, Put(s, id, b), InvalidateReady(Put(s, id, b), id), id);
  }

  lemma {:induction false} BeginCloseRouses(s: State, id: nat, queued: bool, down: bool)
    requires id in s.bindings
    ensures Rouses(s, BeginClose(s, id, queued, down), id)
  {
    hide InvalidateReady, CloseDown, Rouses;
    ListRouses(s, id);
    var b := s.bindings[id].(closeStarted := true, active := false, items := 0, result := false);
    ClearsRouses(s, id, b);
    var t := InvalidateReady(Put(s, id, b), id);
    RousedThere(s, t, id);
    EditRouses(s, t, id, t.bindings[id].(request := Nothing));
    CloseDownRouses(s, t, id);
    CloseDownRouses(s, Put(t, id, t.bindings[id].(request := Nothing)), id);
  }

  lemma {:induction false} EvictRouses(s: State, id: nat)
    requires id in s.bindings
    ensures Rouses(s, Evict(s, id), id) && Rouses(s, ManagerPublishes(s, id), id)
  {
    hide InvalidateReady, PublishTerminal, ReleaseTerminal, Rouses;
    var b := s.bindings[id].(active := false, items := 0, result := false);
    ClearsRouses(s, id, b);
    var t := InvalidateReady(Put(s, id, b), id);
    RousedThere(s, t, id);
    EditRouses(s, t, id, t.bindings[id].(request := Nothing));
    PublishRouses(s, Put(t, id, t.bindings[id].(request := Nothing)), id);
  }

  lemma {:induction false} ManagerRouses(s: State, id: nat)
    requires id in s.bindings
    ensures Rouses(s, ManagerCloses(s, id), id)
  {
    hide InvalidateReady, ManagerPublishes, Rouses;
    EvictRouses(s, id);
    var u := ManagerPublishes(s, id);
    RousedThere(s, u, id);
    EditRouses(s, u, id, u.bindings[id].(closeSet := true));
    var v := Put(u, id, u.bindings[id].(closeSet := true));
    EditRouses(s, v, id, v.bindings[id].(resident := false));
    ClearsRouses(v, id, v.bindings[id].(terminalObserved := true));
    var w := InvalidateReady(Put(v, id, v.bindings[id].(terminalObserved := true)), id);
    RousesTwice(s, v, w, id);
    RousedThere(s, w, id);
    EditRouses(s, w, id, w.bindings[id].(resident := false));
    ManagerClosesIs(s, id);
  }

  lemma {:induction false} ClosingRouses(s: State, id: nat)
    requires id in s.bindings
    ensures Rouses(s, RemoteCloses(s, id), id) && Rouses(s, Terminalize(s, id), id) && Rouses(s, SlotFails(s, id), id)
  {
    hide PublishTerminal, ReleaseTerminal, CloseDown, Rouses;
    ListRouses(s, id);
    var b := s.bindings[id];
    PutRouses(s, id, b.(remoteClosed := true, request := Nothing));
    CloseDownRouses(s, Put(s, id, b.(remoteClosed := true, request := Nothing)), id);
    PutRouses(s, id, b.(active := false, request := Nothing));
    CloseDownRouses(s, Put(s, id, b.(active := false, request := Nothing)), id);
    PublishRouses(s, Put(s, id, b.(active := false, request := Nothing)), id);
    PutRouses(s, id, b.(request := Nothing));
  }

  lemma {:induction false} ArriveRouses(s: State, id: nat, external: bool)
    requires id in s.bindings
    ensures Rouses(s, Arrive(s, id, external), id)
  {
    hide PublishTerminal, SignalBinding;
    ListRouses(s, id);
    var c := s.bindings[id].(items := s.bindings[id].items + 1);
    SignalRouses(s, Put(s, id, c), id);
    var t := SignalBinding(Put(s, id, c), id);
    EditRouses(s, t, id, t.bindings[id].(remoteClosed := true, active := false));
    PublishRouses(s, Put(t, id, t.bindings[id].(remoteClosed := true, active := false)), id);
  }

  lemma {:induction false} RequestRouses(s: State, id: nat, accepted: bool, tooLarge: bool, canceled: bool)
    requires id in s.bindings
    ensures Rouses(s, RequestDone(s, id, accepted, tooLarge, canceled), id)
  {
    hide PublishTerminal, SignalBinding;
    var b := s.bindings[id];
    var open := !canceled && !b.closeStarted;
    var c := if !canceled then b.(request := Nothing) else b;
    PutRouses(s, id, c);
    SignalRouses(s, Put(s, id, c.(result := true)), id);
    PutRouses(s, id, c.(result := c.result || open, active := false));
    PublishRouses(s, Put(s, id, c.(result := c.result || open, active := false)), id);
  }

  lemma {:induction false} ReleasedRouses(s: State, id: nat, b: Binding)
    requires id in s.bindings && (Owes(b) ==> Owes(s.bindings[id]))
    ensures Rouses(s, Put(s, id, b), id) && Rouses(s, ReleaseTerminal(Put(s, id, b), id), id)
  {
    hide ReleaseTerminal;
    PutRouses(s, id, b);
    ReleaseRouses(Put(s, id, b), id);
    RousesTwice(s, Put(s, id, b), ReleaseTerminal(Put(s, id, b), id), id);
  }

  lemma {:induction false} PopRouses(s: State, id: nat)
    requires id in s.bindings
    ensures Rouses(s, PopEvent(s, id), id)
  {
    hide ReleaseTerminal;
    ListRouses(s, id);
    if s.bindings[id].items != 0 {
      ReleasedRouses(s, id, s.bindings[id].(items := s.bindings[id].items - 1));
    }
  }

  lemma {:induction false} LeaseRouses(s: State, op: Op, lease: Lease)
    requires op in {TakeReservation(lease), TakeResult(lease), TakeEvent(lease), TakeTerminal(lease)} && Valid(s, lease)
    ensures Rouses(s, Step(s, op), lease.binding)
  {
    hide ReleaseTerminal, PopEvent, Rouses;
    var id := lease.binding;
    var b := s.bindings[id];
    ListRouses(s, id);
    PutRouses(s, id, b.(request := Reserved(true)));
    ReleasedRouses(s, id, b.(result := false));
    ReleasedRouses(s, id, b.(terminalObserved := true));
    var token := Put(s, id, b.(mode := Token));
    PutRouses(s, id, b.(mode := Token));
    PopRouses(token, id);
    RousesTwice(s, token, PopEvent(token, id), id);
  }

  lemma {:induction false} AcknowledgeRouses(s: State, lease: Lease)
    requires Valid(s, lease)
    ensures Rouses(s, Acknowledge(s, lease), lease.binding)
  {
    hide ReleaseTerminal, EnqueueReady, HasReason, Rouses;
    var id := lease.binding;
    var t := Put(s, id, s.bindings[id].(leased := false));
    PutRouses(s, id, s.bindings[id].(leased := false));
    ListRouses(t, id);
    var u := if HasReason(t.bindings[id]) then EnqueueReady(t, id) else t;
    RousesTwice(s, t, u, id);
    RousedThere(t, u, id);
    ReleaseRouses(u, id);
    RousesTwice(s, u, ReleaseTerminal(u, id), id);
  }

  /** A consumer that finds nothing parks owing nothing. */
  lemma {:induction false} NextEventRoused(s: State, id: nat)
    requires Roused(s) && id in s.bindings && id !in s.parked
    ensures Roused(NextEvent(s, id))
  {
    hide ReleaseTerminal, RefreshReady, PopEvent;
    var c := Put(s, id, s.bindings[id].(mode := Blocking));
    PutRouses(s, id, s.bindings[id].(mode := Blocking));
    RefreshRouses(c, id);
    RousesTwice(s, c, RefreshReady(c, id), id);
    ListRouses(s, id);
    var t := if s.bindings[id].mode == Unset then RefreshReady(c, id) else s;
    RousedStays(s, t, id);
    PopRouses(t, id);
    RousedStays(t, PopEvent(t, id), id);
    var b := t.bindings[id].(terminalObserved := true);
    ReleasedRouses(t, id, b);
    RousedStays(t, ReleaseTerminal(Put(t, id, b), id), id);
  }

  lemma {:induction false} PlainRoused(s: State, op: Op)
    requires Roused(s)
    requires op.Bind? || op.Receive? || op.Take? || op.Prepare? || op.Claim? || op.Drop? || op.Notified? || op.GiveUp?
    ensures Roused(Step(s, op))
  {
    hide Without;
  }

  lemma {:induction false} StepRoused(s: State, op: Op)
    requires Roused(s)
    ensures Roused(Step(s, op))
  {
    hide Roused, Rouses, TakeReady, Acknowledge, NextEvent, BeginClose, RequestDone, Evict, Arrive, RemoteCloses, Terminalize,
         SlotFails, ManagerCloses, CloseDown, PopEvent, ReleaseTerminal, SignalBinding;
    var t := Step(s, op);
    match op
    case TakeReservation(lease) => if Valid(s, lease) { LeaseRouses(s, op, lease); RousedStays(s, t, lease.binding); }
    case TakeResult(lease) => if Valid(s, lease) { LeaseRouses(s, op, lease); RousedStays(s, t, lease.binding); }
    case TakeEvent(lease) => if Valid(s, lease) { LeaseRouses(s, op, lease); RousedStays(s, t, lease.binding); }
    case TakeTerminal(lease) => if Valid(s, lease) { LeaseRouses(s, op, lease); RousedStays(s, t, lease.binding); }
    case Ack(lease) => if Valid(s, lease) { AcknowledgeRouses(s, lease); RousedStays(s, t, lease.binding); }
    case Promote(id) =>
      if id in s.bindings && s.bindings[id].request == Waiting { PromoteRouses(s, id); RousedStays(s, t, id); }
    case Done(id, accepted, tooLarge, canceled) =>
      if id in s.bindings { RequestRouses(s, id, accepted, tooLarge, canceled); ListRouses(s, id); RousedStays(s, t, id); }
    case Event(id, external) => if id in s.bindings { ArriveRouses(s, id, external); RousedStays(s, t, id); }
    case Pressure(id) => if id in s.bindings { EvictRouses(s, id); ListRouses(s, id); RousedStays(s, t, id); }
    case Block(id) => if id in s.bindings && id !in s.parked { NextEventRoused(s, id); }
    case Close(id, queued, down) => if id in s.bindings { BeginCloseRouses(s, id, queued, down); RousedStays(s, t, id); }
    case CloseAccepted(id) =>
      if id in s.bindings { ListRouses(s, id); CloseDownRouses(s, s, id); RousedStays(s, t, id); }
    case RemoteClose(id) => if id in s.bindings { ClosingRouses(s, id); RousedStays(s, t, id); }
    case Reject(id) => if id in s.bindings { ClosingRouses(s, id); RousedStays(s, t, id); }
    case FailSlot(id) => if id in s.bindings { ClosingRouses(s, id); RousedStays(s, t, id); }
    case Shutdown(id) => if id in s.bindings { ManagerRouses(s, id); ListRouses(s, id); RousedStays(s, t, id); }
    case _ => PlainRoused(s, op);
  }

  lemma {:induction false} PromoteRouses(s: State, id: nat)
    requires id in s.bindings
    ensures Rouses(s, SignalBinding(Put(s, id, s.bindings[id].(request := Reserved(false))), id), id)
  {
    hide SignalBinding;
    SignalRouses(s, Put(s, id, s.bindings[id].(request := Reserved(false))), id);
  }

  lemma {:induction false} RunRoused(s: State, ops: seq<Op>)
    requires Roused(s)
    ensures Roused(Run(s, ops))
    decreases |ops|
  {
    hide Roused, Step;
    if ops != [] {
      StepRoused(s, ops[0]);
      var next := Step(s, ops[0]);
      RunRoused(next, ops[1..]);
    }
  }

  /** On every run a blocking consumer that waits while its binding has an event or its end for it has its token pending. */
  lemma {:induction false} NoLostWakeup(ops: seq<Op>, id: nat)
    requires id in Run(START, ops).parked
    ensures var s := Run(START, ops); id in s.bindings && (Owes(s.bindings[id]) ==> id in s.notified)
  {
    hide Step, Run;
    RunRoused(START, ops);
  }
}
