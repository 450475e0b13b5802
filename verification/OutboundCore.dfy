/**
 * The outbound side of the fixed-binding manager as a value: per-slot FIFOs of requests, closes and
 * probes, payload-free capacity waiters promoted by ticket, nested request limits and the control
 * reserve. Every function is one section of code run under the manager's mutex, or a part of one.
 *
 * A binding's request lives in its slot's FIFO from Prepare until it is accepted, fails or is
 * cancelled. `accepted` records, per slot, the items the link took.
 */
module OutboundCore {
  import opened Bytes
  import opened SeqSums

  const CONTROL_SIZE := 12 // ClosePayloadSize and KeepalivePayloadSize
  const MIN_REQUEST_SIZE := 96 // the smallest valid proxy request

  datatype Limits = Limits(
    bindingBytes: nat, slotItems: nat, slotBytes: nat, items: nat, bytes: nat,
    controlSlotItems: nat, controlSlotBytes: nat, controlItems: nat, controlBytes: nat)

  /** The nesting FixedBindingLimits.Validate asks for and validateFixedBindingControlReserve for `slots` slots. */
  predicate ValidLimits(l: Limits, slots: nat) {
    && 0 < slots
    && 1 <= l.slotItems <= l.items && MIN_REQUEST_SIZE <= l.bindingBytes <= l.slotBytes <= l.bytes
    && l.controlSlotItems <= l.controlItems && l.controlSlotBytes <= l.controlBytes
    && 2 <= l.controlSlotItems && 2 * CONTROL_SIZE <= l.controlSlotBytes
    && slots + 1 <= l.controlItems && slots * CONTROL_SIZE + CONTROL_SIZE <= l.controlBytes
  }

  datatype Phase = Waiting | Reserved | Materializing | Materialized | Attempting
  datatype Kind = Request | Control | Probe

  datatype Item = Item(
    id: nat,             // append order over all slots
    kind: Kind,
    owner: Option<nat>,  // the binding; a close of an unknown connection has none
    size: nat,
    ticket: nat,
    phase: Phase,        // of a request
    attempting: bool,
    canceled: bool)

  /** The slot's pending probe: its item, and whether the link accepted it. */
  datatype Pending = Pending(id: nat, submitted: bool)

  datatype Slot = Slot(
    out: seq<Item>,
    requestItems: int,
    requestBytes: int,
    controlItems: int,
    controlBytes: int,
    failed: bool,
    probe: Option<Pending>,
    wake: bool,          // a token is in requestWake
    blocked: bool,       // the link refused for lack of room and will announce room
    accepted: seq<Item>) // audit

  const NEW_SLOT := Slot([], 0, 0, 0, 0, false, None, false, false, [])

  datatype State = State(
    limits: Limits,
    slots: seq<Slot>,
    requestItems: int,
    requestBytes: int,
    controlItems: int,
    controlBytes: int,
    ready: bool,
    nextID: nat,
    nextTicket: nat)

  function Start(l: Limits, slots: nat): State {
    State(l, seq(slots, i => NEW_SLOT), 0, 0, 0, 0, true, 1, 1)
  }

  // ---------------------------------------------------------------- edits

  function SetSlot(s: State, k: nat, slot: Slot): State
    requires k < |s.slots|
  {
    s.(slots := s.slots[k := slot])
  }

  function SetItem(s: State, k: nat, i: nat, item: Item): State
    requires k < |s.slots| && i < |s.slots[k].out|
  {
    SetSlot(s, k, s.slots[k].(out := s.slots[k].out[i := item]))
  }

  /** appendOutboundLocked. */
  function Append(s: State, k: nat, item: Item): State
    requires k < |s.slots|
  {
    SetSlot(s, k, s.slots[k].(out := s.slots[k].out + [item])).(nextID := s.nextID + 1)
  }

  /** removeOutboundLocked. */
  function Remove(s: State, k: nat, i: nat): State
    requires k < |s.slots| && i < |s.slots[k].out|
  {
    SetSlot(s, k, s.slots[k].(out := s.slots[k].out[..i] + s.slots[k].out[i + 1..]))
  }

  function Signal(s: State, k: nat): State
    requires k < |s.slots|
  {
    SetSlot(s, k, s.slots[k].(wake := true))
  }

  function SignalIf(s: State, k: nat, wasHead: bool): State
    requires k < |s.slots|
  {
    if wasHead then Signal(s, k) else s
  }

  /** The counters of reserveRequestLocked (by +1) and releaseRequestChargeLocked (by -1). */
  function MoveRequests(s: State, k: nat, items: int, bytes: int): State
    requires k < |s.slots|
  {
    var slot := s.slots[k];
    SetSlot(s, k, slot.(requestItems := slot.requestItems + items, requestBytes := slot.requestBytes + bytes)).(
      requestItems := s.requestItems + items, requestBytes := s.requestBytes + bytes)
  }

  function MoveControls(s: State, k: nat, items: int): State
    requires k < |s.slots|
  {
    var slot := s.slots[k];
    SetSlot(s, k, slot.(controlItems := slot.controlItems + items,
                        controlBytes := slot.controlBytes + items * CONTROL_SIZE)).(
      controlItems := s.controlItems + items, controlBytes := s.controlBytes + items * CONTROL_SIZE)
  }

  /** releaseRequestChargeLocked: nothing is charged for a waiter. */
  function ReleaseCharge(s: State, k: nat, item: Item): State
    requires k < |s.slots|
  {
    if item.phase == Waiting then s else MoveRequests(s, k, -1, 0 - item.size)
  }

  // ---------------------------------------------------------------- reserving and promoting

  predicate SlotRoom(s: State, k: nat, size: nat)
    requires k < |s.slots|
  {
    s.slots[k].requestItems < s.limits.slotItems && size <= s.limits.slotBytes - s.slots[k].requestBytes
  }

  predicate GlobalRoom(s: State, size: nat) {
    s.requestItems < s.limits.items && size <= s.limits.bytes - s.requestBytes
  }

  predicate IsWaiting(item: Item) {
    item.kind == Request && item.phase == Waiting
  }

  /** The position of waitHead in the FIFO. */
  function WaitHead(out: seq<Item>): (r: Option<nat>)
    ensures r.None? <==> forall i | 0 <= i < |out| :: !IsWaiting(out[i])
    ensures r.Some? ==> r.value < |out| && IsWaiting(out[r.value])
                        && forall i | 0 <= i < r.value :: !IsWaiting(out[i])
  {
    if out == [] then None
    else if IsWaiting(out[0]) then Some(0)
    else match WaitHead(out[1..]) case None => None case Some(i) => Some(i + 1)
  }

  function HeadWaiter(s: State, k: nat): (r: Item)
    requires k < |s.slots| && WaitHead(s.slots[k].out).Some?
  {
    s.slots[k].out[WaitHead(s.slots[k].out).value]
  }

  /** The slot has a waiter and room of its own for it. */
  predicate Eligible(s: State, k: nat) {
    && k < |s.slots|
    && WaitHead(s.slots[k].out).Some?
    && SlotRoom(s, k, HeadWaiter(s, k).size)
  }

  /** promoteRequestsLocked's scan of the first `n` slots: the eligible head with the smallest ticket. */
  function Candidate(s: State, n: nat): (r: Option<nat>)
    requires n <= |s.slots|
    ensures r.Some? ==> r.value < n && Eligible(s, r.value)
                        && forall k | 0 <= k < n && Eligible(s, k) :: HeadWaiter(s, r.value).ticket <= HeadWaiter(s, k).ticket
    ensures r.None? ==> forall k | 0 <= k < n :: !Eligible(s, k)
  {
    if n == 0 then None
    else
      var before := Candidate(s, n - 1);
      if !Eligible(s, n - 1) then before
      else if before.None? || HeadWaiter(s, n - 1).ticket < HeadWaiter(s, before.value).ticket then Some(n - 1)
      else before
  }

  function WaiterCount(item: Item): nat {
    if IsWaiting(item) then 1 else 0
  }

  function SlotWaiters(slot: Slot): nat {
    Total(slot.out, WaiterCount)
  }

  /** removeWaitLocked and reserveRequestLocked on slot k's first waiter. */
  function ReserveHead(s: State, k: nat): State
    requires Eligible(s, k)
  {
    var i := WaitHead(s.slots[k].out).value;
    var item := s.slots[k].out[i];
    MoveRequests(SetItem(s, k, i, item.(phase := Reserved)), k, 1, item.size)
  }

  lemma {:induction false} ReserveHeadShrinks(s: State, k: nat)
    requires Eligible(s, k)
    ensures Total(ReserveHead(s, k).slots, SlotWaiters) == Total(s.slots, SlotWaiters) - 1
  {
    var i := WaitHead(s.slots[k].out).value;
    var item := s.slots[k].out[i];
    var t := ReserveHead(s, k);
    TotalUpdate(s.slots[k].out, i, item.(phase := Reserved), WaiterCount);
    TotalUpdate(s.slots, k, t.slots[k], SlotWaiters);
    assert t.slots == s.slots[k := t.slots[k]];
  }

  /** promoteRequestsLocked. */
  function Promote(s: State): State
    decreases Total(s.slots, SlotWaiters)
  {
    if !s.ready then s
    else
      var c := Candidate(s, |s.slots|);
      if c.None? || !GlobalRoom(s, HeadWaiter(s, c.value).size) then s
      else
        ReserveHeadShrinks(s, c.value);
        Promote(ReserveHead(s, c.value))
  }

  /** No waiter is promotable: none is eligible, or the oldest eligible one lacks global room. */
  predicate PromotionDone(s: State) {
    var c := Candidate(s, |s.slots|);
    c.None? || !GlobalRoom(s, HeadWaiter(s, c.value).size)
  }

  /** Promotion touches phases and counters only. */
  predicate SameShape(s: State, t: State) {
    && t.limits == s.limits && t.ready == s.ready && t.nextID == s.nextID && t.nextTicket == s.nextTicket
    && t.controlItems == s.controlItems && t.controlBytes == s.controlBytes
    && |t.slots| == |s.slots|
    && forall k | 0 <= k < |s.slots| :: SameSlotShape(s.slots[k], t.slots[k])
  }

  predicate SameSlotShape(a: Slot, b: Slot) {
    && b == a.(out := b.out, requestItems := b.requestItems, requestBytes := b.requestBytes)
    && |b.out| == |a.out|
    && forall i | 0 <= i < |a.out| :: b.out[i] == a.out[i] || (IsWaiting(a.out[i]) && b.out[i] == a.out[i].(phase := Reserved))
  }

  lemma {:induction false} ReserveHeadShape(s: State, k: nat)
    requires Eligible(s, k)
    ensures SameShape(s, ReserveHead(s, k))
  {}

  lemma {:induction false} SameSlotTransitive(a: Slot, b: Slot, c: Slot)
    requires SameSlotShape(a, b) && SameSlotShape(b, c)
    ensures SameSlotShape(a, c)
  {}

  lemma {:induction false} SameShapeTransitive(s: State, t: State, u: State)
    requires SameShape(s, t) && SameShape(t, u)
    ensures SameShape(s, u)
  {
    hide SameSlotShape;
    forall k | 0 <= k < |s.slots| ensures SameSlotShape(s.slots[k], u.slots[k]) {
      SameSlotTransitive(s.slots[k], t.slots[k], u.slots[k]);
    }
  }

  lemma {:induction false} StillReady(s: State, k: nat)
    requires Eligible(s, k)
    ensures ReserveHead(s, k).ready == s.ready
  {}

  lemma {:induction false} SameShapeItself(s: State)
    ensures SameShape(s, s)
  {}

  lemma {:induction false} PromoteEffect(s: State)
    ensures SameShape(s, Promote(s))
    ensures s.ready ==> PromotionDone(Promote(s))
    decreases Total(s.slots, SlotWaiters)
  {
    hide SameShape, ReserveHead;
    SameShapeItself(s);
    var c := Candidate(s, |s.slots|);
    if s.ready && c.Some? && GlobalRoom(s, HeadWaiter(s, c.value).size) {
      ReserveHeadShrinks(s, c.value);
      ReserveHeadShape(s, c.value);
      var t := ReserveHead(s, c.value);
      assert t.ready == s.ready by {
        StillReady(s, c.value);
      }
      PromoteEffect(t);
      SameShapeTransitive(s, t, Promote(t));
    }
  }

  // ---------------------------------------------------------------- requests

  /** prepareProxyRequest's first section; `busy` says the binding still has a request or a result. */
  function Prepare(s: State, k: nat, owner: nat, size: nat, busy: bool): State
    requires k < |s.slots|
  {
    if !s.ready || s.slots[k].failed || busy || size > s.limits.bindingBytes || size > s.limits.slotBytes || size > s.limits.bytes then s
    else if s.slots[k].out == [] && (forall j | 0 <= j < |s.slots| :: WaitHead(s.slots[j].out).None?)
         && SlotRoom(s, k, size) && GlobalRoom(s, size) then
      MoveRequests(Append(s, k, Item(s.nextID, Request, Some(owner), size, 0, Materializing, false, false)), k, 1, size)
    else
      Promote(Append(s, k, Item(s.nextID, Request, Some(owner), size, s.nextTicket, Waiting, false, false)).(
                nextTicket := s.nextTicket + 1))
  }

  predicate At(s: State, k: nat, i: nat) {
    k < |s.slots| && i < |s.slots[k].out|
  }

  predicate RequestIn(s: State, k: nat, i: nat, phase: Phase) {
    At(s, k, i) && s.slots[k].out[i].kind == Request && s.slots[k].out[i].phase == phase
  }

  /** claimMaterializationLocked on a reservation its consumer took. */
  function Claim(s: State, k: nat, i: nat): State
    requires At(s, k, i)
  {
    if !RequestIn(s, k, i, Reserved) then s else SetItem(s, k, i, s.slots[k].out[i].(phase := Materializing))
  }

  /** Release the charge, leave the FIFO, promote, and wake the slot when its head changed. */
  function Retire(s: State, k: nat, i: nat): State
    requires At(s, k, i)
  {
    var t := Promote(ReleaseCharge(Remove(s, k, i), k, s.slots[k].out[i]));
    PromoteEffect(ReleaseCharge(Remove(s, k, i), k, s.slots[k].out[i]));
    SignalIf(t, k, i == 0)
  }

  /** materializePreparedRequest's second section; `ok` says the request marshalled. */
  function Materialize(s: State, k: nat, i: nat, ok: bool): State
    requires At(s, k, i)
  {
    if !RequestIn(s, k, i, Materializing) then s
    else if !ok || !s.ready || s.slots[k].out[i].canceled then Retire(s, k, i)
    else SignalIf(SetItem(s, k, i, s.slots[k].out[i].(phase := Materialized)), k, i == 0)
  }

  /** cancelRequestLocked: a request being marshalled or attempted only remembers it. */
  function Cancel(s: State, k: nat, i: nat): State
    requires At(s, k, i)
  {
    var item := s.slots[k].out[i];
    if item.kind != Request || item.canceled then s
    else if item.phase == Materializing || item.phase == Attempting then SetItem(s, k, i, item.(canceled := true))
    else Retire(s, k, i)
  }

  // ---------------------------------------------------------------- closes and probes

  /** queueControlLocked. */
  predicate ControlRoom(s: State, k: nat)
    requires k < |s.slots|
  {
    && s.slots[k].controlItems < s.limits.controlSlotItems - 1
    && CONTROL_SIZE <= s.limits.controlSlotBytes - CONTROL_SIZE - s.slots[k].controlBytes
    && s.controlItems < s.limits.controlItems - |s.slots|
    && CONTROL_SIZE <= s.limits.controlBytes - |s.slots| * CONTROL_SIZE - s.controlBytes
  }

  function AppendControl(s: State, k: nat, kind: Kind, owner: Option<nat>): State
    requires k < |s.slots|
  {
    var wasEmpty := s.slots[k].out == [];
    SignalIf(MoveControls(Append(s, k, Item(s.nextID, kind, owner, CONTROL_SIZE, 0, Waiting, false, false)), k, 1), k, wasEmpty)
  }

  function QueueControl(s: State, k: nat, owner: Option<nat>): (State, bool)
    requires k < |s.slots|
  {
    if !s.ready || s.slots[k].failed || !ControlRoom(s, k) then (s, false)
    else (AppendControl(s, k, Control, owner), true)
  }

  /** Leave the FIFO with the control charge. */
  function RetireControl(s: State, k: nat, i: nat): State
    requires At(s, k, i)
  {
    MoveControls(Remove(s, k, i), k, -1)
  }

  /** One close of cancelBindingControlsLocked. */
  function CancelControl(s: State, k: nat, i: nat): State
    requires At(s, k, i)
  {
    var item := s.slots[k].out[i];
    if item.kind != Control then s
    else if item.attempting then SetItem(s, k, i, item.(canceled := true))
    else SignalIf(RetireControl(s, k, i), k, i == 0)
  }

  predicate ClosesFor(item: Item, owner: nat) {
    item.kind == Control && item.owner == Some(owner)
  }

  /** cancelBindingControlsLocked from position i on: a close being submitted is marked, the first other one leaves. */
  function CancelControls(s: State, k: nat, owner: nat, i: nat): State
    requires k < |s.slots|
    decreases if i <= |s.slots[k].out| then |s.slots[k].out| - i else 0
  {
    if i >= |s.slots[k].out| then s
    else if !ClosesFor(s.slots[k].out[i], owner) then CancelControls(s, k, owner, i + 1)
    else if s.slots[k].out[i].attempting then CancelControls(CancelControl(s, k, i), k, owner, i + 1)
    else CancelControl(s, k, i)
  }

  /** probeSlot's admission. */
  predicate ProbeRoom(s: State, k: nat)
    requires k < |s.slots|
  {
    && s.slots[k].controlItems < s.limits.controlSlotItems
    && CONTROL_SIZE <= s.limits.controlSlotBytes - s.slots[k].controlBytes
    && s.controlItems < s.limits.controlItems
    && CONTROL_SIZE <= s.limits.controlBytes - s.controlBytes
  }

  function StartProbe(s: State, k: nat): (State, bool)
    requires k < |s.slots|
  {
    if !s.ready || s.slots[k].failed || s.slots[k].probe.Some? || !ProbeRoom(s, k) then (s, false)
    else
      var t := AppendControl(s, k, Probe, None);
      (SetSlot(t, k, t.slots[k].(probe := Some(Pending(s.nextID, false)))), true)
  }

  function IndexOf(out: seq<Item>, id: nat): (r: Option<nat>)
    ensures r.Some? ==> r.value < |out| && out[r.value].id == id
    ensures r.None? ==> forall i | 0 <= i < |out| :: out[i].id != id
  {
    if out == [] then None
    else if out[0].id == id then Some(0)
    else match IndexOf(out[1..], id) case None => None case Some(i) => Some(i + 1)
  }

  /** completeProbeLocked on the slot's pending probe. */
  function EndProbe(s: State, k: nat): State
    requires k < |s.slots|
  {
    if s.slots[k].probe.None? then s
    else
      var at := IndexOf(s.slots[k].out, s.slots[k].probe.value.id);
      var t := SetSlot(s, k, s.slots[k].(probe := None));
      if at.None? then t
      else
        var i := at.value;
        var item := s.slots[k].out[i];
        if item.attempting then SetItem(t, k, i, item.(canceled := true))
        else SignalIf(RetireControl(t, k, i), k, i == 0)
  }

  // ---------------------------------------------------------------- dispatching

  datatype Outcome = Accepted | Backpressure | Refused

  predicate Dispatchable(item: Item) {
    !item.attempting && (item.kind == Request ==> item.phase == Materialized)
  }

  /** dispatchSlotOnce up to TrySubmit, woken by its own token or, at any time, by the link's announcement of room. */
  function BeginAttempt(s: State, k: nat, byRoom: bool): State
    requires k < |s.slots|
  {
    var slot := s.slots[k];
    var woken := if byRoom then slot.(blocked := false) else slot.(wake := false);
    if !byRoom && !slot.wake then s
    else if !s.ready || slot.failed || slot.out == [] || !Dispatchable(slot.out[0]) then SetSlot(s, k, woken)
    else
      var item := slot.out[0].(attempting := true, phase := if slot.out[0].kind == Request then Attempting else slot.out[0].phase);
      SetSlot(s, k, woken.(out := woken.out[0 := item]))
  }

  /** dispatchSlotOnce after TrySubmit. */
  function FinishAttempt(s: State, k: nat, outcome: Outcome): State
    requires k < |s.slots|
  {
    var slot := s.slots[k];
    if slot.out == [] || !slot.out[0].attempting then s
    else
      var item := slot.out[0];
      if outcome == Backpressure && !item.canceled && s.ready then
        var back := item.(attempting := false, phase := if item.kind == Request then Materialized else item.phase);
        SetSlot(s, k, slot.(out := slot.out[0 := back], blocked := true))
      else
        var t := if outcome == Accepted then SetSlot(s, k, slot.(accepted := slot.accepted + [item])) else s;
        if item.kind == Request then Retire(t, k, 0)
        else
          var u := Signal(RetireControl(t, k, 0), k);
          if item.kind == Probe && outcome == Accepted && slot.probe.Some? && slot.probe.value.id == item.id then
            SetSlot(u, k, u.slots[k].(probe := Some(Pending(item.id, true))))
          else u
  }

  // ---------------------------------------------------------------- failing and repairing a slot

  /** cancelSlotOutboundLocked from position i on. */
  function CancelFrom(s: State, k: nat, i: nat): (t: State)
    requires k < |s.slots|
    ensures |t.slots| == |s.slots|
    decreases if i <= |s.slots[k].out| then |s.slots[k].out| - i else 0
  {
    if i >= |s.slots[k].out| then s
    else
      var item := s.slots[k].out[i];
      if item.kind == Request then
        var t := Cancel(s, k, i);
        CancelLength(s, k, i);
        if |t.slots[k].out| < |s.slots[k].out| then CancelFrom(t, k, i) else CancelFrom(t, k, i + 1)
      else if item.attempting || item.kind == Probe then CancelFrom(SetItem(s, k, i, item.(canceled := true)), k, i + 1)
      else CancelFrom(RetireControl(s, k, i), k, i)
  }

  lemma {:induction false} CancelLength(s: State, k: nat, i: nat)
    requires At(s, k, i)
    ensures var t := Cancel(s, k, i); |t.slots| == |s.slots| && |t.slots[k].out| <= |s.slots[k].out| <= |t.slots[k].out| + 1
  {
    PromoteEffect(ReleaseCharge(Remove(s, k, i), k, s.slots[k].out[i]));
  }

  /** failSlot's section. */
  function FailSlot(s: State, k: nat): State
    requires k < |s.slots|
  {
    if !s.ready || s.slots[k].failed then s
    else CancelFrom(EndProbe(SetSlot(s, k, s.slots[k].(failed := true)), k), k, 0)
  }

  /** repairSlot's publication of a replacement link. */
  function RepairSlot(s: State, k: nat): State
    requires k < |s.slots|
  {
    var slot := s.slots[k];
    if !s.ready || !slot.failed || slot.out != [] || slot.requestItems != 0 || slot.requestBytes != 0
       || slot.controlItems != 0 || slot.controlBytes != 0 || slot.probe.Some? then s
    else SetSlot(s, k, slot.(failed := false, wake := false, blocked := false))
  }

  /** beginTerminal's pass over the slots from k on. */
  function CloseFrom(s: State, k: nat): State
    decreases if k <= |s.slots| then |s.slots| - k else 0
  {
    if k >= |s.slots| then s
    else CloseFrom(CancelFrom(EndProbe(s, k), k, 0), k + 1)
  }

  // ---------------------------------------------------------------- any interleaving

  datatype Op =
    | PrepareRequest(k: nat, owner: nat, size: nat, busy: bool)
    | ClaimReservation(k: nat, i: nat)
    | FinishMaterialize(k: nat, i: nat, ok: bool)
    | CancelRequest(k: nat, i: nat)
    | CloseConnection(k: nat, binding: Option<nat>)
    | CancelClose(k: nat, owner: nat)
    | BeginProbe(k: nat)
    | CompleteProbe(k: nat)
    | Begin(k: nat, byRoom: bool)
    | Finish(k: nat, outcome: Outcome)
    | Fail(k: nat)
    | Repair(k: nat)
    | CloseManager

  function Step(s: State, op: Op): State {
    match op
    case PrepareRequest(k, owner, size, busy) => if k < |s.slots| then Prepare(s, k, owner, size, busy) else s
    case ClaimReservation(k, i) => if At(s, k, i) then Claim(s, k, i) else s
    case FinishMaterialize(k, i, ok) => if At(s, k, i) then Materialize(s, k, i, ok) else s
    case CancelRequest(k, i) => if At(s, k, i) then Cancel(s, k, i) else s
    case CloseConnection(k, binding) => if k < |s.slots| then QueueControl(s, k, binding).0 else s
    case CancelClose(k, owner) => if k < |s.slots| then CancelControls(s, k, owner, 0) else s
    case BeginProbe(k) => if k < |s.slots| then StartProbe(s, k).0 else s
    case CompleteProbe(k) => if k < |s.slots| then EndProbe(s, k) else s
    case Begin(k, byRoom) => if k < |s.slots| then BeginAttempt(s, k, byRoom) else s
    case Finish(k, outcome) => if k < |s.slots| then FinishAttempt(s, k, outcome) else s
    case Fail(k) => if k < |s.slots| then FailSlot(s, k) else s
    case Repair(k) => if k < |s.slots| then RepairSlot(s, k) else s
    case CloseManager => if s.ready then CloseFrom(s.(ready := false), 0) else s
  }

  function Run(s: State, ops: seq<Op>): State
    decreases |ops|
  {
    if ops == [] then s else Run(Step(s, ops[0]), ops[1..])
  }
}
