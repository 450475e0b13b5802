/**
 * What each slot's FIFO keeps, section by section. `Ordered`: what the link accepted and what is queued stand in the
 * order they were appended, the accepted first. `Staged`: only the head is being submitted, its phase says so, and a
 * cancelled item stays only while it is submitted or marshalled. `Fair`: charged requests precede waiting ones, whose
 * tickets grow along the FIFO. `Probing`: the pending probe is the one probe item that is not cancelled. `Woken`: a
 * slot whose head can be submitted has its wakeup set or waits for room at its link. A section may owe one slot its
 * wakeup until it ends (`OKExcept`); most lemmas are about one edit of one slot, and `StepOK` puts them together.
 */
module OutboundOrder {
  import opened Bytes
  import opened SeqSums
  import opened OutboundCore

  /** What bounds the identifiers, tickets and sizes a slot may hold. */
  datatype Bounds = Bounds(id: nat, ticket: nat, size: nat)

  function BoundsOf(s: State): Bounds {
    Bounds(s.nextID, s.nextTicket, Min(s.limits.slotBytes, s.limits.bytes))
  }

  /** Append order: the FIFO and the accepted items together are ordered, accepted ones first. */
  predicate Ordered(slot: Slot, b: Bounds) {
    && (forall i, j | 0 <= i < j < |slot.out| :: slot.out[i].id < slot.out[j].id)
    && (forall i, j | 0 <= i < j < |slot.accepted| :: slot.accepted[i].id < slot.accepted[j].id)
    && (forall i, j | 0 <= i < |slot.accepted| && 0 <= j < |slot.out| :: slot.accepted[i].id < slot.out[j].id)
    && (forall i | 0 <= i < |slot.out| :: slot.out[i].id < b.id)
    && (forall i | 0 <= i < |slot.accepted| :: slot.accepted[i].id < b.id)
  }

  predicate ItemStaged(item: Item) {
    && (item.kind == Request ==> (item.phase == Attempting <==> item.attempting))
    && (item.canceled ==> item.attempting || (item.kind == Request && item.phase == Materializing))
  }

  /** Only the head is ever being submitted; a cancelled item stays only while it is being worked on. */
  predicate Staged(slot: Slot) {
    && (forall i | 0 <= i < |slot.out| :: ItemStaged(slot.out[i]))
    && (forall i | 0 < i < |slot.out| :: !slot.out[i].attempting)
  }

  /** Charged requests precede waiting ones, which wait in ticket order and fit the limits by themselves. */
  predicate Fair(slot: Slot, b: Bounds) {
    && (forall i, j | 0 <= i < j < |slot.out| && IsWaiting(slot.out[i]) && slot.out[j].kind == Request ::
          IsWaiting(slot.out[j]) && slot.out[i].ticket < slot.out[j].ticket)
    && (forall i | 0 <= i < |slot.out| && slot.out[i].kind == Request :: slot.out[i].size <= b.size && slot.out[i].ticket < b.ticket)
  }

  /** The pending probe is the one probe item that is not cancelled, until the link accepts it. */
  predicate Probing(slot: Slot, b: Bounds) {
    && (slot.probe.Some? ==> slot.probe.value.id < b.id)
    && (forall i | 0 <= i < |slot.out| && slot.probe.Some? && slot.out[i].id == slot.probe.value.id ::
          slot.out[i].kind == Probe && !slot.probe.value.submitted)
    && (forall i | 0 <= i < |slot.out| && slot.out[i].kind == Probe && !slot.out[i].canceled ::
          slot.probe.Some? && slot.probe.value.id == slot.out[i].id)
  }

  /** A head the link could take has a token or is waiting for the link's room. */
  predicate Woken(slot: Slot) {
    slot.out != [] && Dispatchable(slot.out[0]) ==> slot.wake || slot.blocked
  }

  predicate SlotOK(slot: Slot, b: Bounds, ready: bool) {
    && Ordered(slot, b) && Staged(slot) && Fair(slot, b) && Probing(slot, b)
    && (ready && !slot.failed ==> Woken(slot))
  }

  /** Every slot is sound; the wakeup of `exempt` may still be owed. */
  predicate OKExcept(s: State, exempt: Option<nat>) {
    forall k | 0 <= k < |s.slots| :: SlotOK(s.slots[k], BoundsOf(s), s.ready && exempt != Some(k))
  }

  predicate AllOK(s: State) {
    OKExcept(s, None)
  }

  // ---------------------------------------------------------------- edits of one slot

  predicate Below(a: Bounds, b: Bounds) {
    a.id <= b.id && a.ticket <= b.ticket && a.size == b.size
  }

  lemma {:induction false} BoundsGrow(slot: Slot, a: Bounds, b: Bounds, ready: bool, after: bool)
    requires SlotOK(slot, a, ready) && Below(a, b) && (after ==> ready)
    ensures SlotOK(slot, b, after)
  {}

  lemma {:induction false} AppendedFair(slot: Slot, item: Item, b: Bounds, c: Bounds)
    requires Fair(slot, b) && Below(b, c)
    requires item.kind == Request ==> item.size <= c.size && item.ticket < c.ticket
    requires item.kind == Request && item.phase != Waiting ==> slot.out == []
    requires IsWaiting(item) ==> item.ticket == b.ticket
    ensures Fair(slot.(out := slot.out + [item]), c)
  {}

  lemma {:induction false} AppendedOrdered(slot: Slot, item: Item, b: Bounds, c: Bounds)
    requires Ordered(slot, b) && Staged(slot) && Below(b, c) && item.id == b.id < c.id
    requires !item.attempting && !item.canceled && item.phase != Attempting
    ensures Ordered(slot.(out := slot.out + [item]), c) && Staged(slot.(out := slot.out + [item]))
  {}

  /** The slot after an append; a probe becomes the pending one. */
  function WithItem(slot: Slot, item: Item, wake: bool): Slot {
    slot.(out := slot.out + [item], wake := slot.wake || wake,
          probe := if item.kind == Probe then Some(Pending(item.id, false)) else slot.probe)
  }

  lemma {:induction false} AppendedProbing(slot: Slot, item: Item, b: Bounds, c: Bounds, wake: bool)
    requires Probing(slot, b) && Ordered(slot, b) && Below(b, c) && item.id == b.id < c.id && !item.canceled
    requires item.kind == Probe ==> slot.probe.None?
    ensures Probing(WithItem(slot, item, wake), c)
  {}

  lemma {:induction false} Appended(slot: Slot, item: Item, b: Bounds, c: Bounds, ready: bool, wake: bool)
    requires SlotOK(slot, b, ready) && Below(b, c)
    requires item.id == b.id < c.id && !item.attempting && !item.canceled && item.phase != Attempting
    requires item.kind == Request ==> item.size <= c.size && item.ticket < c.ticket
    requires item.kind == Request && item.phase != Waiting ==> slot.out == []
    requires IsWaiting(item) ==> item.ticket == b.ticket
    requires item.kind == Probe ==> slot.probe.None?
    requires slot.out == [] && Dispatchable(item) ==> wake
    ensures SlotOK(WithItem(slot, item, wake), c, ready)
  {
    AppendedOrdered(slot, item, b, c);
    AppendedFair(slot, item, b, c);
    AppendedProbing(slot, item, b, c, wake);
    SameQueue(slot.(out := slot.out + [item]), WithItem(slot, item, wake), c);
    assert slot.out != [] ==> (slot.out + [item])[0] == slot.out[0];
    hide Ordered, Staged, Fair, Probing, IsWaiting;
  }

  lemma {:induction false} SameQueue(slot: Slot, after: Slot, b: Bounds)
    requires Ordered(slot, b) && Staged(slot) && Fair(slot, b)
    requires after.out == slot.out && after.accepted == slot.accepted
    ensures Ordered(after, b) && Staged(after) && Fair(after, b)
  {}

  lemma {:induction false} RemovedOrdered(slot: Slot, i: nat, b: Bounds)
    requires Ordered(slot, b) && Staged(slot) && i < |slot.out|
    ensures var after := slot.(out := slot.out[..i] + slot.out[i + 1..]); Ordered(after, b) && Staged(after)
  {
    var after := slot.(out := slot.out[..i] + slot.out[i + 1..]);
    forall j | 0 <= j < |after.out| ensures after.out[j] == slot.out[if j < i then j else j + 1] {}
  }

  lemma {:induction false} RemovedFair(slot: Slot, i: nat, b: Bounds)
    requires Fair(slot, b) && i < |slot.out|
    ensures Fair(slot.(out := slot.out[..i] + slot.out[i + 1..]), b)
  {
    var after := slot.(out := slot.out[..i] + slot.out[i + 1..]);
    forall j | 0 <= j < |after.out| ensures after.out[j] == slot.out[if j < i then j else j + 1] {}
  }

  lemma {:induction false} RemovedProbing(slot: Slot, i: nat, b: Bounds)
    requires Probing(slot, b) && i < |slot.out|
    ensures Probing(slot.(out := slot.out[..i] + slot.out[i + 1..]), b)
  {
    var after := slot.(out := slot.out[..i] + slot.out[i + 1..]);
    forall j | 0 <= j < |after.out| ensures after.out[j] == slot.out[if j < i then j else j + 1] {}
  }

  lemma {:induction false} WokenProbing(slot: Slot, b: Bounds)
    requires Probing(slot, b)
    ensures Probing(slot.(wake := true), b)
  {}

  /** Removing an item keeps everything, provided a new head is announced. */
  lemma {:induction false} Removed(slot: Slot, i: nat, b: Bounds, ready: bool)
    requires SlotOK(slot, b, ready) && i < |slot.out|
    ensures var after := slot.(out := slot.out[..i] + slot.out[i + 1..]);
            && Ordered(after, b) && Staged(after) && Fair(after, b) && Probing(after, b)
            && (ready && !slot.failed && i != 0 ==> Woken(after))
            && SlotOK(after.(wake := true), b, ready)
  {
    hide Ordered, Staged, Fair, Probing;
    var after := slot.(out := slot.out[..i] + slot.out[i + 1..]);
    RemovedOrdered(slot, i, b);
    RemovedFair(slot, i, b);
    RemovedProbing(slot, i, b);
    SameQueue(after, after.(wake := true), b);
    assert Probing(after.(wake := true), b) by { WokenProbing(after, b); }
    assert i != 0 ==> after.out[0] == slot.out[0];
  }

  /** The phase changes of a request and the flags of an item, in place. */
  predicate Moves(a: Item, b: Item, i: nat) {
    && b == a.(phase := b.phase, attempting := b.attempting, canceled := b.canceled)
    && ItemStaged(b) && (b.attempting ==> i == 0) && (a.canceled ==> b.canceled)
    && (IsWaiting(a) <==> IsWaiting(b))
  }

  lemma {:induction false} Updated(slot: Slot, i: nat, item: Item, b: Bounds, ready: bool)
    requires SlotOK(slot, b, ready) && i < |slot.out| && Moves(slot.out[i], item, i)
    requires i == 0 && Dispatchable(item) && ready && !slot.failed ==> slot.wake || slot.blocked
    ensures SlotOK(slot.(out := slot.out[i := item]), b, ready)
  {
    var after := slot.(out := slot.out[i := item]);
    assert Ordered(after, b) && Staged(after);
    assert Fair(after, b);
    assert Probing(after, b);
  }

  /** Promoting the first waiter of a slot. */
  lemma {:induction false} Promoted(slot: Slot, i: nat, b: Bounds, ready: bool)
    requires SlotOK(slot, b, ready) && WaitHead(slot.out) == Some(i)
    ensures SlotOK(slot.(out := slot.out[i := slot.out[i].(phase := Reserved)]), b, ready)
  {
    hide Ordered, Staged, Fair, Probing;
    var after := slot.(out := slot.out[i := slot.out[i].(phase := Reserved)]);
    assert Ordered(after, b) && Staged(after) by { PromotedOrdered(slot, i, b); }
    assert Fair(after, b) by { PromotedFair(slot, i, b); }
    assert Probing(after, b) by { PromotedProbing(slot, i, b); }
    assert i != 0 ==> after.out[0] == slot.out[0];
  }

  lemma {:induction false} PromotedOrdered(slot: Slot, i: nat, b: Bounds)
    requires Ordered(slot, b) && Staged(slot) && WaitHead(slot.out) == Some(i)
    ensures var after := slot.(out := slot.out[i := slot.out[i].(phase := Reserved)]); Ordered(after, b) && Staged(after)
  {}

  lemma {:induction false} PromotedFair(slot: Slot, i: nat, b: Bounds)
    requires Fair(slot, b) && WaitHead(slot.out) == Some(i)
    ensures Fair(slot.(out := slot.out[i := slot.out[i].(phase := Reserved)]), b)
  {}

  lemma {:induction false} PromotedProbing(slot: Slot, i: nat, b: Bounds)
    requires Probing(slot, b) && WaitHead(slot.out) == Some(i)
    ensures Probing(slot.(out := slot.out[i := slot.out[i].(phase := Reserved)]), b)
  {}

  // ---------------------------------------------------------------- edits of the manager

  lemma {:induction false} PutOK(s: State, t: State, k: nat, exempt: Option<nat>)
    requires OKExcept(s, exempt) && k < |s.slots| == |t.slots| && t.slots == s.slots[k := t.slots[k]]
    requires Below(BoundsOf(s), BoundsOf(t)) && (t.ready ==> s.ready)
    requires SlotOK(t.slots[k], BoundsOf(t), t.ready && exempt != Some(k))
    ensures OKExcept(t, exempt)
  {
    hide SlotOK;
    forall j | 0 <= j < |t.slots| && j != k ensures SlotOK(t.slots[j], BoundsOf(t), t.ready && exempt != Some(j)) {
      assert t.slots[j] == s.slots[j];
      BoundsGrow(s.slots[j], BoundsOf(s), BoundsOf(t), s.ready && exempt != Some(j), t.ready && exempt != Some(j));
    }
  }

  lemma {:induction false} CountersOK(slot: Slot, after: Slot, b: Bounds, ready: bool)
    requires SlotOK(slot, b, ready)
    requires after == slot.(requestItems := after.requestItems, requestBytes := after.requestBytes,
                            controlItems := after.controlItems, controlBytes := after.controlBytes)
    ensures SlotOK(after, b, ready)
  {
    hide Ordered, Staged, Fair, Probing, Woken;
    assert Ordered(after, b) && Staged(after) && Fair(after, b) && Probing(after, b) && (Woken(slot) ==> Woken(after)) by {
      SameParts(slot, after, b);
    }
  }

  lemma {:induction false} SameParts(slot: Slot, after: Slot, b: Bounds)
    requires Ordered(slot, b) && Staged(slot) && Fair(slot, b) && Probing(slot, b)
    requires after.out == slot.out && after.accepted == slot.accepted && after.probe == slot.probe
    requires slot.wake || slot.blocked ==> after.wake || after.blocked
    ensures Ordered(after, b) && Staged(after) && Fair(after, b) && Probing(after, b) && (Woken(slot) ==> Woken(after))
  {}

  lemma {:induction false} ReserveHeadOK(s: State, k: nat, exempt: Option<nat>)
    requires OKExcept(s, exempt) && Eligible(s, k)
    ensures OKExcept(ReserveHead(s, k), exempt)
  {
    hide SlotOK;
    var (b, ready) := (BoundsOf(s), s.ready && exempt != Some(k));
    var i := WaitHead(s.slots[k].out).value;
    assert SlotOK(s.slots[k], b, ready);
    Promoted(s.slots[k], i, b, ready);
    var t := ReserveHead(s, k);
    CountersOK(s.slots[k].(out := s.slots[k].out[i := s.slots[k].out[i].(phase := Reserved)]), t.slots[k], b, ready);
    PutOK(s, t, k, exempt);
  }

  lemma {:induction false} PromoteOK(s: State, exempt: Option<nat>)
    requires OKExcept(s, exempt)
    ensures OKExcept(Promote(s), exempt)
    decreases Total(s.slots, SlotWaiters)
  {
    hide OKExcept, ReserveHead;
    var c := Candidate(s, |s.slots|);
    if s.ready && c.Some? && GlobalRoom(s, HeadWaiter(s, c.value).size) {
      ReserveHeadShrinks(s, c.value);
      ReserveHeadOK(s, c.value, exempt);
      var t := ReserveHead(s, c.value);
      PromoteOK(t, exempt);
    }
  }

  lemma {:induction false} SignalOK(s: State, k: nat, wasHead: bool)
    requires OKExcept(s, if wasHead then Some(k) else None) && k < |s.slots|
    ensures AllOK(SignalIf(s, k, wasHead))
  {
    hide SlotOK;
    if wasHead {
      var t := Signal(s, k);
      forall j | 0 <= j < |t.slots| ensures SlotOK(t.slots[j], BoundsOf(t), t.ready) {
        if j == k {
          SignaledOK(s.slots[k], BoundsOf(s), s.ready);
        } else {
          assert SlotOK(s.slots[j], BoundsOf(s), s.ready);
        }
      }
    }
  }

  lemma {:induction false} SignaledOK(slot: Slot, b: Bounds, ready: bool)
    requires SlotOK(slot, b, false)
    ensures SlotOK(slot.(wake := true), b, ready)
  {
    hide Ordered, Staged, Fair, Probing;
    SameParts(slot, slot.(wake := true), b);
  }

  lemma {:induction false} SlotAt(s: State, k: nat)
    requires AllOK(s) && k < |s.slots|
    ensures SlotOK(s.slots[k], BoundsOf(s), s.ready)
  {
    hide SlotOK;
  }

  /** Leaving a FIFO with whatever counters: a new head is owed a wakeup. */
  lemma {:induction false} RemoveOK(s: State, t: State, k: nat, i: nat)
    requires AllOK(s) && At(s, k, i) && |t.slots| == |s.slots| && t.slots == s.slots[k := t.slots[k]]
    requires BoundsOf(t) == BoundsOf(s) && t.ready == s.ready
    requires var slot := s.slots[k];
             t.slots[k] == slot.(out := slot.out[..i] + slot.out[i + 1..],
               requestItems := t.slots[k].requestItems, requestBytes := t.slots[k].requestBytes,
               controlItems := t.slots[k].controlItems, controlBytes := t.slots[k].controlBytes)
    ensures OKExcept(t, if i == 0 then Some(k) else None)
  {
    hide SlotOK;
    SlotAt(s, k);
    var slot := s.slots[k];
    RemovedSlot(slot, t.slots[k], i, BoundsOf(s), s.ready);
    WeakenOK(s, k, i == 0);
    PutOK(s, t, k, if i == 0 then Some(k) else None);
  }

  lemma {:induction false} WeakenOK(s: State, k: nat, drop: bool)
    requires AllOK(s)
    ensures OKExcept(s, if drop then Some(k) else None)
  {
    hide Ordered, Staged, Fair, Probing;
  }

  lemma {:induction false} RemovedSlot(slot: Slot, after: Slot, i: nat, b: Bounds, ready: bool)
    requires SlotOK(slot, b, ready) && i < |slot.out|
    requires after == slot.(out := slot.out[..i] + slot.out[i + 1..], requestItems := after.requestItems,
                            requestBytes := after.requestBytes, controlItems := after.controlItems, controlBytes := after.controlBytes)
    ensures SlotOK(after, b, ready && i != 0)
  {
    var cut := slot.(out := slot.out[..i] + slot.out[i + 1..]);
    Removed(slot, i, b, ready);
    hide Ordered, Staged, Fair, Probing, Woken;
    assert SlotOK(cut, b, ready && i != 0);
    CountersOK(cut, after, b, ready && i != 0);
  }

  lemma {:induction false} RetireOK(s: State, k: nat, i: nat)
    requires AllOK(s) && At(s, k, i) && s.slots[k].out[i].kind == Request
    ensures AllOK(Retire(s, k, i))
  {
    hide AllOK, OKExcept, Promote;
    var u := ReleaseCharge(Remove(s, k, i), k, s.slots[k].out[i]);
    RemoveOK(s, u, k, i);
    PromoteOK(u, if i == 0 then Some(k) else None);
    PromoteEffect(u);
    SignalOK(Promote(u), k, i == 0);
  }

  lemma {:induction false} RetireControlOK(s: State, k: nat, i: nat)
    requires AllOK(s) && At(s, k, i)
    ensures AllOK(SignalIf(RetireControl(s, k, i), k, i == 0))
    ensures OKExcept(RetireControl(s, k, i), Some(k))
  {
    hide SlotOK;
    RemoveOK(s, RetireControl(s, k, i), k, i);
    SignalOK(RetireControl(s, k, i), k, i == 0);
    WeakerOK(RetireControl(s, k, i), k, i == 0);
  }

  lemma {:induction false} WeakerOK(s: State, k: nat, already: bool)
    requires OKExcept(s, if already then Some(k) else None)
    ensures OKExcept(s, Some(k))
  {
    hide Ordered, Staged, Fair, Probing;
  }

  lemma {:induction false} SetItemOK(s: State, k: nat, i: nat, item: Item)
    requires AllOK(s) && At(s, k, i) && Moves(s.slots[k].out[i], item, i)
    requires i == 0 && Dispatchable(item) && s.ready && !s.slots[k].failed ==> s.slots[k].wake || s.slots[k].blocked
    ensures AllOK(SetItem(s, k, i, item))
  {
    hide SlotOK;
    SlotAt(s, k);
    Updated(s.slots[k], i, item, BoundsOf(s), s.ready);
    PutOK(s, SetItem(s, k, i, item), k, None);
  }

  lemma {:induction false} ItemAt(s: State, k: nat, i: nat)
    requires AllOK(s) && At(s, k, i)
    ensures ItemStaged(s.slots[k].out[i]) && (s.slots[k].out[i].attempting ==> i == 0)
    ensures i == 0 && s.ready && !s.slots[k].failed && Dispatchable(s.slots[k].out[0]) ==> s.slots[k].wake || s.slots[k].blocked
  {
    SlotAt(s, k);
  }

  lemma {:induction false} CancelOK(s: State, k: nat, i: nat)
    requires AllOK(s) && At(s, k, i)
    ensures AllOK(Cancel(s, k, i))
  {
    hide AllOK, Retire;
    ItemAt(s, k, i);
    var item := s.slots[k].out[i];
    if item.kind == Request && !item.canceled {
      if item.phase == Materializing || item.phase == Attempting {
        SetItemOK(s, k, i, item.(canceled := true));
      } else {
        RetireOK(s, k, i);
      }
    }
  }

  lemma {:induction false} ClaimOK(s: State, k: nat, i: nat)
    requires AllOK(s) && At(s, k, i)
    ensures AllOK(Claim(s, k, i))
  {
    hide AllOK;
    ItemAt(s, k, i);
    if RequestIn(s, k, i, Reserved) {
      SetItemOK(s, k, i, s.slots[k].out[i].(phase := Materializing));
    }
  }

  lemma {:induction false} AnnouncedOK(s: State, k: nat, i: nat, item: Item)
    requires AllOK(s) && At(s, k, i) && Moves(s.slots[k].out[i], item, i)
    ensures AllOK(SignalIf(SetItem(s, k, i, item), k, i == 0))
  {
    hide SlotOK;
    SlotAt(s, k);
    UpdatedQuietly(s.slots[k], i, item, BoundsOf(s), s.ready);
    WeakenOK(s, k, i == 0);
    PutOK(s, SetItem(s, k, i, item), k, if i == 0 then Some(k) else None);
    SignalOK(SetItem(s, k, i, item), k, i == 0);
  }

  lemma {:induction false} UpdatedQuietly(slot: Slot, i: nat, item: Item, b: Bounds, ready: bool)
    requires SlotOK(slot, b, ready) && i < |slot.out| && Moves(slot.out[i], item, i)
    ensures SlotOK(slot.(out := slot.out[i := item]), b, ready && i != 0)
  {
    hide Ordered, Staged, Fair, Probing, Moves;
    Quiet(slot, b, ready && i != 0, ready);
    Updated(slot, i, item, b, ready && i != 0);
  }

  lemma {:induction false} Quiet(slot: Slot, b: Bounds, ready: bool, before: bool)
    requires SlotOK(slot, b, before) && (ready ==> before)
    ensures SlotOK(slot, b, ready)
  {
    hide Ordered, Staged, Fair, Probing;
  }

  lemma {:induction false} MaterializeOK(s: State, k: nat, i: nat, ok: bool)
    requires AllOK(s) && At(s, k, i)
    ensures AllOK(Materialize(s, k, i, ok))
  {
    hide AllOK, Retire;
    ItemAt(s, k, i);
    if RequestIn(s, k, i, Materializing) {
      RetireOK(s, k, i);
      if !s.slots[k].out[i].canceled {
        AnnouncedOK(s, k, i, s.slots[k].out[i].(phase := Materialized));
      }
    }
  }

  lemma {:induction false} AppendOK(s: State, t: State, k: nat, item: Item, wake: bool)
    requires AllOK(s) && k < |s.slots| == |t.slots| && t.slots == s.slots[k := t.slots[k]]
    requires Below(BoundsOf(s), BoundsOf(t)) && t.ready == s.ready
    requires item.id == s.nextID < t.nextID && !item.attempting && !item.canceled && item.phase != Attempting
    requires item.kind == Request ==> item.size <= BoundsOf(t).size && item.ticket < t.nextTicket
    requires item.kind == Request && item.phase != Waiting ==> s.slots[k].out == []
    requires IsWaiting(item) ==> item.ticket == s.nextTicket
    requires item.kind == Probe ==> s.slots[k].probe.None?
    requires s.slots[k].out == [] && Dispatchable(item) ==> wake
    requires var after := WithItem(s.slots[k], item, wake);
             t.slots[k] == after.(requestItems := t.slots[k].requestItems, requestBytes := t.slots[k].requestBytes,
                                  controlItems := t.slots[k].controlItems, controlBytes := t.slots[k].controlBytes)
    ensures AllOK(t)
  {
    hide SlotOK;
    SlotAt(s, k);
    Appended(s.slots[k], item, BoundsOf(s), BoundsOf(t), s.ready, wake);
    CountersOK(WithItem(s.slots[k], item, wake), t.slots[k], BoundsOf(t), s.ready);
    PutOK(s, t, k, None);
  }

  lemma {:induction false} PrepareOK(s: State, k: nat, owner: nat, size: nat, busy: bool)
    requires AllOK(s) && k < |s.slots| && 0 < s.nextTicket
    ensures AllOK(Prepare(s, k, owner, size, busy))
  {
    hide AllOK, Promote;
    if size <= s.limits.slotBytes && size <= s.limits.bytes {
      var waiting := Item(s.nextID, Request, Some(owner), size, s.nextTicket, Waiting, false, false);
      var u := Append(s, k, waiting).(nextTicket := s.nextTicket + 1);
      AppendOK(s, u, k, waiting, false);
      PromoteOK(u, None) by {
        AllIsExcept(u);
      }
      AllIsExcept(Promote(u));
      if s.slots[k].out == [] {
        var direct := Item(s.nextID, Request, Some(owner), size, 0, Materializing, false, false);
        AppendOK(s, MoveRequests(Append(s, k, direct), k, 1, size), k, direct, false);
      }
    }
  }

  lemma {:induction false} AllIsExcept(s: State)
    ensures AllOK(s) <==> OKExcept(s, None)
  {}

  lemma {:induction false} AppendControlOK(s: State, k: nat, kind: Kind, owner: Option<nat>)
    requires AllOK(s) && k < |s.slots| && kind != Request && (kind == Probe ==> s.slots[k].probe.None?)
    ensures var t := AppendControl(s, k, kind, owner);
            k < |t.slots| && AllOK(SetSlot(t, k, t.slots[k].(probe := if kind == Probe then Some(Pending(s.nextID, false)) else t.slots[k].probe)))
  {
    hide AllOK;
    var item := Item(s.nextID, kind, owner, CONTROL_SIZE, 0, Waiting, false, false);
    var t := AppendControl(s, k, kind, owner);
    var u := SetSlot(t, k, t.slots[k].(probe := if kind == Probe then Some(Pending(s.nextID, false)) else t.slots[k].probe));
    AppendOK(s, u, k, item, s.slots[k].out == []);
  }

  lemma {:induction false} QueueControlOK(s: State, k: nat, owner: Option<nat>)
    requires AllOK(s) && k < |s.slots|
    ensures AllOK(QueueControl(s, k, owner).0)
  {
    hide AllOK;
    AppendControlOK(s, k, Control, owner);
    var t := AppendControl(s, k, Control, owner);
    assert SetSlot(t, k, t.slots[k].(probe := t.slots[k].probe)) == t;
  }

  lemma {:induction false} StartProbeOK(s: State, k: nat)
    requires AllOK(s) && k < |s.slots|
    ensures AllOK(StartProbe(s, k).0)
  {
    hide AllOK, AppendControl;
    if s.slots[k].probe.None? {
      AppendControlOK(s, k, Probe, None);
    }
  }

  lemma {:induction false} CancelControlOK(s: State, k: nat, i: nat)
    requires AllOK(s) && At(s, k, i)
    ensures AllOK(CancelControl(s, k, i))
  {
    hide AllOK, RetireControl;
    ItemAt(s, k, i);
    var item := s.slots[k].out[i];
    if item.kind == Control {
      if item.attempting {
        SetItemOK(s, k, i, item.(canceled := true));
      } else {
        RetireControlOK(s, k, i);
      }
    }
  }

  lemma {:induction false} CancelControlsOK(s: State, k: nat, owner: nat, i: nat)
    requires AllOK(s) && k < |s.slots|
    ensures AllOK(CancelControls(s, k, owner, i))
    decreases if i <= |s.slots[k].out| then |s.slots[k].out| - i else 0
  {
    hide AllOK;
    if i < |s.slots[k].out| {
      if ClosesFor(s.slots[k].out[i], owner) {
        CancelControlOK(s, k, i);
        if s.slots[k].out[i].attempting {
          CancelControlsOK(CancelControl(s, k, i), k, owner, i + 1);
        }
      } else {
        CancelControlsOK(s, k, owner, i + 1);
      }
    }
  }

  // ---------------------------------------------------------------- probes

  /** The pending probe ends: its item leaves, or is only remembered as cancelled while being submitted. */
  lemma {:induction false} EndedProbe(slot: Slot, b: Bounds, ready: bool)
    requires SlotOK(slot, b, ready) && slot.probe.Some?
    ensures var at := IndexOf(slot.out, slot.probe.value.id);
            var t := slot.(probe := None);
            && (at.None? ==> SlotOK(t, b, ready))
            && (at.Some? ==> var i := at.value;
                  && slot.out[i].kind == Probe
                  && (slot.out[i].attempting ==> SlotOK(t.(out := t.out[i := t.out[i].(canceled := true)]), b, ready))
                  && (!slot.out[i].attempting ==> SlotOK(t.(out := t.out[..i] + t.out[i + 1..]), b, ready && i != 0)))
  {
    hide SlotOK, IndexOf;
    var at := IndexOf(slot.out, slot.probe.value.id);
    var t := slot.(probe := None);
    if at.None? {
      NoProbe(slot, b, ready);
    } else {
      var i := at.value;
      ProbeThere(slot, i, b, ready);
      if slot.out[i].attempting {
        EndedAttempting(slot, i, b, ready);
      } else {
        Removed(slot, i, b, ready);
        EndedWaiting(slot, i, b, ready);
      }
    }
  }

  lemma {:induction false} NoProbe(slot: Slot, b: Bounds, ready: bool)
    requires SlotOK(slot, b, ready) && slot.probe.Some? && IndexOf(slot.out, slot.probe.value.id).None?
    ensures SlotOK(slot.(probe := None), b, ready)
  {
    SameQueue(slot, slot.(probe := None), b);
  }

  lemma {:induction false} ProbeThere(slot: Slot, i: nat, b: Bounds, ready: bool)
    requires SlotOK(slot, b, ready) && slot.probe.Some? && i < |slot.out| && slot.out[i].id == slot.probe.value.id
    ensures slot.out[i].kind == Probe
  {}

  lemma {:induction false} EndedAttempting(slot: Slot, i: nat, b: Bounds, ready: bool)
    requires SlotOK(slot, b, ready) && slot.probe.Some? && i < |slot.out| && slot.out[i].id == slot.probe.value.id
    requires slot.out[i].attempting
    ensures SlotOK(slot.(probe := None, out := slot.out[i := slot.out[i].(canceled := true)]), b, ready)
  {
    var u := slot.(out := slot.out[i := slot.out[i].(canceled := true)]);
    Updated(slot, i, slot.out[i].(canceled := true), b, ready);
    SameQueue(u, u.(probe := None), b);
    assert Probing(u.(probe := None), b);
    hide Ordered, Staged, Fair, Probing;
  }

  lemma {:induction false} EndedWaiting(slot: Slot, i: nat, b: Bounds, ready: bool)
    requires SlotOK(slot, b, ready) && slot.probe.Some? && i < |slot.out| && slot.out[i].id == slot.probe.value.id
    ensures SlotOK(slot.(probe := None, out := slot.out[..i] + slot.out[i + 1..]), b, ready && i != 0)
  {
    var u := slot.(out := slot.out[..i] + slot.out[i + 1..]);
    Removed(slot, i, b, ready);
    SameQueue(u, u.(probe := None), b);
    assert Probing(u.(probe := None), b) by {
      forall j | 0 <= j < |u.out| ensures u.out[j] == slot.out[if j < i then j else j + 1] {}
    }
    hide Ordered, Staged, Fair, Probing;
  }

  lemma {:induction false} EndProbeOK(s: State, k: nat)
    requires AllOK(s) && k < |s.slots|
    ensures AllOK(EndProbe(s, k))
  {
    hide SlotOK;
    if s.slots[k].probe.Some? {
      SlotAt(s, k);
      EndedProbe(s.slots[k], BoundsOf(s), s.ready);
      var at := IndexOf(s.slots[k].out, s.slots[k].probe.value.id);
      var t := SetSlot(s, k, s.slots[k].(probe := None));
      if at.None? {
        PutOK(s, t, k, None);
      } else {
        var i := at.value;
        if s.slots[k].out[i].attempting {
          PutOK(s, SetItem(t, k, i, s.slots[k].out[i].(canceled := true)), k, None);
        } else {
          var u := RetireControl(t, k, i);
          CountersOK(t.slots[k].(out := t.slots[k].out[..i] + t.slots[k].out[i + 1..]), u.slots[k], BoundsOf(s), s.ready && i != 0);
          WeakenOK(s, k, i == 0);
          PutOK(s, u, k, if i == 0 then Some(k) else None);
          SignalOK(u, k, i == 0);
        }
      }
    }
  }

  // ---------------------------------------------------------------- attempts

  lemma {:induction false} BeginSlot(slot: Slot, b: Bounds, ready: bool, byRoom: bool)
    requires SlotOK(slot, b, ready) && ready && !slot.failed
    ensures var woken := if byRoom then slot.(blocked := false) else slot.(wake := false);
            if slot.out == [] || !Dispatchable(slot.out[0]) then SlotOK(woken, b, ready)
            else SlotOK(woken.(out := woken.out[0 := slot.out[0].(attempting := true,
                          phase := if slot.out[0].kind == Request then Attempting else slot.out[0].phase)]), b, ready)
  {
    var woken := if byRoom then slot.(blocked := false) else slot.(wake := false);
    if slot.out == [] || !Dispatchable(slot.out[0]) {
      SameQueue(slot, woken, b);
    } else {
      var item := slot.out[0].(attempting := true, phase := if slot.out[0].kind == Request then Attempting else slot.out[0].phase);
      assert ItemStaged(slot.out[0]);
      Updated(slot, 0, item, b, ready);
      var u := slot.(out := slot.out[0 := item]);
      var after := woken.(out := woken.out[0 := item]);
      SameQueue(u, after, b);
      hide Ordered, Staged, Fair;
      assert Probing(after, b) && Woken(after);
    }
  }

  lemma {:induction false} IdleSlot(slot: Slot, b: Bounds, ready: bool, after: Slot)
    requires SlotOK(slot, b, ready) && (!ready || slot.failed)
    requires after == slot.(wake := after.wake, blocked := after.blocked)
    ensures SlotOK(after, b, ready)
  {
    SameQueue(slot, after, b);
  }

  lemma {:induction false} BeginAttemptOK(s: State, k: nat, byRoom: bool)
    requires AllOK(s) && k < |s.slots|
    ensures AllOK(BeginAttempt(s, k, byRoom))
  {
    hide SlotOK, AllOK, Dispatchable;
    SlotAt(s, k);
    var t := BeginAttempt(s, k, byRoom);
    var (slot, b) := (s.slots[k], BoundsOf(s));
    var woken := if byRoom then slot.(blocked := false) else slot.(wake := false);
    if s.ready && !slot.failed {
      BeginSlot(slot, b, s.ready, byRoom);
    } else {
      IdleSlot(slot, b, s.ready, woken);
    }
    if t != s {
      AllIsExcept(s);
      PutOK(s, t, k, None);
      AllIsExcept(t);
    }
  }

  /** The head goes back, or leaves; an accepted head joins the accepted items in order. */
  lemma {:induction false} HeadBack(slot: Slot, b: Bounds, ready: bool)
    requires SlotOK(slot, b, ready) && slot.out != [] && slot.out[0].attempting && !slot.out[0].canceled
    ensures var item := slot.out[0].(attempting := false, phase := if slot.out[0].kind == Request then Materialized else slot.out[0].phase);
            SlotOK(slot.(out := slot.out[0 := item], blocked := true), b, ready)
  {
    var item := slot.out[0].(attempting := false, phase := if slot.out[0].kind == Request then Materialized else slot.out[0].phase);
    assert ItemStaged(slot.out[0]);
    var u := slot.(blocked := true);
    SameParts(slot, u, b);
    Updated(u, 0, item, b, ready);
  }

  /** The slot once its head has been submitted or given up. */
  function Left(slot: Slot, outcome: Outcome): Slot
    requires slot.out != []
  {
    slot.(out := slot.out[1..], accepted := if outcome == Accepted then slot.accepted + [slot.out[0]] else slot.accepted)
  }

  lemma {:induction false} LeftOrdered(slot: Slot, b: Bounds, outcome: Outcome)
    requires Ordered(slot, b) && slot.out != []
    ensures Ordered(Left(slot, outcome), b)
    ensures forall i | 0 <= i < |Left(slot, outcome).out| :: Left(slot, outcome).out[i].id != slot.out[0].id
  {
    var after := Left(slot, outcome);
    forall i | 0 <= i < |after.out| ensures after.out[i] == slot.out[i + 1] && slot.out[0].id < after.out[i].id {}
  }

  lemma {:induction false} SameOut(slot: Slot, after: Slot, b: Bounds)
    requires Staged(slot) && Fair(slot, b) && Probing(slot, b) && after.out == slot.out && after.probe == slot.probe
    ensures Staged(after) && Fair(after, b) && Probing(after, b)
  {}

  lemma {:induction false} HeadLeaves(slot: Slot, b: Bounds, ready: bool, outcome: Outcome)
    requires SlotOK(slot, b, ready) && slot.out != []
    ensures SlotOK(Left(slot, outcome), b, false)
    ensures forall i | 0 <= i < |Left(slot, outcome).out| :: Left(slot, outcome).out[i].id != slot.out[0].id
  {
    hide Ordered, Staged, Fair, Probing;
    Removed(slot, 0, b, ready);
    var cut := slot.(out := slot.out[..0] + slot.out[1..]);
    assert cut.out == slot.out[1..];
    LeftOrdered(slot, b, outcome);
    SameOut(cut, Left(slot, outcome), b);
  }

  lemma {:induction false} SubmittedSlot(slot: Slot, b: Bounds, ready: bool)
    requires SlotOK(slot, b, ready) && slot.probe.Some?
    requires forall i | 0 <= i < |slot.out| :: slot.out[i].id != slot.probe.value.id
    ensures SlotOK(slot.(probe := Some(Pending(slot.probe.value.id, true))), b, ready)
  {
    var after := slot.(probe := Some(Pending(slot.probe.value.id, true)));
    SameQueue(slot, after, b);
    assert Probing(after, b);
  }

  lemma {:induction false} LeftExcept(s: State, t: State, k: nat, outcome: Outcome)
    requires AllOK(s) && At(s, k, 0) && |t.slots| == |s.slots| && t.slots == s.slots[k := t.slots[k]]
    requires BoundsOf(t) == BoundsOf(s) && t.ready == s.ready
    requires var after := Left(s.slots[k], outcome);
             t.slots[k] == after.(requestItems := t.slots[k].requestItems, requestBytes := t.slots[k].requestBytes,
                                  controlItems := t.slots[k].controlItems, controlBytes := t.slots[k].controlBytes)
    ensures OKExcept(t, Some(k))
  {
    hide SlotOK;
    SlotAt(s, k);
    HeadLeaves(s.slots[k], BoundsOf(s), s.ready, outcome);
    CountersOK(Left(s.slots[k], outcome), t.slots[k], BoundsOf(s), false);
    WeakenOK(s, k, true);
    PutOK(s, t, k, Some(k));
  }

  lemma {:induction false} RequestLeavesOK(s: State, k: nat, outcome: Outcome)
    requires AllOK(s) && At(s, k, 0) && s.slots[k].out[0].kind == Request
    ensures var slot := s.slots[k];
            var t := if outcome == Accepted then SetSlot(s, k, slot.(accepted := slot.accepted + [slot.out[0]])) else s;
            AllOK(Retire(t, k, 0))
  {
    hide AllOK, OKExcept, Promote;
    var slot := s.slots[k];
    var t := if outcome == Accepted then SetSlot(s, k, slot.(accepted := slot.accepted + [slot.out[0]])) else s;
    var u := ReleaseCharge(Remove(t, k, 0), k, t.slots[k].out[0]);
    assert slot.out[..0] + slot.out[1..] == slot.out[1..];
    LeftExcept(s, u, k, outcome);
    PromoteOK(u, Some(k));
    PromoteEffect(u);
    SignalOK(Promote(u), k, true);
  }

  lemma {:induction false} ControlLeavesOK(s: State, k: nat, outcome: Outcome)
    requires AllOK(s) && At(s, k, 0)
    ensures var slot := s.slots[k];
            var t := if outcome == Accepted then SetSlot(s, k, slot.(accepted := slot.accepted + [slot.out[0]])) else s;
            var u := Signal(RetireControl(t, k, 0), k);
            && AllOK(u)
            && (slot.probe.Some? && slot.probe.value.id == slot.out[0].id ==>
                  AllOK(SetSlot(u, k, u.slots[k].(probe := Some(Pending(slot.out[0].id, true))))))
  {
    hide AllOK, OKExcept, SlotOK;
    var slot := s.slots[k];
    var t := if outcome == Accepted then SetSlot(s, k, slot.(accepted := slot.accepted + [slot.out[0]])) else s;
    var r := RetireControl(t, k, 0);
    assert slot.out[..0] + slot.out[1..] == slot.out[1..];
    LeftExcept(s, r, k, outcome);
    SignalOK(r, k, true);
    var u := Signal(r, k);
    if slot.probe.Some? && slot.probe.value.id == slot.out[0].id {
      SlotAt(u, k);
      SlotAt(s, k);
      HeadLeaves(slot, BoundsOf(s), s.ready, outcome);
      SubmittedSlot(u.slots[k], BoundsOf(u), u.ready);
      var v := SetSlot(u, k, u.slots[k].(probe := Some(Pending(slot.out[0].id, true))));
      AllIsExcept(u);
      PutOK(u, v, k, None);
      AllIsExcept(v);
    }
  }

  lemma {:induction false} FinishAttemptOK(s: State, k: nat, outcome: Outcome)
    requires AllOK(s) && k < |s.slots|
    ensures AllOK(FinishAttempt(s, k, outcome))
  {
    hide AllOK, SlotOK, Retire, RetireControl;
    var slot := s.slots[k];
    if slot.out != [] && slot.out[0].attempting {
      if outcome == Backpressure && !slot.out[0].canceled && s.ready {
        SlotAt(s, k);
        HeadBack(slot, BoundsOf(s), s.ready);
        AllIsExcept(s);
        PutOK(s, FinishAttempt(s, k, outcome), k, None);
        AllIsExcept(FinishAttempt(s, k, outcome));
      } else if slot.out[0].kind == Request {
        RequestLeavesOK(s, k, outcome);
      } else {
        ControlLeavesOK(s, k, outcome);
      }
    }
  }

  // ---------------------------------------------------------------- failing, repairing, closing

  lemma {:induction false} CancelFromOK(s: State, k: nat, i: nat)
    requires AllOK(s) && k < |s.slots| && (s.slots[k].failed || !s.ready) && s.slots[k].probe.None?
    ensures AllOK(CancelFrom(s, k, i))
    decreases if i <= |s.slots[k].out| then |s.slots[k].out| - i else 0
  {
    hide AllOK, Cancel;
    if i < |s.slots[k].out| {
      ItemAt(s, k, i);
      var item := s.slots[k].out[i];
      if item.kind == Request {
        CancelLength(s, k, i);
        CancelOK(s, k, i);
        CancelKeepsFlags(s, k, i);
        var t := Cancel(s, k, i);
        CancelFromOK(t, k, if |t.slots[k].out| < |s.slots[k].out| then i else i + 1);
      } else if item.attempting || item.kind == Probe {
        CancelFlagOK(s, k, i);
        CancelFromOK(SetItem(s, k, i, item.(canceled := true)), k, i + 1);
      } else {
        QuietRetireOK(s, k, i);
        CancelFromOK(RetireControl(s, k, i), k, i);
      }
    }
  }

  lemma {:induction false} CancelKeepsFlags(s: State, k: nat, i: nat)
    requires At(s, k, i)
    ensures var t := Cancel(s, k, i);
            t.ready == s.ready && |t.slots| == |s.slots| && t.slots[k].failed == s.slots[k].failed && t.slots[k].probe == s.slots[k].probe
  {
    hide Promote, PromotionDone, IsWaiting;
    PromoteEffect(ReleaseCharge(Remove(s, k, i), k, s.slots[k].out[i]));
  }

  lemma {:induction false} CancelFlagOK(s: State, k: nat, i: nat)
    requires AllOK(s) && At(s, k, i) && s.slots[k].probe.None?
    requires s.slots[k].out[i].attempting || s.slots[k].out[i].kind == Probe
    ensures AllOK(SetItem(s, k, i, s.slots[k].out[i].(canceled := true)))
  {
    hide AllOK;
    ItemAt(s, k, i);
    if s.slots[k].out[i].kind == Probe {
      ProbeAt(s, k, i);
    }
    SetItemOK(s, k, i, s.slots[k].out[i].(canceled := true));
  }

  lemma {:induction false} ProbeAt(s: State, k: nat, i: nat)
    requires AllOK(s) && At(s, k, i) && s.slots[k].out[i].kind == Probe && s.slots[k].probe.None?
    ensures s.slots[k].out[i].canceled && s.slots[k].out[i].attempting
  {
    SlotAt(s, k);
    var item := s.slots[k].out[i];
    assert ItemStaged(item);
  }

  lemma {:induction false} QuietRetireOK(s: State, k: nat, i: nat)
    requires AllOK(s) && At(s, k, i) && (s.slots[k].failed || !s.ready)
    ensures AllOK(RetireControl(s, k, i))
  {
    RetireControlOK(s, k, i);
    var t := RetireControl(s, k, i);
    hide Ordered, Staged, Fair, Probing, Woken;
    forall j | 0 <= j < |t.slots| ensures SlotOK(t.slots[j], BoundsOf(t), t.ready) {
      assert SlotOK(t.slots[j], BoundsOf(t), t.ready && Some(k) != Some(j));
    }
  }

  lemma {:induction false} FailedFlagOK(s: State, k: nat)
    requires AllOK(s) && k < |s.slots|
    ensures AllOK(SetSlot(s, k, s.slots[k].(failed := true)))
  {
    hide SlotOK;
    SlotAt(s, k);
    FailedSlotOK(s.slots[k], BoundsOf(s), s.ready);
    PutOK(s, SetSlot(s, k, s.slots[k].(failed := true)), k, None);
  }

  lemma {:induction false} FailedSlotOK(slot: Slot, b: Bounds, ready: bool)
    requires SlotOK(slot, b, ready)
    ensures SlotOK(slot.(failed := true), b, ready)
  {
    SameQueue(slot, slot.(failed := true), b);
    SameOut(slot, slot.(failed := true), b);
    hide Ordered, Staged, Fair, Probing;
  }

  lemma {:induction false} EndProbeFlags(s: State, k: nat)
    requires k < |s.slots|
    ensures var t := EndProbe(s, k);
            && |t.slots| == |s.slots| && t.ready == s.ready && t.slots[k].failed == s.slots[k].failed
            && t.slots[k].probe.None?
            && BoundsOf(t) == BoundsOf(s)
  {}

  lemma {:induction false} FailSlotOK(s: State, k: nat)
    requires AllOK(s) && k < |s.slots|
    ensures AllOK(FailSlot(s, k))
  {
    hide AllOK, EndProbe, CancelFrom;
    var t := SetSlot(s, k, s.slots[k].(failed := true));
    FailedFlagOK(s, k);
    EndProbeOK(t, k);
    EndProbeFlags(t, k);
    CancelFromOK(EndProbe(t, k), k, 0);
  }

  lemma {:induction false} RepairSlotOK(s: State, k: nat)
    requires AllOK(s) && k < |s.slots|
    ensures AllOK(RepairSlot(s, k))
  {
    hide SlotOK;
    var slot := s.slots[k];
    SlotAt(s, k);
    if slot.out == [] {
      RepairedSlotOK(slot, BoundsOf(s), s.ready);
      PutOK(s, SetSlot(s, k, slot.(failed := false, wake := false, blocked := false)), k, None);
    }
  }

  lemma {:induction false} RepairedSlotOK(slot: Slot, b: Bounds, ready: bool)
    requires SlotOK(slot, b, ready) && slot.out == []
    ensures SlotOK(slot.(failed := false, wake := false, blocked := false), b, ready)
  {}

  lemma {:induction false} CancelFromFlags(s: State, k: nat, i: nat)
    requires k < |s.slots|
    ensures CancelFrom(s, k, i).ready == s.ready
    decreases if i <= |s.slots[k].out| then |s.slots[k].out| - i else 0
  {
    hide Cancel;
    if i < |s.slots[k].out| {
      var item := s.slots[k].out[i];
      if item.kind == Request {
        CancelLength(s, k, i);
        CancelKeepsFlags(s, k, i);
        var t := Cancel(s, k, i);
        CancelFromFlags(t, k, if |t.slots[k].out| < |s.slots[k].out| then i else i + 1);
      } else if item.attempting || item.kind == Probe {
        CancelFromFlags(SetItem(s, k, i, item.(canceled := true)), k, i + 1);
      } else {
        CancelFromFlags(RetireControl(s, k, i), k, i);
      }
    }
  }

  lemma {:induction false} CloseFromOK(s: State, k: nat)
    requires AllOK(s) && !s.ready
    ensures AllOK(CloseFrom(s, k))
    decreases if k <= |s.slots| then |s.slots| - k else 0
  {
    hide AllOK, EndProbe, CancelFrom;
    if k < |s.slots| {
      EndProbeOK(s, k);
      EndProbeFlags(s, k);
      CancelFromOK(EndProbe(s, k), k, 0);
      CancelFromFlags(EndProbe(s, k), k, 0);
      CloseFromOK(CancelFrom(EndProbe(s, k), k, 0), k + 1);
    }
  }

  lemma {:induction false} ClosingOK(s: State)
    requires AllOK(s)
    ensures AllOK(s.(ready := false))
  {
    hide Ordered, Staged, Fair, Probing, Woken;
    forall j | 0 <= j < |s.slots| ensures SlotOK(s.slots[j], BoundsOf(s), false) {
      assert SlotOK(s.slots[j], BoundsOf(s), s.ready);
    }
  }

  lemma {:induction false} StepOK(s: State, op: Op)
    requires AllOK(s) && 0 < s.nextTicket
    ensures AllOK(Step(s, op))
  {
    hide AllOK, Prepare, Claim, Materialize, Cancel, QueueControl, CancelControls, StartProbe, EndProbe, BeginAttempt,
         FinishAttempt, FailSlot, RepairSlot, CloseFrom;
    match op
    case PrepareRequest(k, owner, size, busy) => if k < |s.slots| { PrepareOK(s, k, owner, size, busy); }
    case ClaimReservation(k, i) => if At(s, k, i) { ClaimOK(s, k, i); }
    case FinishMaterialize(k, i, ok) => if At(s, k, i) { MaterializeOK(s, k, i, ok); }
    case CancelRequest(k, i) => if At(s, k, i) { CancelOK(s, k, i); }
    case CloseConnection(k, binding) => if k < |s.slots| { QueueControlOK(s, k, binding); }
    case CancelClose(k, owner) => if k < |s.slots| { CancelControlsOK(s, k, owner, 0); }
    case BeginProbe(k) => if k < |s.slots| { StartProbeOK(s, k); }
    case CompleteProbe(k) => if k < |s.slots| { EndProbeOK(s, k); }
    case Begin(k, byRoom) => if k < |s.slots| { BeginAttemptOK(s, k, byRoom); }
    case Finish(k, outcome) => if k < |s.slots| { FinishAttemptOK(s, k, outcome); }
    case Fail(k) => if k < |s.slots| { FailSlotOK(s, k); }
    case Repair(k) => if k < |s.slots| { RepairSlotOK(s, k); }
    case CloseManager => ClosingOK(s); CloseFromOK(s.(ready := false), 0);
  }
}
