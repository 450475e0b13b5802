/** Charges of the outbound queues: what the counters count, that they stay within the nested limits, and the probe reserve. */
module OutboundCharges {
  import opened Bytes
  import opened SeqSums
  import opened OutboundCore

  predicate Charged(item: Item) {
    item.kind == Request && item.phase != Waiting
  }

  function RequestItems(item: Item): nat { if Charged(item) then 1 else 0 }
  function RequestBytes(item: Item): nat { if Charged(item) then item.size else 0 }
  function ControlItems(item: Item): nat { if item.kind != Request then 1 else 0 }

  function SlotRequestItems(slot: Slot): nat { Total(slot.out, RequestItems) }
  function SlotRequestBytes(slot: Slot): nat { Total(slot.out, RequestBytes) }
  function SlotControlItems(slot: Slot): nat { Total(slot.out, ControlItems) }

  /** A slot's counters are the count and total size of its charged requests and of its closes and probes. */
  predicate SlotCounted(slot: Slot) {
    && slot.requestItems == SlotRequestItems(slot)
    && slot.requestBytes == SlotRequestBytes(slot)
    && slot.controlItems == SlotControlItems(slot)
    && slot.controlBytes == CONTROL_SIZE * slot.controlItems
  }

  /** The manager's counters are the sums over its slots: every charge is released exactly once. */
  predicate Counted(s: State) {
    && (forall k | 0 <= k < |s.slots| :: SlotCounted(s.slots[k]))
    && s.requestItems == Total(s.slots, SlotRequestItems)
    && s.requestBytes == Total(s.slots, SlotRequestBytes)
    && s.controlItems == Total(s.slots, SlotControlItems)
    && s.controlBytes == CONTROL_SIZE * s.controlItems
  }

  predicate Within(s: State) {
    && (forall k | 0 <= k < |s.slots| ::
          s.slots[k].requestItems <= s.limits.slotItems && s.slots[k].requestBytes <= s.limits.slotBytes)
    && s.requestItems <= s.limits.items && s.requestBytes <= s.limits.bytes
  }

  // ---------------------------------------------------------------- one edit

  /** What an edit of one slot adds to the queue's weight. */
  predicate Adds(a: Slot, b: Slot, items: int, bytes: int, controls: int) {
    && SlotRequestItems(b) == SlotRequestItems(a) + items
    && SlotRequestBytes(b) == SlotRequestBytes(a) + bytes
    && SlotControlItems(b) == SlotControlItems(a) + controls
  }

  /** The counters follow the queue. */
  predicate Follows(s: State, t: State, k: nat, items: int, bytes: int, controls: int)
    requires k < |s.slots| == |t.slots|
  {
    && t.slots == s.slots[k := t.slots[k]]
    && t.slots[k].requestItems == s.slots[k].requestItems + items && t.requestItems == s.requestItems + items
    && t.slots[k].requestBytes == s.slots[k].requestBytes + bytes && t.requestBytes == s.requestBytes + bytes
    && t.slots[k].controlItems == s.slots[k].controlItems + controls && t.controlItems == s.controlItems + controls
    && t.slots[k].controlBytes == s.slots[k].controlBytes + controls * CONTROL_SIZE
    && t.controlBytes == s.controlBytes + controls * CONTROL_SIZE
  }

  lemma {:induction false} EditCounted(s: State, t: State, k: nat, items: int, bytes: int, controls: int)
    requires Counted(s) && k < |s.slots| == |t.slots|
    requires Follows(s, t, k, items, bytes, controls) && Adds(s.slots[k], t.slots[k], items, bytes, controls)
    ensures Counted(t)
  {
    TotalUpdate(s.slots, k, t.slots[k], SlotRequestItems);
    TotalUpdate(s.slots, k, t.slots[k], SlotRequestBytes);
    TotalUpdate(s.slots, k, t.slots[k], SlotControlItems);
  }

  lemma {:induction false} Removing(a: Slot, b: Slot, i: nat)
    requires i < |a.out| && b.out == a.out[..i] + a.out[i + 1..]
    ensures Adds(a, b, 0 - RequestItems(a.out[i]), 0 - RequestBytes(a.out[i]), 0 - ControlItems(a.out[i]))
  {
    TotalRemove(a.out, i, RequestItems);
    TotalRemove(a.out, i, RequestBytes);
    TotalRemove(a.out, i, ControlItems);
  }

  lemma {:induction false} Appending(a: Slot, b: Slot, item: Item)
    requires b.out == a.out + [item]
    ensures Adds(a, b, RequestItems(item), RequestBytes(item), ControlItems(item))
  {
    TotalSnoc(a.out, item, RequestItems);
    TotalSnoc(a.out, item, RequestBytes);
    TotalSnoc(a.out, item, ControlItems);
  }

  lemma {:induction false} Updating(a: Slot, b: Slot, i: nat, item: Item)
    requires i < |a.out| && b.out == a.out[i := item]
    ensures Adds(a, b, RequestItems(item) - RequestItems(a.out[i]), RequestBytes(item) - RequestBytes(a.out[i]),
                 ControlItems(item) - ControlItems(a.out[i]))
  {
    TotalUpdate(a.out, i, item, RequestItems);
    TotalUpdate(a.out, i, item, RequestBytes);
    TotalUpdate(a.out, i, item, ControlItems);
  }

  // ---------------------------------------------------------------- the parts

  lemma {:induction false} FlagsCounted(s: State, t: State, k: nat)
    requires Counted(s) && k < |s.slots| == |t.slots| && t.slots[k].out == s.slots[k].out && Follows(s, t, k, 0, 0, 0)
    ensures Counted(t)
  {
    EditCounted(s, t, k, 0, 0, 0);
  }

  lemma {:induction false} SetItemCounted(s: State, k: nat, i: nat, item: Item)
    requires Counted(s) && At(s, k, i)
    requires item.kind == s.slots[k].out[i].kind && item.size == s.slots[k].out[i].size
    requires Charged(item) == Charged(s.slots[k].out[i])
    ensures Counted(SetItem(s, k, i, item))
  {
    hide Counted;
    var t := SetItem(s, k, i, item);
    Updating(s.slots[k], t.slots[k], i, item);
    EditCounted(s, t, k, 0, 0, 0);
  }

  lemma {:induction false} RemoveCounted(s: State, k: nat, i: nat)
    requires Counted(s) && At(s, k, i)
    ensures s.slots[k].out[i].kind == Request ==> Counted(ReleaseCharge(Remove(s, k, i), k, s.slots[k].out[i]))
    ensures s.slots[k].out[i].kind != Request ==> Counted(RetireControl(s, k, i))
  {
    hide Counted;
    var item := s.slots[k].out[i];
    var t := if item.kind == Request then ReleaseCharge(Remove(s, k, i), k, item) else RetireControl(s, k, i);
    Removing(s.slots[k], t.slots[k], i);
    EditCounted(s, t, k, 0 - RequestItems(item), 0 - RequestBytes(item), 0 - ControlItems(item));
  }

  lemma {:induction false} ReserveHeadCounted(s: State, k: nat)
    requires Counted(s) && Eligible(s, k)
    ensures Counted(ReserveHead(s, k))
    ensures Within(s) && GlobalRoom(s, HeadWaiter(s, k).size) ==> Within(ReserveHead(s, k))
  {
    var i := WaitHead(s.slots[k].out).value;
    var item := s.slots[k].out[i].(phase := Reserved);
    var t := ReserveHead(s, k);
    Updating(s.slots[k], t.slots[k], i, item);
    assert Counted(t) by {
      hide Counted;
      EditCounted(s, t, k, 1, item.size, 0);
    }
  }

  lemma {:induction false} PromoteCounted(s: State)
    requires Counted(s) && Within(s)
    ensures Counted(Promote(s)) && Within(Promote(s))
    decreases Total(s.slots, SlotWaiters)
  {
    hide Counted, Within, ReserveHead;
    var c := Candidate(s, |s.slots|);
    if s.ready && c.Some? && GlobalRoom(s, HeadWaiter(s, c.value).size) {
      ReserveHeadShrinks(s, c.value);
      ReserveHeadCounted(s, c.value);
      var t := ReserveHead(s, c.value);
      PromoteCounted(t);
    }
  }

  /** Counted and within the limits. */
  predicate Balanced(s: State) {
    Counted(s) && Within(s)
  }

  lemma {:induction false} SetItemBalanced(s: State, k: nat, i: nat, item: Item)
    requires Balanced(s) && At(s, k, i)
    requires item.kind == s.slots[k].out[i].kind && item.size == s.slots[k].out[i].size
    requires Charged(item) == Charged(s.slots[k].out[i])
    ensures Balanced(SetItem(s, k, i, item))
  {
    SetItemCounted(s, k, i, item);
  }

  lemma {:induction false} SignalBalanced(s: State, k: nat, wasHead: bool)
    requires Balanced(s) && k < |s.slots|
    ensures Balanced(SignalIf(s, k, wasHead))
  {
    if wasHead {
      FlagsCounted(s, Signal(s, k), k);
    }
  }

  lemma {:induction false} RetireBalanced(s: State, k: nat, i: nat)
    requires Balanced(s) && At(s, k, i) && s.slots[k].out[i].kind == Request
    ensures Balanced(Retire(s, k, i))
  {
    RemoveCounted(s, k, i);
    var u := ReleaseCharge(Remove(s, k, i), k, s.slots[k].out[i]);
    RemovedWithin(s, k, i);
    PromoteCounted(u);
    PromoteEffect(u);
    SignalBalanced(Promote(u), k, i == 0);
  }

  lemma {:induction false} RemovedWithin(s: State, k: nat, i: nat)
    requires Within(s) && At(s, k, i)
    ensures Within(ReleaseCharge(Remove(s, k, i), k, s.slots[k].out[i])) && Within(RetireControl(s, k, i))
  {}

  lemma {:induction false} CancelBalanced(s: State, k: nat, i: nat)
    requires Balanced(s) && At(s, k, i)
    ensures Balanced(Cancel(s, k, i))
  {
    hide Balanced, Retire;
    var item := s.slots[k].out[i];
    if item.kind == Request && !item.canceled {
      if item.phase == Materializing || item.phase == Attempting {
        SetItemBalanced(s, k, i, item.(canceled := true));
      } else {
        RetireBalanced(s, k, i);
      }
    }
  }

  lemma {:induction false} RetireControlBalanced(s: State, k: nat, i: nat)
    requires Balanced(s) && At(s, k, i) && s.slots[k].out[i].kind != Request
    ensures Balanced(RetireControl(s, k, i))
  {
    RemoveCounted(s, k, i);
    RemovedWithin(s, k, i);
  }

  /** A request charged on arrival, which needs room at both levels. */
  lemma {:induction false} AppendChargedBalanced(s: State, k: nat, item: Item)
    requires Balanced(s) && k < |s.slots| && item.kind == Request && item.phase != Waiting
    requires SlotRoom(s, k, item.size) && GlobalRoom(s, item.size)
    ensures Balanced(MoveRequests(Append(s, k, item), k, 1, item.size))
  {
    var t := MoveRequests(Append(s, k, item), k, 1, item.size);
    Appending(s.slots[k], t.slots[k], item);
    assert Counted(t) by {
      hide Counted, SlotRequestItems, SlotRequestBytes, SlotControlItems;
      EditCounted(s, t, k, 1, item.size, 0);
    }
  }

  lemma {:induction false} AppendWaitingBalanced(s: State, k: nat, item: Item)
    requires Balanced(s) && k < |s.slots| && item.kind == Request && item.phase == Waiting
    ensures Balanced(Append(s, k, item).(nextTicket := s.nextTicket + 1))
  {
    var t := Append(s, k, item).(nextTicket := s.nextTicket + 1);
    Appending(s.slots[k], t.slots[k], item);
    EditCounted(s, t, k, 0, 0, 0);
  }

  lemma {:induction false} PrepareBalanced(s: State, k: nat, owner: nat, size: nat, busy: bool)
    requires Balanced(s) && k < |s.slots|
    ensures Balanced(Prepare(s, k, owner, size, busy))
  {
    hide Promote, Counted, Within, MoveRequests;
    var waiting := Item(s.nextID, Request, Some(owner), size, s.nextTicket, Waiting, false, false);
    AppendWaitingBalanced(s, k, waiting);
    PromoteCounted(Append(s, k, waiting).(nextTicket := s.nextTicket + 1));
    if SlotRoom(s, k, size) && GlobalRoom(s, size) {
      AppendChargedBalanced(s, k, Item(s.nextID, Request, Some(owner), size, 0, Materializing, false, false));
    }
  }

  lemma {:induction false} AppendControlBalanced(s: State, k: nat, kind: Kind, owner: Option<nat>)
    requires Balanced(s) && k < |s.slots| && kind != Request
    ensures Balanced(AppendControl(s, k, kind, owner))
  {
    var item := Item(s.nextID, kind, owner, CONTROL_SIZE, 0, Waiting, false, false);
    var t := MoveControls(Append(s, k, item), k, 1);
    Appending(s.slots[k], t.slots[k], item);
    EditCounted(s, t, k, 0, 0, 1);
    SignalBalanced(t, k, s.slots[k].out == []);
  }

  lemma {:induction false} FlagsBalanced(s: State, t: State, k: nat)
    requires Balanced(s) && k < |s.slots| == |t.slots| && t.slots[k].out == s.slots[k].out && Follows(s, t, k, 0, 0, 0)
    requires t.limits == s.limits
    ensures Balanced(t)
  {
    FlagsCounted(s, t, k);
  }

  lemma {:induction false} EndProbeBalanced(s: State, k: nat)
    requires Balanced(s) && k < |s.slots|
    requires s.slots[k].probe.Some? ==>
             forall i | 0 <= i < |s.slots[k].out| :: s.slots[k].out[i].id == s.slots[k].probe.value.id ==> s.slots[k].out[i].kind == Probe
    ensures Balanced(EndProbe(s, k))
  {
    hide Balanced, SignalIf, RetireControl;
    if s.slots[k].probe.Some? {
      var t := SetSlot(s, k, s.slots[k].(probe := None));
      FlagsBalanced(s, t, k);
      var at := IndexOf(s.slots[k].out, s.slots[k].probe.value.id);
      if at.Some? {
        SetItemBalanced(t, k, at.value, s.slots[k].out[at.value].(canceled := true));
        RetireControlBalanced(t, k, at.value);
        ControlKeepsSlots(t, k, at.value);
        SignalBalanced(RetireControl(t, k, at.value), k, at.value == 0);
      }
    }
  }

  lemma {:induction false} ControlKeepsSlots(s: State, k: nat, i: nat)
    requires At(s, k, i)
    ensures |RetireControl(s, k, i).slots| == |s.slots|
  {}

  lemma {:induction false} BeginAttemptBalanced(s: State, k: nat, byRoom: bool)
    requires Balanced(s) && k < |s.slots|
    ensures Balanced(BeginAttempt(s, k, byRoom))
  {
    hide Balanced;
    var slot := s.slots[k];
    var woken := if byRoom then slot.(blocked := false) else slot.(wake := false);
    var t := SetSlot(s, k, woken);
    FlagsBalanced(s, t, k);
    if slot.out != [] && Dispatchable(slot.out[0]) {
      var item := slot.out[0].(attempting := true, phase := if slot.out[0].kind == Request then Attempting else slot.out[0].phase);
      SetItemBalanced(t, k, 0, item);
      assert SetItem(t, k, 0, item) == SetSlot(s, k, woken.(out := woken.out[0 := item]));
    }
  }

  lemma {:induction false} FinishAttemptBalanced(s: State, k: nat, outcome: Outcome)
    requires Balanced(s) && k < |s.slots|
    requires forall i | 0 <= i < |s.slots[k].out| && s.slots[k].out[i].attempting && s.slots[k].out[i].kind == Request ::
             s.slots[k].out[i].phase == Attempting
    ensures Balanced(FinishAttempt(s, k, outcome))
  {
    hide Balanced, Retire, RetireControl;
    var slot := s.slots[k];
    if slot.out != [] && slot.out[0].attempting {
      var item := slot.out[0];
      var back := item.(attempting := false, phase := if item.kind == Request then Materialized else item.phase);
      SetItemBalanced(s, k, 0, back);
      FlagsBalanced(SetItem(s, k, 0, back), SetSlot(s, k, slot.(out := slot.out[0 := back], blocked := true)), k);
      var t := if outcome == Accepted then SetSlot(s, k, slot.(accepted := slot.accepted + [item])) else s;
      FlagsBalanced(s, t, k);
      if item.kind == Request {
        RetireBalanced(t, k, 0);
      } else {
        RetireControlBalanced(t, k, 0);
        ControlKeepsSlots(t, k, 0);
        var u := Signal(RetireControl(t, k, 0), k);
        SignalBalanced(RetireControl(t, k, 0), k, true);
        FlagsBalanced(u, SetSlot(u, k, u.slots[k].(probe := Some(Pending(item.id, true)))), k);
      }
    }
  }

  lemma {:induction false} CancelFromBalanced(s: State, k: nat, i: nat)
    requires Balanced(s) && k < |s.slots|
    ensures Balanced(CancelFrom(s, k, i))
    decreases if i <= |s.slots[k].out| then |s.slots[k].out| - i else 0
  {
    hide Balanced, Cancel;
    if i < |s.slots[k].out| {
      var item := s.slots[k].out[i];
      if item.kind == Request {
        CancelLength(s, k, i);
        CancelBalanced(s, k, i);
        var t := Cancel(s, k, i);
        CancelFromBalanced(t, k, if |t.slots[k].out| < |s.slots[k].out| then i else i + 1);
      } else if item.attempting || item.kind == Probe {
        SetItemBalanced(s, k, i, item.(canceled := true));
        CancelFromBalanced(SetItem(s, k, i, item.(canceled := true)), k, i + 1);
      } else {
        RetireControlBalanced(s, k, i);
        CancelFromBalanced(RetireControl(s, k, i), k, i);
      }
    }
  }
}
