/** Closes stay out of the probe reserve, and a failed slot holds only cancelled work. */
module OutboundReserve {
  import opened Bytes
  import opened SeqSums
  import opened OutboundCore
  import opened OutboundCharges
  import opened OutboundOrder

  function Closes(item: Item): nat { if item.kind == Control then 1 else 0 }
  function Probes(item: Item): nat { if item.kind == Probe then 1 else 0 }
  function SlotCloses(slot: Slot): nat { Total(slot.out, Closes) }
  function SlotProbes(slot: Slot): nat { Total(slot.out, Probes) }

  /** Closes leave room for one probe in each slot, and for one probe per slot in the manager. */
  predicate Reserves(s: State) {
    && (forall k | 0 <= k < |s.slots| ::
          SlotCloses(s.slots[k]) + 1 <= s.limits.controlSlotItems
          && CONTROL_SIZE * (SlotCloses(s.slots[k]) + 1) <= s.limits.controlSlotBytes)
    && Total(s.slots, SlotCloses) + |s.slots| <= s.limits.controlItems
    && CONTROL_SIZE * (Total(s.slots, SlotCloses) + |s.slots|) <= s.limits.controlBytes
  }

  /** A failed slot has no pending probe and only cancelled items. */
  predicate SlotFailing(slot: Slot) {
    slot.failed ==> slot.probe.None? && forall i | 0 <= i < |slot.out| :: slot.out[i].canceled
  }

  predicate Failing(s: State) {
    forall k | 0 <= k < |s.slots| :: SlotFailing(s.slots[k])
  }

  // ---------------------------------------------------------------- steps that queue no close

  predicate Quieter(a: Slot, b: Slot) {
    SlotCloses(b) <= SlotCloses(a) && (SlotFailing(a) ==> SlotFailing(b))
  }

  predicate FewerCloses(s: State, t: State) {
    && |t.slots| == |s.slots| && t.limits == s.limits
    && forall k | 0 <= k < |s.slots| :: Quieter(s.slots[k], t.slots[k])
  }

  lemma {:induction false} TotalLess(a: seq<Slot>, b: seq<Slot>)
    requires |a| == |b| && forall k | 0 <= k < |a| :: SlotCloses(b[k]) <= SlotCloses(a[k])
    ensures Total(b, SlotCloses) <= Total(a, SlotCloses)
  {
    hide SlotCloses;
    if a != [] {
      TotalLess(a[1..], b[1..]);
    }
  }

  lemma {:induction false} FewerKeeps(s: State, t: State)
    requires FewerCloses(s, t) && Reserves(s) && Failing(s)
    ensures Reserves(t) && Failing(t)
  {
    hide SlotCloses, SlotFailing;
    forall k | 0 <= k < |s.slots| ensures SlotCloses(t.slots[k]) <= SlotCloses(s.slots[k]) && SlotFailing(t.slots[k]) {
      assert Quieter(s.slots[k], t.slots[k]);
    }
    TotalLess(s.slots, t.slots);
  }

  lemma {:induction false} FewerTransitive(s: State, t: State, u: State)
    requires FewerCloses(s, t) && FewerCloses(t, u)
    ensures FewerCloses(s, u)
  {
    hide SlotCloses, SlotFailing;
    forall k | 0 <= k < |s.slots| ensures Quieter(s.slots[k], u.slots[k]) {
      assert Quieter(s.slots[k], t.slots[k]) && Quieter(t.slots[k], u.slots[k]);
    }
  }

  lemma {:induction false} EditFewer(s: State, t: State, k: nat)
    requires k < |s.slots| == |t.slots| && t.limits == s.limits && t.slots == s.slots[k := t.slots[k]]
    requires Quieter(s.slots[k], t.slots[k])
    ensures FewerCloses(s, t)
  {
    hide SlotCloses, SlotFailing;
  }

  lemma {:induction false} SameKinds(a: seq<Item>, b: seq<Item>)
    requires |a| == |b| && forall i | 0 <= i < |a| :: a[i].kind == b[i].kind
    ensures Total(a, Closes) == Total(b, Closes)
  {
    if a != [] {
      SameKinds(a[1..], b[1..]);
    }
  }

  lemma {:induction false} PromoteFewer(s: State)
    ensures FewerCloses(s, Promote(s))
  {
    hide Promote, PromotionDone;
    PromoteEffect(s);
    var t := Promote(s);
    forall k | 0 <= k < |s.slots| ensures Quieter(s.slots[k], t.slots[k]) {
      assert SameSlotShape(s.slots[k], t.slots[k]);
      SameKinds(s.slots[k].out, t.slots[k].out);
    }
  }

  lemma {:induction false} UpdatedQuieter(a: Slot, b: Slot, i: nat, item: Item)
    requires i < |a.out| && b.out == a.out[i := item] && item.kind == a.out[i].kind && (a.out[i].canceled ==> item.canceled)
    requires b.failed == a.failed && (a.failed && a.probe.None? ==> b.probe.None?)
    ensures Quieter(a, b)
  {
    SameKinds(a.out, b.out);
  }

  lemma {:induction false} RemovedQuieter(a: Slot, b: Slot, i: nat)
    requires i < |a.out| && b.out == a.out[..i] + a.out[i + 1..] && b.failed == a.failed && (a.probe.None? ==> b.probe.None?)
    ensures Quieter(a, b)
  {
    TotalRemove(a.out, i, Closes);
  }

  lemma {:induction false} FlagsQuieter(a: Slot, b: Slot)
    requires b.out == a.out && b.failed == a.failed && (a.probe.None? ==> b.probe.None?)
    ensures Quieter(a, b)
  {}

  lemma {:induction false} SignalFewer(s: State, k: nat, wasHead: bool)
    requires k < |s.slots|
    ensures FewerCloses(s, SignalIf(s, k, wasHead))
  {
    hide Quieter;
    FlagsQuieter(s.slots[k], Signal(s, k).slots[k]);
    EditFewer(s, Signal(s, k), k);
    forall j | 0 <= j < |s.slots| ensures Quieter(s.slots[j], s.slots[j]) {
      FlagsQuieter(s.slots[j], s.slots[j]);
    }
  }

  lemma {:induction false} ItselfFewer(s: State)
    ensures FewerCloses(s, s)
  {}

  lemma {:induction false} SetItemFewer(s: State, k: nat, i: nat, item: Item)
    requires At(s, k, i) && item.kind == s.slots[k].out[i].kind && (s.slots[k].out[i].canceled ==> item.canceled)
    ensures FewerCloses(s, SetItem(s, k, i, item))
  {
    hide Quieter;
    UpdatedQuieter(s.slots[k], SetItem(s, k, i, item).slots[k], i, item);
    EditFewer(s, SetItem(s, k, i, item), k);
  }

  lemma {:induction false} RetireFewer(s: State, k: nat, i: nat)
    requires At(s, k, i)
    ensures FewerCloses(s, Retire(s, k, i))
  {
    hide Quieter, FewerCloses, Promote;
    var u := ReleaseCharge(Remove(s, k, i), k, s.slots[k].out[i]);
    RemovedQuieter(s.slots[k], u.slots[k], i);
    EditFewer(s, u, k);
    PromoteFewer(u);
    PromoteEffect(u);
    FewerTransitive(s, u, Promote(u));
    SignalFewer(Promote(u), k, i == 0);
    FewerTransitive(s, Promote(u), Retire(s, k, i));
  }

  lemma {:induction false} RetireControlFewer(s: State, k: nat, i: nat)
    requires At(s, k, i)
    ensures FewerCloses(s, RetireControl(s, k, i))
    ensures FewerCloses(s, SignalIf(RetireControl(s, k, i), k, i == 0))
  {
    hide Quieter, FewerCloses;
    var u := RetireControl(s, k, i);
    RemovedQuieter(s.slots[k], u.slots[k], i);
    EditFewer(s, u, k);
    SignalFewer(u, k, i == 0);
    FewerTransitive(s, u, SignalIf(u, k, i == 0));
  }

  lemma {:induction false} CancelFewer(s: State, k: nat, i: nat)
    requires At(s, k, i)
    ensures FewerCloses(s, Cancel(s, k, i))
  {
    hide FewerCloses, Retire;
    ItselfFewer(s);
    SetItemFewer(s, k, i, s.slots[k].out[i].(canceled := true));
    RetireFewer(s, k, i);
  }

  lemma {:induction false} CancelFromFewer(s: State, k: nat, i: nat)
    requires k < |s.slots|
    ensures FewerCloses(s, CancelFrom(s, k, i))
    decreases if i <= |s.slots[k].out| then |s.slots[k].out| - i else 0
  {
    hide FewerCloses, Cancel;
    ItselfFewer(s);
    if i < |s.slots[k].out| {
      var item := s.slots[k].out[i];
      if item.kind == Request {
        CancelLength(s, k, i);
        CancelFewer(s, k, i);
        var t := Cancel(s, k, i);
        var j := if |t.slots[k].out| < |s.slots[k].out| then i else i + 1;
        CancelFromFewer(t, k, j);
        FewerTransitive(s, t, CancelFrom(t, k, j));
      } else if item.attempting || item.kind == Probe {
        var t := SetItem(s, k, i, item.(canceled := true));
        SetItemFewer(s, k, i, item.(canceled := true));
        CancelFromFewer(t, k, i + 1);
        FewerTransitive(s, t, CancelFrom(t, k, i + 1));
      } else {
        var t := RetireControl(s, k, i);
        RetireControlFewer(s, k, i);
        CancelFromFewer(t, k, i);
        FewerTransitive(s, t, CancelFrom(t, k, i));
      }
    }
  }

  lemma {:induction false} EndProbeFewer(s: State, k: nat)
    requires k < |s.slots|
    ensures FewerCloses(s, EndProbe(s, k))
  {
    hide FewerCloses, Quieter;
    ItselfFewer(s);
    if s.slots[k].probe.Some? {
      var t := SetSlot(s, k, s.slots[k].(probe := None));
      FlagsQuieter(s.slots[k], t.slots[k]);
      EditFewer(s, t, k);
      var at := IndexOf(s.slots[k].out, s.slots[k].probe.value.id);
      if at.Some? {
        SetItemFewer(t, k, at.value, s.slots[k].out[at.value].(canceled := true));
        RetireControlFewer(t, k, at.value);
        FewerTransitive(s, t, EndProbe(s, k));
      }
    }
  }

  lemma {:induction false} AppendRequestFewer(s: State, t: State, k: nat, item: Item)
    requires k < |s.slots| == |t.slots| && t.limits == s.limits && t.slots == s.slots[k := t.slots[k]]
    requires t.slots[k].out == s.slots[k].out + [item] && item.kind != Control && !s.slots[k].failed && !t.slots[k].failed
    ensures FewerCloses(s, t)
  {
    TotalSnoc(s.slots[k].out, item, Closes);
    EditFewer(s, t, k);
  }

  lemma {:induction false} PrepareFewer(s: State, k: nat, owner: nat, size: nat, busy: bool)
    requires k < |s.slots|
    ensures FewerCloses(s, Prepare(s, k, owner, size, busy))
  {
    hide FewerCloses, Promote;
    ItselfFewer(s);
    if !s.slots[k].failed {
      var direct := Item(s.nextID, Request, Some(owner), size, 0, Materializing, false, false);
      AppendRequestFewer(s, MoveRequests(Append(s, k, direct), k, 1, size), k, direct);
      var waiting := Item(s.nextID, Request, Some(owner), size, s.nextTicket, Waiting, false, false);
      var u := Append(s, k, waiting).(nextTicket := s.nextTicket + 1);
      AppendRequestFewer(s, u, k, waiting);
      PromoteFewer(u);
      FewerTransitive(s, u, Promote(u));
    }
  }

  lemma {:induction false} StartProbeFewer(s: State, k: nat)
    requires k < |s.slots|
    ensures FewerCloses(s, StartProbe(s, k).0)
  {
    ItselfFewer(s);
    if StartProbe(s, k).1 {
      AppendRequestFewer(s, StartProbe(s, k).0, k, Item(s.nextID, Probe, None, CONTROL_SIZE, 0, Waiting, false, false));
    }
  }

  /** A close is queued only within the reserve. */
  lemma {:induction false} QueueControlReserves(s: State, k: nat, owner: Option<nat>)
    requires Reserves(s) && Failing(s) && Counted(s) && k < |s.slots|
    ensures Reserves(QueueControl(s, k, owner).0) && Failing(QueueControl(s, k, owner).0)
  {
    var (t, ok) := QueueControl(s, k, owner);
    if ok {
      var item := Item(s.nextID, Control, owner, CONTROL_SIZE, 0, Waiting, false, false);
      assert t.slots == s.slots[k := t.slots[k]];
      TotalSnoc(s.slots[k].out, item, Closes);
      TotalUpdate(s.slots, k, t.slots[k], SlotCloses);
      ClosesAreControls(s, k);
    }
  }

  lemma {:induction false} ClosesAreControls(s: State, k: nat)
    requires k < |s.slots|
    ensures SlotCloses(s.slots[k]) <= SlotControlItems(s.slots[k])
    ensures Total(s.slots, SlotCloses) <= Total(s.slots, SlotControlItems)
  {
    ItemsLess(s.slots[k].out);
    SlotsLess(s.slots);
  }

  lemma {:induction false} ItemsLess(out: seq<Item>)
    ensures Total(out, Closes) <= Total(out, ControlItems)
    ensures Total(out, ControlItems) == Total(out, Closes) + Total(out, Probes)
  {
    if out != [] {
      ItemsLess(out[1..]);
    }
  }

  lemma {:induction false} SlotsLess(slots: seq<Slot>)
    ensures Total(slots, SlotCloses) <= Total(slots, SlotControlItems)
    ensures Total(slots, SlotControlItems) == Total(slots, SlotCloses) + Total(slots, SlotProbes)
  {
    if slots != [] {
      ItemsLess(slots[0].out);
      SlotsLess(slots[1..]);
    }
  }
}
