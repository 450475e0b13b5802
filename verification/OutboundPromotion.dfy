/**
 * Promotion never leaves a promotable waiter behind. `PromotionDone` says that the oldest waiter among the slots with
 * room does not fit the global limit; `Served` that this holds of a ready manager between sections. It can only be
 * broken by a section that gives back request charges or lets a waiter become the first of its slot, and each of these
 * ends with a promotion pass, which restores it (`PromoteServed`). A section that changes neither the charges nor the
 * first waiters keeps it because the demand it depends on is the same (`SameDemand`, `EditServed`); closing makes it
 * void. The oldest eligible waiter is therefore never skipped, whatever its size.
 */
module OutboundPromotion {
  import opened Bytes
  import opened SeqSums
  import opened OutboundCore

  /** What promotion looks at in one slot: its first waiter's size and ticket. */
  function Demand(slot: Slot): Option<(nat, nat)> {
    match WaitHead(slot.out)
    case None => None
    case Some(i) => Some((slot.out[i].size, slot.out[i].ticket))
  }

  predicate SameDemand(a: Slot, b: Slot) {
    Demand(a) == Demand(b) && a.requestItems == b.requestItems && a.requestBytes == b.requestBytes
  }

  predicate SameDemands(s: State, t: State) {
    && t.limits == s.limits && t.requestItems == s.requestItems && t.requestBytes == s.requestBytes
    && |t.slots| == |s.slots|
    && forall k | 0 <= k < |s.slots| :: SameDemand(s.slots[k], t.slots[k])
  }

  lemma {:induction false} SameEligible(s: State, t: State, k: nat)
    requires SameDemands(s, t) && k < |s.slots|
    ensures Eligible(s, k) <==> Eligible(t, k)
    ensures Eligible(s, k) ==> HeadWaiter(s, k).ticket == HeadWaiter(t, k).ticket && HeadWaiter(s, k).size == HeadWaiter(t, k).size
  {
    assert SameDemand(s.slots[k], t.slots[k]);
  }

  lemma {:induction false} SameCandidate(s: State, t: State, n: nat)
    requires SameDemands(s, t) && n <= |s.slots|
    ensures Candidate(s, n) == Candidate(t, n)
  {
    hide SameDemands, Eligible, WaitHead;
    if n != 0 {
      SameCount(s, t);
      SameCandidate(s, t, n - 1);
      SameEligible(s, t, n - 1);
      var before := Candidate(s, n - 1);
      if before.Some? {
        SameEligible(s, t, before.value);
      }
    }
  }

  lemma {:induction false} SameCount(s: State, t: State)
    requires SameDemands(s, t)
    ensures |s.slots| == |t.slots|
  {}

  lemma {:induction false} PromotionKept(s: State, t: State)
    requires PromotionDone(s) && SameDemands(s, t)
    ensures PromotionDone(t)
  {
    SameCandidate(s, t, |s.slots|);
    var c := Candidate(s, |s.slots|);
    if c.Some? {
      assert SameDemand(s.slots[c.value], t.slots[c.value]);
    }
  }

  /** The demand of a slot follows its first waiter. */
  lemma {:induction false} DemandIs(slot: Slot, i: nat)
    requires i < |slot.out| && IsWaiting(slot.out[i]) && forall j | 0 <= j < i :: !IsWaiting(slot.out[j])
    ensures Demand(slot) == Some((slot.out[i].size, slot.out[i].ticket))
  {}

  lemma {:induction false} AppendedDemand(slot: Slot, after: Slot, item: Item)
    requires after.out == slot.out + [item] && !IsWaiting(item)
    ensures Demand(after) == Demand(slot)
  {
    match WaitHead(slot.out)
    case None =>
    case Some(i) => DemandIs(after, i);
  }

  lemma {:induction false} RemovedDemand(slot: Slot, after: Slot, i: nat)
    requires i < |slot.out| && after.out == slot.out[..i] + slot.out[i + 1..] && !IsWaiting(slot.out[i])
    ensures Demand(after) == Demand(slot)
  {
    forall j | 0 <= j < |after.out| ensures after.out[j] == slot.out[if j < i then j else j + 1] {}
    match WaitHead(slot.out)
    case None => assert forall j | 0 <= j < |after.out| :: !IsWaiting(after.out[j]);
    case Some(h) => DemandIs(after, if h < i then h else h - 1);
  }

  lemma {:induction false} UpdatedDemand(slot: Slot, after: Slot, i: nat, item: Item)
    requires i < |slot.out| && after.out == slot.out[i := item] && !IsWaiting(slot.out[i]) && !IsWaiting(item)
    ensures Demand(after) == Demand(slot)
  {
    match WaitHead(slot.out)
    case None =>
    case Some(h) => DemandIs(after, h);
  }

  /** Between sections: once the manager is ready, nothing promotable is left waiting. */
  predicate Served(s: State) {
    s.ready ==> PromotionDone(s)
  }

  lemma {:induction false} EditServed(s: State, t: State, k: nat)
    requires Served(s) && k < |s.slots| == |t.slots| && t.slots == s.slots[k := t.slots[k]]
    requires t.limits == s.limits && t.ready == s.ready && t.requestItems == s.requestItems && t.requestBytes == s.requestBytes
    requires SameDemand(s.slots[k], t.slots[k])
    ensures Served(t)
  {
    hide SameDemand, PromotionDone;
    if s.ready {
      forall j | 0 <= j < |s.slots| && j != k ensures SameDemand(s.slots[j], t.slots[j]) {
        ItsOwnDemand(s.slots[j]);
      }
      PromotionKept(s, t);
    }
  }

  lemma {:induction false} ItsOwnDemand(slot: Slot)
    ensures SameDemand(slot, slot)
  {}

  lemma {:induction false} PromoteServed(s: State)
    ensures Served(Promote(s))
  {
    hide Promote, PromotionDone;
    PromoteEffect(s);
  }

  lemma {:induction false} SetItemServed(s: State, k: nat, i: nat, item: Item)
    requires Served(s) && At(s, k, i) && !IsWaiting(s.slots[k].out[i]) && !IsWaiting(item)
    ensures Served(SetItem(s, k, i, item))
  {
    hide Served;
    var t := SetItem(s, k, i, item);
    UpdatedDemand(s.slots[k], t.slots[k], i, item);
    EditServed(s, t, k);
  }

  lemma {:induction false} SignalServed(s: State, k: nat, wasHead: bool)
    requires Served(s) && k < |s.slots|
    ensures Served(SignalIf(s, k, wasHead))
  {
    hide Served;
    if wasHead {
      EditServed(s, Signal(s, k), k);
    }
  }

  lemma {:induction false} RetireServed(s: State, k: nat, i: nat)
    requires At(s, k, i)
    ensures Served(Retire(s, k, i))
  {
    hide Served, Promote;
    var u := ReleaseCharge(Remove(s, k, i), k, s.slots[k].out[i]);
    PromoteServed(u);
    PromoteEffect(u);
    SignalServed(Promote(u), k, i == 0);
  }

  lemma {:induction false} CancelServed(s: State, k: nat, i: nat)
    requires Served(s) && At(s, k, i)
    ensures Served(Cancel(s, k, i))
  {
    hide Served, Retire;
    var item := s.slots[k].out[i];
    if item.kind == Request && !item.canceled {
      if item.phase == Materializing || item.phase == Attempting {
        SetItemServed(s, k, i, item.(canceled := true));
      } else {
        RetireServed(s, k, i);
      }
    }
  }

  lemma {:induction false} RetireControlServed(s: State, k: nat, i: nat)
    requires Served(s) && At(s, k, i) && s.slots[k].out[i].kind != Request
    ensures Served(RetireControl(s, k, i))
  {
    hide Served;
    var t := RetireControl(s, k, i);
    RemovedDemand(s.slots[k], t.slots[k], i);
    EditServed(s, t, k);
  }

  lemma {:induction false} AppendControlServed(s: State, k: nat, kind: Kind, owner: Option<nat>)
    requires Served(s) && k < |s.slots| && kind != Request
    ensures Served(AppendControl(s, k, kind, owner))
  {
    hide Served;
    var item := Item(s.nextID, kind, owner, CONTROL_SIZE, 0, Waiting, false, false);
    var t := MoveControls(Append(s, k, item), k, 1);
    AppendedDemand(s.slots[k], t.slots[k], item);
    EditServed(s, t, k);
    SignalServed(t, k, s.slots[k].out == []);
  }

  lemma {:induction false} NoWaiters(s: State)
    requires forall j | 0 <= j < |s.slots| :: WaitHead(s.slots[j].out).None?
    ensures Served(s)
  {
    assert forall j :: !Eligible(s, j);
  }

  lemma {:induction false} PrepareServed(s: State, k: nat, owner: nat, size: nat, busy: bool)
    requires Served(s) && k < |s.slots|
    ensures Served(Prepare(s, k, owner, size, busy))
  {
    hide Promote, PromotionDone;
    PromoteServed(Append(s, k, Item(s.nextID, Request, Some(owner), size, s.nextTicket, Waiting, false, false)).(
                    nextTicket := s.nextTicket + 1));
    if s.slots[k].out == [] && (forall j | 0 <= j < |s.slots| :: WaitHead(s.slots[j].out).None?) {
      NoWaiters(MoveRequests(Append(s, k, Item(s.nextID, Request, Some(owner), size, 0, Materializing, false, false)), k, 1, size));
    }
  }

  lemma {:induction false} MaterializeServed(s: State, k: nat, i: nat, ok: bool)
    requires Served(s) && At(s, k, i)
    ensures Served(Materialize(s, k, i, ok)) && Served(Claim(s, k, i))
  {
    hide Served, Retire;
    RetireServed(s, k, i);
    if RequestIn(s, k, i, Materializing) {
      SetItemServed(s, k, i, s.slots[k].out[i].(phase := Materialized));
      SignalServed(SetItem(s, k, i, s.slots[k].out[i].(phase := Materialized)), k, i == 0);
    } else if RequestIn(s, k, i, Reserved) {
      SetItemServed(s, k, i, s.slots[k].out[i].(phase := Materializing));
    }
  }

  lemma {:induction false} ControlsServed(s: State, k: nat, owner: Option<nat>)
    requires Served(s) && k < |s.slots|
    ensures Served(QueueControl(s, k, owner).0) && Served(StartProbe(s, k).0)
  {
    hide Served, AppendControl;
    AppendControlServed(s, k, Control, owner);
    AppendControlServed(s, k, Probe, None);
    var t := AppendControl(s, k, Probe, None);
    assert k < |t.slots| by {
      AppendControlSlots(s, k);
    }
    EditServed(t, SetSlot(t, k, t.slots[k].(probe := Some(Pending(s.nextID, false)))), k);
  }

  lemma {:induction false} AppendControlSlots(s: State, k: nat)
    requires k < |s.slots|
    ensures |AppendControl(s, k, Probe, None).slots| == |s.slots|
  {}

  lemma {:induction false} CancelControlServed(s: State, k: nat, i: nat)
    requires Served(s) && At(s, k, i)
    ensures Served(CancelControl(s, k, i))
  {
    hide Served;
    var item := s.slots[k].out[i];
    if item.kind == Control {
      SetItemServed(s, k, i, item.(canceled := true));
      RetireControlServed(s, k, i);
      SignalServed(RetireControl(s, k, i), k, i == 0);
    }
  }

  lemma {:induction false} CancelControlsServed(s: State, k: nat, owner: nat, i: nat)
    requires Served(s) && k < |s.slots|
    ensures Served(CancelControls(s, k, owner, i))
    decreases if i <= |s.slots[k].out| then |s.slots[k].out| - i else 0
  {
    hide Served;
    if i < |s.slots[k].out| {
      if ClosesFor(s.slots[k].out[i], owner) {
        CancelControlServed(s, k, i);
        if s.slots[k].out[i].attempting {
          CancelControlsServed(CancelControl(s, k, i), k, owner, i + 1);
        }
      } else {
        CancelControlsServed(s, k, owner, i + 1);
      }
    }
  }

  lemma {:induction false} EndProbeServed(s: State, k: nat)
    requires Served(s) && k < |s.slots|
    requires s.slots[k].probe.Some? ==>
             forall i | 0 <= i < |s.slots[k].out| :: s.slots[k].out[i].id == s.slots[k].probe.value.id ==> s.slots[k].out[i].kind == Probe
    ensures Served(EndProbe(s, k))
  {
    hide Served;
    if s.slots[k].probe.Some? {
      var t := SetSlot(s, k, s.slots[k].(probe := None));
      EditServed(s, t, k);
      var at := IndexOf(s.slots[k].out, s.slots[k].probe.value.id);
      if at.Some? {
        SetItemServed(t, k, at.value, s.slots[k].out[at.value].(canceled := true));
        RetireControlServed(t, k, at.value);
        SignalServed(RetireControl(t, k, at.value), k, at.value == 0);
      }
    }
  }

  lemma {:induction false} BeginAttemptServed(s: State, k: nat, byRoom: bool)
    requires Served(s) && k < |s.slots|
    ensures Served(BeginAttempt(s, k, byRoom))
  {
    hide Served;
    var slot := s.slots[k];
    var woken := if byRoom then slot.(blocked := false) else slot.(wake := false);
    EditServed(s, SetSlot(s, k, woken), k);
    if slot.out != [] && Dispatchable(slot.out[0]) {
      var item := slot.out[0].(attempting := true, phase := if slot.out[0].kind == Request then Attempting else slot.out[0].phase);
      SetItemServed(SetSlot(s, k, woken), k, 0, item);
      assert SetItem(SetSlot(s, k, woken), k, 0, item) == SetSlot(s, k, woken.(out := woken.out[0 := item]));
    }
  }

  lemma {:induction false} FinishAttemptServed(s: State, k: nat, outcome: Outcome)
    requires Served(s) && k < |s.slots|
    requires At(s, k, 0) && s.slots[k].out[0].attempting && s.slots[k].out[0].kind == Request ==> s.slots[k].out[0].phase == Attempting
    ensures Served(FinishAttempt(s, k, outcome))
  {
    hide Served, Retire;
    var slot := s.slots[k];
    if slot.out != [] && slot.out[0].attempting {
      var item := slot.out[0];
      var back := item.(attempting := false, phase := if item.kind == Request then Materialized else item.phase);
      SetItemServed(s, k, 0, back);
      EditServed(SetItem(s, k, 0, back), SetSlot(s, k, slot.(out := slot.out[0 := back], blocked := true)), k);
      var t := if outcome == Accepted then SetSlot(s, k, slot.(accepted := slot.accepted + [item])) else s;
      EditServed(s, t, k);
      if item.kind == Request {
        RetireServed(t, k, 0);
      } else {
        RetireControlServed(t, k, 0);
        var u := Signal(RetireControl(t, k, 0), k);
        EditServed(RetireControl(t, k, 0), u, k);
        EditServed(u, SetSlot(u, k, u.slots[k].(probe := Some(Pending(item.id, true)))), k);
      }
    }
  }

  lemma {:induction false} CancelFromServed(s: State, k: nat, i: nat)
    requires Served(s) && k < |s.slots|
    ensures Served(CancelFrom(s, k, i))
    decreases if i <= |s.slots[k].out| then |s.slots[k].out| - i else 0
  {
    hide Served, Cancel;
    if i < |s.slots[k].out| {
      var item := s.slots[k].out[i];
      if item.kind == Request {
        CancelLength(s, k, i);
        CancelServed(s, k, i);
        var t := Cancel(s, k, i);
        CancelFromServed(t, k, if |t.slots[k].out| < |s.slots[k].out| then i else i + 1);
      } else if item.attempting || item.kind == Probe {
        SetItemServed(s, k, i, item.(canceled := true));
        CancelFromServed(SetItem(s, k, i, item.(canceled := true)), k, i + 1);
      } else {
        RetireControlServed(s, k, i);
        CancelFromServed(RetireControl(s, k, i), k, i);
      }
    }
  }
}
