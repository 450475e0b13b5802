/** What every interleaving of the manager's outbound sections keeps, and what follows from it. */
module OutboundRuns {
  import opened Bytes
  import opened SeqSums
  import opened OutboundCore
  import opened OutboundCharges
  import opened OutboundOrder
  import opened OutboundPromotion
  import opened OutboundReserve

  predicate Good(s: State) {
    && Balanced(s) && AllOK(s) && Served(s) && Reserves(s) && Failing(s)
    && 0 < s.nextTicket && ValidLimits(s.limits, |s.slots|)
  }

  /** A step keeps the limits and the number of slots and never reuses a ticket. */
  predicate SameFrame(s: State, t: State) {
    |t.slots| == |s.slots| && t.limits == s.limits && s.nextTicket <= t.nextTicket && s.nextID <= t.nextID
  }

  lemma {:induction false} PrepareFrame(s: State, k: nat, owner: nat, size: nat, busy: bool)
    requires k < |s.slots|
    ensures SameFrame(s, Prepare(s, k, owner, size, busy))
  {
    hide Promote, PromotionDone, SameSlotShape;
    PromoteEffect(Append(s, k, Item(s.nextID, Request, Some(owner), size, s.nextTicket, Waiting, false, false)).(
                    nextTicket := s.nextTicket + 1));
  }

  lemma {:induction false} ControlsFrame(s: State, k: nat, owner: Option<nat>)
    requires k < |s.slots|
    ensures SameFrame(s, QueueControl(s, k, owner).0) && SameFrame(s, StartProbe(s, k).0) && SameFrame(s, EndProbe(s, k))
  {}

  lemma {:induction false} SlotFrame(s: State, k: nat, i: nat, byRoom: bool)
    requires k < |s.slots|
    ensures SameFrame(s, BeginAttempt(s, k, byRoom)) && SameFrame(s, RepairSlot(s, k))
    ensures At(s, k, i) ==> SameFrame(s, Claim(s, k, i))
  {}

  lemma {:induction false} StepFrame(s: State, op: Op)
    ensures SameFrame(s, Step(s, op))
  {
    hide Prepare, Claim, Retire, QueueControl, CancelControls, StartProbe, EndProbe, BeginAttempt, FinishAttempt, CancelFrom,
         RepairSlot, CloseFrom;
    match op
    case PrepareRequest(k, owner, size, busy) => if k < |s.slots| { PrepareFrame(s, k, owner, size, busy); }
    case ClaimReservation(k, i) => if At(s, k, i) { SlotFrame(s, k, i, false); }
    case FinishMaterialize(k, i, ok) => if At(s, k, i) { RetireFrame(s, k, i); }
    case CancelRequest(k, i) => if At(s, k, i) { RetireFrame(s, k, i); }
    case CloseConnection(k, binding) => if k < |s.slots| { ControlsFrame(s, k, binding); }
    case CancelClose(k, owner) => if k < |s.slots| { CancelControlsFrame(s, k, owner, 0); }
    case BeginProbe(k) => if k < |s.slots| { ControlsFrame(s, k, None); }
    case CompleteProbe(k) => if k < |s.slots| { ControlsFrame(s, k, None); }
    case Begin(k, byRoom) => if k < |s.slots| { SlotFrame(s, k, 0, byRoom); }
    case Finish(k, outcome) => if k < |s.slots| { FinishFrame(s, k, outcome); }
    case Fail(k) =>
      if k < |s.slots| {
        var t := SetSlot(s, k, s.slots[k].(failed := true));
        ControlsFrame(t, k, None);
        CancelFrame(EndProbe(t, k), k, 0);
      }
    case Repair(k) => if k < |s.slots| { SlotFrame(s, k, 0, false); }
    case CloseManager => CloseFrame(s.(ready := false), 0);
  }

  lemma {:induction false} RetireFrame(s: State, k: nat, i: nat)
    requires At(s, k, i)
    ensures SameFrame(s, Retire(s, k, i)) && Retire(s, k, i).ready == s.ready
  {
    hide Promote, PromotionDone;
    PromoteEffect(ReleaseCharge(Remove(s, k, i), k, s.slots[k].out[i]));
  }

  lemma {:induction false} FinishFrame(s: State, k: nat, outcome: Outcome)
    requires k < |s.slots|
    ensures SameFrame(s, FinishAttempt(s, k, outcome))
  {
    hide Retire;
    var slot := s.slots[k];
    if slot.out != [] {
      RetireFrame(s, k, 0);
      RetireFrame(SetSlot(s, k, slot.(accepted := slot.accepted + [slot.out[0]])), k, 0);
    }
  }

  lemma {:induction false} CancelControlsFrame(s: State, k: nat, owner: nat, i: nat)
    requires k < |s.slots|
    ensures SameFrame(s, CancelControls(s, k, owner, i))
    decreases if i <= |s.slots[k].out| then |s.slots[k].out| - i else 0
  {
    if i < |s.slots[k].out| {
      if !ClosesFor(s.slots[k].out[i], owner) {
        CancelControlsFrame(s, k, owner, i + 1);
      } else if s.slots[k].out[i].attempting {
        CancelControlsFrame(CancelControl(s, k, i), k, owner, i + 1);
      }
    }
  }

  lemma {:induction false} CancelFrame(s: State, k: nat, i: nat)
    requires k < |s.slots|
    ensures SameFrame(s, CancelFrom(s, k, i))
    decreases if i <= |s.slots[k].out| then |s.slots[k].out| - i else 0
  {
    hide Retire;
    if i < |s.slots[k].out| {
      var item := s.slots[k].out[i];
      if item.kind == Request {
        CancelLength(s, k, i);
        RetireFrame(s, k, i);
        var t := Cancel(s, k, i);
        CancelFrame(t, k, if |t.slots[k].out| < |s.slots[k].out| then i else i + 1);
      } else if item.attempting || item.kind == Probe {
        CancelFrame(SetItem(s, k, i, item.(canceled := true)), k, i + 1);
      } else {
        CancelFrame(RetireControl(s, k, i), k, i);
      }
    }
  }

  lemma {:induction false} CloseFrame(s: State, k: nat)
    ensures SameFrame(s, CloseFrom(s, k))
    decreases if k <= |s.slots| then |s.slots| - k else 0
  {
    hide EndProbe, CancelFrom;
    if k < |s.slots| {
      ControlsFrame(s, k, None);
      CancelFrame(EndProbe(s, k), k, 0);
      CloseFrame(CancelFrom(EndProbe(s, k), k, 0), k + 1);
    }
  }

  // ---------------------------------------------------------------- charges and promotion on every step

  lemma {:induction false} PendingIsProbe(s: State, k: nat)
    requires AllOK(s) && k < |s.slots|
    ensures s.slots[k].probe.Some? ==>
            forall i | 0 <= i < |s.slots[k].out| :: s.slots[k].out[i].id == s.slots[k].probe.value.id ==> s.slots[k].out[i].kind == Probe
    ensures forall i | 0 <= i < |s.slots[k].out| && s.slots[k].out[i].attempting && s.slots[k].out[i].kind == Request ::
            s.slots[k].out[i].phase == Attempting
  {
    hide Ordered, Fair, Woken;
    SlotAt(s, k);
  }

  lemma {:induction false} FailBalanced(s: State, k: nat)
    requires Balanced(s) && AllOK(s) && k < |s.slots|
    ensures Balanced(FailSlot(s, k))
  {
    hide Balanced, AllOK, EndProbe, CancelFrom;
    var t := SetSlot(s, k, s.slots[k].(failed := true));
    FlagsBalanced(s, t, k);
    PendingIsProbe(s, k);
    EndProbeBalanced(t, k);
    EndProbeFlags(t, k);
    CancelFromBalanced(EndProbe(t, k), k, 0);
  }

  lemma {:induction false} CloseBalanced(s: State, k: nat)
    requires Balanced(s) && AllOK(s) && !s.ready
    ensures Balanced(CloseFrom(s, k))
    decreases if k <= |s.slots| then |s.slots| - k else 0
  {
    hide Balanced, AllOK, EndProbe, CancelFrom;
    if k < |s.slots| {
      PendingIsProbe(s, k);
      EndProbeBalanced(s, k);
      EndProbeFlags(s, k);
      EndProbeOK(s, k);
      var t := EndProbe(s, k);
      CancelFromBalanced(t, k, 0);
      CancelFromOK(t, k, 0);
      CancelFromFlags(t, k, 0);
      CloseBalanced(CancelFrom(t, k, 0), k + 1);
    }
  }

  lemma {:induction false} MaterializeBalanced(s: State, k: nat, i: nat, ok: bool)
    requires Balanced(s) && At(s, k, i)
    ensures Balanced(Materialize(s, k, i, ok)) && Balanced(Claim(s, k, i))
  {
    hide Balanced, Retire;
    if RequestIn(s, k, i, Materializing) {
      RetireBalanced(s, k, i);
      SetItemBalanced(s, k, i, s.slots[k].out[i].(phase := Materialized));
      SignalBalanced(SetItem(s, k, i, s.slots[k].out[i].(phase := Materialized)), k, i == 0);
    } else if RequestIn(s, k, i, Reserved) {
      SetItemBalanced(s, k, i, s.slots[k].out[i].(phase := Materializing));
    }
  }

  lemma {:induction false} ControlsBalanced(s: State, k: nat, owner: Option<nat>)
    requires Balanced(s) && k < |s.slots|
    ensures Balanced(QueueControl(s, k, owner).0) && Balanced(StartProbe(s, k).0)
  {
    hide Balanced, AppendControl;
    AppendControlBalanced(s, k, Control, owner);
    AppendControlBalanced(s, k, Probe, None);
    AppendControlSlots(s, k);
    var t := AppendControl(s, k, Probe, None);
    FlagsBalanced(t, SetSlot(t, k, t.slots[k].(probe := Some(Pending(s.nextID, false)))), k);
  }

  lemma {:induction false} CancelControlBalanced(s: State, k: nat, i: nat)
    requires Balanced(s) && At(s, k, i)
    ensures Balanced(CancelControl(s, k, i))
  {
    hide Balanced;
    if s.slots[k].out[i].kind == Control {
      SetItemBalanced(s, k, i, s.slots[k].out[i].(canceled := true));
      RetireControlBalanced(s, k, i);
      SignalBalanced(RetireControl(s, k, i), k, i == 0);
    }
  }

  lemma {:induction false} CancelControlsBalanced(s: State, k: nat, owner: nat, i: nat)
    requires Balanced(s) && k < |s.slots|
    ensures Balanced(CancelControls(s, k, owner, i))
    decreases if i <= |s.slots[k].out| then |s.slots[k].out| - i else 0
  {
    hide Balanced;
    if i < |s.slots[k].out| {
      if ClosesFor(s.slots[k].out[i], owner) {
        CancelControlBalanced(s, k, i);
        if s.slots[k].out[i].attempting {
          CancelControlsBalanced(CancelControl(s, k, i), k, owner, i + 1);
        }
      } else {
        CancelControlsBalanced(s, k, owner, i + 1);
      }
    }
  }

  lemma {:induction false} StepBalanced(s: State, op: Op)
    requires Balanced(s) && AllOK(s)
    ensures Balanced(Step(s, op))
  {
    hide Balanced, AllOK, Prepare, Claim, Materialize, Cancel, QueueControl, CancelControls, StartProbe, EndProbe, BeginAttempt,
         FinishAttempt, FailSlot, CloseFrom;
    match op
    case PrepareRequest(k, owner, size, busy) => if k < |s.slots| { PrepareBalanced(s, k, owner, size, busy); }
    case ClaimReservation(k, i) => if At(s, k, i) { MaterializeBalanced(s, k, i, true); }
    case FinishMaterialize(k, i, ok) => if At(s, k, i) { MaterializeBalanced(s, k, i, ok); }
    case CancelRequest(k, i) => if At(s, k, i) { CancelBalanced(s, k, i); }
    case CloseConnection(k, binding) => if k < |s.slots| { ControlsBalanced(s, k, binding); }
    case CancelClose(k, owner) => if k < |s.slots| { CancelControlsBalanced(s, k, owner, 0); }
    case BeginProbe(k) => if k < |s.slots| { ControlsBalanced(s, k, None); }
    case CompleteProbe(k) => if k < |s.slots| { PendingIsProbe(s, k); EndProbeBalanced(s, k); }
    case Begin(k, byRoom) => if k < |s.slots| { BeginAttemptBalanced(s, k, byRoom); }
    case Finish(k, outcome) => if k < |s.slots| { PendingIsProbe(s, k); FinishAttemptBalanced(s, k, outcome); }
    case Fail(k) => if k < |s.slots| { FailBalanced(s, k); }
    case Repair(k) => if k < |s.slots| { FlagsBalanced(s, SetSlot(s, k, s.slots[k].(failed := false, wake := false, blocked := false)), k); }
    case CloseManager => ClosingBalanced(s); ClosingOK(s); CloseBalanced(s.(ready := false), 0);
  }

  lemma {:induction false} ClosingBalanced(s: State)
    requires Balanced(s)
    ensures Balanced(s.(ready := false))
  {}

  lemma {:induction false} FailServed(s: State, k: nat)
    requires Served(s) && AllOK(s) && k < |s.slots|
    ensures Served(FailSlot(s, k))
  {
    hide Served, AllOK, EndProbe, CancelFrom;
    var t := SetSlot(s, k, s.slots[k].(failed := true));
    EditServed(s, t, k);
    PendingIsProbe(s, k);
    EndProbeServed(t, k);
    EndProbeFlags(t, k);
    CancelFromServed(EndProbe(t, k), k, 0);
  }

  lemma {:induction false} CloseNotReady(s: State, k: nat)
    requires !s.ready
    ensures Served(CloseFrom(s, k)) && !CloseFrom(s, k).ready
    decreases if k <= |s.slots| then |s.slots| - k else 0
  {
    hide EndProbe, CancelFrom;
    if k < |s.slots| {
      EndProbeFlags(s, k);
      CancelFromFlags(EndProbe(s, k), k, 0);
      CloseNotReady(CancelFrom(EndProbe(s, k), k, 0), k + 1);
    }
  }

  lemma {:induction false} StepServed(s: State, op: Op)
    requires Served(s) && AllOK(s)
    ensures Served(Step(s, op))
  {
    hide Served, AllOK, Prepare, Claim, Materialize, Cancel, QueueControl, CancelControls, StartProbe, EndProbe, BeginAttempt,
         FinishAttempt, FailSlot, CloseFrom;
    match op
    case PrepareRequest(k, owner, size, busy) => if k < |s.slots| { PrepareServed(s, k, owner, size, busy); }
    case ClaimReservation(k, i) => if At(s, k, i) { MaterializeServed(s, k, i, true); }
    case FinishMaterialize(k, i, ok) => if At(s, k, i) { MaterializeServed(s, k, i, ok); }
    case CancelRequest(k, i) => if At(s, k, i) { CancelServed(s, k, i); }
    case CloseConnection(k, binding) => if k < |s.slots| { ControlsServed(s, k, binding); }
    case CancelClose(k, owner) => if k < |s.slots| { CancelControlsServed(s, k, owner, 0); }
    case BeginProbe(k) => if k < |s.slots| { ControlsServed(s, k, None); }
    case CompleteProbe(k) => if k < |s.slots| { PendingIsProbe(s, k); EndProbeServed(s, k); }
    case Begin(k, byRoom) => if k < |s.slots| { BeginAttemptServed(s, k, byRoom); }
    case Finish(k, outcome) => if k < |s.slots| { PendingIsProbe(s, k); FinishAttemptServed(s, k, outcome); }
    case Fail(k) => if k < |s.slots| { FailServed(s, k); }
    case Repair(k) => if k < |s.slots| { EditServed(s, SetSlot(s, k, s.slots[k].(failed := false, wake := false, blocked := false)), k); }
    case CloseManager => CloseNotReady(s.(ready := false), 0);
  }

  // ---------------------------------------------------------------- the reserve and failed slots on every step

  lemma {:induction false} FinishFewer(s: State, k: nat, outcome: Outcome)
    requires k < |s.slots| && (s.slots[k].failed ==> s.slots[k].probe.None?)
    ensures FewerCloses(s, FinishAttempt(s, k, outcome))
  {
    hide FewerCloses, Quieter, Retire;
    ItselfFewer(s);
    var slot := s.slots[k];
    if slot.out != [] && slot.out[0].attempting {
      var item := slot.out[0];
      var back := item.(attempting := false, phase := if item.kind == Request then Materialized else item.phase);
      var b := SetSlot(s, k, slot.(out := slot.out[0 := back], blocked := true));
      UpdatedQuieter(slot, b.slots[k], 0, back);
      EditFewer(s, b, k);
      var t := if outcome == Accepted then SetSlot(s, k, slot.(accepted := slot.accepted + [item])) else s;
      FlagsQuieter(slot, t.slots[k]);
      EditFewer(s, t, k);
      RetireFewer(t, k, 0);
      FewerTransitive(s, t, Retire(t, k, 0));
      ControlFinishFewer(s, t, k, Some(Pending(item.id, true)), slot.probe.Some?);
    }
  }

  lemma {:induction false} ControlFinishFewer(s: State, t: State, k: nat, probe: Option<Pending>, had: bool)
    requires FewerCloses(s, t) && At(t, k, 0) && (had <==> t.slots[k].probe.Some?)
    ensures var u := Signal(RetireControl(t, k, 0), k);
            FewerCloses(s, u) && (had ==> FewerCloses(s, SetSlot(u, k, u.slots[k].(probe := probe))))
  {
    hide FewerCloses, Quieter;
    RetireControlFewer(t, k, 0);
    var u := Signal(RetireControl(t, k, 0), k);
    FewerTransitive(s, t, u);
    if had {
      var v := SetSlot(u, k, u.slots[k].(probe := probe));
      FlagsQuieter(u.slots[k], v.slots[k]);
      EditFewer(u, v, k);
      FewerTransitive(s, u, v);
    }
  }

  lemma {:induction false} CancelShape(s: State, k: nat, i: nat)
    requires At(s, k, i) && s.slots[k].out[i].kind == Request
    ensures var t := Cancel(s, k, i);
            && |t.slots| == |s.slots| && t.slots[k].probe == s.slots[k].probe
            && (|t.slots[k].out| == |s.slots[k].out| ==> t.slots[k].out[i].canceled)
            && |s.slots[k].out| <= |t.slots[k].out| + 1 && |t.slots[k].out| <= |s.slots[k].out|
            && (forall j | 0 <= j < i :: s.slots[k].out[j].canceled ==> t.slots[k].out[j].canceled)
  {
    hide Promote, PromotionDone, IsWaiting, Retire;
    var item := s.slots[k].out[i];
    if !item.canceled && item.phase != Materializing && item.phase != Attempting {
      RetireShape(s, k, i);
    }
  }

  lemma {:induction false} RetireShape(s: State, k: nat, i: nat)
    requires At(s, k, i)
    ensures var t := Retire(s, k, i);
            && |t.slots| == |s.slots| && t.slots[k].probe == s.slots[k].probe
            && |t.slots[k].out| == |s.slots[k].out| - 1
            && (forall j | 0 <= j < i :: t.slots[k].out[j].canceled == s.slots[k].out[j].canceled)
  {
    hide Promote, PromotionDone, IsWaiting;
    var u := ReleaseCharge(Remove(s, k, i), k, s.slots[k].out[i]);
    PromoteEffect(u);
    assert SameSlotShape(u.slots[k], Promote(u).slots[k]);
  }

  /** After the pass over a slot nothing in it is left uncancelled. */
  lemma {:induction false} CancelsAll(s: State, k: nat, i: nat)
    requires k < |s.slots| && s.slots[k].probe.None?
    requires forall j | 0 <= j < i && j < |s.slots[k].out| :: s.slots[k].out[j].canceled
    ensures var t := CancelFrom(s, k, i);
            t.slots[k].probe.None? && forall j | 0 <= j < |t.slots[k].out| :: t.slots[k].out[j].canceled
    decreases if i <= |s.slots[k].out| then |s.slots[k].out| - i else 0
  {
    hide Cancel;
    if i < |s.slots[k].out| {
      var item := s.slots[k].out[i];
      if item.kind == Request {
        CancelShape(s, k, i);
        var t := Cancel(s, k, i);
        CancelsAll(t, k, if |t.slots[k].out| < |s.slots[k].out| then i else i + 1);
      } else if item.attempting || item.kind == Probe {
        CancelsAll(SetItem(s, k, i, item.(canceled := true)), k, i + 1);
      } else {
        CancelsAll(RetireControl(s, k, i), k, i);
      }
    }
  }

  lemma {:induction false} FailReserves(s: State, k: nat)
    requires Reserves(s) && Failing(s) && k < |s.slots| && s.ready && !s.slots[k].failed
    ensures Reserves(FailSlot(s, k)) && Failing(FailSlot(s, k))
  {
    hide EndProbe, CancelFrom, SlotCloses, SlotFailing;
    var t := SetSlot(s, k, s.slots[k].(failed := true));
    var u := EndProbe(t, k);
    EndProbeFewer(t, k);
    EndProbeFlags(t, k);
    var v := CancelFrom(u, k, 0);
    CancelFromFewer(u, k, 0);
    FewerTransitive(t, u, v);
    CancelsAll(u, k, 0);
    SameOuts(s, t);
    FewerReserves(t, v);
    forall j | 0 <= j < |v.slots| ensures SlotFailing(v.slots[j]) {
      if j == k {
        AllCanceled(v.slots[k]);
      } else {
        assert Quieter(t.slots[j], v.slots[j]) && t.slots[j] == s.slots[j];
      }
    }
  }

  lemma {:induction false} AllCanceled(slot: Slot)
    requires slot.probe.None? && forall j | 0 <= j < |slot.out| :: slot.out[j].canceled
    ensures SlotFailing(slot)
  {}

  lemma {:induction false} SameOuts(s: State, t: State)
    requires Reserves(s) && t.limits == s.limits && |t.slots| == |s.slots|
    requires forall k | 0 <= k < |s.slots| :: t.slots[k].out == s.slots[k].out
    ensures Reserves(t)
  {
    TotalLess(s.slots, t.slots);
  }

  lemma {:induction false} FewerReserves(s: State, t: State)
    requires FewerCloses(s, t) && Reserves(s)
    ensures Reserves(t)
  {
    hide SlotCloses, SlotFailing;
    forall k | 0 <= k < |s.slots| ensures SlotCloses(t.slots[k]) <= SlotCloses(s.slots[k]) {
      assert Quieter(s.slots[k], t.slots[k]);
    }
    TotalLess(s.slots, t.slots);
  }

  lemma {:induction false} RepairReserves(s: State, k: nat)
    requires Reserves(s) && Failing(s) && k < |s.slots|
    ensures Reserves(RepairSlot(s, k)) && Failing(RepairSlot(s, k))
  {
    hide SlotCloses;
    SameOuts(s, RepairSlot(s, k));
  }

  lemma {:induction false} CloseFewer(s: State, k: nat)
    ensures FewerCloses(s, CloseFrom(s, k))
    decreases if k <= |s.slots| then |s.slots| - k else 0
  {
    hide FewerCloses, EndProbe, CancelFrom;
    ItselfFewer(s);
    if k < |s.slots| {
      var t := EndProbe(s, k);
      EndProbeFewer(s, k);
      EndProbeFlags(s, k);
      var u := CancelFrom(t, k, 0);
      CancelFromFewer(t, k, 0);
      FewerTransitive(s, t, u);
      CloseFewer(u, k + 1);
      FewerTransitive(s, u, CloseFrom(u, k + 1));
    }
  }

  lemma {:induction false} MaterializeFewer(s: State, k: nat, i: nat, ok: bool)
    requires At(s, k, i)
    ensures FewerCloses(s, Materialize(s, k, i, ok)) && FewerCloses(s, Claim(s, k, i))
  {
    hide FewerCloses, Retire;
    ItselfFewer(s);
    RetireFewer(s, k, i);
    var item := s.slots[k].out[i];
    SetItemFewer(s, k, i, item.(phase := Materializing));
    var t := SetItem(s, k, i, item.(phase := Materialized));
    SetItemFewer(s, k, i, item.(phase := Materialized));
    SignalFewer(t, k, i == 0);
    FewerTransitive(s, t, SignalIf(t, k, i == 0));
  }

  lemma {:induction false} CancelControlFewer(s: State, k: nat, i: nat)
    requires At(s, k, i)
    ensures FewerCloses(s, CancelControl(s, k, i))
  {
    hide FewerCloses;
    ItselfFewer(s);
    SetItemFewer(s, k, i, s.slots[k].out[i].(canceled := true));
    RetireControlFewer(s, k, i);
  }

  lemma {:induction false} CancelControlsFewer(s: State, k: nat, owner: nat, i: nat)
    requires k < |s.slots|
    ensures FewerCloses(s, CancelControls(s, k, owner, i))
    decreases if i <= |s.slots[k].out| then |s.slots[k].out| - i else 0
  {
    hide FewerCloses;
    ItselfFewer(s);
    if i < |s.slots[k].out| {
      if ClosesFor(s.slots[k].out[i], owner) {
        CancelControlFewer(s, k, i);
        if s.slots[k].out[i].attempting {
          var t := CancelControl(s, k, i);
          CancelControlsFewer(t, k, owner, i + 1);
          FewerTransitive(s, t, CancelControls(t, k, owner, i + 1));
        }
      } else {
        CancelControlsFewer(s, k, owner, i + 1);
      }
    }
  }

  lemma {:induction false} BeginFewer(s: State, k: nat, byRoom: bool)
    requires k < |s.slots|
    ensures FewerCloses(s, BeginAttempt(s, k, byRoom))
  {
    hide FewerCloses, Quieter;
    ItselfFewer(s);
    var slot := s.slots[k];
    var woken := if byRoom then slot.(blocked := false) else slot.(wake := false);
    FlagsQuieter(slot, woken);
    EditFewer(s, SetSlot(s, k, woken), k);
    if slot.out != [] {
      var item := slot.out[0].(attempting := true, phase := if slot.out[0].kind == Request then Attempting else slot.out[0].phase);
      var t := SetSlot(s, k, woken.(out := woken.out[0 := item]));
      UpdatedQuieter(slot, t.slots[k], 0, item);
      EditFewer(s, t, k);
    }
  }

  lemma {:induction false} FailedHasNoProbe(s: State, k: nat)
    requires Failing(s) && k < |s.slots|
    ensures s.slots[k].failed ==> s.slots[k].probe.None?
  {}

  lemma {:induction false} StepReserves(s: State, op: Op)
    requires Reserves(s) && Failing(s) && Counted(s)
    ensures Reserves(Step(s, op)) && Failing(Step(s, op))
  {
    hide Reserves, Failing, Counted, FewerCloses, Prepare, Claim, Materialize, Cancel, QueueControl, CancelControls, StartProbe,
         EndProbe, BeginAttempt, FinishAttempt, CancelFrom, RepairSlot, CloseFrom, SetSlot;
    var t := Step(s, op);
    match op
    case PrepareRequest(k, owner, size, busy) => if k < |s.slots| { PrepareFewer(s, k, owner, size, busy); FewerKeeps(s, t); }
    case ClaimReservation(k, i) => if At(s, k, i) { MaterializeFewer(s, k, i, true); FewerKeeps(s, t); }
    case FinishMaterialize(k, i, ok) => if At(s, k, i) { MaterializeFewer(s, k, i, ok); FewerKeeps(s, t); }
    case CancelRequest(k, i) => if At(s, k, i) { CancelFewer(s, k, i); FewerKeeps(s, t); }
    case CloseConnection(k, binding) => if k < |s.slots| { QueueControlReserves(s, k, binding); }
    case CancelClose(k, owner) => if k < |s.slots| { CancelControlsFewer(s, k, owner, 0); FewerKeeps(s, t); }
    case BeginProbe(k) => if k < |s.slots| { StartProbeFewer(s, k); FewerKeeps(s, t); }
    case CompleteProbe(k) => if k < |s.slots| { EndProbeFewer(s, k); FewerKeeps(s, t); }
    case Begin(k, byRoom) => if k < |s.slots| { BeginFewer(s, k, byRoom); FewerKeeps(s, t); }
    case Finish(k, outcome) => if k < |s.slots| { FailedHasNoProbe(s, k); FinishFewer(s, k, outcome); FewerKeeps(s, t); }
    case Fail(k) => if k < |s.slots| && s.ready && !s.slots[k].failed { FailReserves(s, k); }
    case Repair(k) => if k < |s.slots| { RepairReserves(s, k); }
    case CloseManager => StoppedReserves(s); CloseFewer(s.(ready := false), 0); FewerKeeps(s.(ready := false), CloseFrom(s.(ready := false), 0));
  }

  lemma {:induction false} StoppedReserves(s: State)
    requires Reserves(s) && Failing(s)
    ensures Reserves(s.(ready := false)) && Failing(s.(ready := false))
  {}

  // ---------------------------------------------------------------- whole runs

  lemma {:induction false} StepGood(s: State, op: Op)
    requires Good(s)
    ensures Good(Step(s, op))
  {
    hide Step, AllOK, Served, Reserves, Failing, Counted, Within;
    StepFrame(s, op);
    StepBalanced(s, op);
    StepOK(s, op);
    StepServed(s, op);
    StepReserves(s, op);
  }

  lemma {:induction false} StartTotals(slots: seq<Slot>)
    requires forall k | 0 <= k < |slots| :: slots[k] == NEW_SLOT
    ensures Total(slots, SlotRequestItems) == 0 && Total(slots, SlotRequestBytes) == 0
    ensures Total(slots, SlotControlItems) == 0 && Total(slots, SlotCloses) == 0
  {
    if slots != [] {
      StartTotals(slots[1..]);
    }
  }

  lemma {:induction false} StartGood(l: Limits, slots: nat)
    requires ValidLimits(l, slots)
    ensures Good(Start(l, slots))
  {
    hide Balanced, AllOK, Served, Reserves, Failing;
    StartBalanced(l, slots);
    StartOK(l, slots);
    StartReserves(l, slots);
  }

  lemma {:induction false} StartBalanced(l: Limits, slots: nat)
    requires ValidLimits(l, slots)
    ensures Balanced(Start(l, slots)) && Served(Start(l, slots))
  {
    var s := Start(l, slots);
    StartTotals(s.slots);
    NoWaiters(s);
  }

  lemma {:induction false} StartOK(l: Limits, slots: nat)
    ensures AllOK(Start(l, slots)) && Failing(Start(l, slots))
  {}

  lemma {:induction false} StartReserves(l: Limits, slots: nat)
    requires ValidLimits(l, slots)
    ensures Reserves(Start(l, slots))
  {
    StartTotals(Start(l, slots).slots);
    assert SlotCloses(NEW_SLOT) == 0;
  }

  /**
   * On every run: charges are counted and released exactly once within the nested limits; every FIFO keeps
   * append order and only its head is submitted; nothing promotable is left waiting; no wakeup is lost; closes
   * stay out of the probe reserve; and failed slots hold only cancelled work.
   */
  lemma {:induction false} RunGood(s: State, ops: seq<Op>)
    requires Good(s)
    ensures Good(Run(s, ops))
    decreases |ops|
  {
    hide Good, Step;
    if ops != [] {
      StepGood(s, ops[0]);
      var next := Step(s, ops[0]);
      RunGood(next, ops[1..]);
    }
  }

  // ---------------------------------------------------------------- what follows

  /** What a link accepted is a subsequence of the append order, and nothing accepted is still queued. */
  lemma {:induction false} AcceptedInOrder(s: State, k: nat, i: nat, j: nat)
    requires Good(s) && k < |s.slots|
    ensures i < j < |s.slots[k].accepted| ==> s.slots[k].accepted[i].id < s.slots[k].accepted[j].id
    ensures i < |s.slots[k].accepted| && j < |s.slots[k].out| ==> s.slots[k].accepted[i].id < s.slots[k].out[j].id
  {
    SlotAt(s, k);
  }

  lemma {:induction false} FinishAccepts(s: State, k: nat)
    requires At(s, k, 0) && s.slots[k].out[0].attempting
    ensures var t := FinishAttempt(s, k, Accepted);
            k < |t.slots| && t.slots[k].accepted == s.slots[k].accepted + [s.slots[k].out[0]]
  {
    hide Promote, PromotionDone, IsWaiting;
    var slot := s.slots[k];
    var u := ReleaseCharge(Remove(SetSlot(s, k, slot.(accepted := slot.accepted + [slot.out[0]])), k, 0), k, slot.out[0]);
    PromoteEffect(u);
    assert SameSlotShape(u.slots[k], Promote(u).slots[k]);
  }

  /** When the link accepts an item, everything appended before it has left the FIFO: a close never overtakes a request. */
  lemma {:induction false} CloseNeverOvertakes(s: State, k: nat, before: nat)
    requires Good(s) && At(s, k, 0) && s.slots[k].out[0].attempting
    requires before < s.slots[k].out[0].id
    ensures var t := FinishAttempt(s, k, Accepted);
            && k < |t.slots| && t.slots[k].accepted == s.slots[k].accepted + [s.slots[k].out[0]]
            && (forall i | 0 <= i < |t.slots[k].out| :: t.slots[k].out[i].id != before)
  {
    hide Good, FinishAttempt, AllOK;
    FinishAccepts(s, k);
    StepGood(s, Finish(k, Accepted));
    var t := FinishAttempt(s, k, Accepted);
    forall i | 0 <= i < |t.slots[k].out| ensures t.slots[k].out[i].id != before {
      AcceptedInOrder(t, k, |s.slots[k].accepted|, i);
    }
  }

  /** A slot whose head is waiting holds no charge, so only the global limit can keep its first waiter. */
  lemma {:induction false} WaitingHeadHasSlotRoom(s: State, k: nat)
    requires Good(s) && At(s, k, 0) && IsWaiting(s.slots[k].out[0])
    ensures s.slots[k].requestItems == 0 && s.slots[k].requestBytes == 0 && Eligible(s, k)
  {
    SlotAt(s, k);
    var out := s.slots[k].out;
    forall i | 0 <= i < |out| ensures !Charged(out[i]) {
      assert i > 0 && out[i].kind == Request ==> IsWaiting(out[i]);
    }
    NothingCharged(out);
    assert SlotCounted(s.slots[k]);
  }

  lemma {:induction false} NothingCharged(out: seq<Item>)
    requires forall i | 0 <= i < |out| :: !Charged(out[i])
    ensures Total(out, RequestItems) == 0 && Total(out, RequestBytes) == 0
  {
    if out != [] {
      NothingCharged(out[1..]);
    }
  }

  /** Work conservation: while a waiter waits, the manager is charged for other requests up to its global limit. */
  lemma {:induction false} WaitersMeanGlobalPressure(s: State, k: nat)
    requires Good(s) && s.ready && At(s, k, 0) && IsWaiting(s.slots[k].out[0])
    ensures exists j :: 0 <= j < |s.slots| && Eligible(s, j) && HeadWaiter(s, j).ticket <= HeadWaiter(s, k).ticket
                        && !GlobalRoom(s, HeadWaiter(s, j).size)
    ensures 0 < s.requestItems
  {
    WaitingHeadHasSlotRoom(s, k);
    var c := Candidate(s, |s.slots|);
    assert Eligible(s, c.value) && !GlobalRoom(s, HeadWaiter(s, c.value).size);
    SlotAt(s, c.value);
    if s.requestItems == 0 {
      NoBytesWithoutItems(s.slots);
    }
  }

  lemma {:induction false} NoBytesWithoutItems(slots: seq<Slot>)
    requires Total(slots, SlotRequestItems) == 0
    ensures Total(slots, SlotRequestBytes) == 0
  {
    if slots != [] {
      OutWithoutItems(slots[0].out);
      NoBytesWithoutItems(slots[1..]);
    }
  }

  lemma {:induction false} OutWithoutItems(out: seq<Item>)
    requires Total(out, RequestItems) == 0
    ensures Total(out, RequestBytes) == 0
  {
    if out != [] {
      OutWithoutItems(out[1..]);
    }
  }

  /** The counters a repair checks are zero as soon as the failed slot's FIFO is empty. */
  lemma {:induction false} EmptySlotOwesNothing(s: State, k: nat)
    requires Good(s) && k < |s.slots| && s.ready && s.slots[k].failed && s.slots[k].out == []
    ensures !RepairSlot(s, k).slots[k].failed
  {
    assert SlotCounted(s.slots[k]);
    assert SlotFailing(s.slots[k]);
  }

  // ---------------------------------------------------------------- probe admission

  predicate NoProbeItem(slot: Slot) {
    forall i | 0 <= i < |slot.out| :: slot.out[i].kind != Probe
  }

  lemma {:induction false} NoProbes(out: seq<Item>)
    requires forall i | 0 <= i < |out| :: out[i].kind != Probe
    ensures Total(out, Probes) == 0
  {
    if out != [] {
      NoProbes(out[1..]);
    }
  }

  /** A slot without a probe item always has room of its own; a probe is refused exactly by the global check. */
  lemma {:induction false} ProbeAdmission(s: State, k: nat)
    requires Good(s) && k < |s.slots| && s.ready && !s.slots[k].failed && s.slots[k].probe.None? && NoProbeItem(s.slots[k])
    ensures StartProbe(s, k).1 <==>
            s.controlItems < s.limits.controlItems && CONTROL_SIZE <= s.limits.controlBytes - s.controlBytes
  {
    hide AllOK, Served, Total;
    NoProbes(s.slots[k].out);
    ItemsLess(s.slots[k].out);
    assert SlotCounted(s.slots[k]);
  }

  /** While no slot holds two probe items, a slot that holds none is never refused. */
  lemma {:induction false} ProbeAlwaysAdmitted(s: State, k: nat)
    requires Good(s) && k < |s.slots| && s.ready && !s.slots[k].failed && s.slots[k].probe.None? && NoProbeItem(s.slots[k])
    requires forall j | 0 <= j < |s.slots| :: SlotProbes(s.slots[j]) <= 1
    ensures StartProbe(s, k).1
  {
    hide AllOK, Served, Total, StartProbe, Within, Failing;
    ProbeAdmission(s, k);
    NoProbes(s.slots[k].out);
    FewProbes(s.slots, k);
    SlotsLess(s.slots);
  }

  lemma {:induction false} FewProbes(slots: seq<Slot>, k: nat)
    requires k < |slots| && SlotProbes(slots[k]) == 0
    requires forall j | 0 <= j < |slots| :: SlotProbes(slots[j]) <= 1
    ensures Total(slots, SlotProbes) <= |slots| - 1
  {
    hide Total, SlotProbes;
    TotalRemove(slots, k, SlotProbes);
    TotalBound(slots[..k] + slots[k + 1..], SlotProbes, 1);
  }

  const TIGHT := Limits(96, 1, 96, 1, 96, 3, 3 * CONTROL_SIZE, 3, 3 * CONTROL_SIZE)

  /** A close for slot 1, then in slot 0 a probe cancelled while it is being submitted and a second probe. */
  const SPENDING := [CloseConnection(1, None), BeginProbe(0), Begin(0, false), CompleteProbe(0), BeginProbe(0)]

  function ControlItem(id: nat, kind: Kind, busy: bool, canceled: bool): Item {
    Item(id, kind, None, CONTROL_SIZE, 0, Waiting, busy, canceled)
  }

  function ControlSlot(out: seq<Item>, wake: bool, probe: Option<Pending>): Slot {
    Slot(out, 0, 0, |out|, |out| * CONTROL_SIZE, false, probe, wake, false, [])
  }

  /** The manager of the example after n steps. */
  function Spent(n: nat): State {
    var close := ControlSlot([ControlItem(1, Control, false, false)], true, None);
    var zero :=
      if n < 2 then NEW_SLOT
      else if n == 2 then ControlSlot([ControlItem(2, Probe, false, false)], true, Some(Pending(2, false)))
      else if n == 3 then ControlSlot([ControlItem(2, Probe, true, false)], false, Some(Pending(2, false)))
      else if n == 4 then ControlSlot([ControlItem(2, Probe, true, true)], false, None)
      else ControlSlot([ControlItem(2, Probe, true, true), ControlItem(3, Probe, false, false)], false, Some(Pending(3, false)));
    var items := if n == 0 then 0 else if n == 1 then 1 else if n < 5 then 2 else 3;
    State(TIGHT, [zero, if n == 0 then NEW_SLOT else close], 0, 0, items, items * CONTROL_SIZE, true, items + 1, 1)
  }

  lemma {:induction false} Spends(n: nat)
    requires n < 5
    ensures Step(Spent(n), SPENDING[n]) == Spent(n + 1)
  {
    hide Prepare, Claim, Retire, Promote, PromotionDone, CancelControls, CancelFrom, CloseFrom, RepairSlot, FinishAttempt;
    var (t, u) := (Step(Spent(n), SPENDING[n]), Spent(n + 1));
    if n == 3 {
      assert IndexOf(Spent(3).slots[0].out, 2) == Some(0);
    }
    assert t.slots[0].out == u.slots[0].out && t.slots[1].out == u.slots[1].out;
    assert t.slots[0] == u.slots[0] && t.slots[1] == u.slots[1];
    assert t.slots == u.slots;
  }

  lemma {:induction false} SpendsFrom(n: nat)
    requires n <= 5
    ensures Run(Spent(n), SPENDING[n..]) == Spent(5)
    decreases 5 - n
  {
    hide Step, Spent;
    if n < 5 {
      Spends(n);
      assert SPENDING[n..][1..] == SPENDING[n + 1..];
      SpendsFrom(n + 1);
    }
  }

  /**
   * The reserve of one probe per slot can be spent by another slot: within valid limits slot 1 holds no probe
   * item, yet its probe is refused, because slot 0 holds two.
   */
  lemma {:induction false} ReserveSpentElsewhere()
    ensures ValidLimits(TIGHT, 2)
    ensures var s := Run(Start(TIGHT, 2), SPENDING);
            && |s.slots| == 2 && s.ready && !s.slots[1].failed && s.slots[1].probe.None? && NoProbeItem(s.slots[1])
            && SlotProbes(s.slots[0]) == 2
            && !StartProbe(s, 1).1
  {
    assert Start(TIGHT, 2) == Spent(0);
    assert SPENDING[0..] == SPENDING;
    SpendsFrom(0);
    TwoProbes(Spent(5).slots[0]);
  }

  lemma {:induction false} TwoProbes(slot: Slot)
    requires |slot.out| == 2 && slot.out[0].kind == Probe && slot.out[1].kind == Probe
    ensures SlotProbes(slot) == 2
  {
    assert slot.out == [slot.out[0]] + [slot.out[1]];
    TotalSnoc([slot.out[0]], slot.out[1], Probes);
    assert Total([slot.out[0]][1..], Probes) == 0;
  }
}
