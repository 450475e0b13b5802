/** The manager's outbound side as an object: its methods update its fields and loop as the manager does. */
module OutboundEngine {
  import opened Bytes
  import opened SeqSums
  import Core = OutboundCore
  import Runs = OutboundRuns

  type Item = Core.Item
  type Slot = Core.Slot

  class Manager {
    const limits: Core.Limits
    var slots: seq<Slot>
    var requestItems: int
    var requestBytes: int
    var controlItems: int
    var controlBytes: int
    var ready: bool
    var nextID: nat
    var nextTicket: nat

    function View(): Core.State
      reads this
    {
      Core.State(limits, slots, requestItems, requestBytes, controlItems, controlBytes, ready, nextID, nextTicket)
    }

    constructor (limits: Core.Limits, count: nat)
      requires Core.ValidLimits(limits, count)
      ensures View() == Core.Start(limits, count) && Runs.Good(View())
    {
      Runs.StartGood(limits, count);
      hide Runs.Good;
      this.limits := limits;
      slots := seq(count, i => Core.NEW_SLOT);
      requestItems, requestBytes, controlItems, controlBytes := 0, 0, 0, 0;
      ready, nextID, nextTicket := true, 1, 1;
    }

    // -------------------------------------------------------------- queues and counters

    method AppendOutbound(k: nat, item: Item)
      requires k < |slots|
      modifies this
      ensures View() == Core.Append(old(View()), k, item)
    {
      slots := slots[k := slots[k].(out := slots[k].out + [item])];
      nextID := nextID + 1;
    }

    method RemoveOutbound(k: nat, i: nat)
      requires Core.At(View(), k, i)
      modifies this
      ensures View() == Core.Remove(old(View()), k, i)
    {
      slots := slots[k := slots[k].(out := slots[k].out[..i] + slots[k].out[i + 1..])];
    }

    method SetItem(k: nat, i: nat, item: Item)
      requires Core.At(View(), k, i)
      modifies this
      ensures View() == Core.SetItem(old(View()), k, i, item)
    {
      slots := slots[k := slots[k].(out := slots[k].out[i := item])];
    }

    method SignalSlot(k: nat)
      requires k < |slots|
      modifies this
      ensures View() == Core.Signal(old(View()), k)
    {
      slots := slots[k := slots[k].(wake := true)];
    }

    method ChargeRequest(k: nat, size: nat)
      requires k < |slots|
      modifies this
      ensures View() == Core.MoveRequests(old(View()), k, 1, size)
    {
      slots := slots[k := slots[k].(requestItems := slots[k].requestItems + 1, requestBytes := slots[k].requestBytes + size)];
      requestItems := requestItems + 1;
      requestBytes := requestBytes + size;
    }

    method ReleaseRequestCharge(k: nat, item: Item)
      requires k < |slots|
      modifies this
      ensures View() == Core.ReleaseCharge(old(View()), k, item)
    {
      if item.phase == Core.Waiting {
        return;
      }
      slots := slots[k := slots[k].(requestItems := slots[k].requestItems - 1, requestBytes := slots[k].requestBytes - item.size)];
      requestItems := requestItems - 1;
      requestBytes := requestBytes - item.size;
    }

    method ChargeControl(k: nat)
      requires k < |slots|
      modifies this
      ensures View() == Core.MoveControls(old(View()), k, 1)
    {
      slots := slots[k := slots[k].(controlItems := slots[k].controlItems + 1, controlBytes := slots[k].controlBytes + Core.CONTROL_SIZE)];
      controlItems := controlItems + 1;
      controlBytes := controlBytes + Core.CONTROL_SIZE;
    }

    method ReleaseControl(k: nat)
      requires k < |slots|
      modifies this
      ensures View() == Core.MoveControls(old(View()), k, -1)
    {
      slots := slots[k := slots[k].(controlItems := slots[k].controlItems - 1, controlBytes := slots[k].controlBytes - Core.CONTROL_SIZE)];
      controlItems := controlItems - 1;
      controlBytes := controlBytes - Core.CONTROL_SIZE;
    }

    // -------------------------------------------------------------- promotion

    /** One scan of promoteRequestsLocked. */
    method FindCandidate() returns (candidate: Option<nat>)
      ensures candidate == Core.Candidate(View(), |slots|)
    {
      hide Core.WaitHead, Core.SlotRoom;
      candidate := None;
      for k := 0 to |slots|
        invariant candidate == Core.Candidate(View(), k)
      {
        if Core.Eligible(View(), k) {
          if candidate.None? || Core.HeadWaiter(View(), k).ticket < Core.HeadWaiter(View(), candidate.value).ticket {
            candidate := Some(k);
          }
        }
      }
    }

    /** promoteRequestsLocked. */
    method PromoteRequests()
      modifies this
      ensures View() == Core.Promote(old(View()))
    {
      hide Core.Candidate;
      ghost var whole := Core.Promote(View());
      while ready
        invariant Core.Promote(View()) == whole
        decreases Total(slots, Core.SlotWaiters)
      {
        var candidate := FindCandidate();
        if candidate.None? {
          return;
        }
        var k := candidate.value;
        var size := Core.HeadWaiter(View(), k).size;
        if requestItems >= limits.items || size > limits.bytes - requestBytes {
          return;
        }
        Core.ReserveHeadShrinks(View(), k);
        ReserveFirst(k);
      }
    }

    /** removeWaitLocked and reserveRequestLocked on slot k's first waiter. */
    method ReserveFirst(k: nat)
      requires Core.Eligible(View(), k)
      modifies this
      ensures View() == Core.ReserveHead(old(View()), k)
    {
      var i := Core.WaitHead(slots[k].out).value;
      var item := slots[k].out[i];
      SetItem(k, i, item.(phase := Core.Reserved));
      ChargeRequest(k, item.size);
    }

    // -------------------------------------------------------------- requests

    /** prepareProxyRequest's first section. */
    method PrepareProxyRequest(k: nat, owner: nat, size: nat, busy: bool)
      requires k < |slots|
      requires Runs.Good(View())
      modifies this
      ensures View() == Core.Prepare(old(View()), k, owner, size, busy)
      ensures Runs.Good(View())
    {
      hide Core.Promote, Core.SlotRoom, Core.GlobalRoom, Runs.Good;
      Runs.StepGood(View(), Core.PrepareRequest(k, owner, size, busy));
      if !ready || slots[k].failed || busy || size > limits.bindingBytes || size > limits.slotBytes || size > limits.bytes {
        return;
      }
      var waiters := HasWaiters();
      if |slots[k].out| == 0 && !waiters && Core.SlotRoom(View(), k, size) && Core.GlobalRoom(View(), size) {
        AppendOutbound(k, Core.Item(nextID, Core.Request, Some(owner), size, 0, Core.Materializing, false, false));
        ChargeRequest(k, size);
        return;
      }
      AppendOutbound(k, Core.Item(nextID, Core.Request, Some(owner), size, nextTicket, Core.Waiting, false, false));
      nextTicket := nextTicket + 1;
      PromoteRequests();
    }

    /** hasWaitersLocked. */
    method HasWaiters() returns (some: bool)
      ensures some <==> !(forall j | 0 <= j < |slots| :: Core.WaitHead(slots[j].out).None?)
    {
      for j := 0 to |slots|
        invariant forall i | 0 <= i < j :: Core.WaitHead(slots[i].out).None?
      {
        if Core.WaitHead(slots[j].out).Some? {
          return true;
        }
      }
      return false;
    }

    method Retire(k: nat, i: nat)
      requires Core.At(View(), k, i)
      modifies this
      ensures View() == Core.Retire(old(View()), k, i)
    {
      hide Core.Promote;
      var item := slots[k].out[i];
      RemoveOutbound(k, i);
      ReleaseRequestCharge(k, item);
      Core.PromoteEffect(View());
      PromoteRequests();
      if i == 0 {
        SignalSlot(k);
      }
    }

    /** materializePreparedRequest's second section. */
    method FinishMaterialization(k: nat, i: nat, ok: bool)
      requires Core.At(View(), k, i)
      requires Runs.Good(View())
      modifies this
      ensures View() == Core.Materialize(old(View()), k, i, ok)
      ensures Runs.Good(View())
    {
      hide Core.Retire, Runs.Good;
      Runs.StepGood(View(), Core.FinishMaterialize(k, i, ok));
      var item := slots[k].out[i];
      if item.kind != Core.Request || item.phase != Core.Materializing {
        return;
      }
      if !ok || !ready || item.canceled {
        Retire(k, i);
        return;
      }
      SetItem(k, i, item.(phase := Core.Materialized));
      if i == 0 {
        SignalSlot(k);
      }
    }

    /** cancelRequestLocked. */
    method CancelRequest(k: nat, i: nat)
      requires Core.At(View(), k, i)
      modifies this
      ensures View() == Core.Cancel(old(View()), k, i)
      ensures Runs.Good(old(View())) ==> Runs.Good(View())
    {
      hide Core.Retire, Runs.Good;
      if Runs.Good(View()) {
        Runs.StepGood(View(), Core.CancelRequest(k, i));
      }
      var item := slots[k].out[i];
      if item.kind != Core.Request || item.canceled {
        return;
      }
      if item.phase == Core.Materializing || item.phase == Core.Attempting {
        SetItem(k, i, item.(canceled := true));
        return;
      }
      Retire(k, i);
    }

    // -------------------------------------------------------------- closes and probes

    method AppendControl(k: nat, kind: Core.Kind, owner: Option<nat>)
      requires k < |slots|
      modifies this
      ensures View() == Core.AppendControl(old(View()), k, kind, owner)
    {
      var wasEmpty := |slots[k].out| == 0;
      AppendOutbound(k, Core.Item(nextID, kind, owner, Core.CONTROL_SIZE, 0, Core.Waiting, false, false));
      ChargeControl(k);
      if wasEmpty {
        SignalSlot(k);
      }
    }

    /** queueControlLocked. */
    method QueueControl(k: nat, owner: Option<nat>) returns (ok: bool)
      requires k < |slots|
      requires Runs.Good(View())
      modifies this
      ensures (View(), ok) == Core.QueueControl(old(View()), k, owner)
      ensures Runs.Good(View())
    {
      hide Core.AppendControl, Runs.Good;
      Runs.StepGood(View(), Core.CloseConnection(k, owner));
      var reservedItems, reservedBytes := |slots|, |slots| * Core.CONTROL_SIZE;
      if !ready || slots[k].failed
         || slots[k].controlItems >= limits.controlSlotItems - 1
         || Core.CONTROL_SIZE > limits.controlSlotBytes - Core.CONTROL_SIZE - slots[k].controlBytes
         || controlItems >= limits.controlItems - reservedItems
         || Core.CONTROL_SIZE > limits.controlBytes - reservedBytes - controlBytes {
        return false;
      }
      AppendControl(k, Core.Control, owner);
      return true;
    }

    method RetireControl(k: nat, i: nat)
      requires Core.At(View(), k, i)
      modifies this
      ensures View() == Core.RetireControl(old(View()), k, i)
    {
      RemoveOutbound(k, i);
      ReleaseControl(k);
    }

    /** cancelBindingControlsLocked: a close being submitted is only marked, the first other one leaves. */
    method CancelBindingControls(k: nat, owner: nat)
      requires k < |slots|
      requires Runs.Good(View())
      modifies this
      ensures View() == Core.CancelControls(old(View()), k, owner, 0)
      ensures Runs.Good(View())
    {
      hide Runs.Good;
      Runs.StepGood(View(), Core.CancelClose(k, owner));
      ghost var whole := Core.CancelControls(View(), k, owner, 0);
      var i := 0;
      while i < |slots[k].out|
        invariant |slots| == |old(slots)|
        invariant Core.CancelControls(View(), k, owner, i) == whole
        decreases if i <= |slots[k].out| then |slots[k].out| - i else 0
      {
        var item := slots[k].out[i];
        if item.kind == Core.Control && item.owner == Some(owner) {
          if !item.attempting {
            RetireControl(k, i);
            if i == 0 {
              SignalSlot(k);
            }
            return;
          }
          SetItem(k, i, item.(canceled := true));
        }
        i := i + 1;
      }
    }

    /** probeSlot's admission section. */
    method StartProbe(k: nat) returns (ok: bool)
      requires k < |slots|
      requires Runs.Good(View())
      modifies this
      ensures (View(), ok) == Core.StartProbe(old(View()), k)
      ensures Runs.Good(View())
    {
      hide Runs.Good;
      Runs.StepGood(View(), Core.BeginProbe(k));
      if !ready || slots[k].failed || slots[k].probe.Some?
         || slots[k].controlItems >= limits.controlSlotItems
         || Core.CONTROL_SIZE > limits.controlSlotBytes - slots[k].controlBytes
         || controlItems >= limits.controlItems
         || Core.CONTROL_SIZE > limits.controlBytes - controlBytes {
        return false;
      }
      var id := nextID;
      AppendControl(k, Core.Probe, None);
      slots := slots[k := slots[k].(probe := Some(Core.Pending(id, false)))];
      return true;
    }

    /** completeProbeLocked on the slot's pending probe. */
    method CompleteProbe(k: nat)
      requires k < |slots|
      modifies this
      ensures View() == Core.EndProbe(old(View()), k)
      ensures Runs.Good(old(View())) ==> Runs.Good(View())
    {
      hide Runs.Good;
      if Runs.Good(View()) {
        Runs.StepGood(View(), Core.CompleteProbe(k));
      }
      if slots[k].probe.None? {
        return;
      }
      var at := Core.IndexOf(slots[k].out, slots[k].probe.value.id);
      slots := slots[k := slots[k].(probe := None)];
      if at.None? {
        return;
      }
      var item := slots[k].out[at.value];
      if item.attempting {
        SetItem(k, at.value, item.(canceled := true));
        return;
      }
      RetireControl(k, at.value);
      if at.value == 0 {
        SignalSlot(k);
      }
    }

    // -------------------------------------------------------------- dispatching

    /** dispatchSlotOnce up to TrySubmit: the submission to try, if any. */
    method BeginAttempt(k: nat, byRoom: bool) returns (submission: Option<Item>)
      requires k < |slots|
      requires Runs.Good(View())
      modifies this
      ensures View() == Core.BeginAttempt(old(View()), k, byRoom)
      ensures Runs.Good(View())
      ensures submission.Some? ==> slots[k].out != [] && slots[k].out[0].attempting && submission.value.id == slots[k].out[0].id
    {
      hide Runs.Good;
      Runs.StepGood(View(), Core.Begin(k, byRoom));
      submission := None;
      if !byRoom && !slots[k].wake {
        return;
      }
      slots := slots[k := if byRoom then slots[k].(blocked := false) else slots[k].(wake := false)];
      if !ready || slots[k].failed || |slots[k].out| == 0 {
        return;
      }
      var item := slots[k].out[0];
      if item.attempting || (item.kind == Core.Request && item.phase != Core.Materialized) {
        return;
      }
      submission := Some(item);
      item := item.(attempting := true, phase := if item.kind == Core.Request then Core.Attempting else item.phase);
      slots := slots[k := slots[k].(out := slots[k].out[0 := item])];
    }

    /** dispatchSlotOnce after TrySubmit. */
    method FinishAttempt(k: nat, outcome: Core.Outcome)
      requires k < |slots|
      requires Runs.Good(View())
      modifies this
      ensures View() == Core.FinishAttempt(old(View()), k, outcome)
      ensures Runs.Good(View())
    {
      hide Core.Retire, Runs.Good;
      Runs.StepGood(View(), Core.Finish(k, outcome));
      if |slots[k].out| == 0 || !slots[k].out[0].attempting {
        return;
      }
      var item := slots[k].out[0];
      if outcome == Core.Backpressure && !item.canceled && ready {
        item := item.(attempting := false, phase := if item.kind == Core.Request then Core.Materialized else item.phase);
        slots := slots[k := slots[k].(out := slots[k].out[0 := item], blocked := true)];
        return;
      }
      var pending := slots[k].probe;
      if outcome == Core.Accepted {
        slots := slots[k := slots[k].(accepted := slots[k].accepted + [item])];
      }
      if item.kind == Core.Request {
        Retire(k, 0);
        return;
      }
      RetireControl(k, 0);
      SignalSlot(k);
      if item.kind == Core.Probe && outcome == Core.Accepted && pending.Some? && pending.value.id == item.id {
        slots := slots[k := slots[k].(probe := Some(Core.Pending(item.id, true)))];
      }
    }

    // -------------------------------------------------------------- failing and closing

    /** cancelSlotOutboundLocked's walk over the FIFO. */
    method CancelSlotOutbound(k: nat)
      requires k < |slots|
      modifies this
      ensures View() == Core.CancelFrom(old(View()), k, 0) && |slots| == |old(slots)|
    {
      hide Core.Cancel;
      ghost var whole := Core.CancelFrom(View(), k, 0);
      var i := 0;
      while i < |slots[k].out|
        invariant |slots| == |old(slots)|
        invariant Core.CancelFrom(View(), k, i) == whole
        decreases if i <= |slots[k].out| then |slots[k].out| - i else 0
      {
        var item := slots[k].out[i];
        if item.kind == Core.Request {
          var before := |slots[k].out|;
          Core.CancelLength(View(), k, i);
          CancelRequest(k, i);
          if |slots[k].out| == before {
            i := i + 1;
          }
        } else if item.attempting || item.kind == Core.Probe {
          SetItem(k, i, item.(canceled := true));
          i := i + 1;
        } else {
          RetireControl(k, i);
        }
      }
    }

    /** failSlot's section. */
    method FailSlot(k: nat)
      requires k < |slots|
      requires Runs.Good(View())
      modifies this
      ensures View() == Core.FailSlot(old(View()), k)
      ensures Runs.Good(View())
    {
      hide Core.EndProbe, Core.CancelFrom, Runs.Good;
      Runs.StepGood(View(), Core.Fail(k));
      if !ready || slots[k].failed {
        return;
      }
      slots := slots[k := slots[k].(failed := true)];
      ProbeKeepsSlots(View(), k);
      CompleteProbe(k);
      CancelSlotOutbound(k);
    }

    /** beginTerminal's section. */
    method BeginTerminal()
      requires Runs.Good(View())
      modifies this
      ensures View() == Core.Step(old(View()), Core.CloseManager)
      ensures Runs.Good(View())
    {
      hide Core.EndProbe, Core.CancelFrom, Runs.Good;
      Runs.StepGood(View(), Core.CloseManager);
      if !ready {
        return;
      }
      ready := false;
      ghost var whole := Core.CloseFrom(View(), 0);
      for k := 0 to |slots|
        invariant |slots| == |old(slots)|
        invariant Core.CloseFrom(View(), k) == whole
      {
        ProbeKeepsSlots(View(), k);
        CompleteProbe(k);
        CancelSlotOutbound(k);
      }
    }

    /** repairSlot's publication. */
    method RepairSlot(k: nat)
      requires k < |slots|
      requires Runs.Good(View())
      modifies this
      ensures View() == Core.RepairSlot(old(View()), k)
      ensures Runs.Good(View())
    {
      hide Runs.Good;
      Runs.StepGood(View(), Core.Repair(k));
      var slot := slots[k];
      if !ready || !slot.failed || |slot.out| != 0 || slot.requestItems != 0 || slot.requestBytes != 0
         || slot.controlItems != 0 || slot.controlBytes != 0 || slot.probe.Some? {
        return;
      }
      slots := slots[k := slot.(failed := false, wake := false, blocked := false)];
    }
  }

  lemma {:induction false} ProbeKeepsSlots(s: Core.State, k: nat)
    requires k < |s.slots|
    ensures |Core.EndProbe(s, k).slots| == |s.slots|
  {}
}
