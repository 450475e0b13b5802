/**
 * What becomes of every item of an outbound FIFO: the step at which it leaves and why, and that nothing else is lost,
 * added or reordered.
 */
module OutboundFates {
  import opened Bytes
  import opened OutboundCore
  import opened OutboundOrder
  import opened OutboundRuns

  datatype Reason = WasAccepted | WasRefused | WasCanceled | NotMarshalled

  /** An item's fate in one step: it stays, as the given item, or leaves. */
  datatype Fate = Stays(item: Item) | Leaves(why: Reason)

  /** A cancelled request leaves, unless it is being marshalled or submitted; then it is only marked. */
  function CanceledFate(item: Item): Fate {
    if item.kind != Request || item.canceled then Stays(item)
    else if item.phase in {Materializing, Attempting} then Stays(item.(canceled := true))
    else Leaves(WasCanceled)
  }

  /** An item of a slot that fails or closes. */
  function DroppedFate(item: Item, probe: Option<Pending>): Fate {
    if item.kind == Request then CanceledFate(item)
    else if item.attempting then Stays(item.(canceled := true))
    else if item.kind == Control || (probe.Some? && probe.value.id == item.id) then Leaves(WasCanceled)
    else Stays(item.(canceled := true))
  }

  /** The fate of item i of slot k. */
  function FateOf(s: State, op: Op, k: nat, i: nat): Fate
    requires At(s, k, i)
  {
    var (slot, item) := (s.slots[k], s.slots[k].out[i]);
    match op
    case ClaimReservation(at, j) =>
      if (at, j) == (k, i) && RequestIn(s, k, i, Reserved) then Stays(item.(phase := Materializing)) else Stays(item)
    case FinishMaterialize(at, j, ok) =>
      if (at, j) != (k, i) || !RequestIn(s, k, i, Materializing) then Stays(item)
      else if !ok then Leaves(NotMarshalled)
      else if item.canceled || !s.ready then Leaves(WasCanceled)
      else Stays(item.(phase := Materialized))
    case CancelRequest(at, j) => if (at, j) == (k, i) then CanceledFate(item) else Stays(item)
    case CancelClose(at, owner) =>
      if at != k || !ClosesFor(item, owner) then Stays(item)
      else if item.attempting then Stays(item.(canceled := true))
      else if exists j :: 0 <= j < i && ClosesFor(slot.out[j], owner) && !slot.out[j].attempting then Stays(item)
      else Leaves(WasCanceled)
    case CompleteProbe(at) =>
      if at != k || slot.probe.None? || slot.probe.value.id != item.id then Stays(item)
      else if item.attempting then Stays(item.(canceled := true))
      else Leaves(WasCanceled)
    case Begin(at, byRoom) =>
      if at == k && i == 0 && (byRoom || slot.wake) && s.ready && !slot.failed && Dispatchable(item) then
        Stays(item.(attempting := true, phase := if item.kind == Request then Attempting else item.phase))
      else Stays(item)
    case Finish(at, outcome) =>
      if at != k || i != 0 || !item.attempting then Stays(item)
      else (match outcome
        case Accepted => Leaves(WasAccepted)
        case Refused => Leaves(WasRefused)
        case Backpressure =>
          if item.canceled || !s.ready then Leaves(WasCanceled)
          else Stays(item.(attempting := false, phase := if item.kind == Request then Materialized else item.phase)))
    case Fail(at) => if at == k && s.ready && !slot.failed then DroppedFate(item, slot.probe) else Stays(item)
    case CloseManager => if s.ready then DroppedFate(item, slot.probe) else Stays(item)
    case _ => Stays(item)
  }

  /** The item a step appends to slot k. */
  function Arrival(s: State, op: Op, k: nat): Option<Item>
    requires k < |s.slots|
  {
    match op
    case PrepareRequest(at, owner, size, busy) =>
      if at != k || !s.ready || s.slots[k].failed || busy
         || size > s.limits.bindingBytes || size > s.limits.slotBytes || size > s.limits.bytes then None
      else if s.slots[k].out == [] && (forall j | 0 <= j < |s.slots| :: WaitHead(s.slots[j].out).None?)
              && SlotRoom(s, k, size) && GlobalRoom(s, size) then
        Some(Item(s.nextID, Request, Some(owner), size, 0, Materializing, false, false))
      else Some(Item(s.nextID, Request, Some(owner), size, s.nextTicket, Waiting, false, false))
    case CloseConnection(at, binding) =>
      if at != k || !s.ready || s.slots[k].failed || !ControlRoom(s, k) then None
      else Some(Item(s.nextID, Control, binding, CONTROL_SIZE, 0, Waiting, false, false))
    case BeginProbe(at) =>
      if at != k || !s.ready || s.slots[k].failed || s.slots[k].probe.Some? || !ProbeRoom(s, k) then None
      else Some(Item(s.nextID, Probe, None, CONTROL_SIZE, 0, Waiting, false, false))
    case _ => None
  }

  function Piece(fate: Fate): seq<Item> {
    match fate case Stays(x) => [x] case Leaves(_) => []
  }

  /** What stays of the first n items of slot k, in order. */
  function Staying(s: State, op: Op, k: nat, n: nat): seq<Item>
    requires k < |s.slots| && n <= |s.slots[k].out|
  {
    if n == 0 then [] else Staying(s, op, k, n - 1) + Piece(FateOf(s, op, k, n - 1))
  }

  /** Slot k's FIFO after a step: what stays, and the new item at its end. */
  function Expected(s: State, op: Op, k: nat): seq<Item>
    requires k < |s.slots|
  {
    Staying(s, op, k, |s.slots[k].out|) + (match Arrival(s, op, k) case None => [] case Some(x) => [x])
  }

  /** The same items, some waiting ones perhaps promoted. */
  predicate Promoted(a: seq<Item>, b: seq<Item>) {
    && |b| == |a|
    && forall i | 0 <= i < |a| :: b[i] == a[i] || (IsWaiting(a[i]) && b[i] == a[i].(phase := Reserved))
  }

  // ---------------------------------------------------------------- sequences

  lemma {:induction false} PromotedTwice(a: seq<Item>, b: seq<Item>, c: seq<Item>)
    requires Promoted(a, b) && Promoted(b, c)
    ensures Promoted(a, c)
  {}

  lemma {:induction false} PromoteSlots(s: State, k: nat)
    requires k < |s.slots|
    ensures k < |Promote(s).slots| && Promoted(s.slots[k].out, Promote(s).slots[k].out)
    ensures Promote(s).slots[k].accepted == s.slots[k].accepted
  {
    hide Promote, PromotionDone;
    PromoteEffect(s);
    assert SameSlotShape(s.slots[k], Promote(s).slots[k]);
  }

  /** Items that stay, each as `e` says. */
  lemma {:induction false} AllStay(s: State, op: Op, k: nat, e: seq<Item>, n: nat)
    requires k < |s.slots| && n <= |s.slots[k].out| == |e|
    requires forall j | 0 <= j < n :: FateOf(s, op, k, j) == Stays(e[j])
    ensures Staying(s, op, k, n) == e[..n]
  {
    hide FateOf;
    if n > 0 {
      AllStay(s, op, k, e, n - 1);
      assert e[..n] == e[..n - 1] + [e[n - 1]];
    }
  }

  lemma {:induction false} SliceSnoc(e: seq<Item>, a: nat, n: nat)
    requires a < n <= |e|
    ensures e[a..n] == e[a..n - 1] + [e[n - 1]]
  {}

  /** Items of which one leaves. */
  lemma {:induction false} OneLeaves(s: State, op: Op, k: nat, e: seq<Item>, i: nat, n: nat)
    requires At(s, k, i) && i < n <= |s.slots[k].out| == |e|
    requires forall j | 0 <= j < n && j != i :: FateOf(s, op, k, j) == Stays(e[j])
    requires FateOf(s, op, k, i).Leaves?
    ensures Staying(s, op, k, n) == e[..i] + e[i + 1..n]
  {
    hide FateOf;
    if n == i + 1 {
      AllStay(s, op, k, e, i);
      assert |e[i + 1..n]| == 0;
      assert Staying(s, op, k, n) == e[..i] + Piece(FateOf(s, op, k, i));
    } else {
      OneLeaves(s, op, k, e, i, n - 1);
      SliceSnoc(e, i + 1, n);
      assert e[..i] + e[i + 1..n] == (e[..i] + e[i + 1..n - 1]) + [e[n - 1]];
    }
  }

  // ---------------------------------------------------------------- one slot's part of a step

  /** What a step did to slot k is what the fates of its items say. */
  predicate Fated(s: State, op: Op, t: State, k: nat)
    requires k < |s.slots|
  {
    k < |t.slots| && Promoted(Expected(s, op, k), t.slots[k].out) && t.slots[k].accepted == s.slots[k].accepted + Taken(s, op, k)
  }

  /** What the link accepted of slot k in a step. */
  function Taken(s: State, op: Op, k: nat): seq<Item>
    requires k < |s.slots|
  {
    if op == Finish(k, OutboundCore.Accepted) && s.slots[k].out != [] && s.slots[k].out[0].attempting then [s.slots[k].out[0]] else []
  }

  /** A slot whose items all stay. */
  lemma {:induction false} NobodyLeft(s: State, op: Op, t: State, k: nat, e: seq<Item>)
    requires k < |s.slots| && k < |t.slots| && |e| == |s.slots[k].out|
    requires forall j | 0 <= j < |e| :: FateOf(s, op, k, j) == Stays(e[j])
    requires Arrival(s, op, k).None? && Taken(s, op, k) == []
    requires Promoted(e, t.slots[k].out) && t.slots[k].accepted == s.slots[k].accepted
    ensures Fated(s, op, t, k)
  {
    hide FateOf, Arrival, Promoted;
    AllStay(s, op, k, e, |e|);
    assert e[..|e|] == e && e + [] == e && s.slots[k].accepted + [] == s.slots[k].accepted;
  }

  /** A slot one item leaves. */
  lemma {:induction false} OneLeft(s: State, op: Op, t: State, k: nat, e: seq<Item>, i: nat)
    requires At(s, k, i) && k < |t.slots| && |e| == |s.slots[k].out| && Arrival(s, op, k).None?
    requires forall j | 0 <= j < |e| && j != i :: FateOf(s, op, k, j) == Stays(e[j])
    requires FateOf(s, op, k, i).Leaves?
    requires Promoted(e[..i] + e[i + 1..], t.slots[k].out)
    requires t.slots[k].accepted == s.slots[k].accepted + Taken(s, op, k)
    ensures Fated(s, op, t, k)
  {
    hide FateOf, Arrival, Promoted;
    OneLeaves(s, op, k, e, i, |e|);
    assert e[i + 1..|e|] == e[i + 1..];
    assert (e[..i] + e[i + 1..]) + [] == e[..i] + e[i + 1..];
  }

  /** A slot a new item arrives at. */
  lemma {:induction false} OneArrived(s: State, op: Op, t: State, k: nat, x: Item)
    requires k < |s.slots| && k < |t.slots| && Arrival(s, op, k) == Some(x) && Taken(s, op, k) == []
    requires forall j | 0 <= j < |s.slots[k].out| :: FateOf(s, op, k, j) == Stays(s.slots[k].out[j])
    requires Promoted(s.slots[k].out + [x], t.slots[k].out) && t.slots[k].accepted == s.slots[k].accepted
    ensures Fated(s, op, t, k)
  {
    hide FateOf, Arrival, Promoted;
    AllStay(s, op, k, s.slots[k].out, |s.slots[k].out|);
    assert s.slots[k].out[..|s.slots[k].out|] == s.slots[k].out && s.slots[k].accepted + [] == s.slots[k].accepted;
  }

  lemma {:induction false} Alike(out: seq<Item>)
    ensures Promoted(out, out)
  {}

  /** Leaving a FIFO with its charge. */
  lemma {:induction false} RetireSlots(s: State, k: nat, i: nat, at: nat)
    requires At(s, k, i) && at < |s.slots|
    ensures var t := Retire(s, k, i);
            && at < |t.slots| && t.slots[at].accepted == s.slots[at].accepted
            && Promoted(if at == k then s.slots[k].out[..i] + s.slots[k].out[i + 1..] else s.slots[at].out, t.slots[at].out)
  {
    hide Promote, PromotionDone, Promoted;
    var u := ReleaseCharge(Remove(s, k, i), k, s.slots[k].out[i]);
    PromoteSlots(u, at);
    PromoteEffect(u);
  }

  // ---------------------------------------------------------------- the sections

  lemma {:induction false} PrepareFated(s: State, op: Op, k: nat)
    requires op.PrepareRequest? && k < |s.slots|
    ensures Fated(s, op, Step(s, op), k)
  {
    hide Promote, PromotionDone, Promoted, SlotRoom, GlobalRoom, WaitHead, Fated;
    var t := Step(s, op);
    Alike(s.slots[k].out);
    if op.k < |s.slots| {
      Alike(s.slots[k].out + [Item(s.nextID, Request, Some(op.owner), op.size, 0, Materializing, false, false)]);
      var u := Append(s, op.k, Item(s.nextID, Request, Some(op.owner), op.size, s.nextTicket, Waiting, false, false)).(nextTicket := s.nextTicket + 1);
      PromoteSlots(u, k);
      PromoteEffect(u);
    }
    match Arrival(s, op, k)
    case Some(x) => OneArrived(s, op, t, k, x);
    case None => NobodyLeft(s, op, t, k, s.slots[k].out);
  }

  /** A section that edits or retires one request. */
  lemma {:induction false} RequestFated(s: State, op: Op, t: State, k: nat, i: nat)
    requires At(s, k, i) && (op.ClaimReservation? || op.FinishMaterialize? || op.CancelRequest?) && op.k == k && op.i == i
    requires k < |t.slots| && t.slots[k].accepted == s.slots[k].accepted
    requires match FateOf(s, op, k, i)
             case Stays(x) => Promoted(s.slots[k].out[i := x], t.slots[k].out)
             case Leaves(_) => Promoted(s.slots[k].out[..i] + s.slots[k].out[i + 1..], t.slots[k].out)
    ensures Fated(s, op, t, k)
  {
    hide Promoted, Fated;
    var out := s.slots[k].out;
    assert s.slots[k].accepted + [] == s.slots[k].accepted;
    match FateOf(s, op, k, i)
    case Stays(x) => NobodyLeft(s, op, t, k, out[i := x]);
    case Leaves(_) => OneLeft(s, op, t, k, out, i);
  }

  lemma {:induction false} RequestsFated(s: State, op: Op, k: nat)
    requires (op.ClaimReservation? || op.FinishMaterialize? || op.CancelRequest?) && k < |s.slots|
    ensures Fated(s, op, Step(s, op), k)
  {
    hide Retire, Promoted, Fated;
    var t := Step(s, op);
    var out := s.slots[k].out;
    Alike(out);
    if At(s, op.k, op.i) {
      RetireSlots(s, op.k, op.i, k);
      if k == op.k {
        if FateOf(s, op, k, op.i).Stays? {
          Alike(out[op.i := FateOf(s, op, k, op.i).item]);
          assert out[op.i := out[op.i]] == out;
        }
        RequestFated(s, op, t, k, op.i);
      } else {
        NobodyLeft(s, op, t, k, out);
      }
    } else {
      NobodyLeft(s, op, t, k, out);
    }
  }

  lemma {:induction false} ControlFated(s: State, op: Op, k: nat)
    requires (op.CloseConnection? || op.BeginProbe? || op.Repair?) && k < |s.slots|
    ensures Fated(s, op, Step(s, op), k)
  {
    hide ControlRoom, ProbeRoom, Promoted, Fated;
    var t := Step(s, op);
    Alike(s.slots[k].out);
    match Arrival(s, op, k)
    case Some(x) => Alike(s.slots[k].out + [x]); OneArrived(s, op, t, k, x);
    case None => NobodyLeft(s, op, t, k, s.slots[k].out);
  }

  lemma {:induction false} BeginFated(s: State, op: Op, k: nat)
    requires op.Begin? && k < |s.slots|
    ensures Fated(s, op, Step(s, op), k)
  {
    hide Promoted, Fated;
    var (t, out) := (Step(s, op), s.slots[k].out);
    Alike(out);
    if op.k == k && out != [] {
      var x := FateOf(s, op, k, 0).item;
      assert out[0 := out[0]] == out;
      Alike(out[0 := x]);
      NobodyLeft(s, op, t, k, out[0 := x]);
    } else {
      NobodyLeft(s, op, t, k, out);
    }
  }

  function BackInQueue(item: Item): Item {
    item.(attempting := false, phase := if item.kind == Request then Materialized else item.phase)
  }

  /** An attempt that ends with the item in the FIFO, and one that ends without it. */
  lemma {:induction false} FinishSlots(s: State, k: nat, outcome: Outcome, at: nat)
    requires At(s, k, 0) && s.slots[k].out[0].attempting && at < |s.slots|
    ensures var (t, out, item) := (FinishAttempt(s, k, outcome), s.slots[k].out, s.slots[k].out[0]);
            && at < |t.slots|
            && t.slots[at].accepted == s.slots[at].accepted + (if at == k && outcome == OutboundCore.Accepted then [item] else [])
            && Promoted(if at != k then s.slots[at].out
                        else if outcome == Backpressure && !item.canceled && s.ready then out[0 := BackInQueue(item)]
                        else out[..0] + out[1..],
                        t.slots[at].out)
  {
    hide Retire, Promoted;
    var (slot, out) := (s.slots[k], s.slots[k].out);
    var u := SetSlot(s, k, slot.(accepted := slot.accepted + [out[0]]));
    RetireSlots(if outcome == OutboundCore.Accepted then u else s, k, 0, at);
    assert s.slots[at].accepted + [] == s.slots[at].accepted;
    Alike(s.slots[at].out);
    Alike(out[..0] + out[1..]);
    Alike(out[0 := BackInQueue(out[0])]);
  }

  lemma {:induction false} FinishFated(s: State, op: Op, k: nat)
    requires op.Finish? && k < |s.slots|
    ensures Fated(s, op, Step(s, op), k)
  {
    hide FinishAttempt, Promoted, Fated;
    var (t, out) := (Step(s, op), s.slots[k].out);
    if At(s, op.k, 0) && s.slots[op.k].out[0].attempting {
      FinishSlots(s, op.k, op.outcome, k);
      assert s.slots[k].accepted + [] == s.slots[k].accepted;
      if op.k == k {
        match FateOf(s, op, k, 0) {
          case Stays(x) => NobodyLeft(s, op, t, k, out[0 := x]);
          case Leaves(_) => OneLeft(s, op, t, k, out, 0);
        }
      } else {
        NobodyLeft(s, op, t, k, out);
      }
    } else {
      IdleFinish(s, op);
      Alike(out);
      NobodyLeft(s, op, t, k, out);
    }
  }

  lemma {:induction false} IdleFinish(s: State, op: Op)
    requires op.Finish? && (At(s, op.k, 0) ==> !s.slots[op.k].out[0].attempting)
    ensures Step(s, op) == s
  {}

  // ---------------------------------------------------------------- closes

  predicate HeadOnly(out: seq<Item>) {
    forall i | 0 < i < |out| :: !out[i].attempting
  }

  predicate IdleClose(item: Item, owner: nat) {
    ClosesFor(item, owner) && !item.attempting
  }

  /** The first close of a binding from position i on that is not being submitted. */
  function FirstIdle(out: seq<Item>, owner: nat, i: nat): (r: Option<nat>)
    requires i <= |out|
    ensures r.Some? ==> i <= r.value < |out| && IdleClose(out[r.value], owner)
                        && forall j | i <= j < r.value :: !IdleClose(out[j], owner)
    ensures r.None? ==> forall j | i <= j < |out| :: !IdleClose(out[j], owner)
    decreases |out| - i
  {
    if i == |out| then None else if IdleClose(out[i], owner) then Some(i) else FirstIdle(out, owner, i + 1)
  }

  function Cut(out: seq<Item>, at: Option<nat>): seq<Item>
    requires at.Some? ==> at.value < |out|
  {
    match at case None => out case Some(i) => out[..i] + out[i + 1..]
  }

  /** One slot's FIFO changed, to `out`. */
  predicate OnlyOut(s: State, t: State, k: nat, out: seq<Item>) {
    && |t.slots| == |s.slots|
    && (forall j | 0 <= j < |s.slots| :: t.slots[j].accepted == s.slots[j].accepted && t.slots[j].out == if j == k then out else s.slots[j].out)
  }

  lemma {:induction false} CancelsFirst(s: State, k: nat, owner: nat, i: nat)
    requires k < |s.slots| && 0 < i <= |s.slots[k].out| && HeadOnly(s.slots[k].out)
    ensures OnlyOut(s, CancelControls(s, k, owner, i), k, Cut(s.slots[k].out, FirstIdle(s.slots[k].out, owner, i)))
    decreases |s.slots[k].out| - i
  {
    var out := s.slots[k].out;
    if i < |out| && !ClosesFor(out[i], owner) {
      hide OnlyOut, Cut;
      CancelsFirst(s, k, owner, i + 1);
    }
  }

  function MarkedHead(out: seq<Item>, owner: nat): seq<Item> {
    if out != [] && ClosesFor(out[0], owner) && out[0].attempting then out[0 := out[0].(canceled := true)] else out
  }

  lemma {:induction false} CloseSlots(s: State, k: nat, owner: nat)
    requires k < |s.slots| && HeadOnly(s.slots[k].out)
    ensures OnlyOut(s, CancelControls(s, k, owner, 0), k, Cut(MarkedHead(s.slots[k].out, owner), FirstIdle(s.slots[k].out, owner, 0)))
  {
    var out := s.slots[k].out;
    if out != [] {
      if ClosesFor(out[0], owner) && out[0].attempting {
        var t := CancelControl(s, k, 0);
        CancelsFirst(t, k, owner, 1);
        SameIdle(out, MarkedHead(out, owner), owner, 1);
      } else if !ClosesFor(out[0], owner) {
        CancelsFirst(s, k, owner, 1);
      }
    }
  }

  lemma {:induction false} SameIdle(a: seq<Item>, b: seq<Item>, owner: nat, i: nat)
    requires 0 < i <= |a| == |b| && a[1..] == b[1..]
    ensures FirstIdle(a, owner, i) == FirstIdle(b, owner, i)
    decreases |a| - i
  {
    if i < |a| {
      assert a[i] == a[1..][i - 1] && b[i] == b[1..][i - 1];
      SameIdle(a, b, owner, i + 1);
    }
  }

  lemma {:induction false} CloseFates(s: State, op: Op, k: nat, j: nat)
    requires op.CancelClose? && At(s, k, j) && HeadOnly(s.slots[k].out) && op.k == k
    ensures var (out, at) := (s.slots[k].out, FirstIdle(s.slots[k].out, op.owner, 0));
            FateOf(s, op, k, j) == if at == Some(j) then Leaves(WasCanceled) else Stays(MarkedHead(out, op.owner)[j])
  {}

  lemma {:induction false} CancelCloseFated(s: State, op: Op, k: nat)
    requires op.CancelClose? && k < |s.slots| && HeadOnly(s.slots[k].out)
    ensures Fated(s, op, Step(s, op), k)
  {
    hide Promoted, Fated, CancelControls, IdleClose;
    var (t, out) := (Step(s, op), s.slots[k].out);
    Alike(out);
    if op.k == k {
      CloseSlots(s, k, op.owner);
      var (e, at) := (MarkedHead(out, op.owner), FirstIdle(out, op.owner, 0));
      Alike(Cut(e, at));
      assert s.slots[k].accepted + [] == s.slots[k].accepted;
      forall j | 0 <= j < |out|
        ensures FateOf(s, op, k, j) == if at == Some(j) then Leaves(WasCanceled) else Stays(e[j])
      {
        CloseFates(s, op, k, j);
      }
      hide FateOf, MarkedHead;
      match at
      case None => NobodyLeft(s, op, t, k, e);
      case Some(i) => OneLeft(s, op, t, k, e, i);
    } else {
      if op.k < |s.slots| {
        OthersClose(s, op.k, op.owner, 0, k);
      }
      NobodyLeft(s, op, t, k, out);
    }
  }

  lemma {:induction false} OthersClose(s: State, k: nat, owner: nat, i: nat, at: nat)
    requires k < |s.slots| && at < |s.slots| && at != k
    ensures var t := CancelControls(s, k, owner, i); at < |t.slots| && t.slots[at] == s.slots[at]
    decreases if i <= |s.slots[k].out| then |s.slots[k].out| - i else 0
  {
    if i < |s.slots[k].out| {
      if !ClosesFor(s.slots[k].out[i], owner) {
        OthersClose(s, k, owner, i + 1, at);
      } else if s.slots[k].out[i].attempting {
        OthersClose(CancelControl(s, k, i), k, owner, i + 1, at);
      }
    }
  }

  // ---------------------------------------------------------------- probes, failing slots and the end

  /** Identifiers are distinct, and only a probe is the pending probe. */
  predicate Distinct(slot: Slot) {
    && (forall i, j | 0 <= i < j < |slot.out| :: slot.out[i].id < slot.out[j].id)
    && (forall i | 0 <= i < |slot.out| && slot.probe.Some? && slot.out[i].id == slot.probe.value.id :: slot.out[i].kind == Probe)
  }

  lemma {:induction false} ProbeSlots(s: State, k: nat, at: nat)
    requires k < |s.slots| && at < |s.slots|
    ensures var (t, slot) := (EndProbe(s, k), s.slots[k]);
            && |t.slots| == |s.slots| && t.slots[at].accepted == s.slots[at].accepted
            && (at != k ==> t.slots[at] == s.slots[at])
            && t.slots[k].out ==
                 if slot.probe.None? then slot.out
                 else match IndexOf(slot.out, slot.probe.value.id)
                   case None => slot.out
                   case Some(i) =>
                     if slot.out[i].attempting then slot.out[i := slot.out[i].(canceled := true)] else slot.out[..i] + slot.out[i + 1..]
  {}

  lemma {:induction false} CompleteProbeFated(s: State, op: Op, k: nat)
    requires op.CompleteProbe? && k < |s.slots| && Distinct(s.slots[k])
    ensures Fated(s, op, Step(s, op), k)
  {
    hide Promoted, Fated, EndProbe;
    var (t, out, probe) := (Step(s, op), s.slots[k].out, s.slots[k].probe);
    Alike(out);
    if op.k < |s.slots| {
      ProbeSlots(s, op.k, k);
    }
    if op.k == k && probe.Some? && IndexOf(out, probe.value.id).Some? {
      var i := IndexOf(out, probe.value.id).value;
      assert forall j | 0 <= j < |out| && j != i :: out[j].id != probe.value.id by { OnlyOne(s.slots[k], i); }
      assert s.slots[k].accepted + [] == s.slots[k].accepted;
      if out[i].attempting {
        Alike(out[i := out[i].(canceled := true)]);
        NobodyLeft(s, op, t, k, out[i := out[i].(canceled := true)]);
      } else {
        Alike(out[..i] + out[i + 1..]);
        OneLeft(s, op, t, k, out, i);
      }
    } else {
      NobodyLeft(s, op, t, k, out);
    }
  }

  lemma {:induction false} OnlyOne(slot: Slot, i: nat)
    requires Distinct(slot) && i < |slot.out|
    ensures forall j | 0 <= j < |slot.out| && j != i :: slot.out[j].id != slot.out[i].id
  {}

  /** What a slot that fails or closes keeps. */
  function Dropping(out: seq<Item>, probe: Option<Pending>): seq<Item> {
    if out == [] then [] else Piece(DroppedFate(out[0], probe)) + Dropping(out[1..], probe)
  }

  lemma {:induction false} DroppingAppend(a: seq<Item>, b: seq<Item>, probe: Option<Pending>)
    ensures Dropping(a + b, probe) == Dropping(a, probe) + Dropping(b, probe)
  {
    hide DroppedFate;
    if a == [] {
      assert a + b == b;
    } else {
      assert (a + b)[1..] == a[1..] + b;
      DroppingAppend(a[1..], b, probe);
    }
  }

  lemma {:induction false} PromotedJoin(a: seq<Item>, b: seq<Item>, c: seq<Item>, d: seq<Item>)
    requires Promoted(a, b) && Promoted(c, d)
    ensures Promoted(a + c, b + d)
  {}

  lemma {:induction false} PromotedSplit(a: seq<Item>, b: seq<Item>, c: seq<Item>)
    requires Promoted(a + b, c)
    ensures |a| <= |c| && Promoted(a, c[..|a|]) && Promoted(b, c[|a|..])
  {
    assert |c| == |a| + |b|;
    forall i | 0 <= i < |a| ensures (a + b)[i] == a[i] && c[..|a|][i] == c[i] {}
    forall i | 0 <= i < |b| ensures (a + b)[|a| + i] == b[i] && c[|a|..][i] == c[|a| + i] {}
  }

  /** A promoted request fares as the waiting one would have. */
  lemma {:induction false} DroppingAlike(a: seq<Item>, b: seq<Item>, probe: Option<Pending>)
    requires Promoted(a, b)
    ensures Promoted(Dropping(a, probe), Dropping(b, probe))
  {
    if a != [] {
      assert Promoted(a[1..], b[1..]);
      DroppingAlike(a[1..], b[1..], probe);
      PromotedJoin(Piece(DroppedFate(a[0], probe)), Piece(DroppedFate(b[0], probe)), Dropping(a[1..], probe), Dropping(b[1..], probe));
    }
  }

  lemma {:induction false} StayingDropped(s: State, op: Op, k: nat, n: nat)
    requires k < |s.slots| && n <= |s.slots[k].out|
    requires forall j | 0 <= j < |s.slots[k].out| :: FateOf(s, op, k, j) == DroppedFate(s.slots[k].out[j], s.slots[k].probe)
    ensures Staying(s, op, k, n) == Dropping(s.slots[k].out[..n], s.slots[k].probe)
  {
    hide DroppedFate, FateOf;
    var (out, probe) := (s.slots[k].out, s.slots[k].probe);
    if n > 0 {
      StayingDropped(s, op, k, n - 1);
      assert out[..n] == out[..n - 1] + [out[n - 1]];
      DroppingAppend(out[..n - 1], [out[n - 1]], probe);
      assert [out[n - 1]][1..] == [];
      assert Dropping([out[n - 1]], probe) == Piece(DroppedFate(out[n - 1], probe)) + Dropping([], probe);
    }
  }

  /** Slot k becomes `out`, perhaps promoted; of the others at most waiting requests are. */
  predicate Becomes(s: State, t: State, k: nat, out: seq<Item>) {
    && |t.slots| == |s.slots| && (t.ready == s.ready)
    && (forall j | 0 <= j < |s.slots| :: t.slots[j].accepted == s.slots[j].accepted && (j != k ==> t.slots[j].probe == s.slots[j].probe))
    && (forall j | 0 <= j < |s.slots| :: Promoted(if j == k then out else s.slots[j].out, t.slots[j].out))
  }

  lemma {:induction false} BecomesThen(s: State, t: State, u: State, k: nat, a: seq<Item>, b: seq<Item>, c: seq<Item>)
    requires k < |s.slots| && Becomes(s, t, k, a) && Becomes(t, u, k, c) && Promoted(b, c)
    ensures Becomes(s, u, k, b)
  {
    forall j | 0 <= j < |s.slots| ensures Promoted(if j == k then b else s.slots[j].out, u.slots[j].out) {
      PromotedTwice(if j == k then b else s.slots[j].out, if j == k then c else t.slots[j].out, u.slots[j].out);
    }
  }

  lemma {:induction false} RetireBecomes(s: State, k: nat, i: nat)
    requires At(s, k, i)
    ensures Becomes(s, Retire(s, k, i), k, s.slots[k].out[..i] + s.slots[k].out[i + 1..])
  {
    hide Retire, Promoted;
    RetireShapes(s, k, i);
    forall j | 0 <= j < |s.slots|
      ensures Promoted(if j == k then s.slots[k].out[..i] + s.slots[k].out[i + 1..] else s.slots[j].out, Retire(s, k, i).slots[j].out)
      ensures Retire(s, k, i).slots[j].accepted == s.slots[j].accepted
    {
      RetireSlots(s, k, i, j);
    }
  }

  lemma {:induction false} RetireShapes(s: State, k: nat, i: nat)
    requires At(s, k, i)
    ensures var t := Retire(s, k, i);
            |t.slots| == |s.slots| && t.ready == s.ready && forall j | 0 <= j < |s.slots| :: t.slots[j].probe == s.slots[j].probe
  {
    hide Promote, PromotionDone;
    var u := ReleaseCharge(Remove(s, k, i), k, s.slots[k].out[i]);
    PromoteEffect(u);
    forall j | 0 <= j < |s.slots| ensures Promote(u).slots[j].probe == s.slots[j].probe {
      assert SameSlotShape(u.slots[j], Promote(u).slots[j]);
    }
  }

  lemma {:induction false} EditBecomes(s: State, t: State, k: nat, out: seq<Item>)
    requires k < |s.slots| == |t.slots| && t.ready == s.ready && t.slots == s.slots[k := t.slots[k]]
    requires t.slots[k].accepted == s.slots[k].accepted && t.slots[k].out == out
    ensures Becomes(s, t, k, out)
  {
    hide Promoted;
    forall j | 0 <= j < |s.slots| ensures Promoted(if j == k then out else s.slots[j].out, t.slots[j].out) {
      Alike(t.slots[j].out);
    }
  }

  /** One item of cancelSlotOutboundLocked. */
  function Swept(item: Item): seq<Item> {
    Piece(DroppedFate(item, None))
  }

  lemma {:induction false} SweepOne(s: State, k: nat, i: nat)
    requires At(s, k, i) && s.slots[k].out[i].kind == Request
    ensures Becomes(s, Cancel(s, k, i), k, s.slots[k].out[..i] + Swept(s.slots[k].out[i]) + s.slots[k].out[i + 1..])
  {
    hide Becomes, Retire;
    var (out, item) := (s.slots[k].out, s.slots[k].out[i]);
    RetireBecomes(s, k, i);
    assert out[..i] + [] + out[i + 1..] == out[..i] + out[i + 1..];
    assert out == out[..i] + [item] + out[i + 1..];
    assert out[i := item.(canceled := true)] == out[..i] + [item.(canceled := true)] + out[i + 1..];
    EditBecomes(s, s, k, out);
    EditBecomes(s, SetItem(s, k, i, item.(canceled := true)), k, out[i := item.(canceled := true)]);
  }

  /** One turn of the sweep. */
  lemma {:induction false} SweepStep(s: State, k: nat, i: nat) returns (t: State, next: nat)
    requires At(s, k, i)
    ensures |t.slots| == |s.slots| && next <= |t.slots[k].out| && |t.slots[k].out| - next < |s.slots[k].out| - i
    ensures next == i + |Swept(s.slots[k].out[i])| && CancelFrom(s, k, i) == CancelFrom(t, k, next)
    ensures Becomes(s, t, k, s.slots[k].out[..i] + Swept(s.slots[k].out[i]) + s.slots[k].out[i + 1..])
  {
    hide Becomes, Cancel, DroppedFate;
    var (out, item) := (s.slots[k].out, s.slots[k].out[i]);
    if item.kind == Request {
      CancelLength(s, k, i);
      SweepOne(s, k, i);
      t := Cancel(s, k, i);
      SweptRequest(s, t, k, i);
      next := if |t.slots[k].out| < |out| then i else i + 1;
    } else {
      SweptControl(item);
      if item.attempting || item.kind == Probe {
        t, next := SetItem(s, k, i, item.(canceled := true)), i + 1;
        assert out[i := item.(canceled := true)] == out[..i] + [item.(canceled := true)] + out[i + 1..];
      } else {
        t, next := RetireControl(s, k, i), i;
        assert out[..i] + [] + out[i + 1..] == out[..i] + out[i + 1..];
      }
      EditBecomes(s, t, k, out[..i] + Swept(item) + out[i + 1..]);
    }
  }

  /** What the sweep does from position i on. */
  lemma {:induction false} SweepFrom(s: State, k: nat, i: nat)
    requires k < |s.slots| && i <= |s.slots[k].out|
    ensures Becomes(s, CancelFrom(s, k, i), k, s.slots[k].out[..i] + Dropping(s.slots[k].out[i..], None))
    decreases |s.slots[k].out| - i
  {
    var out := s.slots[k].out;
    if i == |out| {
      hide Becomes;
      assert out[..i] + Dropping(out[i..], None) == out;
      EditBecomes(s, s, k, out);
    } else {
      hide Becomes, CancelFrom, Dropping, Swept;
      var t, next := SweepStep(s, k, i);
      SweepFrom(t, k, next);
      SweepNext(s, t, k, i, next);
    }
  }

  lemma {:induction false} SweptControl(item: Item)
    requires item.kind != Request
    ensures Swept(item) == if item.attempting || item.kind == Probe then [item.(canceled := true)] else []
  {}

  lemma {:induction false} SweptRequest(s: State, t: State, k: nat, i: nat)
    requires At(s, k, i) && k < |t.slots|
    requires Becomes(s, t, k, s.slots[k].out[..i] + Swept(s.slots[k].out[i]) + s.slots[k].out[i + 1..])
    ensures |t.slots[k].out| == |s.slots[k].out| - 1 + |Swept(s.slots[k].out[i])|
    ensures |Swept(s.slots[k].out[i])| <= 1
  {}

  lemma {:induction false} SweepNext(s: State, t: State, k: nat, i: nat, next: nat)
    requires At(s, k, i)
    requires Becomes(s, t, k, s.slots[k].out[..i] + Swept(s.slots[k].out[i]) + s.slots[k].out[i + 1..])
    requires k < |t.slots| && next == i + |Swept(s.slots[k].out[i])| && next <= |t.slots[k].out|
    requires Becomes(t, CancelFrom(t, k, next), k, t.slots[k].out[..next] + Dropping(t.slots[k].out[next..], None))
    ensures Becomes(s, CancelFrom(t, k, next), k, s.slots[k].out[..i] + Dropping(s.slots[k].out[i..], None))
  {
    hide Becomes, Promoted, CancelFrom, DroppedFate, Swept, Dropping;
    var (out, now) := (s.slots[k].out, t.slots[k].out);
    var (front, rest) := (out[..i] + Swept(out[i]), out[i + 1..]);
    BecomesSlot(s, t, k, front + rest);
    PromotedSplit(front, rest, now);
    assert |front| == next;
    DroppingAlike(rest, now[next..], None);
    PromotedJoin(front, now[..next], Dropping(rest, None), Dropping(now[next..], None));
    assert out[i..][1..] == rest;
    assert Dropping(out[i..], None) == Swept(out[i]) + Dropping(rest, None) by { DroppingFirst(out[i..]); }
    assert out[..i] + Dropping(out[i..], None) == front + Dropping(rest, None);
    BecomesThen(s, t, CancelFrom(t, k, next), k, front + rest, front + Dropping(rest, None), now[..next] + Dropping(now[next..], None));
  }

  lemma {:induction false} BecomesSlot(s: State, t: State, k: nat, out: seq<Item>)
    requires k < |s.slots| && Becomes(s, t, k, out)
    ensures k < |t.slots| && Promoted(out, t.slots[k].out)
  {}

  lemma {:induction false} DroppingFirst(out: seq<Item>)
    requires out != []
    ensures Dropping(out, None) == Swept(out[0]) + Dropping(out[1..], None)
  {}

  // ---------------------------------------------------------------- a slot that fails or closes

  /** The pending probe aside, ending it first changes nothing. */
  lemma {:induction false} DroppingOthers(out: seq<Item>, probe: Option<Pending>)
    requires probe.Some? && forall i | 0 <= i < |out| :: out[i].id != probe.value.id
    ensures Dropping(out, None) == Dropping(out, probe)
  {
    if out != [] {
      DroppingOthers(out[1..], probe);
    }
  }

  lemma {:induction false} DroppingOne(x: Item, probe: Option<Pending>)
    ensures Dropping([x], probe) == Piece(DroppedFate(x, probe))
  {
    assert [x][1..] == [];
    assert Dropping([], probe) == [];
  }

  lemma {:induction false} PendingProbe(slot: Slot, i: nat)
    requires Distinct(slot) && i < |slot.out| && slot.probe.Some? && slot.out[i].id == slot.probe.value.id
    ensures slot.out[i].kind == Probe
  {}

  lemma {:induction false} ProbeDropped(x: Item, probe: Option<Pending>)
    requires x.kind == Probe && probe.Some? && probe.value.id == x.id
    ensures Piece(DroppedFate(x, probe)) == if x.attempting then [x.(canceled := true)] else []
    ensures Piece(DroppedFate(x.(canceled := true), None)) == [x.(canceled := true)]
  {}

  lemma {:induction false} DropsProbe(slot: Slot, after: seq<Item>)
    requires Distinct(slot)
    requires after == if slot.probe.None? then slot.out
                      else match IndexOf(slot.out, slot.probe.value.id)
                        case None => slot.out
                        case Some(i) =>
                          if slot.out[i].attempting then slot.out[i := slot.out[i].(canceled := true)] else slot.out[..i] + slot.out[i + 1..]
    ensures Dropping(after, None) == Dropping(slot.out, slot.probe)
  {
    hide Dropping, DroppedFate, Distinct;
    var (out, probe) := (slot.out, slot.probe);
    if probe.Some? {
      match IndexOf(out, probe.value.id)
      case None => DroppingOthers(out, probe);
      case Some(i) =>
        OnlyOne(slot, i);
        var (a, x, b) := (out[..i], out[i], out[i + 1..]);
        assert x.kind == Probe by { PendingProbe(slot, i); }
        ProbeDropped(x, probe);
        assert out == a + [x] + b;
        DroppingAppend(a + [x], b, probe);
        DroppingAppend(a, [x], probe);
        DroppingOthers(a, probe);
        DroppingOthers(b, probe);
        DroppingOne(x, probe);
        if x.attempting {
          var y := x.(canceled := true);
          assert after == a + [y] + b;
          DroppingAppend(a + [y], b, None);
          DroppingAppend(a, [y], None);
          DroppingOne(y, None);
        } else {
          DroppingAppend(a, b, None);
          assert a + [] + b == a + b;
        }
    }
  }

  /** Ending the probe of slot k and sweeping its FIFO. */
  lemma {:induction false} DropSlot(s: State, k: nat)
    requires k < |s.slots| && Distinct(s.slots[k])
    ensures Becomes(s, CancelFrom(EndProbe(s, k), k, 0), k, Dropping(s.slots[k].out, s.slots[k].probe))
  {
    hide Becomes, EndProbe, CancelFrom, Dropping;
    var t := EndProbe(s, k);
    ProbeSlots(s, k, k);
    DropsProbe(s.slots[k], t.slots[k].out);
    SweepFrom(t, k, 0);
    var out := t.slots[k].out;
    assert out[..0] + Dropping(out[0..], None) == Dropping(out, None);
    ProbeBecomes(s, k);
    Alike(Dropping(out, None));
    BecomesThen(s, t, CancelFrom(t, k, 0), k, out, Dropping(out, None), Dropping(out, None));
  }

  lemma {:induction false} ProbeBecomes(s: State, k: nat)
    requires k < |s.slots|
    ensures var t := EndProbe(s, k); k < |t.slots| && Becomes(s, t, k, t.slots[k].out)
  {
    hide EndProbe, Promoted;
    var t := EndProbe(s, k);
    ProbeSlots(s, k, k);
    ProbeReady(s, k);
    forall j | 0 <= j < |s.slots|
      ensures t.slots[j].accepted == s.slots[j].accepted && (j != k ==> t.slots[j] == s.slots[j])
      ensures Promoted(if j == k then t.slots[k].out else s.slots[j].out, t.slots[j].out)
    {
      ProbeSlots(s, k, j);
      Alike(t.slots[j].out);
    }
  }

  lemma {:induction false} ProbeReady(s: State, k: nat)
    requires k < |s.slots|
    ensures EndProbe(s, k).ready == s.ready
  {}

  lemma {:induction false} FailFated(s: State, op: Op, k: nat)
    requires op.Fail? && k < |s.slots| && forall j | 0 <= j < |s.slots| :: Distinct(s.slots[j])
    ensures Fated(s, op, Step(s, op), k)
  {
    hide Promoted, Fated, EndProbe, CancelFrom, Distinct;
    var t := Step(s, op);
    var out := s.slots[k].out;
    Alike(out);
    assert s.slots[k].accepted + [] == s.slots[k].accepted;
    if op.k < |s.slots| && s.ready && !s.slots[op.k].failed {
      var u := SetSlot(s, op.k, s.slots[op.k].(failed := true));
      SameDistinct(s.slots[op.k], u.slots[op.k]);
      DropSlot(u, op.k);
      assert u.slots[k].out == out && u.slots[k].accepted == s.slots[k].accepted;
      if op.k == k {
        SlotDropped(s, op, t, k);
      } else {
        NobodyLeft(s, op, t, k, out);
      }
    } else {
      NobodyLeft(s, op, t, k, out);
    }
  }

  lemma {:induction false} SameDistinct(a: Slot, b: Slot)
    requires Distinct(a) && b.out == a.out && b.probe == a.probe
    ensures Distinct(b)
  {}

  lemma {:induction false} SlotDropped(s: State, op: Op, t: State, k: nat)
    requires k < |s.slots| && k < |t.slots| && Arrival(s, op, k).None? && Taken(s, op, k) == []
    requires forall j | 0 <= j < |s.slots[k].out| :: FateOf(s, op, k, j) == DroppedFate(s.slots[k].out[j], s.slots[k].probe)
    requires Promoted(Dropping(s.slots[k].out, s.slots[k].probe), t.slots[k].out) && t.slots[k].accepted == s.slots[k].accepted
    ensures Fated(s, op, t, k)
  {
    hide FateOf, DroppedFate, Arrival, Promoted;
    var out := s.slots[k].out;
    StayingDropped(s, op, k, |out|);
    assert out[..|out|] == out;
    var left := Dropping(out, s.slots[k].probe);
    assert left + [] == left && s.slots[k].accepted + [] == s.slots[k].accepted;
  }

  /** The slots from k on are dropped, the others at most promoted. */
  lemma {:induction false} CloseFated(s: State, k: nat, at: nat)
    requires at < |s.slots| && forall j | k <= j < |s.slots| :: Distinct(s.slots[j])
    ensures var t := CloseFrom(s, k);
            && at < |t.slots| && t.slots[at].accepted == s.slots[at].accepted
            && Promoted(if k <= at then Dropping(s.slots[at].out, s.slots[at].probe) else s.slots[at].out, t.slots[at].out)
    decreases if k <= |s.slots| then |s.slots| - k else 0
  {
    hide Promoted, EndProbe, CancelFrom, Distinct, Dropping;
    if k < |s.slots| {
      DropSlot(s, k);
      var t := CancelFrom(EndProbe(s, k), k, 0);
      forall j | k + 1 <= j < |t.slots| ensures Distinct(t.slots[j]) {
        PromotedDistinct(s.slots[j], t.slots[j]);
      }
      CloseFated(t, k + 1, at);
      var u := CloseFrom(t, k + 1);
      if k < at {
        DroppingAlike(s.slots[at].out, t.slots[at].out, s.slots[at].probe);
        PromotedTwice(Dropping(s.slots[at].out, s.slots[at].probe), Dropping(t.slots[at].out, s.slots[at].probe), u.slots[at].out);
      } else {
        PromotedTwice(if k == at then Dropping(s.slots[at].out, s.slots[at].probe) else s.slots[at].out, t.slots[at].out, u.slots[at].out);
      }
    } else {
      Alike(s.slots[at].out);
    }
  }

  lemma {:induction false} PromotedDistinct(a: Slot, b: Slot)
    requires Distinct(a) && Promoted(a.out, b.out) && b.probe == a.probe
    ensures Distinct(b)
  {}

  // ---------------------------------------------------------------- every step

  lemma {:induction false} GoodSlots(s: State, k: nat)
    requires Good(s) && k < |s.slots|
    ensures Distinct(s.slots[k]) && HeadOnly(s.slots[k].out)
    ensures forall i | 0 <= i < |s.slots[k].out| :: s.slots[k].out[i].id < s.nextID
    ensures forall i, j | 0 <= i < |s.slots[k].accepted| && 0 <= j < |s.slots[k].out| :: s.slots[k].accepted[i].id < s.slots[k].out[j].id
  {
    SlotAt(s, k);
  }

  lemma {:induction false} CloseAllFated(s: State, op: Op, k: nat)
    requires op.CloseManager? && k < |s.slots| && forall j | 0 <= j < |s.slots| :: Distinct(s.slots[j])
    ensures Fated(s, op, Step(s, op), k)
  {
    hide Promoted, Fated, CloseFrom, Distinct, DroppedFate;
    var t := Step(s, op);
    Alike(s.slots[k].out);
    if s.ready {
      CloseFated(s.(ready := false), 0, k);
      SlotDropped(s, op, t, k);
    } else {
      NobodyLeft(s, op, t, k, s.slots[k].out);
    }
  }

  /**
   * In every step of every manager each slot's FIFO becomes exactly what the fates of its items say: those that stay,
   * in their order, a new item behind them, waiting requests perhaps promoted; and the link has accepted exactly the
   * head it was asked about.
   */
  lemma {:induction false} StepFated(s: State, op: Op, k: nat)
    requires Good(s) && k < |s.slots|
    ensures Fated(s, op, Step(s, op), k)
  {
    hide Fated, Step, Good, Distinct, HeadOnly;
    forall j | 0 <= j < |s.slots| ensures Distinct(s.slots[j]) && HeadOnly(s.slots[j].out) {
      GoodSlots(s, j);
    }
    match op
    case PrepareRequest(_, _, _, _) => PrepareFated(s, op, k);
    case ClaimReservation(_, _) => RequestsFated(s, op, k);
    case FinishMaterialize(_, _, _) => RequestsFated(s, op, k);
    case CancelRequest(_, _) => RequestsFated(s, op, k);
    case CloseConnection(_, _) => ControlFated(s, op, k);
    case CancelClose(_, _) => CancelCloseFated(s, op, k);
    case BeginProbe(_) => ControlFated(s, op, k);
    case CompleteProbe(_) => CompleteProbeFated(s, op, k);
    case Begin(_, _) => BeginFated(s, op, k);
    case Finish(_, _) => FinishFated(s, op, k);
    case Fail(_) => FailFated(s, op, k);
    case Repair(_) => ControlFated(s, op, k);
    case CloseManager => CloseAllFated(s, op, k);
  }

  /** Everything but how far the request has got: what the item is. */
  predicate SameItem(a: Item, b: Item) {
    b == a.(phase := b.phase, attempting := b.attempting, canceled := b.canceled)
  }

  /** An item of slot k with that identifier. */
  predicate Queued(s: State, k: nat, id: nat) {
    k < |s.slots| && exists i :: 0 <= i < |s.slots[k].out| && s.slots[k].out[i].id == id
  }

  predicate Sent(s: State, k: nat, id: nat) {
    k < |s.slots| && exists i :: 0 <= i < |s.slots[k].accepted| && s.slots[k].accepted[i].id == id
  }

  lemma {:induction false} FateKeepsItem(s: State, op: Op, k: nat, i: nat)
    requires At(s, k, i) && FateOf(s, op, k, i).Stays?
    ensures SameItem(s.slots[k].out[i], FateOf(s, op, k, i).item)
  {}

  /** Whatever stays is one of the items, and each item that stays is there. */
  lemma {:induction false} StayingItems(s: State, op: Op, k: nat, n: nat)
    requires k < |s.slots| && n <= |s.slots[k].out|
    ensures forall x <- Staying(s, op, k, n) :: exists i :: 0 <= i < n && FateOf(s, op, k, i) == Stays(x)
    ensures forall i | 0 <= i < n && FateOf(s, op, k, i).Stays? :: FateOf(s, op, k, i).item in Staying(s, op, k, n)
  {
    hide FateOf;
    if n > 0 {
      StayingItems(s, op, k, n - 1);
      var before := Staying(s, op, k, n - 1);
      forall x <- Staying(s, op, k, n) ensures exists i :: 0 <= i < n && FateOf(s, op, k, i) == Stays(x) {
        if x in before {
          var i :| 0 <= i < n - 1 && FateOf(s, op, k, i) == Stays(x);
        } else {
          assert FateOf(s, op, k, n - 1) == Stays(x);
        }
      }
    }
  }

  /** An item is still queued after a step exactly when its fate is to stay, and then as its fate says, or promoted. */
  lemma {:induction false} StaysExactly(s: State, op: Op, k: nat, i: nat)
    requires Good(s) && At(s, k, i)
    ensures var (fate, t, id) := (FateOf(s, op, k, i), Step(s, op), s.slots[k].out[i].id);
            && (fate.Stays? <==> Queued(t, k, id))
            && (fate.Stays? ==> exists j: nat :: At(t, k, j) && t.slots[k].out[j].id == id && Promoted([fate.item], [t.slots[k].out[j]]))
  {
    hide FateOf, Good, Arrival, Step;
    var (fate, t, out) := (FateOf(s, op, k, i), Step(s, op), s.slots[k].out);
    StepFated(s, op, k);
    GoodSlots(s, k);
    var e := Expected(s, op, k);
    StayingItems(s, op, k, |out|);
    if fate.Stays? {
      FateKeepsItem(s, op, k, i);
      assert fate.item in e;
      var j :| 0 <= j < |e| && e[j] == fate.item;
      assert At(t, k, j) && Promoted([fate.item], [t.slots[k].out[j]]);
    } else {
      LeaverGone(s, op, k, i);
      ArrivalIsNew(s, op, k);
      assert forall x <- e :: x.id != out[i].id;
      assert forall j | 0 <= j < |e| :: t.slots[k].out[j].id == e[j].id && e[j] in e;
    }
  }

  lemma {:induction false} LeaverGone(s: State, op: Op, k: nat, i: nat)
    requires At(s, k, i) && Distinct(s.slots[k]) && FateOf(s, op, k, i).Leaves?
    ensures forall x <- Staying(s, op, k, |s.slots[k].out|) :: x.id != s.slots[k].out[i].id
  {
    hide FateOf;
    var out := s.slots[k].out;
    StayingItems(s, op, k, |out|);
    OnlyOne(s.slots[k], i);
    forall x <- Staying(s, op, k, |out|) ensures x.id != out[i].id {
      var m: nat :| m < |out| && FateOf(s, op, k, m) == Stays(x);
      FateKeepsItem(s, op, k, m);
    }
  }

  lemma {:induction false} ArrivalIsNew(s: State, op: Op, k: nat)
    requires k < |s.slots|
    ensures match Arrival(s, op, k) case None => true case Some(x) => x.id == s.nextID
  {}

  // ---------------------------------------------------------------- every run

  function Find(s: State, k: nat, id: nat): Option<nat> {
    if k < |s.slots| then IndexOf(s.slots[k].out, id) else None
  }

  /** Why an item left its FIFO during a run, if it did. */
  function Departure(s: State, ops: seq<Op>, k: nat, id: nat): Option<Reason>
    decreases |ops|
  {
    if ops == [] then None
    else match Find(s, k, id)
      case None => None
      case Some(i) =>
        match FateOf(s, ops[0], k, i)
        case Leaves(why) => Some(why)
        case Stays(_) => Departure(Step(s, ops[0]), ops[1..], k, id)
  }

  /** An identifier that was given out and is not queued is never queued again, nor accepted. */
  lemma {:induction false} GoneStays(s: State, ops: seq<Op>, k: nat, id: nat)
    requires Good(s) && k < |s.slots| && id < s.nextID && !Queued(s, k, id)
    ensures !Queued(Run(s, ops), k, id) && (Sent(Run(s, ops), k, id) <==> Sent(s, k, id))
    decreases |ops|
  {
    hide Good, Step;
    if ops != [] {
      var t := Step(s, ops[0]);
      StepKeepsGone(s, ops[0], k, id);
      StepGood(s, ops[0]);
      GoneStays(t, ops[1..], k, id);
    }
  }

  lemma {:induction false} StepKeepsGone(s: State, op: Op, k: nat, id: nat)
    requires Good(s) && k < |s.slots| && id < s.nextID && !Queued(s, k, id)
    ensures var t := Step(s, op);
            k < |t.slots| && id < t.nextID && !Queued(t, k, id) && (Sent(t, k, id) <==> Sent(s, k, id))
  {
    hide FateOf, Good, Arrival, Step;
    var (t, out) := (Step(s, op), s.slots[k].out);
    StepFated(s, op, k);
    NextGrows(s, op);
    ArrivalIsNew(s, op, k);
    StayingItems(s, op, k, |out|);
    var e := Expected(s, op, k);
    forall x <- Staying(s, op, k, |out|) ensures x.id != id {
      var m: nat :| m < |out| && FateOf(s, op, k, m) == Stays(x);
      FateKeepsItem(s, op, k, m);
    }
    assert forall x <- e :: x.id != id;
    assert forall j | 0 <= j < |e| :: t.slots[k].out[j].id == e[j].id && e[j] in e;
    SentMore(s, t, op, k, id);
  }

  lemma {:induction false} SentMore(s: State, t: State, op: Op, k: nat, id: nat)
    requires k < |s.slots| && Fated(s, op, t, k)
    ensures Sent(t, k, id) <==> Sent(s, k, id) || (Taken(s, op, k) != [] && s.slots[k].out[0].id == id)
  {
    hide Expected, Promoted;
    var (a, b) := (s.slots[k].accepted, t.slots[k].accepted);
    assert forall i | 0 <= i < |a| :: b[i] == a[i];
    assert Taken(s, op, k) != [] ==> b[|a|] == s.slots[k].out[0];
  }

  lemma {:induction false} NextGrows(s: State, op: Op)
    requires Good(s)
    ensures s.nextID <= Step(s, op).nextID
  {
    hide Good, Step;
    StepFrame(s, op);
  }

  lemma {:induction false} Found(s: State, k: nat, i: nat)
    requires Good(s) && At(s, k, i)
    ensures Find(s, k, s.slots[k].out[i].id) == Some(i)
  {
    GoodSlots(s, k);
    OnlyOne(s.slots[k], i);
  }

  lemma {:induction false} AccountedFrom(s: State, ops: seq<Op>, k: nat, i: nat)
    requires Good(s) && At(s, k, i)
    ensures var (t, id) := (Run(s, ops), s.slots[k].out[i].id);
            var left := Departure(s, ops, k, id);
            (left.None? <==> Queued(t, k, id)) && (left == Some(WasAccepted) <==> Sent(t, k, id))
    decreases |ops|
  {
    hide Good, Step, FateOf;
    var id := s.slots[k].out[i].id;
    Found(s, k, i);
    GoodSlots(s, k);
    if ops != [] {
      var (op, t) := (ops[0], Step(s, ops[0]));
      StaysExactly(s, op, k, i);
      StepFated(s, op, k);
      StepGood(s, op);
      SentMore(s, t, op, k, id);
      AcceptedFate(s, op, k, i);
      if FateOf(s, op, k, i).Stays? {
        var j: nat :| At(t, k, j) && t.slots[k].out[j].id == id;
        AccountedFrom(t, ops[1..], k, j);
      } else {
        NextGrows(s, op);
        GoneStays(t, ops[1..], k, id);
      }
    }
  }

  lemma {:induction false} AcceptedFate(s: State, op: Op, k: nat, i: nat)
    requires At(s, k, i) && Distinct(s.slots[k])
    ensures FateOf(s, op, k, i) == Leaves(WasAccepted) <==> Taken(s, op, k) != [] && s.slots[k].out[0].id == s.slots[k].out[i].id
  {}

  /**
   * On every run of a new manager, an item queued after `before` is still queued or has left for one reason: the link accepted it, the
   * link refused it, it was cancelled or its slot or the manager went down, or it could not be marshalled. What the
   * link accepted is exactly what left for the first reason.
   */
  lemma {:induction false} EveryItemAccounted(l: Limits, slots: nat, before: seq<Op>, ops: seq<Op>, k: nat, i: nat)
    requires ValidLimits(l, slots) && At(Run(Start(l, slots), before), k, i)
    ensures var s := Run(Start(l, slots), before);
            var (t, id) := (Run(s, ops), s.slots[k].out[i].id);
            var left := Departure(s, ops, k, id);
            (left.None? <==> Queued(t, k, id)) && (left == Some(WasAccepted) <==> Sent(t, k, id))
  {
    hide Good, Run, Departure;
    StartGood(l, slots);
    RunGood(Start(l, slots), before);
    AccountedFrom(Run(Start(l, slots), before), ops, k, i);
  }

  /**
   * A request that marshalled while its manager was ready and nobody cancelled it keeps its place, its charge and all
   * else, and can be submitted once it is the head; one that did not marshal is gone.
   */
  lemma {:induction false} MarshalledStays(s: State, k: nat, i: nat, ok: bool)
    requires Good(s) && RequestIn(s, k, i, Materializing) && s.ready && !s.slots[k].out[i].canceled
    ensures var (t, item) := (Step(s, FinishMaterialize(k, i, ok)), s.slots[k].out[i]);
            if ok then
              && t.slots == s.slots[k := s.slots[k].(out := s.slots[k].out[i := item.(phase := Materialized)], wake := s.slots[k].wake || i == 0)]
              && t == s.(slots := t.slots) && Dispatchable(t.slots[k].out[i])
            else !Queued(t, k, item.id) && !Sent(t, k, item.id)
  {
    hide Good, Retire;
    var op := FinishMaterialize(k, i, ok);
    GoodSlots(s, k);
    if ok {
      GoodStaged(s, k, i);
    } else {
      StaysExactly(s, op, k, i);
      StepFated(s, op, k);
      SentMore(s, Step(s, op), op, k, s.slots[k].out[i].id);
    }
  }

  lemma {:induction false} GoodStaged(s: State, k: nat, i: nat)
    requires Good(s) && RequestIn(s, k, i, Materializing)
    ensures !s.slots[k].out[i].attempting
  {
    SlotAt(s, k);
  }

  /** Backpressure leaves an item that was not cancelled where it is, ready to be submitted again. */
  lemma {:induction false} BackpressureStays(s: State, k: nat)
    requires Good(s) && At(s, k, 0) && s.ready && s.slots[k].out[0].attempting && !s.slots[k].out[0].canceled
    ensures var (t, slot) := (Step(s, Finish(k, Backpressure)), s.slots[k]);
            && t.slots == s.slots[k := slot.(out := slot.out[0 := BackInQueue(slot.out[0])], blocked := true)] && t == s.(slots := t.slots)
            && Dispatchable(t.slots[k].out[0])
  {}
}
