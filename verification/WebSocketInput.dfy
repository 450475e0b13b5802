/**
 * One WebSocket connection's inbound budget shared by several owned inputs, each of which reserves,
 * resizes and releases in two locked parts: the connection's own budget, then the session's.
 *
 * The session's answers are parameters of the steps. `panicked` records an accounting panic.
 */
module WebSocketInput {
  import opened Bytes
  import opened Sums

  datatype Budget = Budget(bytes: int, items: int, maxBytes: nat, maxItems: nat)

  /** webSocketInboundBudget.reserve. */
  function Reserved(b: Budget, size: nat): (Budget, bool) {
    if b.items >= b.maxItems || size > b.maxBytes - b.bytes then (b, false)
    else (b.(bytes := b.bytes + size, items := b.items + 1), true)
  }

  /** webSocketInboundBudget.resize. */
  function Resized(b: Budget, previous: nat, next: nat): (Budget, bool) {
    if b.items == 0 || previous > b.bytes || (next > previous && next - previous > b.maxBytes - b.bytes) then (b, false)
    else (b.(bytes := b.bytes + next - previous), true)
  }

  /** webSocketInboundBudget.release; None is its panic. */
  function Released(b: Budget, size: nat): Option<Budget> {
    if b.items == 0 || size > b.bytes then None else Some(b.(bytes := b.bytes - size, items := b.items - 1))
  }

  class InboundBudget {
    var bytes: int
    var items: int
    const maxBytes: nat
    const maxItems: nat
    var panicked: bool

    function View(): Budget
      reads this
    {
      Budget(bytes, items, maxBytes, maxItems)
    }

    constructor (maxBytes: nat, maxItems: nat)
      ensures View() == Budget(0, 0, maxBytes, maxItems) && !panicked
    {
      this.maxBytes, this.maxItems, bytes, items, panicked := maxBytes, maxItems, 0, 0, false;
    }

    method Reserve(size: nat) returns (ok: bool)
      modifies this
      ensures (View(), ok) == Reserved(old(View()), size) && panicked == old(panicked)
    {
      if items >= maxItems || size > maxBytes - bytes {
        return false;
      }
      bytes, items := bytes + size, items + 1;
      return true;
    }

    method Resize(previous: nat, next: nat) returns (ok: bool)
      modifies this
      ensures (View(), ok) == Resized(old(View()), previous, next) && panicked == old(panicked)
    {
      if items == 0 || previous > bytes {
        return false;
      }
      var delta := next - previous;
      if delta > 0 && delta > maxBytes - bytes {
        return false;
      }
      bytes := bytes + delta;
      return true;
    }

    method Release(size: nat)
      modifies this
      ensures match Released(old(View()), size)
              case None => panicked && View() == old(View())
              case Some(b) => View() == b && panicked == old(panicked)
    {
      if items == 0 || size > bytes {
        panicked := true;
        return;
      }
      bytes, items := bytes - size, items - 1;
    }
  }

  // ---------------------------------------------------------------- interleaved inputs

  /** An owned input: at rest, waiting for the session's answer to its creation or to a resize, or releasing. */
  datatype Input =
    | Opening(size: nat)
    | Owned(size: nat)
    | Resizing(previous: nat, next: nat)
    | Releasing(size: nat)

  datatype State = State(budget: Budget, inputs: map<nat, Input>, panicked: bool)

  /** What an input has charged to the local budget. */
  function Share(i: Input): nat {
    match i
    case Opening(size) => size
    case Owned(size) => size
    case Resizing(_, next) => next
    case Releasing(size) => size
  }

  function One(i: Input): nat { 1 }

  datatype Op =
    | Open(id: nat, size: nat)
    | OpenAnswered(id: nat, granted: bool)
    | Resize(id: nat, next: nat)
    | ResizeAnswered(id: nat, granted: bool)
    | Release(id: nat)
    | ReleaseLocal(id: nat)

  function Settle(s: State, id: nat, i: Input): State {
    s.(inputs := s.inputs[id := i])
  }

  /** local.release of what the input holds. */
  function Drop(s: State, id: nat, size: nat): State {
    match Released(s.budget, size)
    case None => s.(panicked := true)
    case Some(b) => s.(budget := b, inputs := s.inputs - {id})
  }

  function Step(s: State, op: Op): State {
    match op
    case Open(id, size) =>
      if id in s.inputs then s
      else
        var (b, ok) := Reserved(s.budget, size);
        if ok then Settle(s, id, Opening(size)).(budget := b) else s
    case OpenAnswered(id, granted) =>
      if id !in s.inputs || !s.inputs[id].Opening? then s
      else if granted then Settle(s, id, Owned(s.inputs[id].size))
      else Drop(s, id, s.inputs[id].size)
    case Resize(id, next) =>
      if id !in s.inputs || !s.inputs[id].Owned? || s.inputs[id].size == next then s
      else
        var (b, ok) := Resized(s.budget, s.inputs[id].size, next);
        if ok then Settle(s, id, Resizing(s.inputs[id].size, next)).(budget := b) else s
    case ResizeAnswered(id, granted) =>
      if id !in s.inputs || !s.inputs[id].Resizing? then s
      else
        var Resizing(previous, next) := s.inputs[id];
        if granted then Settle(s, id, Owned(next))
        else
          var (b, ok) := Resized(s.budget, next, previous);
          if ok then Settle(s, id, Owned(previous)).(budget := b) else s.(panicked := true)
    case Release(id) =>
      if id !in s.inputs || !s.inputs[id].Owned? then s else Settle(s, id, Releasing(s.inputs[id].size))
    case ReleaseLocal(id) =>
      if id !in s.inputs || !s.inputs[id].Releasing? then s else Drop(s, id, s.inputs[id].size)
  }

  /** The local budget holds exactly the inputs' shares, within its maxima. */
  ghost predicate Counted(s: State) {
    && s.budget.bytes == Sum(s.inputs, Share) <= s.budget.maxBytes
    && s.budget.items == Sum(s.inputs, One) <= s.budget.maxItems
  }

  lemma {:induction false} SettleCounted(s: State, id: nat, i: Input, b: Budget)
    requires Counted(s) && b == s.budget.(bytes := b.bytes, items := b.items)
    requires id in s.inputs ==> b.bytes == s.budget.bytes - Share(s.inputs[id]) + Share(i) && b.items == s.budget.items
    requires id !in s.inputs ==> b.bytes == s.budget.bytes + Share(i) && b.items == s.budget.items + 1
    requires b.bytes <= b.maxBytes && b.items <= b.maxItems
    ensures Counted(Settle(s, id, i).(budget := b))
  {
    SumSet(s.inputs, id, i, Share);
    SumSet(s.inputs, id, i, One);
  }

  /** Releasing an input's share never panics. */
  lemma {:induction false} DropCounted(s: State, id: nat)
    requires Counted(s) && id in s.inputs
    ensures Counted(Drop(s, id, Share(s.inputs[id]))) && Drop(s, id, Share(s.inputs[id])).panicked == s.panicked
  {
    SumDrop(s.inputs, id, Share);
    SumDrop(s.inputs, id, One);
  }

  lemma {:induction false} StepCounted(s: State, op: Op)
    requires Counted(s)
    ensures Counted(Step(s, op))
  {
    var b := Step(s, op).budget;
    match op
    case Open(id, size) =>
      if id !in s.inputs && Reserved(s.budget, size).1 { SettleCounted(s, id, Opening(size), b); }
    case OpenAnswered(id, granted) =>
      if id in s.inputs && s.inputs[id].Opening? {
        if granted { SettleCounted(s, id, Owned(s.inputs[id].size), b); } else { DropCounted(s, id); }
      }
    case Resize(id, next) =>
      if id in s.inputs && s.inputs[id].Owned? && s.inputs[id].size != next && Resized(s.budget, s.inputs[id].size, next).1 {
        SettleCounted(s, id, Resizing(s.inputs[id].size, next), b);
      }
    case ResizeAnswered(id, granted) =>
      if id in s.inputs && s.inputs[id].Resizing? {
        if granted {
          SettleCounted(s, id, Owned(s.inputs[id].next), b);
        } else if Resized(s.budget, s.inputs[id].next, s.inputs[id].previous).1 {
          SettleCounted(s, id, Owned(s.inputs[id].previous), b);
        }
      }
    case Release(id) =>
      if id in s.inputs && s.inputs[id].Owned? { SettleCounted(s, id, Releasing(s.inputs[id].size), b); }
    case ReleaseLocal(id) => if id in s.inputs && s.inputs[id].Releasing? { DropCounted(s, id); }
  }

  /** A refused resize panics exactly when giving the difference back no longer fits the local budget. */
  lemma {:induction false} RollbackPanicsExactly(s: State, id: nat)
    requires Counted(s) && !s.panicked && id in s.inputs && s.inputs[id].Resizing?
    ensures Step(s, ResizeAnswered(id, false)).panicked <==>
            s.inputs[id].previous - s.inputs[id].next > s.budget.maxBytes - s.budget.bytes
  {
    SumAtLeast(s.inputs, id, Share);
    SumAtLeast(s.inputs, id, One);
  }

  /** Every resize under way grows its input. */
  ghost predicate Growing(s: State) {
    forall id | id in s.inputs && s.inputs[id].Resizing? :: s.inputs[id].previous < s.inputs[id].next
  }

  predicate Grows(s: State, op: Op) {
    op.Resize? && op.id in s.inputs && s.inputs[op.id].Owned? ==> s.inputs[op.id].size <= op.next
  }

  lemma {:induction false} StepNeverPanics(s: State, op: Op)
    requires Counted(s) && Growing(s) && !s.panicked && Grows(s, op)
    ensures Growing(Step(s, op)) && !Step(s, op).panicked
  {
    if op.ResizeAnswered? && op.id in s.inputs && s.inputs[op.id].Resizing? {
      RollbackPanicsExactly(s, op.id);
    } else if op.OpenAnswered? && op.id in s.inputs && s.inputs[op.id].Opening? {
      DropCounted(s, op.id);
    } else if op.ReleaseLocal? && op.id in s.inputs && s.inputs[op.id].Releasing? {
      DropCounted(s, op.id);
    }
  }
}
