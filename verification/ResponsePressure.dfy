/** Retained responses under three nested limits, and the eviction that makes room for one more. */
module ResponsePressure {
  import opened Bytes
  import opened Sums
  import opened SeqSums

  /** The responses that are retained. */
  datatype Event = SimpleAck(key: nat) | ProxyAnswer(flags: nat, packet: bytes) | CloseExternal

  const SMALLEST_EVENT := 12

  /** LinkEvent.ByteSize: what an event is charged. */
  function Size(e: Event): nat {
    match e
    case SimpleAck(_) => 16
    case ProxyAnswer(_, packet) => 16 + |packet|
    case CloseExternal => SMALLEST_EVENT
  }

  datatype Limits = Limits(
    bindingItems: nat, bindingBytes: nat, slotItems: nat, slotBytes: nat, items: nat, bytes: nat)

  predicate ValidLimits(l: Limits) {
    && 0 < l.bindingItems <= l.slotItems <= l.items
    && SMALLEST_EVENT <= l.bindingBytes <= l.slotBytes <= l.bytes
  }

  /** What a resident binding retains: its events, oldest first, and its two counters. */
  datatype Retained = Retained(slot: nat, queue: seq<Event>, items: nat, bytes: nat, terminal: bool)

  datatype State = State(
    limits: Limits,
    bindings: map<nat, Retained>,      // by connection id
    slotItems: map<nat, int>,
    slotBytes: map<nat, int>,
    items: int,
    bytes: int)

  function ItemsIn(slot: nat): Retained -> nat {
    (r: Retained) => if r.slot == slot then r.items else 0
  }

  function BytesIn(slot: nat): Retained -> nat {
    (r: Retained) => if r.slot == slot then r.bytes else 0
  }

  function ItemsOf(r: Retained): nat { r.items }
  function BytesOf(r: Retained): nat { r.bytes }

  /** Every binding sits in a known slot, and the counters are the sums over the bindings. */
  ghost predicate Counted(s: State) {
    && s.slotItems.Keys == s.slotBytes.Keys
    && (forall id | id in s.bindings :: s.bindings[id].slot in s.slotItems)
    && (forall k | k in s.slotItems ::
          s.slotItems[k] == Sum(s.bindings, ItemsIn(k)) && s.slotBytes[k] == Sum(s.bindings, BytesIn(k)))
    && s.items == Sum(s.bindings, ItemsOf) && s.bytes == Sum(s.bindings, BytesOf)
  }

  /** A binding's counters are those of its FIFO. */
  predicate Queued(b: Retained) {
    b.items == |b.queue| && b.bytes == Total(b.queue, Size)
  }

  /** All three levels stay within their limits. */
  predicate WithinLimits(s: State) {
    && (forall id | id in s.bindings ::
          s.bindings[id].items <= s.limits.bindingItems && s.bindings[id].bytes <= s.limits.bindingBytes)
    && (forall k | k in s.slotItems && k in s.slotBytes ::
          s.slotItems[k] <= s.limits.slotItems && s.slotBytes[k] <= s.limits.slotBytes)
    && s.items <= s.limits.items && s.bytes <= s.limits.bytes
  }

  ghost predicate Good(s: State) {
    Counted(s) && WithinLimits(s) && forall id | id in s.bindings :: Queued(s.bindings[id])
  }

  function Start(l: Limits, slots: set<nat>): State {
    State(l, map[], map k | k in slots :: 0, map k | k in slots :: 0, 0, 0)
  }

  // ---------------------------------------------------------------- storing, popping, evicting

  predicate BindingRoom(s: State, id: nat, size: nat)
    requires id in s.bindings
  {
    s.bindings[id].items < s.limits.bindingItems && size <= s.limits.bindingBytes - s.bindings[id].bytes
  }

  predicate SlotRoom(s: State, slot: nat, size: nat)
    requires slot in s.slotItems && slot in s.slotBytes
  {
    s.slotItems[slot] < s.limits.slotItems && size <= s.limits.slotBytes - s.slotBytes[slot]
  }

  predicate GlobalRoom(s: State, size: nat) {
    s.items < s.limits.items && size <= s.limits.bytes - s.bytes
  }

  predicate Known(s: State, id: nat) {
    id in s.bindings && s.bindings[id].slot in s.slotItems && s.bindings[id].slot in s.slotBytes
  }

  /** A binding's FIFO is replaced, and its counters, its slot's and the manager's move together. */
  function Move(s: State, id: nat, queue: seq<Event>, items: int, bytes: int): State
    requires Known(s, id) && s.bindings[id].items + items >= 0 && s.bindings[id].bytes + bytes >= 0
  {
    var b := s.bindings[id];
    s.(bindings := s.bindings[id := b.(queue := queue, items := b.items + items, bytes := b.bytes + bytes)],
       slotItems := s.slotItems[b.slot := s.slotItems[b.slot] + items],
       slotBytes := s.slotBytes[b.slot := s.slotBytes[b.slot] + bytes],
       items := s.items + items, bytes := s.bytes + bytes)
  }

  predicate Fits(s: State, id: nat, size: nat)
    requires Known(s, id)
  {
    BindingRoom(s, id, size) && SlotRoom(s, s.bindings[id].slot, size) && GlobalRoom(s, size)
  }

  /** enqueueEventLocked. */
  function Enqueue(s: State, id: nat, e: Event): (State, bool)
    requires Known(s, id)
  {
    if Fits(s, id, Size(e)) then (Move(s, id, s.bindings[id].queue + [e], 1, Size(e)), true) else (s, false)
  }

  /** popBindingEventLocked: the oldest event goes. */
  function Pop(s: State, id: nat): State
    requires Known(s, id)
  {
    var b := s.bindings[id];
    if b.items == 0 || b.queue == [] || Size(b.queue[0]) > b.bytes then s
    else
      var size: int := Size(b.queue[0]);
      Move(s, id, b.queue[1..], -1, -size)
  }

  /** clearBindingQueueLocked, and the terminal state of an evicted binding. */
  function Evict(s: State, id: nat): State
    requires Known(s, id)
  {
    var t := Move(s, id, [], 0 - s.bindings[id].items, 0 - s.bindings[id].bytes);
    t.(bindings := t.bindings[id := t.bindings[id].(terminal := true)])
  }

  /** releaseBindingResidentLocked, on a binding that retains nothing. */
  function Release(s: State, id: nat): State {
    if id !in s.bindings || s.bindings[id].items != 0 || s.bindings[id].bytes != 0 then s
    else s.(bindings := s.bindings - {id})
  }

  function Bind(s: State, id: nat, slot: nat): State {
    if id in s.bindings || slot !in s.slotItems then s else s.(bindings := s.bindings[id := Retained(slot, [], 0, 0, false)])
  }

  // ---------------------------------------------------------------- the victim

  /** What an eviction must free, and whether only the incoming binding's slot may give it. */
  datatype Need = Need(items: nat, bytes: nat, ownSlot: bool)

  function Needed(s: State, id: nat, size: nat): Need
    requires Known(s, id)
  {
    var slot := s.bindings[id].slot;
    if !SlotRoom(s, slot, size) then
      Need(Max(0, s.slotItems[slot] + 1 - s.limits.slotItems), Max(0, s.slotBytes[slot] + size - s.limits.slotBytes), true)
    else Need(Max(0, s.items + 1 - s.limits.items), Max(0, s.bytes + size - s.limits.bytes), false)
  }

  predicate Candidate(s: State, id: nat, need: Need, c: nat)
    requires id in s.bindings
  {
    && c in s.bindings && c != id && !s.bindings[c].terminal
    && (need.ownSlot ==> s.bindings[c].slot == s.bindings[id].slot)
    && s.bindings[c].items >= need.items && s.bindings[c].bytes >= need.bytes
  }

  /** More bytes first, then more items, then the older connection. */
  predicate Heavier(s: State, a: nat, b: nat)
    requires a in s.bindings && b in s.bindings
  {
    var (x, y) := (s.bindings[a], s.bindings[b]);
    || x.bytes > y.bytes
    || (x.bytes == y.bytes && x.items > y.items)
    || (x.bytes == y.bytes && x.items == y.items && a < b)
  }

  /** The victim is the heaviest candidate, or the incoming binding itself when its own limit is hit or there is none. */
  predicate IsVictim(s: State, id: nat, size: nat, v: nat)
    requires Known(s, id)
  {
    var need := Needed(s, id, size);
    if !BindingRoom(s, id, size) then v == id
    else if v == id then forall c | c in s.bindings :: !Candidate(s, id, need, c)
    else Candidate(s, id, need, v) && forall c | c in s.bindings && Candidate(s, id, need, c) && c != v :: Heavier(s, v, c)
  }

  /** responsePressureVictimLocked: whatever order the bindings are visited in. */
  method FindVictim(s: State, id: nat, size: nat) returns (victim: nat)
    requires Known(s, id)
    ensures IsVictim(s, id, size, victim)
  {
    if !BindingRoom(s, id, size) {
      return id;
    }
    var need := Needed(s, id, size);
    var best: Option<nat> := None;
    var left := s.bindings.Keys;
    while left != {}
      invariant left <= s.bindings.Keys
      invariant best.Some? ==> Candidate(s, id, need, best.value) && best.value !in left
      invariant forall c | c in s.bindings && c !in left && Candidate(s, id, need, c) ::
                  best.Some? && (c == best.value || Heavier(s, best.value, c))
      decreases left
    {
      var c :| c in left;
      left := left - {c};
      if Candidate(s, id, need, c) {
        if best.None? || Heavier(s, c, best.value) {
          best := Some(c);
        }
      }
    }
    victim := if best.Some? then best.value else id;
  }

  lemma {:induction false} VictimIsUnique(s: State, id: nat, size: nat, v: nat, w: nat)
    requires Known(s, id) && IsVictim(s, id, size, v) && IsVictim(s, id, size, w)
    ensures v == w
  {}

  /** routeEvent under pressure: evict, and retry when somebody else made room. */
  function Route(s: State, id: nat, e: Event, victim: nat): (State, bool)
    requires Known(s, id) && Known(s, victim)
  {
    var (t, ok) := Enqueue(s, id, e);
    if ok then (t, true)
    else
      var u := Evict(s, victim);
      if victim == id then (u, false)
      else
        var (v, again) := Enqueue(u, id, e);
        if again then (v, true) else (Evict(v, id), false)
  }

  // ---------------------------------------------------------------- counting

  lemma {:induction false} SlotCounted(s: State, k: nat)
    requires Counted(s) && k in s.slotItems
    ensures k in s.slotBytes
    ensures s.slotItems[k] == Sum(s.bindings, ItemsIn(k)) && s.slotBytes[k] == Sum(s.bindings, BytesIn(k))
  {}

  lemma {:induction false} MoveSums(m: map<nat, Retained>, id: nat, b: Retained, k: nat)
    requires id in m && b.slot == m[id].slot
    ensures Sum(m[id := b], ItemsIn(k)) == Sum(m, ItemsIn(k)) + (if b.slot == k then b.items - m[id].items else 0)
    ensures Sum(m[id := b], BytesIn(k)) == Sum(m, BytesIn(k)) + (if b.slot == k then b.bytes - m[id].bytes else 0)
  {
    SumSet(m, id, b, ItemsIn(k));
    SumSet(m, id, b, BytesIn(k));
  }

  lemma {:induction false} MoveSlot(s: State, id: nat, queue: seq<Event>, items: int, bytes: int, k: nat)
    requires Counted(s) && Known(s, id) && s.bindings[id].items + items >= 0 && s.bindings[id].bytes + bytes >= 0
    requires k in s.slotItems
    ensures var t := Move(s, id, queue, items, bytes);
            k in t.slotItems && k in t.slotBytes
            && t.slotItems[k] == Sum(t.bindings, ItemsIn(k)) && t.slotBytes[k] == Sum(t.bindings, BytesIn(k))
  {
    hide Counted, Sum, ItemsIn, BytesIn;
    SlotCounted(s, k);
    MoveSums(s.bindings, id, s.bindings[id].(queue := queue, items := s.bindings[id].items + items, bytes := s.bindings[id].bytes + bytes), k);
  }

  lemma {:induction false} MoveKeys(s: State, id: nat, queue: seq<Event>, items: int, bytes: int)
    requires Known(s, id) && s.bindings[id].items + items >= 0 && s.bindings[id].bytes + bytes >= 0
    ensures var t := Move(s, id, queue, items, bytes);
            && t.slotItems.Keys == s.slotItems.Keys && t.slotBytes.Keys == s.slotBytes.Keys
            && t.bindings.Keys == s.bindings.Keys
            && (forall x | x in s.bindings :: t.bindings[x].slot == s.bindings[x].slot)
  {}

  lemma {:induction false} MoveGlobal(s: State, id: nat, queue: seq<Event>, items: int, bytes: int)
    requires Known(s, id) && s.bindings[id].items + items >= 0 && s.bindings[id].bytes + bytes >= 0
    requires s.items == Sum(s.bindings, ItemsOf) && s.bytes == Sum(s.bindings, BytesOf)
    ensures var t := Move(s, id, queue, items, bytes);
            t.items == Sum(t.bindings, ItemsOf) && t.bytes == Sum(t.bindings, BytesOf)
  {
    hide Sum;
    var t := Move(s, id, queue, items, bytes);
    SumSet(s.bindings, id, t.bindings[id], ItemsOf);
    SumSet(s.bindings, id, t.bindings[id], BytesOf);
  }

  lemma {:induction false} MoveCounted(s: State, id: nat, queue: seq<Event>, items: int, bytes: int)
    requires Counted(s) && Known(s, id) && s.bindings[id].items + items >= 0 && s.bindings[id].bytes + bytes >= 0
    ensures Counted(Move(s, id, queue, items, bytes))
  {
    hide Move, ItemsOf, BytesOf, ItemsIn, BytesIn, Sum;
    var t := Move(s, id, queue, items, bytes);
    MoveGlobal(s, id, queue, items, bytes);
    MoveKeys(s, id, queue, items, bytes);
    forall k | k in t.slotItems
      ensures t.slotItems[k] == Sum(t.bindings, ItemsIn(k)) && t.slotBytes[k] == Sum(t.bindings, BytesIn(k))
    {
      MoveSlot(s, id, queue, items, bytes, k);
    }
  }

  /** Editing nothing but flags. */
  lemma {:induction false} FlagCounted(s: State, id: nat, b: Retained)
    requires Counted(s) && id in s.bindings
    requires b.slot == s.bindings[id].slot && b.items == s.bindings[id].items && b.bytes == s.bindings[id].bytes
    ensures Counted(s.(bindings := s.bindings[id := b]))
  {
    SumSet(s.bindings, id, b, ItemsOf);
    SumSet(s.bindings, id, b, BytesOf);
    forall k | k in s.slotItems
      ensures s.slotItems[k] == Sum(s.bindings[id := b], ItemsIn(k)) && s.slotBytes[k] == Sum(s.bindings[id := b], BytesIn(k))
    {
      SumSet(s.bindings, id, b, ItemsIn(k));
      SumSet(s.bindings, id, b, BytesIn(k));
    }
  }

  lemma {:induction false} EvictCounted(s: State, id: nat)
    requires Counted(s) && Known(s, id)
    ensures Counted(Evict(s, id)) && Known(Evict(s, id), id)
  {
    hide Counted;
    MoveCounted(s, id, [], 0 - s.bindings[id].items, 0 - s.bindings[id].bytes);
    var t := Move(s, id, [], 0 - s.bindings[id].items, 0 - s.bindings[id].bytes);
    FlagCounted(t, id, t.bindings[id].(terminal := true));
  }

  lemma {:induction false} ReleaseCounted(s: State, id: nat)
    requires Counted(s)
    ensures Counted(Release(s, id))
  {
    if id in s.bindings && s.bindings[id].items == 0 && s.bindings[id].bytes == 0 {
      SumDrop(s.bindings, id, ItemsOf);
      SumDrop(s.bindings, id, BytesOf);
      forall k | k in s.slotItems
        ensures s.slotItems[k] == Sum(s.bindings - {id}, ItemsIn(k)) && s.slotBytes[k] == Sum(s.bindings - {id}, BytesIn(k))
      {
        SumDrop(s.bindings, id, ItemsIn(k));
        SumDrop(s.bindings, id, BytesIn(k));
      }
    }
  }

  lemma {:induction false} BindCounted(s: State, id: nat, slot: nat)
    requires Counted(s)
    ensures Counted(Bind(s, id, slot))
  {
    if id !in s.bindings && slot in s.slotItems {
      var b := Retained(slot, [], 0, 0, false);
      SumSet(s.bindings, id, b, ItemsOf);
      SumSet(s.bindings, id, b, BytesOf);
      forall k | k in s.slotItems
        ensures s.slotItems[k] == Sum(s.bindings[id := b], ItemsIn(k)) && s.slotBytes[k] == Sum(s.bindings[id := b], BytesIn(k))
      {
        EmptyAdds(s.bindings, id, b, k);
      }
    }
  }

  lemma {:induction false} EmptyAdds(m: map<nat, Retained>, id: nat, b: Retained, k: nat)
    requires id !in m && b.items == 0 && b.bytes == 0
    ensures Sum(m[id := b], ItemsIn(k)) == Sum(m, ItemsIn(k)) && Sum(m[id := b], BytesIn(k)) == Sum(m, BytesIn(k))
  {
    SumSet(m, id, b, ItemsIn(k));
    SumSet(m, id, b, BytesIn(k));
  }

  lemma {:induction false} RouteCounted(s: State, id: nat, e: Event, victim: nat)
    requires Counted(s) && Known(s, id) && Known(s, victim)
    ensures Counted(Route(s, id, e, victim).0)
  {
    if Fits(s, id, Size(e)) {
      MoveCounted(s, id, s.bindings[id].queue + [e], 1, Size(e));
    } else {
      EvictCounted(s, victim);
      if victim != id {
        var u := Evict(s, victim);
        if Fits(u, id, Size(e)) {
          MoveCounted(u, id, u.bindings[id].queue + [e], 1, Size(e));
        } else {
          EvictCounted(u, id);
        }
      }
    }
  }

  /** routeEvent for a known binding; an external close also ends it. */
  function Arrive(s: State, id: nat, e: Event, victim: nat): State
    requires Known(s, id) && Known(s, victim)
  {
    var (t, ok) := Route(s, id, e, victim);
    if ok && e.CloseExternal? && id in t.bindings then
      t.(bindings := t.bindings[id := t.bindings[id].(terminal := true)])
    else t
  }

  datatype Op =
    | Resident(id: nat, slot: nat)
    | Arrives(id: nat, e: Event, victim: nat)
    | Popped(id: nat)
    | Evicted(id: nat)
    | Released(id: nat)

  predicate Enabled(s: State, op: Op) {
    match op
    case Arrives(id, e, victim) =>
      && Known(s, id) && Known(s, victim) && !s.bindings[id].terminal
      && (Fits(s, id, Size(e)) || IsVictim(s, id, Size(e), victim))
    case Popped(id) => Known(s, id)
    case Evicted(id) => Known(s, id)
    case _ => true
  }

  function Step(s: State, op: Op): State {
    if !Enabled(s, op) then s
    else match op
      case Resident(id, slot) => Bind(s, id, slot)
      case Arrives(id, e, victim) => Arrive(s, id, e, victim)
      case Popped(id) => Pop(s, id)
      case Evicted(id) => Evict(s, id)
      case Released(id) => Release(s, id)
  }

  function Run(s: State, ops: seq<Op>): State
    decreases |ops|
  {
    if ops == [] then s else Run(Step(s, ops[0]), ops[1..])
  }

  // ---------------------------------------------------------------- limits and FIFOs

  /** What does not concern the sums over bindings. */
  ghost predicate Fine(s: State) {
    WithinLimits(s) && forall id | id in s.bindings :: Queued(s.bindings[id])
  }

  lemma {:induction false} EnqueueFine(s: State, id: nat, e: Event)
    requires Fine(s) && Known(s, id)
    ensures Fine(Enqueue(s, id, e).0)
  {
    hide Total, Size;
    TotalSnoc(s.bindings[id].queue, e, Size);
  }

  lemma {:induction false} PopFine(s: State, id: nat)
    requires Fine(s) && Known(s, id)
    ensures Fine(Pop(s, id))
  {}

  lemma {:induction false} EvictFine(s: State, id: nat)
    requires Fine(s) && Known(s, id)
    ensures Fine(Evict(s, id)) && Known(Evict(s, id), id)
    ensures forall x | Known(s, x) :: Known(Evict(s, id), x)
  {
    assert Total([], Size) == 0;
  }

  lemma {:induction false} RouteFine(s: State, id: nat, e: Event, victim: nat)
    requires Fine(s) && Known(s, id) && Known(s, victim)
    ensures Fine(Route(s, id, e, victim).0)
  {
    hide Fine, Enqueue, Evict;
    EnqueueFine(s, id, e);
    EvictFine(s, victim);
    var u := Evict(s, victim);
    EnqueueFine(u, id, e);
    EnqueueKnows(u, id, e);
    EvictFine(Enqueue(u, id, e).0, id);
  }

  lemma {:induction false} EnqueueKnows(s: State, id: nat, e: Event)
    requires Known(s, id)
    ensures Known(Enqueue(s, id, e).0, id)
  {}

  lemma {:induction false} EndFine(s: State, id: nat)
    requires Fine(s) && id in s.bindings
    ensures Fine(s.(bindings := s.bindings[id := s.bindings[id].(terminal := true)]))
  {}

  lemma {:induction false} ResidentsFine(s: State, id: nat, slot: nat)
    requires Fine(s)
    ensures Fine(Bind(s, id, slot)) && Fine(Release(s, id))
  {
    assert Total([], Size) == 0;
  }

  lemma {:induction false} StepFine(s: State, op: Op)
    requires Fine(s)
    ensures Fine(Step(s, op))
  {
    hide Fine, Route, Pop, Evict, Bind, Release, IsVictim;
    if Enabled(s, op) {
      match op
      case Resident(id, slot) => ResidentsFine(s, id, slot);
      case Released(id) => ResidentsFine(s, id, 0);
      case Popped(id) => PopFine(s, id);
      case Evicted(id) => EvictFine(s, id);
      case Arrives(id, e, victim) =>
        RouteFine(s, id, e, victim);
        var t := Route(s, id, e, victim).0;
        if id in t.bindings {
          EndFine(t, id);
        }
    }
  }

  // ---------------------------------------------------------------- every run

  lemma {:induction false} StepCounted(s: State, op: Op)
    requires Counted(s)
    ensures Counted(Step(s, op))
  {
    hide Counted, IsVictim, Route;
    if Enabled(s, op) {
      match op
      case Resident(id, slot) => BindCounted(s, id, slot);
      case Arrives(id, e, victim) =>
        RouteCounted(s, id, e, victim);
        var t := Route(s, id, e, victim).0;
        if id in t.bindings {
          FlagCounted(t, id, t.bindings[id].(terminal := true));
        }
      case Popped(id) =>
        var b := s.bindings[id];
        if b.items != 0 && b.queue != [] && Size(b.queue[0]) <= b.bytes {
          var size: int := Size(b.queue[0]);
          MoveCounted(s, id, b.queue[1..], -1, -size);
        }
      case Evicted(id) => EvictCounted(s, id);
      case Released(id) => ReleaseCounted(s, id);
    }
  }

  lemma {:induction false} StartGood(l: Limits, slots: set<nat>)
    ensures Good(Start(l, slots))
  {
    var none: map<nat, Retained> := map[];
    SumNothing(none, ItemsOf);
    SumNothing(none, BytesOf);
    forall k ensures Sum(none, ItemsIn(k)) == 0 && Sum(none, BytesIn(k)) == 0 {
      SumNothing(none, ItemsIn(k));
      SumNothing(none, BytesIn(k));
    }
  }

  lemma {:induction false} RunGood(s: State, ops: seq<Op>)
    requires Good(s)
    ensures Good(Run(s, ops))
    decreases |ops|
  {
    hide Counted, WithinLimits, Queued, Step;
    if ops != [] {
      StepCounted(s, ops[0]);
      StepFine(s, ops[0]);
      var next := Step(s, ops[0]);
      RunGood(next, ops[1..]);
    }
  }

  /**
   * On every run of an empty manager, whatever arrives, is popped, evicted and released: each binding's counters are
   * those of its FIFO, the slot and manager counters are the sums over bindings, and all stay within their limits.
   */
  lemma {:induction false} RunCounted(l: Limits, slots: set<nat>, ops: seq<Op>)
    ensures Good(Run(Start(l, slots), ops))
  {
    hide Good;
    StartGood(l, slots);
    RunGood(Start(l, slots), ops);
  }

  // ---------------------------------------------------------------- the retry

  /** After another binding is evicted the retry succeeds exactly when what it freed covers the global need too. */
  lemma {:induction false} RetrySucceedsExactly(s: State, id: nat, e: Event, v: nat)
    requires Known(s, id) && Known(s, v) && IsVictim(s, id, Size(e), v) && v != id && !Fits(s, id, Size(e))
    ensures Route(s, id, e, v).1 <==>
            s.items - s.bindings[v].items < s.limits.items && Size(e) <= s.limits.bytes - (s.bytes - s.bindings[v].bytes)
  {}

  /** When exactly one of the slot and the global limit is exceeded, evicting another binding always makes room. */
  lemma {:induction false} OneLimitRetrySucceeds(s: State, id: nat, e: Event, v: nat)
    requires Known(s, id) && Known(s, v) && IsVictim(s, id, Size(e), v) && v != id
    requires SlotRoom(s, s.bindings[id].slot, Size(e)) != GlobalRoom(s, Size(e))
    ensures Route(s, id, e, v).1
  {
    RetrySucceedsExactly(s, id, e, v);
  }

  const TIGHT := Limits(2, 64, 2, 64, 3, 96)

  /** Two acknowledgements fill slot 0's items; an answer in slot 1 fills the manager's bytes. */
  const FILLING := [Resident(1, 0), Resident(2, 0), Resident(3, 1),
                    Arrives(1, SimpleAck(0), 1), Arrives(2, SimpleAck(0), 2), Arrives(3, ANSWER, 3)]

  const FOUR: bytes := [0, 0, 0, 0]
  const SIXTEEN: bytes := FOUR + FOUR + FOUR + FOUR
  const WORD := ProxyAnswer(0, FOUR)
  const ANSWER := ProxyAnswer(0, SIXTEEN + SIXTEEN + SIXTEEN)

  /** The manager after n of these. */
  function Filled(n: nat): State {
    var one := if n < 4 then Retained(0, [], 0, 0, false) else Retained(0, [SimpleAck(0)], 1, 16, false);
    var two := if n < 5 then Retained(0, [], 0, 0, false) else Retained(0, [SimpleAck(0)], 1, 16, false);
    var three := if n < 6 then Retained(1, [], 0, 0, false) else Retained(1, [ANSWER], 1, 64, false);
    var items := if n < 4 then 0 else if n == 4 then 1 else 2;
    State(TIGHT,
          if n == 0 then map[] else if n == 1 then map[1 := one] else if n == 2 then map[1 := one, 2 := two]
          else map[1 := one, 2 := two, 3 := three],
          map[0 := items, 1 := if n < 6 then 0 else 1], map[0 := 16 * items, 1 := if n < 6 then 0 else 64],
          if n < 6 then items else 3, if n < 6 then 16 * items else 96)
  }

  lemma {:induction false} Fills(n: nat)
    requires n < 6
    ensures Step(Filled(n), FILLING[n]) == Filled(n + 1)
  {
    hide Route, IsVictim;
    var (t, u) := (Step(Filled(n), FILLING[n]), Filled(n + 1));
    if n >= 3 {
      var op := FILLING[n];
      assert Fits(Filled(n), op.id, Size(op.e));
      RouteFits(Filled(n), op.id, op.e, op.victim);
      assert t.bindings[op.id].queue == u.bindings[op.id].queue;
    }
    assert t.bindings == u.bindings && t.slotItems == u.slotItems && t.slotBytes == u.slotBytes;
  }

  lemma {:induction false} RouteFits(s: State, id: nat, e: Event, victim: nat)
    requires Known(s, id) && Known(s, victim) && Fits(s, id, Size(e))
    ensures Route(s, id, e, victim) == (Move(s, id, s.bindings[id].queue + [e], 1, Size(e)), true)
  {}

  lemma {:induction false} FillsFrom(n: nat)
    requires n <= 6
    ensures Run(Filled(n), FILLING[n..]) == Filled(6)
    decreases 6 - n
  {
    hide Step, Filled;
    if n < 6 {
      Fills(n);
      assert FILLING[n..][1..] == FILLING[n + 1..];
      FillsFrom(n + 1);
    }
  }

  /** Both limits are exceeded, and evicting the victim does not make room. */
  predicate EvictsInVain(s: State, id: nat, e: Event, victim: nat) {
    && Known(s, id) && Known(s, victim) && IsVictim(s, id, Size(e), victim) && victim != id
    && !SlotRoom(s, s.bindings[id].slot, Size(e)) && !GlobalRoom(s, Size(e)) && !Route(s, id, e, victim).1
  }

  lemma {:induction false} FilledIsStuck()
    ensures EvictsInVain(Filled(6), 1, WORD, 2)
  {
    var s := Filled(6);
    assert Needed(s, 1, 20) == Need(1, 0, true);
    assert Candidate(s, 1, Need(1, 0, true), 2) && !Candidate(s, 1, Need(1, 0, true), 3);
    RetrySucceedsExactly(s, 1, WORD, 2);
    hide Route;
  }

  /**
   * With both limits exceeded the evicted neighbour may not free enough, and the incoming binding is evicted too: on
   * this run, an answer of one word for binding 1 evicts binding 2 and still does not fit.
   */
  lemma {:induction false} JointPressureCanFail()
    ensures ValidLimits(TIGHT)
    ensures EvictsInVain(Run(Start(TIGHT, {0, 1}), FILLING), 1, WORD, 2)
  {
    assert Start(TIGHT, {0, 1}) == Filled(0);
    assert FILLING[0..] == FILLING;
    hide EvictsInVain, Filled, Step;
    FillsFrom(0);
    FilledIsStuck();
  }
}
