/** Which link of a data centre a new binding gets: the least loaded one that is healthy and has room. */
module SlotSelection {
  import opened Bytes

  datatype Load = Load(failed: bool, resident: nat, items: nat, octets: nat)

  /** lessLoadedFixedBindingSlot. */
  predicate Less(left: Load, right: Load) {
    if left.resident != right.resident then left.resident < right.resident
    else if left.items != right.items then left.items < right.items
    else left.octets < right.octets
  }

  predicate Eligible(load: Load, maxResident: nat) {
    !load.failed && load.resident < maxResident
  }

  /** The k-th slot looked at when the search starts at `start`. */
  function Turn(start: nat, k: nat, count: nat): (index: nat)
    requires count > 0
    ensures index < count
  {
    (start + k) % count
  }

  /** `k` turns in, the best so far: least loaded, and the first of its kind in turn. */
  predicate BestOf(loads: seq<Load>, start: nat, k: nat, maxResident: nat, best: Option<nat>)
    requires 0 < |loads|
  {
    match best
    case None => forall i | 0 <= i < k :: !Eligible(loads[Turn(start, i, |loads|)], maxResident)
    case Some(b) =>
      && b < k && Eligible(loads[Turn(start, b, |loads|)], maxResident)
      && (forall i | 0 <= i < k && Eligible(loads[Turn(start, i, |loads|)], maxResident) ::
            !Less(loads[Turn(start, i, |loads|)], loads[Turn(start, b, |loads|)]))
      && (forall i | 0 <= i < b && Eligible(loads[Turn(start, i, |loads|)], maxResident) ::
            Less(loads[Turn(start, b, |loads|)], loads[Turn(start, i, |loads|)]))
  }

  lemma {:induction false} LessIsOrder(a: Load, b: Load, c: Load)
    ensures !Less(a, a) && (Less(a, b) ==> !Less(b, a)) && (Less(a, b) && !Less(c, b) ==> Less(a, c))
  {}

  /** Every slot has its turn exactly once. */
  lemma {:induction false} EveryTurn(start: nat, index: nat, count: nat) returns (k: nat)
    requires index < count && start < count
    ensures k < count && Turn(start, k, count) == index
  {
    k := if start <= index then index - start else index + count - start;
    if start > index {
      assert start + k == index + count;
    }
  }

  /** After a whole round the best so far is the best of all. */
  lemma {:induction false} BestOfAll(loads: seq<Load>, start: nat, maxResident: nat, best: Option<nat>)
    requires start < |loads| && BestOf(loads, start, |loads|, maxResident, best)
    ensures best.None? ==> forall i | 0 <= i < |loads| :: !Eligible(loads[i], maxResident)
    ensures best.Some? ==>
              forall i | 0 <= i < |loads| && Eligible(loads[i], maxResident) ::
                !Less(loads[i], loads[Turn(start, best.value, |loads|)])
  {
    hide Turn, Less, Eligible;
    forall i | 0 <= i < |loads| && Eligible(loads[i], maxResident)
      ensures best.Some? && !Less(loads[i], loads[Turn(start, best.value, |loads|)])
    {
      var k := EveryTurn(start, i, |loads|);
      assert Eligible(loads[Turn(start, k, |loads|)], maxResident);
    }
  }

  /** How many slots are looked at before this one. */
  function Distance(start: nat, index: nat, count: nat): nat
    requires start < count
  {
    if start <= index then index - start else index + count - start
  }

  /** No load is smaller: first by resident bindings, then by pending items, then by bytes, then by distance. */
  predicate LeastLoaded(loads: seq<Load>, start: nat, maxResident: nat, s: nat)
    requires start < |loads| && s < |loads|
  {
    forall i | 0 <= i < |loads| && i != s && !loads[i].failed && loads[i].resident < maxResident ::
      var (x, y) := (loads[s], loads[i]);
      && x.resident <= y.resident
      && (x.resident == y.resident ==> x.items <= y.items)
      && (x.resident == y.resident && x.items == y.items ==> x.octets <= y.octets)
      && (x.resident == y.resident && x.items == y.items && x.octets == y.octets ==>
            Distance(start, s, |loads|) < Distance(start, i, |loads|))
  }

  lemma {:induction false} BestIsLeast(loads: seq<Load>, start: nat, maxResident: nat, b: nat)
    requires start < |loads| && BestOf(loads, start, |loads|, maxResident, Some(b))
    ensures LeastLoaded(loads, start, maxResident, Turn(start, b, |loads|))
  {
    var s := Turn(start, b, |loads|);
    DistanceOfTurn(start, b, |loads|);
    forall i | 0 <= i < |loads| && i != s && Eligible(loads[i], maxResident)
      ensures !Less(loads[i], loads[s])
      ensures Distance(start, i, |loads|) < b ==> Less(loads[s], loads[i])
      ensures Distance(start, i, |loads|) != b
    {
      hide Less, Eligible;
      var k := EveryTurn(start, i, |loads|);
      DistanceOfTurn(start, k, |loads|);
    }
  }

  lemma {:induction false} DistanceOfTurn(start: nat, k: nat, count: nat)
    requires start < count && k < count
    ensures Distance(start, Turn(start, k, count), count) == k
  {
    if start + k >= count {
      WrapsOnce(start + k - count, count);
    } else {
      WithinRound(start + k, count);
    }
  }

  lemma {:induction false} WithinRound(x: nat, count: nat)
    requires x < count
    ensures x % count == x
  {}

  lemma {:induction false} WrapsOnce(x: nat, count: nat)
    requires x < count
    ensures (x + count) % count == x
  {
    assert (x + count) / count == 1;
  }

  lemma {:induction false} AllFailed(loads: seq<Load>, start: nat)
    requires start < |loads|
    requires forall i | 0 <= i < |loads| :: loads[Turn(start, i, |loads|)].failed
    ensures forall i | 0 <= i < |loads| :: loads[i].failed
  {
    hide Turn;
    forall i | 0 <= i < |loads| ensures loads[i].failed {
      var k := EveryTurn(start, i, |loads|);
      assert loads[Turn(start, k, |loads|)].failed;
    }
  }

  /**
   * selectBindingSlotLocked: the choice is a least loaded eligible slot, ties going to the first in turn; there is no
   * choice only when every healthy slot is full, and `healthy` tells whether there is a healthy slot at all.
   */
  method Select(loads: seq<Load>, bindNext: nat, maxResident: nat)
    returns (selected: Option<nat>, healthy: bool, next: nat)
    requires loads != []
    ensures healthy <==> exists i | 0 <= i < |loads| :: !loads[i].failed
    ensures selected.None? <==> forall i | 0 <= i < |loads| :: !Eligible(loads[i], maxResident)
    ensures selected.Some? ==>
              var s := selected.value;
              && s < |loads| && Eligible(loads[s], maxResident)
              && (forall i | 0 <= i < |loads| && Eligible(loads[i], maxResident) :: !Less(loads[i], loads[s]))
              && LeastLoaded(loads, bindNext % |loads|, maxResident, s)
              && exists b: nat :: Turn(bindNext % |loads|, b, |loads|) == s &&
                                  BestOf(loads, bindNext % |loads|, |loads|, maxResident, Some(b))
    ensures next == if selected.Some? then (selected.value + 1) % |loads| else bindNext
  {
    hide Turn, Less;
    var count := |loads|;
    var start := bindNext % count;
    selected, healthy, next := None, false, bindNext;
    ghost var best: Option<nat> := None;
    for k := 0 to count
      invariant BestOf(loads, start, k, maxResident, best)
      invariant selected == match best case None => None case Some(b) => Some(Turn(start, b, count))
      invariant healthy ==> exists i | 0 <= i < count :: !loads[i].failed
      invariant !healthy ==> forall i | 0 <= i < k :: loads[Turn(start, i, count)].failed
    {
      var index := Turn(start, k, count);
      var candidate := loads[index];
      if !candidate.failed {
        healthy := true;
        if candidate.resident < maxResident && (selected.None? || Less(candidate, loads[selected.value])) {
          ExtendBest(loads, start, k, maxResident, best);
          selected, best := Some(index), Some(k);
        }
      }
    }
    BestOfAll(loads, start, maxResident, best);
    if !healthy {
      AllFailed(loads, start);
    }
    if selected.Some? {
      BestIsLeast(loads, start, maxResident, best.value);
      next := Turn(selected.value, 1, count);
      NextTurn(selected.value, count);
    }
  }

  lemma {:induction false} NextTurn(index: nat, count: nat)
    requires count > 0
    ensures Turn(index, 1, count) == (index + 1) % count
  {}

  lemma {:induction false} ExtendBest(loads: seq<Load>, start: nat, k: nat, maxResident: nat, best: Option<nat>)
    requires 0 < |loads| && BestOf(loads, start, k, maxResident, best)
    requires Eligible(loads[Turn(start, k, |loads|)], maxResident)
    requires best.Some? ==> Less(loads[Turn(start, k, |loads|)], loads[Turn(start, best.value, |loads|)])
    ensures BestOf(loads, start, k + 1, maxResident, Some(k))
  {
    hide Turn;
    var mine := loads[Turn(start, k, |loads|)];
    LessIsOrder(mine, mine, mine);
    if best.Some? {
      var was := loads[Turn(start, best.value, |loads|)];
      forall i | 0 <= i < k && Eligible(loads[Turn(start, i, |loads|)], maxResident)
        ensures Less(mine, loads[Turn(start, i, |loads|)]) && !Less(loads[Turn(start, i, |loads|)], mine)
      {
        LessIsOrder(mine, was, loads[Turn(start, i, |loads|)]);
        LessIsOrder(mine, loads[Turn(start, i, |loads|)], mine);
      }
    }
  }

  /** Resident bindings differ by at most one between healthy slots. */
  predicate Even(loads: seq<Load>) {
    forall i, j | 0 <= i < |loads| && 0 <= j < |loads| && !loads[i].failed && !loads[j].failed ::
      loads[i].resident <= loads[j].resident + 1
  }

  function Bound(loads: seq<Load>, index: nat): seq<Load>
    requires index < |loads|
  {
    loads[index := loads[index].(resident := loads[index].resident + 1)]
  }

  /** Binding to a least loaded eligible slot keeps the slots even. */
  lemma {:induction false} BindingStaysEven(loads: seq<Load>, index: nat, maxResident: nat)
    requires Even(loads) && index < |loads| && Eligible(loads[index], maxResident)
    requires forall i | 0 <= i < |loads| && Eligible(loads[i], maxResident) :: !Less(loads[i], loads[index])
    ensures Even(Bound(loads, index))
  {
    forall j | 0 <= j < |loads| && !loads[j].failed ensures loads[index].resident <= loads[j].resident {
      if loads[j].resident < maxResident {
        assert Eligible(loads[j], maxResident);
      }
    }
  }
}
