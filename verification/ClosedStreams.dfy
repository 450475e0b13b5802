/** boundedSet: the recently closed stream identifiers, kept in a ring and looked up in a set. */
module ClosedStreams {
  import opened Bytes
  import Core = SessionCore

  predicate Distinct(s: seq<nat>) {
    forall i, j | 0 <= i < j < |s| :: s[i] != s[j]
  }

  predicate RingOK(t: Core.Tombstones) {
    && 0 < t.capacity && |t.order| <= t.capacity && Distinct(t.order)
    && (if |t.order| < t.capacity then t.next == 0 else t.next < |t.order|)
  }

  /** The remembered identifiers, oldest first. */
  function Recent(t: Core.Tombstones): seq<nat>
    requires RingOK(t)
  {
    t.order[t.next..] + t.order[..t.next]
  }

  lemma {:induction false} RecentIsOrder(t: Core.Tombstones, v: nat)
    requires RingOK(t)
    ensures v in Recent(t) <==> v in t.order
  {
    if v in t.order {
      var i :| 0 <= i < |t.order| && t.order[i] == v;
      if i < t.next {
        assert Recent(t)[|t.order| - t.next + i] == v;
      } else {
        assert Recent(t)[i - t.next] == v;
      }
    }
  }

  lemma {:induction false} Wrap(next: nat, count: nat)
    requires next < count
    ensures (next + 1) % count == if next + 1 == count then 0 else next + 1
  {}

  /** Overwriting the oldest entry and moving on. */
  lemma {:induction false} Overwrite(order: seq<nat>, next: nat, v: nat)
    requires next < |order| && Distinct(order) && v !in order
    ensures var at := if next + 1 == |order| then 0 else next + 1;
            var after := order[next := v];
            && Distinct(after)
            && after[at..] + after[..at] == (order[next..] + order[..next])[1..] + [v]
  {
    var after := order[next := v];
    if next + 1 == |order| {
      assert after[0..] + after[..0] == order[..next] + [v];
      assert (order[next..] + order[..next])[1..] == order[..next];
    } else {
      assert after[next + 1..] == order[next + 1..] && after[..next + 1] == order[..next] + [v];
      assert (order[next..] + order[..next])[1..] == order[next + 1..] + order[..next];
    }
  }

  /** A new identifier joins at the young end; a full ring forgets exactly its oldest one. */
  lemma {:induction false} RemembersTheLatest(t: Core.Tombstones, v: nat)
    requires RingOK(t)
    ensures var (u, evicted) := Core.Remember(t, v);
            && RingOK(u)
            && if v in Recent(t) then u == t && evicted == None
               else if |t.order| < t.capacity then Recent(u) == Recent(t) + [v] && evicted == None
               else Recent(u) == Recent(t)[1..] + [v] && evicted == Some(Recent(t)[0])
  {
    hide Recent;
    RecentIsOrder(t, v);
    if v !in t.order {
      if |t.order| < t.capacity {
        Joins(t, v);
      } else {
        hide Distinct;
        Wrap(t.next, |t.order|);
        Overwrite(t.order, t.next, v);
        Unroll(t);
        Unroll(Core.Remember(t, v).0);
      }
    }
  }

  lemma {:induction false} Joins(t: Core.Tombstones, v: nat)
    requires RingOK(t) && v !in t.order && |t.order| < t.capacity
    ensures RingOK(Core.Remember(t, v).0) && Recent(Core.Remember(t, v).0) == Recent(t) + [v]
  {
    if |t.order| + 1 == t.capacity {
      assert (t.order + [v])[0..] + (t.order + [v])[..0] == t.order + [v];
    }
  }

  lemma {:induction false} Unroll(t: Core.Tombstones)
    requires RingOK(t)
    ensures Recent(t) == t.order[t.next..] + t.order[..t.next]
  {}

  class BoundedSet {
    const capacity: nat
    var values: set<nat>
    var order: seq<nat>
    var next: nat

    ghost function View(): Core.Tombstones
      reads this
    {
      Core.Tombstones(order, next, capacity)
    }

    ghost predicate Valid()
      reads this
    {
      RingOK(View()) && values == (set v | v in order)
    }

    constructor (capacity: nat)
      requires 0 < capacity
      ensures Valid() && View() == Core.Tombstones([], 0, capacity)
    {
      this.capacity := capacity;
      values, order, next := {}, [], 0;
    }

    method Contains(value: nat) returns (found: bool)
      requires Valid()
      ensures found <==> value in Recent(View())
    {
      RecentIsOrder(View(), value);
      return value in values;
    }

    method Add(value: nat) returns (evicted: Option<nat>)
      requires Valid()
      modifies this
      ensures Valid() && (View(), evicted) == Core.Remember(old(View()), value)
    {
      RemembersTheLatest(View(), value);
      if value in values {
        return None;
      }
      if |order| < capacity {
        order := order + [value];
        evicted := None;
      } else {
        evicted := Some(order[next]);
        ghost var (before, at) := (order, next);
        values := values - {order[next]};
        order := order[next := value];
        forall v ensures v in order <==> v == value || (v in before && v != before[at]) {
          if v == value {
            assert order[at] == v;
          } else if v in before && v != before[at] {
            var i :| 0 <= i < |before| && before[i] == v;
            assert order[i] == v;
          }
        }
        next := (next + 1) % |order|;
      }
      values := values + {value};
    }
  }
}
