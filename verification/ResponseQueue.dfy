/** A binding's retained responses: a ring buffer that doubles up to its limit, and the FIFO it stands for. */
module ResponseQueue {
  import opened Bytes
  import opened SeqSums

  datatype Event = Event(kind: nat, packet: bytes, size: nat)

  const EMPTY_EVENT := Event(0, [], 0)

  function EventSize(e: Event): nat { e.size }

  /** A position past the end of the storage continues at its start. */
  function Wrap(position: nat, n: nat): nat
    requires position < n + n
  {
    if position < n then position else position - n
  }

  lemma {:induction false} TwiceAtLeast(n: nat, q: nat)
    ensures q >= 2 ==> n * q >= n + n
  {
    if q >= 2 {
      assert n * q == n * 2 + n * (q - 2);
    }
  }

  lemma {:induction false} WrapIsModulo(position: nat, n: nat)
    requires position < n + n
    ensures position % n == Wrap(position, n) < n
  {
    var q := position / n;
    assert position == n * q + position % n;
    TwiceAtLeast(n, q);
  }

  /** The events from `head` on, around the end of the storage. */
  function Ring(storage: seq<Event>, head: nat, items: nat): (r: seq<Event>)
    requires items <= |storage| && (head < |storage| || (head == 0 && items == 0))
    ensures |r| == items
    ensures forall i | 0 <= i < items :: r[i] == storage[Wrap(head + i, |storage|)]
  {
    seq(items, i requires 0 <= i < items => storage[Wrap(head + i, |storage|)])
  }

  /** Writing just past the last event appends it. */
  lemma {:induction false} RingPush(storage: seq<Event>, head: nat, items: nat, e: Event)
    requires items < |storage| && head < |storage|
    ensures Ring(storage[Wrap(head + items, |storage|) := e], head, items + 1) == Ring(storage, head, items) + [e]
  {}

  lemma {:induction false} RingPop(storage: seq<Event>, head: nat, items: nat)
    requires 0 < items <= |storage| && head < |storage|
    ensures Ring(storage, head, items)[0] == storage[head]
    ensures Ring(storage[head := EMPTY_EVENT], Wrap(head + 1, |storage|), items - 1) == Ring(storage, head, items)[1..]
  {}

  class Queue {
    const limit: nat
    var queue: array<Event>
    var head: nat
    var items: nat
    var bytes: nat

    ghost predicate Valid()
      reads this, queue
    {
      && items <= queue.Length <= limit
      && (head < queue.Length || (head == 0 && items == 0))
      && bytes == Total(Ring(queue[..], head, items), EventSize)
    }

    /** The FIFO this buffer stands for. */
    ghost function Contents(): seq<Event>
      requires Valid()
      reads this, queue
    {
      Ring(queue[..], head, items)
    }

    constructor (limit: nat)
      ensures Valid() && fresh(queue) && this.limit == limit && Contents() == []
    {
      this.limit := limit;
      queue := new Event[0];
      head, items, bytes := 0, 0, 0;
    }

    /** The retained events, in order, at the start of a fresh array. */
    method CopyOut(length: nat) returns (grown: array<Event>)
      requires Valid() && items <= length
      ensures fresh(grown) && grown.Length == length && grown[..items] == Contents()
    {
      hide Total;
      grown := new Event[length](_ => EMPTY_EVENT);
      for index := 0 to items
        invariant forall i | 0 <= i < index :: grown[i] == Contents()[i]
      {
        WrapIsModulo(head + index, queue.Length);
        grown[index] := queue[(head + index) % queue.Length];
      }
    }

    /** growBindingQueueLocked: fails only at the limit. */
    method Grow() returns (ok: bool)
      requires Valid()
      modifies this`queue, this`head
      ensures Valid() && Contents() == old(Contents()) && (queue == old(queue) || fresh(queue))
      ensures ok <==> old(items) < limit
      ensures ok ==> items < queue.Length && head < queue.Length
    {
      hide Total;
      if items < queue.Length {
        return true;
      }
      if queue.Length >= limit {
        return false;
      }
      ghost var before := Contents();
      var grown := CopyOut(Min(limit, Max(1, queue.Length * 2)));
      Straight(grown[..], items);
      assert grown[..][..items] == grown[..items];
      queue, head := grown, 0;
      assert Ring(queue[..], head, items) == before;
      return true;
    }

    /** enqueueEventLocked's storing part. */
    method Enqueue(e: Event) returns (ok: bool)
      requires Valid()
      modifies this, queue
      ensures Valid() && (queue == old(queue) || fresh(queue))
      ensures ok <==> old(items) < limit
      ensures Contents() == if ok then old(Contents()) + [e] else old(Contents())
    {
      hide Total;
      ok := Grow();
      if !ok {
        return;
      }
      WrapIsModulo(head + items, queue.Length);
      RingPush(queue[..], head, items, e);
      TotalSnoc(Contents(), e, EventSize);
      var index := (head + items) % queue.Length;
      ghost var after := queue[..][index := e];
      queue[index] := e;
      assert queue[..] == after;
      items := items + 1;
      bytes := bytes + e.size;
    }

    /** popBindingEventLocked. */
    method Pop() returns (r: Option<Event>)
      requires Valid()
      modifies this, queue
      ensures Valid() && queue == old(queue)
      ensures old(Contents()) == [] ==> r == None && Contents() == []
      ensures old(Contents()) != [] ==> r == Some(old(Contents())[0]) && Contents() == old(Contents())[1..]
    {
      hide Total;
      if items == 0 {
        return None;
      }
      ghost var before := Contents();
      TotalFirst(before);
      WrapIsModulo(head + 1, queue.Length);
      RingPop(queue[..], head, items);
      var event := queue[head];
      ghost var after := queue[..][head := EMPTY_EVENT];
      queue[head] := EMPTY_EVENT;
      assert queue[..] == after;
      head := (head + 1) % queue.Length;
      items := items - 1;
      bytes := bytes - event.size;
      assert Ring(queue[..], head, items) == before[1..];
      if items == 0 {
        head := 0;
      }
      return Some(event);
    }

    /** clearBindingQueueLocked. */
    method Clear()
      requires Valid()
      modifies this, queue
      ensures Valid() && queue == old(queue) && Contents() == []
    {
      for index := 0 to items
        invariant queue == old(queue) && items == old(items) && head == old(head)
      {
        WrapIsModulo(head + index, queue.Length);
        queue[(head + index) % queue.Length] := EMPTY_EVENT;
      }
      head, items, bytes := 0, 0, 0;
    }
  }

  lemma {:induction false} TotalFirst(events: seq<Event>)
    requires events != []
    ensures Total(events, EventSize) == events[0].size + Total(events[1..], EventSize)
  {}

  lemma {:induction false} Straight(storage: seq<Event>, items: nat)
    requires items <= |storage|
    ensures Ring(storage, 0, items) == storage[..items]
  {}
}
