/**
 * The incremental WebSocket decoder: bounded work per call, payload kept in buffers of at most 64 KiB, storage
 * reserved before it is allocated. Proved against the whole-stream machine of WebSocketFrames.
 */
module WebSocketDecoder {
  import opened Bytes
  import opened WebSocketFrames

  const MAX_FRAMES := 16

  /** A payload buffer and the capacity it was allocated with. */
  datatype Buffer = Buffer(data: bytes, capacity: nat)

  function Contents(buffers: seq<Buffer>): bytes {
    if buffers == [] then [] else Contents(buffers[..|buffers| - 1]) + buffers[|buffers| - 1].data
  }

  function Capacity(buffers: seq<Buffer>): nat {
    if buffers == [] then 0 else Capacity(buffers[..|buffers| - 1]) + buffers[|buffers| - 1].capacity
  }

  /** What is left of the last buffer. */
  function Room(buffers: seq<Buffer>): int {
    if buffers == [] then 0 else buffers[|buffers| - 1].capacity - |buffers[|buffers| - 1].data|
  }

  predicate BuffersOK(buffers: seq<Buffer>) {
    && (forall i | 0 <= i < |buffers| :: |buffers[i].data| <= buffers[i].capacity <= CHUNK)
    && (forall i | 0 <= i < |buffers| - 1 :: |buffers[i].data| == buffers[i].capacity)
  }

  lemma {:induction false} CapacityIsLengthAndRoom(buffers: seq<Buffer>)
    requires BuffersOK(buffers)
    ensures Capacity(buffers) == |Contents(buffers)| + Room(buffers)
  {
    if buffers != [] {
      var front := buffers[..|buffers| - 1];
      CapacityIsLengthAndRoom(front);
      assert front != [] ==> front[|front| - 1] == buffers[|buffers| - 2];
    }
  }

  /** How much of a frame its buffers cover once `received` bytes have arrived. */
  function Covered(received: nat, length: nat): nat {
    Min(length, Chunks(received) * CHUNK)
  }

  lemma {:induction false} NewBuffer(received: nat, length: nat, take: nat)
    requires received == Covered(received, length) && received < length
    requires 0 < take <= CHUNK && received + take <= length
    ensures Chunks(received + take) == Chunks(received) + 1
    ensures Covered(received + take, length) == received + Min(length - received, CHUNK)
  {
    var c := Chunks(received);
    assert received == c * CHUNK;
    assert (received + take + CHUNK - 1) / CHUNK == c + 1;
  }

  lemma {:induction false} OldBuffer(received: nat, length: nat, take: nat)
    requires received < Covered(received, length) && received + take <= Covered(received, length)
    ensures Chunks(received + take) == Chunks(received)
    ensures Covered(received + take, length) == Covered(received, length)
  {}

  /** Fragment nodes behind the first buffer. */
  function NodeBytes(buffers: nat, fragmentBytes: nat): nat {
    (if buffers == 0 then 0 else buffers - 1) * fragmentBytes
  }

  lemma {:induction false} NodesAdd(m: Machine, length: nat, fragmentBytes: nat)
    ensures NodeBytes(m.buffers, fragmentBytes) + Nodes(m, length) * fragmentBytes
         == NodeBytes(m.buffers + Chunks(length), fragmentBytes)
  {
    var before: nat := if m.buffers == 0 then 0 else m.buffers - 1;
    assert length == 0 ==> Chunks(length) == 0;
    assert length != 0 ==> Chunks(length) >= 1;
    assert before * fragmentBytes + Nodes(m, length) * fragmentBytes == (before + Nodes(m, length)) * fragmentBytes;
  }

  datatype Pending = Pending(head: Head, payload: bytes, received: nat, data: bool)

  datatype Limit = NoLimit | PayloadLimit | FrameLimit

  // ---------------------------------------------------------------- single steps of the whole-stream machine

  lemma {:induction false} RunStalls(p: Policy, m: Machine, s: bytes)
    requires MachineOK(m) && m.pending.None? && !m.closed && ParseHead(s).NeedMore?
    ensures Run(p, m, s) == Outcome([], m, s, None)
  {}

  lemma {:induction false} RunRejects(p: Policy, m: Machine, s: bytes)
    requires MachineOK(m) && m.pending.None? && !m.closed && ParseHead(s).BadHead?
    ensures Run(p, m, s) == Outcome([], m, s, Some(Protocol))
  {}

  lemma {:induction false} RunReadsHead(p: Policy, m: Machine, s: bytes)
    requires MachineOK(m) && m.pending.None? && !m.closed && ParseHead(s).GotHead?
    ensures Run(p, m, s) == (match Prepare(p, m, ParseHead(s).head)
                             case Refused(e) => Outcome([], m, s, Some(e))
                             case Ready(n) => Run(p, n, s[ParseHead(s).size..]))
  {}

  lemma {:induction false} RunWaits(p: Policy, m: Machine)
    requires MachineOK(m) && m.pending.Some? && !m.closed && !Whole(m)
    ensures Run(p, m, []) == Outcome([], m, [], None)
  {
    ReceiveNothing(m);
  }

  lemma {:induction false} RunReceives(p: Policy, m: Machine, a: bytes, b: bytes)
    requires MachineOK(m) && m.pending.Some? && !m.closed
    requires |m.pending.value.received| + |a| <= m.pending.value.head.length
    ensures Run(p, m, a + b) == Run(p, Receive(m, a), b)
  {
    hide Apply, Unmask, Prepare, ParseHead;
    if |m.pending.value.received| + |a| < m.pending.value.head.length {
      PartialPayload(p, m, a, b);
    } else {
      assert (a + b)[..|a|] == a && (a + b)[|a|..] == b;
      RunApplies(p, Receive(m, a), b);
    }
  }

  lemma {:induction false} RunApplies(p: Policy, m: Machine, s: bytes)
    requires MachineOK(m) && Whole(m) && !m.closed
    ensures match Apply(p, m)
            case Failed(e) => Run(p, m, s) == Outcome([], m, s, Some(e))
            case Applied(next, message) => Run(p, m, s) == Push(message, Run(p, next, s))
  {
    hide Apply, Prepare, ParseHead;
    ReceiveNothing(m);
    assert s[..0] == [] && s[0..] == s;
  }

  lemma {:induction false} RunRefusesMore(p: Policy, m: Machine, s: bytes)
    requires MachineOK(m) && m.closed && s != []
    ensures Run(p, m, s) == Outcome([], m, s, Some(Protocol))
  {}

  class Decoder {
    const policy: Policy
    var fragmented: bool
    var buffers: seq<Buffer>
    var messageBytes: nat
    var messageOwned: nat
    var asked: nat // reservations granted so far
    var pending: Option<Pending>
    var closed: bool

    constructor (policy: Policy)
      ensures Valid() && Waiting() && View() == START && this.policy == policy
    {
      this.policy := policy;
      fragmented := false;
      buffers := [];
      messageBytes := 0;
      messageOwned := 0;
      asked := 0;
      pending := None;
      closed := false;
    }

    predicate DataPending()
      reads this
    {
      pending.Some? && pending.value.data
    }

    /** Bytes of the pending data frame that have arrived, and its whole length. */
    function Arrived(): nat
      reads this
    {
      if DataPending() then pending.value.received else 0
    }

    function Announced(): nat
      reads this
    {
      if DataPending() then pending.value.head.length else 0
    }

    ghost predicate Valid()
      reads this
    {
      && BuffersOK(buffers)
      && |Contents(buffers)| == messageBytes + Arrived()
      && Arrived() + Room(buffers) == Covered(Arrived(), Announced())
      && Chunks(Arrived()) <= |buffers|
      && messageOwned == messageBytes + Announced() +
                         NodeBytes(|buffers| - Chunks(Arrived()) + Chunks(Announced()), policy.fragmentBytes)
      && (messageOwned == 0 || (0 < asked && policy.grants(asked - 1, messageOwned)))
      && (pending.Some? ==>
            var f := pending.value;
            && f.received <= f.head.length && HeadOK(f.head, fragmented) && f.head.opcode != TEXT
            && |f.head.mask| == 4 && f.data == !Control(f.head.opcode)
            && (!f.data ==> |f.payload| == f.received))
    }

    /** Between calls a pending frame still lacks payload. */
    predicate Waiting()
      reads this
    {
      pending.Some? ==> pending.value.received < pending.value.head.length
    }

    ghost function View(): (m: Machine)
      requires Valid()
      reads this
      ensures MachineOK(m) && m.closed == closed && (m.pending.Some? <==> pending.Some?)
      ensures pending.Some? ==>
                && m.pending.value.head == pending.value.head
                && |m.pending.value.received| == pending.value.received <= pending.value.head.length
    {
      var all := Contents(buffers);
      Machine(fragmented, all[..messageBytes], |buffers| - Chunks(Arrived()), messageOwned, asked,
              match pending
              case None => None
              case Some(f) => Some(Frame(f.head, if f.data then all[messageBytes..] else f.payload)),
              closed)
    }

    /** What is allocated never exceeds what was reserved, and is exactly that when no data frame is pending. */
    lemma StorageWithinReservation()
      requires Valid()
      ensures Capacity(buffers) + NodeBytes(|buffers|, policy.fragmentBytes) <= messageOwned
      ensures !DataPending() ==>
                Capacity(buffers) + NodeBytes(|buffers|, policy.fragmentBytes) == messageOwned
    {
      CapacityIsLengthAndRoom(buffers);
      var final := |buffers| - Chunks(Arrived()) + Chunks(Announced());
      NodesGrow(|buffers|, final, policy.fragmentBytes);
    }

    /** One round of appendPayload: as much as fits in the last buffer, or in a new one when it is full. */
    method FillBuffer(rest: bytes, mask: bytes, at: nat, remaining: nat) returns (take: nat)
      requires |mask| == 4 && BuffersOK(buffers) && 0 < |rest| <= remaining
      requires at + Room(buffers) == Covered(at, at + remaining)
      modifies this`buffers
      ensures 0 < take <= |rest| && BuffersOK(buffers)
      ensures Contents(buffers) == old(Contents(buffers)) + Unmask(rest[..take], mask, at)
      ensures at + take + Room(buffers) == Covered(at + take, at + remaining)
      ensures |buffers| - Chunks(at + take) == old(|buffers|) - Chunks(at)
    {
      hide Unmask, Chunks, Covered, Contents;
      var index := |buffers| - 1;
      var current;
      if buffers == [] || |buffers[index].data| == buffers[index].capacity {
        current := Buffer([], Min(remaining, CHUNK));
        index := index + 1;
      } else {
        current := buffers[index];
      }
      take := Min(|rest|, current.capacity - |current.data|);
      if index == |buffers| {
        NewBuffer(at, at + remaining, take);
      } else {
        OldBuffer(at, at + remaining, take);
      }
      ghost var before := buffers;
      current := current.(data := current.data + Unmask(rest[..take], mask, at));
      buffers := buffers[..index] + [current];
      assert buffers[..|buffers| - 1] == before[..index];
      ContentsStep(before, buffers, Unmask(rest[..take], mask, at));
    }

    /** appendPayload. */
    method AppendPayload(payload: bytes, mask: bytes, offset: nat, frameRemaining: nat)
      requires |mask| == 4 && BuffersOK(buffers) && |payload| <= frameRemaining
      requires offset + Room(buffers) == Covered(offset, offset + frameRemaining)
      modifies this`buffers
      ensures BuffersOK(buffers)
      ensures Contents(buffers) == old(Contents(buffers)) + Unmask(payload, mask, offset)
      ensures offset + |payload| + Room(buffers) == Covered(offset + |payload|, offset + frameRemaining)
      ensures |buffers| - Chunks(offset + |payload|) == old(|buffers|) - Chunks(offset)
    {
      hide Unmask, Chunks, Covered, Contents, BuffersOK, Room;
      var (rest, at, remaining) := (payload, offset, frameRemaining);
      assert payload[..0] == [] && payload[0..] == payload;
      assert Contents(buffers) + Unmask([], mask, offset) == Contents(buffers);
      while rest != []
        invariant BuffersOK(buffers)
        invariant offset <= at <= offset + |payload| && rest == payload[at - offset..]
        invariant remaining == frameRemaining - (at - offset)
        invariant Contents(buffers) == old(Contents(buffers)) + Unmask(payload[..at - offset], mask, offset)
        invariant at + Room(buffers) == Covered(at, offset + frameRemaining)
        invariant |buffers| - Chunks(at) == old(|buffers|) - Chunks(offset)
        decreases |rest|
      {
        var take := FillBuffer(rest, mask, at, remaining);
        UnmaskSplit(payload[..at - offset], rest[..take], mask, offset);
        assert payload[..at + take - offset] == payload[..at - offset] + rest[..take];
        rest := rest[take..];
        at := at + take;
        remaining := remaining - take;
      }
      assert payload[..at - offset] == payload;
    }

    /** prepareFrame for a data frame: the storage of the whole frame is reserved before any of it is allocated. */
    method PrepareData(h: Head) returns (granted: bool)
      requires Valid() && pending.None? && !closed && |h.mask| == 4
      requires HeadOK(h, fragmented) && h.opcode != TEXT && !Control(h.opcode)
      modifies this`messageOwned, this`asked, this`pending
      ensures Valid()
      ensures var before := old(View());
              var owned := before.owned + h.length + Nodes(before, h.length) * policy.fragmentBytes;
              && granted == policy.grants(before.asked, owned)
              && (granted ==> View() == before.(owned := owned, asked := before.asked + 1, pending := Some(Frame(h, []))))
              && (!granted ==> View() == before)
      ensures granted ==> pending.Some? && pending.value.received == 0
      ensures !granted ==> pending.None?
    {
      hide Chunks, Contents, BuffersOK, NodeBytes, Room, Covered, HeadOK;
      EmptyCoversNothing(0);
      EmptyCoversNothing(h.length);
      ChunksOf(h.length);
      ghost var before := View();
      var chunks := if h.length == 0 then 0 else (h.length + CHUNK - 1) / CHUNK;
      var nodes := if chunks != 0 && buffers == [] then chunks - 1 else chunks;
      assert nodes == Nodes(before, h.length);
      var owned := messageOwned + h.length + nodes * policy.fragmentBytes;
      granted := policy.grants(asked, owned);
      if granted {
        NodesAdd(before, h.length, policy.fragmentBytes);
        messageOwned := owned;
        asked := asked + 1;
        pending := Some(Pending(h, [], 0, true));
        assert Contents(buffers)[messageBytes..] == [];
      }
    }

    /** prepareFrame. */
    method PrepareFrame(h: Head) returns (error: Option<Error>)
      requires Valid() && pending.None? && !closed && (h.masked ==> |h.mask| == 4)
      modifies this`messageOwned, this`asked, this`pending
      ensures Valid()
      ensures Prepare(policy, old(View()), h) ==
              (match error case None => Ready(View()) case Some(e) => Refused(e))
      ensures error.None? ==> pending.Some? && pending.value.received == 0
      ensures error.Some? ==> pending.None? && View() == old(View())
    {
      hide Chunks, Contents, BuffersOK, NodeBytes, Covered, Room, Nodes;
      EmptyCoversNothing(0);
      error := None;
      if !HeadOK(h, fragmented) || h.opcode == TEXT {
        error := Some(Protocol);
      } else if Control(h.opcode) {
        pending := Some(Pending(h, [], 0, false));
      } else if h.length > policy.maxMessage - messageBytes {
        error := Some(TooLarge);
      } else {
        var granted := PrepareData(h);
        if !granted {
          error := Some(Resource);
        }
      }
    }

    /** The next piece of the pending frame's payload, copied and unmasked. */
    method TakePayload(piece: bytes)
      requires Valid() && pending.Some? && pending.value.received + |piece| <= pending.value.head.length
      modifies this
      ensures Valid() && View() == Receive(old(View()), piece)
      ensures closed == old(closed)
      ensures pending.Some? && pending.value.head == old(pending.value.head)
      ensures pending.value.received == old(pending.value.received) + |piece|
    {
      hide Chunks, Contents, BuffersOK, NodeBytes, Unmask, Room;
      var f := pending.value;
      ghost var was := Contents(buffers);
      if f.data {
        AppendPayload(piece, f.head.mask, f.received, f.head.length - f.received);
        pending := Some(f.(received := f.received + |piece|));
        assert Contents(buffers)[..messageBytes] == was[..messageBytes];
        assert Contents(buffers)[messageBytes..] == was[messageBytes..] + Unmask(piece, f.head.mask, f.received);
      } else {
        pending := Some(f.(payload := f.payload + Unmask(piece, f.head.mask, f.received),
                           received := f.received + |piece|));
      }
    }

    /** The pending frame is over: its payload, if data, now belongs to the message. */
    method DetachFrame() returns (f: Pending)
      requires Valid() && Whole(View())
      modifies this
      ensures Valid() && pending.None? && old(pending) == Some(f)
      ensures var m := old(View());
              && (f.data ==> View() == m.(pending := None, message := m.message + m.pending.value.received,
                                          buffers := m.buffers + Chunks(f.head.length)))
              && (f.data ==> View().message == Contents(buffers))
              && (!f.data ==> View() == m.(pending := None) && f.payload == m.pending.value.received)
    {
      hide Chunks, Contents, BuffersOK, NodeBytes;
      EmptyCoversNothing(0);
      f := pending.value;
      CoversItAll(f.head.length);
      assert Contents(buffers)[..messageBytes] + Contents(buffers)[messageBytes..] == Contents(buffers);
      pending := None;
      if f.data {
        messageBytes := messageBytes + f.head.length;
        assert Contents(buffers)[..messageBytes] == Contents(buffers);
      }
    }

    /** The end of a frame: the pending frame is detached and applied. */
    method ApplyFrame() returns (message: Option<Message>, error: Option<Error>)
      requires Valid() && Whole(View()) && !closed
      modifies this
      ensures Valid() && pending.None?
      ensures match Apply(policy, old(View()))
              case Applied(m, x) => error == None && message == x && View() == m
              case Failed(e) => error == Some(e) && message == None
      ensures error.None? && message.None? ==> !closed
    {
      hide Chunks, BuffersOK, NodeBytes, Covered, Room, Contents;
      EmptyCoversNothing(0);
      var f := DetachFrame();
      message := None;
      error := None;
      if f.head.opcode == PING || f.head.opcode == PONG {
        message := Some(Message(f.head.opcode, f.payload));
      } else if f.head.opcode == CLOSE {
        if policy.closeOK(f.payload) {
          closed := true;
          message := Some(Message(CLOSE, f.payload));
        } else {
          error := Some(Protocol);
        }
      } else if f.head.fin {
        if messageBytes == 0 {
          error := Some(Protocol);
        } else {
          message := Some(Message(BINARY, Contents(buffers)));
          ClearMessage();
        }
      } else {
        fragmented := true;
      }
    }

    /**
     * decodeWindow: at most one message, sixteen frames and `budget` bytes of payload. Decoding the whole input from
     * the old state is this step followed by decoding the rest from the new one.
     */
    method DecodeWindow(input: bytes, budget: int)
      returns (consumed: nat, transformed: nat, limit: Limit, message: Option<Message>, error: Option<Error>)
      requires Valid() && Waiting()
      modifies this
      ensures Valid() && Waiting() && consumed <= |input| && transformed <= Max(budget, 0)
      ensures old(closed) ==> error == Some(Protocol) && message == None && consumed == 0 && View() == old(View())
      ensures !old(closed) && error.None? ==>
                Run(policy, old(View()), input) == Push(message, Run(policy, View(), input[consumed..]))
      ensures !old(closed) && error.Some? ==>
                var o := Run(policy, old(View()), input);
                o.error == error && o.messages == (match message case None => [] case Some(x) => [x])
      ensures error.None? && message.None? && limit == NoLimit ==>
                Run(policy, View(), input[consumed..]) == Outcome([], View(), input[consumed..], None)
      ensures limit == PayloadLimit ==> transformed == Max(budget, 0)
      ensures budget > 0 && error.None? && (message.Some? || limit != NoLimit) ==> consumed > 0
    {
      hide Run, Prepare, Receive, Apply, ParseHead, Valid, HeadOK;
      ghost var before := View();
      consumed, transformed, limit, message, error := 0, 0, NoLimit, None, None;
      assert input[0..] == input;
      if closed {
        error := Some(Protocol);
        return;
      }
      if budget <= 0 {
        limit := PayloadLimit;
        return;
      }
      var frames := 0;
      while frames < MAX_FRAMES
        invariant Valid() && Waiting() && !closed
        invariant consumed <= |input| && transformed < budget && transformed <= consumed
        invariant Run(policy, before, input) == Run(policy, View(), input[consumed..])
        invariant frames != 0 ==> consumed > 0 && pending.None?
        invariant limit == NoLimit && message == None && error == None
      {
        if pending.None? {
          var parsed := ParseHead(input[consumed..]);
          match parsed
          case NeedMore => RunStalls(policy, View(), input[consumed..]); return;
          case BadHead => RunRejects(policy, View(), input[consumed..]); error := Some(Protocol); return;
          case GotHead(h, size) =>
            RunReadsHead(policy, View(), input[consumed..]);
            error := PrepareFrame(h);
            if error.Some? {
              return;
            }
            assert input[consumed..][size..] == input[consumed + size..];
            consumed := consumed + size;
        }
        consumed, transformed, limit := ReadPayload(input, budget, consumed, transformed);
        if pending.value.received < pending.value.head.length {
          return;
        }
        RunApplies(policy, View(), input[consumed..]);
        message, error := ApplyFrame();
        if error.Some? {
          return;
        }
        if closed && consumed != |input| {
          error := Some(Protocol);
          RunRefusesMore(policy, View(), input[consumed..]);
          return;
        }
        if message.Some? {
          return;
        }
        if transformed == budget {
          limit := PayloadLimit;
          return;
        }
        frames := frames + 1;
      }
      limit := FrameLimit;
    }

    /** The inner loop of decodeWindow: payload of the pending frame, in pieces of at most 64 KiB. */
    method ReadPayload(input: bytes, budget: nat, start: nat, done: nat)
      returns (consumed: nat, transformed: nat, limit: Limit)
      requires Valid() && pending.Some? && start <= |input| && done <= start && done < budget && !closed
      modifies this
      ensures Valid() && pending.Some? && !closed
      ensures start <= consumed <= |input| && transformed <= budget && transformed <= consumed
      ensures Run(policy, old(View()), input[start..]) == Run(policy, View(), input[consumed..])
      ensures Waiting() ==>
                if limit == NoLimit then
                  Run(policy, View(), input[consumed..]) == Outcome([], View(), input[consumed..], None)
                else limit == PayloadLimit && transformed == budget
      ensures !Waiting() ==> limit == NoLimit && (old(Waiting()) ==> start < consumed)
    {
      hide Run, Receive, Valid, HeadOK;
      consumed, transformed, limit := start, done, NoLimit;
      while pending.value.received != pending.value.head.length
        invariant Valid() && pending.Some? && !closed
        invariant start <= consumed <= |input| && transformed <= budget && transformed <= consumed
        invariant Run(policy, old(View()), input[start..]) == Run(policy, View(), input[consumed..])
        invariant old(Waiting()) && !Waiting() ==> start < consumed
        invariant pending.value.received <= pending.value.head.length && limit == NoLimit
        decreases pending.value.head.length - pending.value.received
      {
        var remaining := pending.value.head.length - pending.value.received;
        var available := |input| - consumed;
        var allowance := budget - transformed;
        if available == 0 {
          assert input[consumed..] == [];
          RunWaits(policy, View());
          return;
        }
        if allowance == 0 {
          limit := PayloadLimit;
          return;
        }
        var take := Min(Min(remaining, available), Min(allowance, CHUNK));
        var piece := input[consumed..consumed + take];
        assert input[consumed..] == piece + input[consumed + take..];
        RunReceives(policy, View(), piece, input[consumed + take..]);
        TakePayload(piece);
        consumed := consumed + take;
        transformed := transformed + take;
      }
    }

    /** The message is handed over and its storage with it. */
    method ClearMessage()
      requires Valid() && pending.None?
      modifies this
      ensures Valid() && pending.None? && View() == Reset(old(View()))
    {
      hide Chunks, Covered, Contents, BuffersOK, NodeBytes, Room;
      EmptyCoversNothing(0);
      NothingStored(policy.fragmentBytes);
      buffers := [];
      messageBytes := 0;
      messageOwned := 0;
      fragmented := false;
    }
  }

  /** Calls the decoder on one input until it needs more, emitting what it finds; call k has budget budgets(k). */
  method DecodeInput(d: Decoder, input: bytes, budgets: nat -> nat, from: nat)
    returns (messages: seq<Message>, rest: bytes, calls: nat, error: Option<Error>)
    requires d.Valid() && d.Waiting() && (forall k :: 0 < budgets(k))
    modifies d
    ensures d.Valid() && d.Waiting()
    ensures var o := Run(d.policy, old(d.View()), input);
            && messages == o.messages && error == o.error
            && (error.None? ==> o == Outcome(messages, d.View(), rest, None))
  {
    hide Run, Decoder.Valid, Decoder.View;
    messages, rest, calls, error := [], input, from, None;
    ghost var before := d.View();
    assert Prepend([], Run(d.policy, before, input)) == Run(d.policy, before, input);
    while !(d.closed && rest == [])
      invariant d.Valid() && d.Waiting() && error == None
      invariant Run(d.policy, before, input) == Prepend(messages, Run(d.policy, d.View(), rest))
      decreases |rest|
    {
      var wasClosed := d.closed;
      var consumed, transformed, limit, message;
      consumed, transformed, limit, message, error := d.DecodeWindow(rest, budgets(calls));
      calls := calls + 1;
      if wasClosed {
        RunRefusesMore(d.policy, d.View(), rest);
        return;
      }
      PrependPush(messages, message, Run(d.policy, d.View(), rest[consumed..]));
      rest := rest[consumed..];
      if message.Some? {
        messages := messages + [message.value];
      }
      if error.Some? || (message.None? && limit == NoLimit) {
        return;
      }
    }
    RunIsOver(d.policy, d.View());
  }

  function Prepend(messages: seq<Message>, o: Outcome): Outcome {
    o.(messages := messages + o.messages)
  }

  lemma {:induction false} PrependPush(messages: seq<Message>, x: Option<Message>, o: Outcome)
    ensures Prepend(messages, Push(x, o)) ==
            Prepend(messages + (match x case None => [] case Some(y) => [y]), o)
  {
    match x
    case None => assert messages + [] == messages;
    case Some(y) => assert messages + ([y] + o.messages) == (messages + [y]) + o.messages;
  }

  lemma {:induction false} RunIsOver(p: Policy, m: Machine)
    requires MachineOK(m) && m.closed
    ensures Run(p, m, []) == Outcome([], m, [], None)
  {}

  /**
   * A connection's bytes arriving in any pieces, decoded with any positive budgets: the messages and the error are
   * those of decoding the whole stream at once.
   */
  method DecodeStream(policy: Policy, pieces: seq<bytes>, budgets: nat -> nat)
    returns (messages: seq<Message>, error: Option<Error>)
    requires forall k :: 0 < budgets(k)
    ensures var o := Run(policy, START, Flatten(pieces)); messages == o.messages && error == o.error
  {
    hide Run, Decoder.Valid, Decoder.View;
    var d := new Decoder(policy);
    var (rest, calls, i) := ([], 0, 0);
    messages, error := [], None;
    NothingToRead(policy, START);
    assert pieces[..0] == [];
    while i < |pieces|
      invariant i <= |pieces| && d.Valid() && d.Waiting() && fresh(d) && d.policy == policy && error == None
      invariant Run(policy, START, Flatten(pieces[..i])) == Outcome(messages, d.View(), rest, None)
    {
      var more;
      ghost var before := d.View();
      ghost var joined := rest + pieces[i];
      RunSplit(policy, START, Flatten(pieces[..i]), pieces[i]);
      FlattenMore(pieces, i);
      more, rest, calls, error := DecodeInput(d, rest + pieces[i], budgets, calls);
      messages := messages + more;
      if error.Some? {
        ErrorsStay(policy, pieces, i + 1);
        return;
      }
      i := i + 1;
    }
    assert pieces[..i] == pieces;
  }

  lemma {:induction false} FlattenMore(pieces: seq<bytes>, i: nat)
    requires i < |pieces|
    ensures Flatten(pieces[..i + 1]) == Flatten(pieces[..i]) + pieces[i]
  {
    assert pieces[..i + 1] == pieces[..i] + [pieces[i]];
    FlattenAppend(pieces[..i], [pieces[i]]);
  }

  lemma {:induction false} ErrorsStay(p: Policy, pieces: seq<bytes>, i: nat)
    requires i <= |pieces| && Run(p, START, Flatten(pieces[..i])).error.Some?
    ensures var (part, all) := (Run(p, START, Flatten(pieces[..i])), Run(p, START, Flatten(pieces)));
            part.messages == all.messages && part.error == all.error
  {
    hide Run;
    assert pieces == pieces[..i] + pieces[i..];
    FlattenAppend(pieces[..i], pieces[i..]);
    RunSplit(p, START, Flatten(pieces[..i]), Flatten(pieces[i..]));
  }

  lemma {:induction false} CoversItAll(length: nat)
    ensures Covered(length, length) == length
  {}

  lemma {:induction false} EmptyCoversNothing(length: nat)
    ensures Chunks(0) == 0 && Covered(0, length) == 0
  {}

  lemma {:induction false} NothingStored(fragmentBytes: nat)
    ensures BuffersOK([]) && Contents([]) == [] && Room([]) == 0 && NodeBytes(0, fragmentBytes) == 0
  {}

  lemma {:induction false} ChunksOf(length: nat)
    ensures Chunks(length) == (length + CHUNK - 1) / CHUNK && (length == 0 <==> Chunks(length) == 0)
  {}

  lemma {:induction false} ContentsStep(before: seq<Buffer>, after: seq<Buffer>, more: bytes)
    requires after != []
    requires || (|before| == |after| - 1 && after[..|before|] == before && after[|before|].data == [] + more)
             || (|before| == |after| && after[..|after| - 1] == before[..|after| - 1]
                 && after[|after| - 1].data == before[|after| - 1].data + more)
    ensures Contents(after) == Contents(before) + more
  {}

  lemma {:induction false} NodesGrow(few: nat, many: nat, fragmentBytes: nat)
    requires few <= many
    ensures NodeBytes(few, fragmentBytes) <= NodeBytes(many, fragmentBytes)
  {}
}
