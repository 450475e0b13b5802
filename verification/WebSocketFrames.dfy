/**
 * WebSocket framing as the server reads it (RFC 6455, sections 5.2 to 5.5): headers, masking, the
 * decoder's state machine over a whole stream, and what a client's frames mean.
 *
 * `Policy` holds the connection's limits, the answers of its payload reserver (of each call in turn, for
 * the size asked for: it depends on budgets shared with others) and the validity of a
 * close payload, which the decoder asks another library for.
 */
module WebSocketFrames {
  import opened Bytes

  const CHUNK := 64 * 1024
  const MAX_CONTROL_PAYLOAD := 125

  const CONTINUATION := 0
  const TEXT := 1
  const BINARY := 2
  const CLOSE := 8
  const PING := 9
  const PONG := 10

  datatype Policy = Policy(maxMessage: nat, fragmentBytes: nat, grants: (nat, nat) -> bool, closeOK: bytes -> bool)

  datatype Error = Protocol | TooLarge | Resource

  // ---------------------------------------------------------------- masking

  function PowerOfTwo(bits: nat): nat {
    if bits == 0 then 1 else 2 * PowerOfTwo(bits - 1)
  }

  /** Exclusive or of the low bits, from the lowest up. */
  function XorBits(a: nat, b: nat, bits: nat): (r: nat)
    ensures r < PowerOfTwo(bits)
  {
    if bits == 0 then 0 else 2 * XorBits(a / 2, b / 2, bits - 1) + (a % 2 + b % 2) % 2
  }

  lemma {:induction false} XorBitsTwice(a: nat, b: nat, bits: nat)
    requires a < PowerOfTwo(bits)
    ensures XorBits(XorBits(a, b, bits), b, bits) == a
  {
    if bits != 0 {
      var r := XorBits(a, b, bits);
      Halves(XorBits(a / 2, b / 2, bits - 1), (a % 2 + b % 2) % 2);
      Halves(a / 2, a % 2);
      XorBitsTwice(a / 2, b / 2, bits - 1);
      OneBit(a % 2, b % 2);
      assert XorBits(r, b, bits) == 2 * XorBits(r / 2, b / 2, bits - 1) + (r % 2 + b % 2) % 2;
    }
  }

  lemma {:induction false} Halves(half: nat, bit: nat)
    requires bit < 2
    ensures (2 * half + bit) / 2 == half && (2 * half + bit) % 2 == bit
  {}

  lemma {:induction false} OneBit(x: nat, y: nat)
    requires x < 2 && y < 2
    ensures ((x + y) % 2 + y) % 2 == x
  {}

  lemma {:induction false} EightBits()
    ensures PowerOfTwo(8) == 256
  {
    assert PowerOfTwo(4) == 16;
  }

  function Xor(a: byte, b: byte): byte {
    EightBits();
    XorBits(a, b, 8)
  }

  /** ws.Cipher: the mask repeats every four bytes of the frame. */
  function Unmask(s: bytes, mask: bytes, offset: nat): (r: bytes)
    requires |mask| == 4
    ensures |r| == |s|
  {
    seq(|s|, i requires 0 <= i < |s| => Xor(s[i], mask[(offset + i) % 4]))
  }

  lemma {:induction false} UnmaskSplit(a: bytes, b: bytes, mask: bytes, offset: nat)
    requires |mask| == 4
    ensures Unmask(a + b, mask, offset) == Unmask(a, mask, offset) + Unmask(b, mask, offset + |a|)
  {
    hide Xor;
  }

  lemma {:induction false} XorTwice(a: byte, b: byte)
    ensures Xor(Xor(a, b), b) == a
  {
    EightBits();
    XorBitsTwice(a, b, 8);
  }

  lemma {:induction false} UnmaskTwice(s: bytes, mask: bytes, offset: nat)
    requires |mask| == 4
    ensures Unmask(Unmask(s, mask, offset), mask, offset) == s
  {
    hide Xor;
    forall i | 0 <= i < |s| ensures Unmask(Unmask(s, mask, offset), mask, offset)[i] == s[i] {
      XorTwice(s[i], mask[(offset + i) % 4]);
    }
  }

  /** Bit k of a number, from the lowest. */
  predicate Bit(n: nat, k: nat) {
    if k == 0 then n % 2 == 1 else Bit(n / 2, k - 1)
  }

  /** Exclusive or, bit by bit: a bit is set exactly when the two bits differ. */
  lemma {:induction false} XorBitwise(a: nat, b: nat, bits: nat, k: nat)
    requires k < bits
    ensures Bit(XorBits(a, b, bits), k) <==> Bit(a, k) != Bit(b, k)
  {
    Halves(XorBits(a / 2, b / 2, bits - 1), (a % 2 + b % 2) % 2);
    if k > 0 {
      XorBitwise(a / 2, b / 2, bits - 1, k - 1);
    }
  }

  /** Its bits determine a number below a power of two. */
  lemma {:induction false} SameBits(a: nat, b: nat, bits: nat)
    requires a < PowerOfTwo(bits) && b < PowerOfTwo(bits)
    requires forall k: nat | k < bits :: Bit(a, k) <==> Bit(b, k)
    ensures a == b
  {
    if bits != 0 {
      forall k: nat | k < bits - 1 ensures Bit(a / 2, k) <==> Bit(b / 2, k) {
        assert Bit(a, k + 1) <==> Bit(b, k + 1);
      }
      assert Bit(a, 0) <==> Bit(b, 0);
      SameBits(a / 2, b / 2, bits - 1);
    }
  }

  /** Each bit of r's byte i differs between byte i of s and byte (offset + i) % 4 of the mask. */
  ghost predicate MaskedBits(s: bytes, mask: bytes, offset: nat, r: bytes)
    requires |mask| == 4
  {
    && |r| == |s|
    && forall i: nat, k: nat | i < |s| && k < 8 :: Bit(r[i], k) == (Bit(s[i], k) != Bit(mask[(offset + i) % 4], k))
  }

  /** Unmasking does exactly that. */
  lemma {:induction false} UnmaskExactly(s: bytes, mask: bytes, offset: nat, r: bytes)
    requires |mask| == 4
    ensures r == Unmask(s, mask, offset) <==> MaskedBits(s, mask, offset, r)
  {
    hide XorBits, Bit, PowerOfTwo;
    EightBits();
    var u := Unmask(s, mask, offset);
    forall i: nat, k: nat | i < |s| && k < 8 ensures Bit(u[i], k) == (Bit(s[i], k) != Bit(mask[(offset + i) % 4], k)) {
      XorBitwise(s[i], mask[(offset + i) % 4], 8, k);
    }
    if MaskedBits(s, mask, offset, r) {
      forall i: nat | i < |s| ensures r[i] == u[i] {
        SameBits(r[i], u[i], 8);
      }
      assert r == u;
    }
  }

  // ---------------------------------------------------------------- headers

  datatype Head = Head(fin: bool, rsv: bool, opcode: nat, masked: bool, mask: bytes, length: nat)

  datatype Parsed = NeedMore | BadHead | GotHead(head: Head, size: nat)

  function GetBE(s: bytes): nat {
    if s == [] then 0
    else
      var last: int := s[|s| - 1];
      GetBE(s[..|s| - 1]) * 0x100 + last
  }

  function PutBE(n: nat, count: nat): (s: bytes)
    ensures |s| == count
  {
    if count == 0 then [] else PutBE(n / 0x100, count - 1) + [n % 0x100]
  }

  function Power(count: nat): nat {
    if count == 0 then 1 else 0x100 * Power(count - 1)
  }

  lemma {:induction false} BERoundTrip(n: nat, count: nat)
    requires n < Power(count)
    ensures GetBE(PutBE(n, count)) == n
    decreases count
  {
    if count != 0 {
      BERoundTrip(n / 0x100, count - 1);
      var s := PutBE(n, count);
      assert s[..|s| - 1] == PutBE(n / 0x100, count - 1);
    }
  }

  function Extended(marker: nat): nat {
    if marker == 126 then 2 else if marker == 127 then 8 else 0
  }

  /** decodeWebSocketHeader: the minimal encoding of the length is required. */
  function ParseHead(s: bytes): (r: Parsed)
    ensures r.GotHead? ==> 2 <= r.size <= |s| && (r.head.masked ==> |r.head.mask| == 4)
  {
    if |s| < 2 then NeedMore
    else
      var (first: int, second: int) := (s[0], s[1]);
      var (masked, marker) := (second >= 0x80, second % 0x80);
      var extended := Extended(marker);
      var size := 2 + extended + (if masked then 4 else 0);
      if |s| < size then NeedMore
      else
        var length := if extended == 0 then marker else GetBE(s[2..2 + extended]);
        var mask := if masked then s[2 + extended..size] else [];
        if extended == 8 && s[2] >= 0x80 then BadHead
        else if (extended == 2 && length < 126) || (extended == 8 && length <= 65535) then BadHead
        else GotHead(Head(first >= 0x80, first / 0x10 % 0x8 != 0, first % 0x10, masked, mask, length), size)
  }

  lemma {:induction false} HeadStable(s: bytes, more: bytes)
    ensures !ParseHead(s).NeedMore? ==> ParseHead(s + more) == ParseHead(s)
  {
    hide GetBE;
    if |s| >= 2 {
      var second: int := s[1];
      var extended := Extended(second % 0x80);
      var size := 2 + extended + (if second >= 0x80 then 4 else 0);
      if |s| >= size {
        assert (s + more)[2..2 + extended] == s[2..2 + extended];
        assert (s + more)[2 + extended..size] == s[2 + extended..size];
      }
    }
  }

  predicate Control(opcode: nat) {
    opcode >= 8
  }

  /** The checks on a client frame header: reserved opcodes and bits, control frames, masking, fragmentation. */
  predicate HeadOK(h: Head, fragmented: bool) {
    && h.opcode in {CONTINUATION, TEXT, BINARY, CLOSE, PING, PONG}
    && (Control(h.opcode) ==> h.length <= MAX_CONTROL_PAYLOAD && h.fin)
    && !h.rsv && h.masked
    && (fragmented ==> h.opcode != TEXT && h.opcode != BINARY)
    && (!fragmented ==> h.opcode != CONTINUATION)
  }

  // ---------------------------------------------------------------- the machine

  datatype Message = Message(opcode: nat, payload: bytes)

  /** A frame whose header has been read, and its unmasked payload so far. */
  datatype Frame = Frame(head: Head, received: bytes)

  datatype Machine = Machine(
    fragmented: bool,
    message: bytes, // payload of the completed frames of the open message
    buffers: nat,   // payload buffers its frames needed
    owned: nat,     // what has been reserved for it
    asked: nat,     // grants the reserver has given so far
    pending: Option<Frame>,
    closed: bool)

  const START := Machine(false, [], 0, 0, 0, None, false)

  predicate MachineOK(m: Machine) {
    m.pending.Some? ==>
      |m.pending.value.head.mask| == 4 && |m.pending.value.received| <= m.pending.value.head.length
  }

  function Chunks(length: nat): nat {
    (length + CHUNK - 1) / CHUNK
  }

  /** Fragment nodes a data frame adds: the very first buffer of a message needs none. */
  function Nodes(m: Machine, length: nat): nat {
    if length != 0 && m.buffers == 0 then Chunks(length) - 1 else Chunks(length)
  }

  datatype Prepared = Ready(m: Machine) | Refused(error: Error)

  /** prepareFrame. */
  function Prepare(p: Policy, m: Machine, h: Head): (r: Prepared)
    requires MachineOK(m) && (h.masked ==> |h.mask| == 4)
    ensures r.Ready? ==> MachineOK(r.m) && r.m.pending == Some(Frame(h, []))
  {
    if !HeadOK(h, m.fragmented) || h.opcode == TEXT then Refused(Protocol)
    else if Control(h.opcode) then Ready(m.(pending := Some(Frame(h, []))))
    else if |m.message| + h.length > p.maxMessage then Refused(TooLarge)
    else
      var owned := m.owned + h.length + Nodes(m, h.length) * p.fragmentBytes;
      if !p.grants(m.asked, owned) then Refused(Resource)
      else Ready(m.(owned := owned, asked := m.asked + 1, pending := Some(Frame(h, []))))
  }

  /** Some more payload of the pending frame. */
  function Receive(m: Machine, s: bytes): (r: Machine)
    requires MachineOK(m) && m.pending.Some? && |m.pending.value.received| + |s| <= m.pending.value.head.length
    ensures MachineOK(r)
  {
    var f := m.pending.value;
    m.(pending := Some(f.(received := f.received + Unmask(s, f.head.mask, |f.received|))))
  }

  predicate Whole(m: Machine) {
    m.pending.Some? && |m.pending.value.received| == m.pending.value.head.length
  }

  datatype Applied = Applied(m: Machine, message: Option<Message>) | Failed(error: Error)

  function Reset(m: Machine): Machine {
    m.(message := [], buffers := 0, owned := 0, fragmented := false)
  }

  /** applyFrame on the completed pending frame. */
  function Apply(p: Policy, m: Machine): (r: Applied)
    requires MachineOK(m) && Whole(m)
    ensures r.Applied? ==> r.m.pending == None && MachineOK(r.m)
  {
    var f := m.pending.value;
    var done := m.(pending := None);
    if Control(f.head.opcode) then
      if f.head.opcode == CLOSE && !p.closeOK(f.received) then Failed(Protocol)
      else Applied(done.(closed := f.head.opcode == CLOSE), Some(Message(f.head.opcode, f.received)))
    else
      var total := m.message + f.received;
      if f.head.fin then
        if total == [] then Failed(Protocol) else Applied(Reset(done), Some(Message(BINARY, total)))
      else
        Applied(done.(message := total, buffers := m.buffers + Chunks(f.head.length), fragmented := true), None)
  }

  // ---------------------------------------------------------------- whole streams

  /** What a stream decodes to: messages, the state left, the undecided tail, and the error that ended it. */
  datatype Outcome = Outcome(messages: seq<Message>, m: Machine, rest: bytes, error: Option<Error>)

  function Push(message: Option<Message>, o: Outcome): Outcome {
    match message case None => o case Some(x) => o.(messages := [x] + o.messages)
  }

  function Run(p: Policy, m: Machine, s: bytes): (r: Outcome)
    requires MachineOK(m)
    ensures MachineOK(r.m)
    decreases |s|, if m.pending.Some? then 1 else 0
  {
    if m.closed then Outcome([], m, s, if s == [] then None else Some(Protocol))
    else if m.pending.None? then
      match ParseHead(s)
      case NeedMore => Outcome([], m, s, None)
      case BadHead => Outcome([], m, s, Some(Protocol))
      case GotHead(h, size) =>
        (match Prepare(p, m, h)
         case Refused(e) => Outcome([], m, s, Some(e))
         case Ready(n) => Run(p, n, s[size..]))
    else
      var f := m.pending.value;
      var take := Min(f.head.length - |f.received|, |s|);
      var n := Receive(m, s[..take]);
      if !Whole(n) then Outcome([], n, [], None)
      else match Apply(p, n)
        case Failed(e) => Outcome([], n, s[take..], Some(e))
        case Applied(next, message) => Push(message, Run(p, next, s[take..]))
  }

  lemma {:induction false} ReceiveSplit(m: Machine, a: bytes, b: bytes)
    requires MachineOK(m) && m.pending.Some? && |m.pending.value.received| + |a| + |b| <= m.pending.value.head.length
    ensures Receive(Receive(m, a), b) == Receive(m, a + b)
  {
    hide Unmask;
    var f := m.pending.value;
    UnmaskSplit(a, b, f.head.mask, |f.received|);
    assert f.received + Unmask(a, f.head.mask, |f.received|) + Unmask(b, f.head.mask, |f.received| + |a|)
        == f.received + Unmask(a + b, f.head.mask, |f.received|);
  }

  lemma {:induction false} ReceiveNothing(m: Machine)
    requires MachineOK(m) && m.pending.Some?
    ensures Receive(m, []) == m
  {
    assert m.pending.value.received + [] == m.pending.value.received;
  }

  /** Going on after an outcome. */
  function Resume(p: Policy, o: Outcome, more: bytes): Outcome
    requires MachineOK(o.m)
  {
    if o.error.Some? then o.(rest := o.rest + more)
    else
      var next := Run(p, o.m, o.rest + more);
      next.(messages := o.messages + next.messages)
  }

  lemma {:induction false} PushResume(p: Policy, x: Option<Message>, o: Outcome, more: bytes)
    requires MachineOK(o.m)
    ensures MachineOK(Push(x, o).m) && Resume(p, Push(x, o), more) == Push(x, Resume(p, o, more))
  {
    hide Run;
    if x.Some? && o.error.None? {
      var next := Run(p, o.m, o.rest + more);
      assert ([x.value] + o.messages) + next.messages == [x.value] + (o.messages + next.messages);
    }
  }

  /** Waiting in the middle of a payload and going on is the same as having had all of it. */
  lemma {:induction false} PartialPayload(p: Policy, m: Machine, a: bytes, b: bytes)
    requires MachineOK(m) && m.pending.Some? && !m.closed
    requires |m.pending.value.received| + |a| < m.pending.value.head.length
    ensures Run(p, m, a + b) == Run(p, Receive(m, a), b)
  {
    hide Apply, Prepare, ParseHead, Unmask;
    var f := m.pending.value;
    var n := Receive(m, a);
    var take := Min(f.head.length - |f.received|, |a + b|);
    var rest := Min(n.pending.value.head.length - |n.pending.value.received|, |b|);
    assert take == |a| + rest;
    assert (a + b)[..take] == a + b[..rest] && (a + b)[take..] == b[rest..];
    ReceiveSplit(m, a, b[..rest]);
  }

  /**
   * Decoding a stream in two parts gives what decoding it at once gives: the messages, the state and the error do
   * not depend on where the stream was cut.
   */
  lemma {:induction false} RunSplit(p: Policy, m: Machine, a: bytes, b: bytes)
    requires MachineOK(m)
    ensures Run(p, m, a + b) == Resume(p, Run(p, m, a), b)
    decreases |a|, if m.pending.Some? then 1 else 0
  {
    hide Apply, Prepare, Unmask, ParseHead;
    if m.closed {
      if a == [] {
        assert [] + b == b;
        assert [] + Run(p, m, b).messages == Run(p, m, b).messages;
      }
    } else if m.pending.None? {
      HeadStable(a, b);
      match ParseHead(a)
      case NeedMore => assert [] + Run(p, m, a + b).messages == Run(p, m, a + b).messages;
      case BadHead =>
      case GotHead(h, size) =>
        assert (a + b)[size..] == a[size..] + b;
        match Prepare(p, m, h)
        case Refused(_) =>
        case Ready(n) => RunSplit(p, n, a[size..], b);
    } else {
      var f := m.pending.value;
      var missing := f.head.length - |f.received|;
      if |a| < missing {
        assert a[..|a|] == a;
        PartialPayload(p, m, a, b);
        assert [] + b == b;
        assert [] + Run(p, Receive(m, a), b).messages == Run(p, Receive(m, a), b).messages;
      } else {
        var n := Receive(m, a[..missing]);
        assert (a + b)[..missing] == a[..missing] && (a + b)[missing..] == a[missing..] + b;
        match Apply(p, n)
        case Failed(_) =>
        case Applied(next, message) =>
          RunSplit(p, next, a[missing..], b);
          PushResume(p, message, Run(p, next, a[missing..]), b);
      }
    }
  }

  // ---------------------------------------------------------------- what a client sends

  /** A client's frame: a data frame of a message, or a control frame. */
  datatype ClientFrame = ClientFrame(fin: bool, opcode: nat, mask: bytes, payload: bytes)

  predicate FrameOK(f: ClientFrame) {
    |f.mask| == 4 && f.opcode in {CONTINUATION, BINARY, CLOSE, PING, PONG} && |f.payload| < Power(8) / 2
    && (Control(f.opcode) ==> f.fin && |f.payload| <= MAX_CONTROL_PAYLOAD)
  }

  function Marker(length: nat): nat {
    if length < 126 then length else if length <= 65535 then 126 else 127
  }

  function HeadOf(f: ClientFrame): Head {
    Head(f.fin, false, f.opcode, true, f.mask, |f.payload|)
  }

  /** The wire form of a masked frame (RFC 6455, section 5.2) with the minimal length encoding. */
  function EncodeHead(f: ClientFrame): bytes
    requires FrameOK(f)
  {
    var marker := Marker(|f.payload|);
    [(if f.fin then 0x80 else 0) + f.opcode, 0x80 + marker] + PutBE(|f.payload|, Extended(marker)) + f.mask
  }

  function EncodeFrame(f: ClientFrame): bytes
    requires FrameOK(f)
  {
    EncodeHead(f) + Unmask(f.payload, f.mask, 0)
  }

  lemma {:induction false} PowerValues()
    ensures Power(2) == 65536 && Power(8) == 0x1_0000_0000_0000_0000
  {
    assert Power(4) == 0x1_0000_0000;
  }

  /** The top byte of an eight-byte length below 2^63 has its high bit clear. */
  lemma {:induction false} TopByte(n: nat, count: nat)
    requires 0 < count && n < Power(count) / 2
    ensures PutBE(n, count)[0] < 0x80
    decreases count
  {
    if count == 1 {
      assert Power(1) == 256;
      assert PutBE(n, 1) == PutBE(n / 0x100, 0) + [n % 0x100];
    } else {
      assert Power(count) == 0x100 * Power(count - 1);
      EvenPower(count - 1);
      TopByte(n / 0x100, count - 1);
      assert PutBE(n, count)[0] == PutBE(n / 0x100, count - 1)[0];
    }
  }

  lemma {:induction false} EvenPower(count: nat)
    requires 0 < count
    ensures Power(count) % 2 == 0
  {}

  lemma {:induction false} EncodedHeadParses(f: ClientFrame, tail: bytes)
    requires FrameOK(f)
    ensures ParseHead(EncodeHead(f) + tail) == GotHead(HeadOf(f), |EncodeHead(f)|)
  {
    hide GetBE, PutBE, Power, EncodeHead;
    var n := |f.payload|;
    var extended := Extended(Marker(n));
    HeadBytes(f, tail);
    PowerValues();
    if extended != 0 {
      BERoundTrip(n, extended);
      if extended == 8 {
        TopByte(n, 8);
      }
    }
  }

  lemma {:induction false} HeadBytes(f: ClientFrame, tail: bytes)
    requires FrameOK(f)
    ensures var s := EncodeHead(f) + tail;
            var marker := Marker(|f.payload|);
            var extended := Extended(marker);
            && |EncodeHead(f)| == 2 + extended + 4
            && s[0] == (if f.fin then 0x80 else 0) + f.opcode && s[1] == 0x80 + marker
            && s[2..2 + extended] == PutBE(|f.payload|, extended)
            && s[2 + extended..2 + extended + 4] == f.mask
            && (extended == 8 ==> s[2] == PutBE(|f.payload|, 8)[0])
  {
    hide PutBE, Power;
  }

  /** A message being assembled from data frames; control frames come in between. */
  datatype Assembly = Assembly(open: bool, so: bytes)

  /** What one frame means. */
  function Means(a: Assembly, f: ClientFrame): (Assembly, Option<Message>) {
    if Control(f.opcode) then (a, Some(Message(f.opcode, f.payload)))
    else if f.fin then (Assembly(false, []), Some(Message(BINARY, a.so + f.payload)))
    else (Assembly(true, a.so + f.payload), None)
  }

  function MeansAll(a: Assembly, fs: seq<ClientFrame>): seq<Message>
    decreases |fs|
  {
    if fs == [] then []
    else
      var (b, message) := Means(a, fs[0]);
      (match message case None => [] case Some(x) => [x]) + MeansAll(b, fs[1..])
  }

  /** Valid in sequence: fragmentation in order, no empty message, everything within the limits; no close. */
  predicate Sendable(p: Policy, a: Assembly, buffers: nat, owned: nat, asked: nat, fs: seq<ClientFrame>)
    decreases |fs|
  {
    fs != [] ==>
      var f := fs[0];
      var m := Machine(a.open, a.so, buffers, owned, asked, None, false);
      && FrameOK(f) && f.opcode != CLOSE
      && (if Control(f.opcode) then Sendable(p, a, buffers, owned, asked, fs[1..])
          else
            var grown := owned + |f.payload| + Nodes(m, |f.payload|) * p.fragmentBytes;
            && (f.opcode == CONTINUATION <==> a.open)
            && |a.so| + |f.payload| <= p.maxMessage && p.grants(asked, grown)
            && (f.fin ==> a.so + f.payload != [])
            && (if f.fin then Sendable(p, Assembly(false, []), 0, 0, asked + 1, fs[1..])
                else Sendable(p, Assembly(true, a.so + f.payload), buffers + Chunks(|f.payload|), grown, asked + 1, fs[1..])))
  }

  function EncodeFrames(fs: seq<ClientFrame>): bytes
    requires forall i | 0 <= i < |fs| :: FrameOK(fs[i])
  {
    if fs == [] then [] else EncodeFrame(fs[0]) + EncodeFrames(fs[1..])
  }

  /** One encoded frame at the front of a stream is read, unmasked and applied. */
  lemma {:induction false} OneFrame(p: Policy, m: Machine, f: ClientFrame, tail: bytes)
    requires FrameOK(f) && MachineOK(m) && m.pending.None? && !m.closed
    requires Prepare(p, m, HeadOf(f)).Ready?
    ensures var n := Prepare(p, m, HeadOf(f)).m.(pending := Some(Frame(HeadOf(f), f.payload)));
            && MachineOK(n) && Whole(n)
            && Run(p, m, EncodeFrame(f) + tail) ==
               (match Apply(p, n)
                case Failed(e) => Outcome([], n, tail, Some(e))
                case Applied(next, message) => Push(message, Run(p, next, tail)))
  {
    hide Apply, Unmask, ParseHead, EncodeHead, HeadOK, Nodes;
    var masked := Unmask(f.payload, f.mask, 0);
    var s := EncodeFrame(f) + tail;
    assert s == EncodeHead(f) + (masked + tail);
    EncodedHeadParses(f, masked + tail);
    assert s[|EncodeHead(f)|..] == masked + tail;
    var q := Prepare(p, m, HeadOf(f)).m;
    assert (masked + tail)[..|masked|] == masked && (masked + tail)[|masked|..] == tail;
    UnmaskTwice(f.payload, f.mask, 0);
    assert Receive(q, masked).pending.value.received == [] + f.payload == f.payload;
  }

  lemma {:induction false} NothingToRead(p: Policy, m: Machine)
    requires m.pending.None? && !m.closed
    ensures Run(p, m, []) == Outcome([], m, [], None)
  {
    assert ParseHead([]).NeedMore?;
  }

  /** A valid stream of masked frames decodes to exactly the messages its frames mean. */
  lemma {:induction false} StreamMeans(p: Policy, a: Assembly, buffers: nat, owned: nat, asked: nat,
                                      fs: seq<ClientFrame>)
    requires Sendable(p, a, buffers, owned, asked, fs)
    ensures forall i | 0 <= i < |fs| :: FrameOK(fs[i])
    ensures var o := Run(p, Machine(a.open, a.so, buffers, owned, asked, None, false), EncodeFrames(fs));
            o.messages == MeansAll(a, fs) && o.error == None && o.rest == []
    decreases |fs|
  {
    hide ParseHead, Unmask, EncodeFrame, Nodes, Run, Chunks;
    var m := Machine(a.open, a.so, buffers, owned, asked, None, false);
    if fs == [] {
      NothingToRead(p, m);
    } else {
      var f := fs[0];
      var rest := fs[1..];
      var (b, message) := Means(a, f);
      var grown := owned + |f.payload| + Nodes(m, |f.payload|) * p.fragmentBytes;
      if Control(f.opcode) {
        StreamMeans(p, a, buffers, owned, asked, rest);
      } else if f.fin {
        StreamMeans(p, b, 0, 0, asked + 1, rest);
      } else {
        StreamMeans(p, b, buffers + Chunks(|f.payload|), grown, asked + 1, rest);
      }
      assert EncodeFrames(fs) == EncodeFrame(f) + EncodeFrames(rest);
      OneFrame(p, m, f, EncodeFrames(rest));
    }
  }
}
