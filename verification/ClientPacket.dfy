/**
 * The client packet stream inside an Obfuscated2 connection: three framings, the encoder, and the
 * incremental decoder with its bounded, reused buffer, against whole-stream decoding.
 */
module ClientPacket {
  import opened Bytes

  const MAX_CLIENT_PACKET_SIZE := 262144 * 4 - 4096
  const MAX_HEADER := 4
  const MAX_RETAINED := 64 * 1024

  datatype Framing = Abridged | Intermediate | PaddedIntermediate

  datatype PacketError = InvalidPacket | PacketTooLarge | Incomplete | Closed

  datatype Packet = Packet(payload: bytes, quickAck: bool)

  /** The configurations validateClientPacketCodec admits. */
  predicate ValidMax(max: nat) {
    4 <= max <= MAX_CLIENT_PACKET_SIZE
  }

  // ---------------------------------------------------------------- headers

  datatype Header =
    | NeedMore
    | Bad(error: PacketError)
    | Header(size: nat, wire: nat, payload: nat, quickAck: bool)

  function ParseAbridged(data: bytes, max: nat): Header {
    if |data| < 1 then NeedMore
    else
      var first: int := data[0];
      var quick, short := first >= 0x80, first % 0x80;
      if short == 0x7f && |data| < MAX_HEADER then NeedMore
      else
        var words: int := if short == 0x7f then Get24(data[3], data[2], data[1]) else short;
        var size := if short == 0x7f then MAX_HEADER else 1;
        if short == 0x7f && words < 0x7f then Bad(InvalidPacket)
        else if words == 0 then Bad(InvalidPacket)
        else if words * 4 > max then Bad(PacketTooLarge)
        else Header(size, words * 4, words * 4, quick)
  }

  function ParseIntermediate(data: bytes, max: nat, padded: bool): Header {
    if |data| < MAX_HEADER then NeedMore
    else
      var word := GetLE32(data[..MAX_HEADER]);
      var quick, declared := word >= 0x8000_0000, word % 0x8000_0000;
      if declared >= 0x4000_0000 then Bad(InvalidPacket)
      else if declared < 4 then Bad(InvalidPacket)
      else if declared > max then Bad(PacketTooLarge)
      else if !padded && declared % 4 != 0 then Bad(InvalidPacket)
      else
        var payload := if padded then declared - declared % 4 else declared;
        Header(MAX_HEADER, declared, payload, quick)
  }

  function ParseHeader(framing: Framing, data: bytes, max: nat): (h: Header)
    ensures h.Header? ==> 0 < h.size <= |data| && h.size <= MAX_HEADER && 4 <= h.payload <= h.wire <= max
    ensures h.NeedMore? ==> |data| < MAX_HEADER
  {
    match framing
    case Abridged => ParseAbridged(data, max)
    case Intermediate => ParseIntermediate(data, max, false)
    case PaddedIntermediate => ParseIntermediate(data, max, true)
  }

  // ---------------------------------------------------------------- one packet, a whole stream

  datatype Next = More | Fail(error: PacketError) | Got(packet: Packet, used: nat)

  /** What the front of a stream holds. */
  function NextPacket(framing: Framing, max: nat, data: bytes): (r: Next)
    ensures r.Got? ==> 0 < r.used <= |data|
  {
    match ParseHeader(framing, data, max)
    case NeedMore => More
    case Bad(e) => Fail(e)
    case Header(size, wire, payload, quick) =>
      if |data| < size + wire then More
      else Got(Packet(data[size..size + payload], quick), size + wire)
  }

  datatype Decoded = Decoded(packets: seq<Packet>, rest: bytes, error: Option<PacketError>)

  /** Whole-stream decoding: packets until more bytes are needed or the stream is invalid. */
  function Decode(framing: Framing, max: nat, stream: bytes): Decoded
    decreases |stream|
  {
    match NextPacket(framing, max, stream)
    case More => Decoded([], stream, None)
    case Fail(e) => Decoded([], stream, Some(e))
    case Got(p, n) =>
      var d := Decode(framing, max, stream[n..]);
      d.(packets := [p] + d.packets)
  }

  lemma {:induction false} HeaderStable(framing: Framing, max: nat, data: bytes, more: bytes)
    ensures var h := ParseHeader(framing, data, max); !h.NeedMore? ==> ParseHeader(framing, data + more, max) == h
  {
    if |data| >= MAX_HEADER {
      assert (data + more)[..MAX_HEADER] == data[..MAX_HEADER];
    }
  }

  /** More bytes never change what was already decided. */
  lemma {:induction false} NextStable(framing: Framing, max: nat, data: bytes, more: bytes)
    ensures var r := NextPacket(framing, max, data); !r.More? ==> NextPacket(framing, max, data + more) == r
  {
    hide ParseHeader;
    HeaderStable(framing, max, data, more);
    match ParseHeader(framing, data, max)
    case NeedMore =>
    case Bad(_) =>
    case Header(size, wire, payload, _) =>
      if |data| >= size + wire {
        assert (data + more)[size..size + payload] == data[size..size + payload];
      }
  }

  /** A buffer at its bound always yields a packet or an error. */
  lemma {:induction false} FullBufferDecides(framing: Framing, max: nat, data: bytes)
    requires |data| >= max + MAX_HEADER
    ensures !NextPacket(framing, max, data).More?
  {}

  // ---------------------------------------------------------------- encoding

  /** ClientPacketEncoder.Encode, with the random padding as a parameter. */
  function Encode(framing: Framing, max: nat, packet: bytes, padding: bytes): Option<bytes> {
    if |packet| < 4 || |packet| % 4 != 0 || |packet| > max then None
    else match framing
      case Abridged =>
        var words := |packet| / 4;
        if words > 0xFF_FFFF then None
        else if words <= 0x7e then Some([words] + packet)
        else Some([0x7f, words % 0x100, words / 0x100 % 0x100, words / 0x100 / 0x100] + packet)
      case Intermediate => if |packet| <= MAX_UINT32 then Some(PutLE32(|packet|) + packet) else None
      case PaddedIntermediate =>
        if |packet| + |padding| <= MAX_UINT32 then Some(PutLE32(|packet| + |padding|) + (packet + padding)) else None
  }

  /** The size a decoder counts against its maximum. */
  function WireSize(framing: Framing, packet: bytes, padding: bytes): nat {
    if framing == PaddedIntermediate then |packet| + |padding| else |packet|
  }

  /** A client asks for a quick acknowledgement with the top bit of its header's first or last byte. */
  function Flagged(framing: Framing, wire: bytes, quickAck: bool): (r: bytes)
    ensures |r| == |wire|
  {
    var at := if framing == Abridged then 0 else MAX_HEADER - 1;
    if quickAck && at < |wire| && wire[at] < 0x80 then wire[at := wire[at] + 0x80] else wire
  }

  function Judged(h: Header, quickAck: bool): Header {
    if h.Header? then h.(quickAck := quickAck) else h
  }

  /** In the intermediate framings it is the top bit of the length. */
  lemma {:induction false} FlaggedWord(data: bytes, quickAck: bool)
    requires |data| >= MAX_HEADER && data[MAX_HEADER - 1] < 0x80
    ensures Flagged(Intermediate, data, false) == data
    ensures var word := GetLE32(data[..MAX_HEADER]);
            && word < 0x8000_0000
            && GetLE32(Flagged(Intermediate, data, quickAck)[..MAX_HEADER]) == word + (if quickAck then 0x8000_0000 else 0)
  {
    var flagged := Flagged(Intermediate, data, quickAck);
    TopByte(data[..MAX_HEADER]);
    TopByte(flagged[..MAX_HEADER]);
    assert flagged[..MAX_HEADER - 1] == data[..MAX_HEADER - 1];
  }

  lemma {:induction false} FlaggedIntermediate(data: bytes, max: nat, padded: bool, quickAck: bool)
    requires |data| >= MAX_HEADER && data[MAX_HEADER - 1] < 0x80
    ensures ParseIntermediate(Flagged(Intermediate, data, quickAck), max, padded) == Judged(ParseIntermediate(data, max, padded), quickAck)
  {
    FlaggedWord(data, quickAck);
    hide Flagged, GetLE32;
    TopBit(GetLE32(data[..MAX_HEADER]));
  }

  lemma {:induction false} FlaggedAbridged(data: bytes, max: nat, quickAck: bool)
    requires |data| >= MAX_HEADER && data[0] < 0x80
    ensures ParseAbridged(Flagged(Abridged, data, quickAck), max) == Judged(ParseAbridged(data, max), quickAck)
  {
    var flagged := Flagged(Abridged, data, quickAck);
    assert flagged[1..] == data[1..];
    assert (data[0] as int + 0x80) % 0x80 == data[0] as int % 0x80;
  }

  lemma {:induction false} FlaggedMore(framing: Framing, wire: bytes, tail: bytes, quickAck: bool)
    requires |wire| >= MAX_HEADER
    ensures Flagged(framing, wire + tail, quickAck) == Flagged(framing, wire, quickAck) + tail
  {}

  /** A header is judged the same with the bit set or clear, and the bit is reported. */
  lemma {:induction false} FlagReported(framing: Framing, data: bytes, max: nat, quickAck: bool)
    requires |data| >= MAX_HEADER && data[if framing == Abridged then 0 else MAX_HEADER - 1] < 0x80
    ensures ParseHeader(framing, Flagged(framing, data, quickAck), max) == Judged(ParseHeader(framing, data, max), quickAck)
  {
    hide ParseAbridged, ParseIntermediate;
    match framing
    case Abridged => FlaggedAbridged(data, max, quickAck);
    case Intermediate => FlaggedIntermediate(data, max, false, quickAck);
    case PaddedIntermediate => FlaggedIntermediate(data, max, true, quickAck);
  }

  /** The top byte of a little-endian word is the last one. */
  lemma {:induction false} TopByte(b: bytes)
    requires |b| == 4
    ensures GetLE32(b) == Get24(b[2], b[1], b[0]) + b[3] as int * 0x100_0000
  {}

  lemma {:induction false} TopBit(n: nat)
    requires n < 0x8000_0000
    ensures n % 0x8000_0000 == n && (n + 0x8000_0000) % 0x8000_0000 == n
  {}

  lemma {:induction false} AbridgedHeader(words: nat, packet: bytes, tail: bytes, max: nat)
    requires 1 <= words <= 0xFF_FFFF && |packet| == words * 4
    ensures words <= 0x7e ==> ParseAbridged([words] + packet + tail, max) == Sized(1, |packet|, |packet|, max)
    ensures words > 0x7e ==>
            ParseAbridged([0x7f, words % 0x100, words / 0x100 % 0x100, words / 0x100 / 0x100] + packet + tail, max)
            == Sized(4, |packet|, |packet|, max)
  {}

  /** The header of a packet of `wire` bytes, if the decoder's maximum allows it. */
  function Sized(size: nat, wire: nat, payload: nat, max: nat): Header {
    if wire > max then Bad(PacketTooLarge) else Header(size, wire, payload, false)
  }

  lemma {:induction false} IntermediateHeader(declared: nat, body: bytes, tail: bytes, max: nat, padded: bool)
    requires 4 <= declared < 0x4000_0000 && |body| == declared && (!padded ==> declared % 4 == 0)
    ensures ParseIntermediate(PutLE32(declared) + body + tail, max, padded)
            == Sized(MAX_HEADER, declared, if padded then declared - declared % 4 else declared, max)
  {
    LE32RoundTrip(declared);
    assert (PutLE32(declared) + body + tail)[..MAX_HEADER] == PutLE32(declared);
  }

  /** The header of an encoded packet. */
  lemma {:induction false} EncodedHeader(framing: Framing, encoderMax: nat, max: nat, packet: bytes, padding: bytes, tail: bytes)
    requires |packet| <= MAX_CLIENT_PACKET_SIZE && |padding| <= 3
    requires Encode(framing, encoderMax, packet, padding).Some?
    ensures var wire := Encode(framing, encoderMax, packet, padding).value;
            var size := |wire| - WireSize(framing, packet, padding);
            && |wire| >= MAX_HEADER && wire[if framing == Abridged then 0 else MAX_HEADER - 1] < 0x80
            && size == (if framing == Abridged && wire[0] != 0x7f then 1 else MAX_HEADER)
            && wire[size..size + |packet|] == packet
            && ParseHeader(framing, wire + tail, max) == Sized(size, WireSize(framing, packet, padding), |packet|, max)
  {
    hide ParseAbridged, ParseIntermediate;
    var wire := Encode(framing, encoderMax, packet, padding).value;
    match framing
    case Abridged =>
      var words := |packet| / 4;
      AbridgedHeader(words, packet, tail, max);
    case Intermediate =>
      IntermediateHeader(|packet|, packet, tail, max, false);
    case PaddedIntermediate =>
      Words(|packet|, |padding|);
      IntermediateHeader(|packet| + |padding|, packet + padding, tail, max, true);
  }

  /**
   * A decoder recovers an encoded packet, with the quick-ack bit set or clear and whatever follows it, exactly when its
   * declared size fits the decoder's maximum; otherwise it is too large.
   */
  lemma {:induction false} EncodedDecodes(framing: Framing, encoderMax: nat, max: nat, packet: bytes, padding: bytes, quickAck: bool,
                                          tail: bytes)
    requires |packet| <= MAX_CLIENT_PACKET_SIZE && |padding| <= 3
    requires Encode(framing, encoderMax, packet, padding).Some?
    ensures var plain := Encode(framing, encoderMax, packet, padding).value;
            && |plain| >= MAX_HEADER
            && var wire := Flagged(framing, plain, quickAck);
               NextPacket(framing, max, wire + tail) ==
                 if WireSize(framing, packet, padding) <= max then Got(Packet(packet, quickAck), |wire|) else Fail(PacketTooLarge)
  {
    hide ParseHeader, Encode;
    EncodedHeader(framing, encoderMax, max, packet, padding, tail);
    var plain := Encode(framing, encoderMax, packet, padding).value;
    var wire := Flagged(framing, plain, quickAck);
    FlaggedMore(framing, plain, tail, quickAck);
    FlagReported(framing, plain + tail, max, quickAck);
    var size := |wire| - WireSize(framing, packet, padding);
    FlaggedPayload(framing, plain, size, quickAck);
    assert (wire + tail)[size..] == wire[size..] + tail && wire[size..][..|packet|] == plain[size..size + |packet|];
    assert (wire + tail)[size..size + |packet|] == packet;
  }

  lemma {:induction false} FlaggedPayload(framing: Framing, wire: bytes, size: nat, quickAck: bool)
    requires MAX_HEADER <= |wire| && size == (if framing == Abridged && wire[0] != 0x7f then 1 else MAX_HEADER)
    ensures Flagged(framing, wire, quickAck)[size..] == wire[size..]
  {}

  lemma {:induction false} Words(n: nat, padding: nat)
    requires n % 4 == 0 && padding <= 3
    ensures (n + padding) - (n + padding) % 4 == n
  {}

  /** What a decoder takes from the front of a stream, padding aside, as it was sent. */
  function Taken(framing: Framing, max: nat, data: bytes): (r: Sent)
    requires NextPacket(framing, max, data).Got?
  {
    var (h, got) := (ParseHeader(framing, data, max), NextPacket(framing, max, data));
    Sent(got.packet.payload, data[h.size + h.payload..h.size + h.wire], got.packet.quickAck)
  }

  /** The size a complete header declares: in words or, without the quick-ack bit, in bytes. */
  function Declared(framing: Framing, data: bytes): nat
    requires |data| >= MAX_HEADER
  {
    match framing
    case Abridged =>
      4 * (if data[0] % 0x80 == 0x7f then data[1] as int + data[2] as int * 0x100 + data[3] as int * 0x1_0000 else data[0] as int % 0x80)
    case _ => data[0] as int + data[1] as int * 0x100 + data[2] as int * 0x1_0000 + data[3] as int % 0x80 * 0x100_0000
  }

  /** A size no encoder declares: none, a long form for a short size, 2^30 and more, or, unpadded, part of a word. */
  predicate Malformed(framing: Framing, max: nat, data: bytes)
    requires |data| >= MAX_HEADER
  {
    var size := Declared(framing, data);
    match framing
    case Abridged => size == 0 || (data[0] % 0x80 == 0x7f && size < 4 * 0x7f)
    case Intermediate => size < 4 || size >= 0x4000_0000 || (size <= max && size % 4 != 0)
    case PaddedIntermediate => size < 4 || size >= 0x4000_0000
  }

  lemma {:induction false} LowWord(b: bytes)
    requires |b| == MAX_HEADER
    ensures GetLE32(b) % 0x8000_0000 == b[0] as int + b[1] as int * 0x100 + b[2] as int * 0x1_0000 + b[3] as int % 0x80 * 0x100_0000
  {
    LE32Inverse(b);
    ByteOrder(GetLE32(b));
    var low: int := b[0] as int + b[1] as int * 0x100 + b[2] as int * 0x1_0000 + b[3] as int % 0x80 * 0x100_0000;
    assert GetLE32(b) == low + b[3] as int / 0x80 * 0x8000_0000 && 0 <= low < 0x8000_0000;
  }

  lemma {:induction false} IntermediateErrors(data: bytes, max: nat, padded: bool)
    requires |data| >= MAX_HEADER
    ensures var framing := if padded then PaddedIntermediate else Intermediate;
            var h := ParseIntermediate(data, max, padded);
            && (h == Bad(InvalidPacket) <==> Malformed(framing, max, data))
            && (h == Bad(PacketTooLarge) <==> !Malformed(framing, max, data) && Declared(framing, data) > max)
            && !h.NeedMore?
  {
    LowWord(data[..MAX_HEADER]);
    hide GetLE32;
  }

  lemma {:induction false} AbridgedErrors(data: bytes, max: nat)
    requires |data| >= MAX_HEADER
    ensures var h := ParseAbridged(data, max);
            && (h == Bad(InvalidPacket) <==> Malformed(Abridged, max, data))
            && (h == Bad(PacketTooLarge) <==> !Malformed(Abridged, max, data) && Declared(Abridged, data) > max)
            && !h.NeedMore?
  {}

  /** Which error a decoder reports. */
  lemma {:induction false} ErrorExactly(framing: Framing, max: nat, data: bytes)
    requires |data| >= MAX_HEADER
    ensures NextPacket(framing, max, data) == Fail(InvalidPacket) <==> Malformed(framing, max, data)
    ensures NextPacket(framing, max, data) == Fail(PacketTooLarge) <==>
              !Malformed(framing, max, data) && Declared(framing, data) > max
  {
    hide ParseAbridged, ParseIntermediate, Malformed, Declared;
    AbridgedErrors(data, max);
    IntermediateErrors(data, max, false);
    IntermediateErrors(data, max, true);
  }

  /** A decoder accepts nothing but encodings: of packets of 4 to `max` bytes, with at most three bytes of padding. */
  lemma {:induction false} AcceptedIsEncoded(framing: Framing, max: nat, data: bytes)
    requires ValidMax(max) && NextPacket(framing, max, data).Got?
    ensures var (sent, got) := (Taken(framing, max, data), NextPacket(framing, max, data));
            && |sent.padding| <= 3 && WireSize(framing, sent.packet, sent.padding) <= max
            && Encode(framing, max, sent.packet, sent.padding).Some?
            && data[..got.used] == Wire(framing, max, sent)
  {
    hide ParseHeader, Encode, Flagged;
    var (got, h) := (NextPacket(framing, max, data), ParseHeader(framing, data, max));
    var at := if framing == Abridged then 0 else MAX_HEADER - 1;
    var quickAck := data[at] >= 0x80;
    var plain := if quickAck then data[at := data[at] - 0x80] else data;
    Unflagged(framing, data);
    FlagReported(framing, plain, max, quickAck);
    PlainSize(framing, plain, max);
    PlainEncoded(framing, max, plain, h.size, h.wire, h.payload);
    SameTail(plain, data, at, h.size, h.payload, h.wire);
    FlaggedFront(framing, plain, got.used, quickAck);
  }

  /** Bytes that differ at most in the header have the same payload and padding. */
  lemma {:induction false} SameTail(a: bytes, b: bytes, at: nat, size: nat, payload: nat, wire: nat)
    requires |a| == |b| && at < size <= size + payload <= size + wire <= |a| && a == b[at := a[at]]
    ensures a[size..size + payload] == b[size..size + payload] && a[size + payload..size + wire] == b[size + payload..size + wire]
  {}

  lemma {:induction false} FlaggedFront(framing: Framing, data: bytes, n: nat, quickAck: bool)
    requires MAX_HEADER <= n <= |data|
    ensures Flagged(framing, data, quickAck)[..n] == Flagged(framing, data[..n], quickAck)
  {}

  lemma {:induction false} Unflagged(framing: Framing, data: bytes)
    requires |data| >= MAX_HEADER
    ensures var at := if framing == Abridged then 0 else MAX_HEADER - 1;
            if data[at] >= 0x80 then data == Flagged(framing, data[at := data[at] - 0x80], true) else data == Flagged(framing, data, false)
  {}

  lemma {:induction false} PlainSize(framing: Framing, data: bytes, max: nat)
    requires |data| >= MAX_HEADER && data[if framing == Abridged then 0 else MAX_HEADER - 1] < 0x80
    requires ParseHeader(framing, data, max).Header?
    ensures ParseHeader(framing, data, max).size == if framing == Abridged && data[0] != 0x7f then 1 else MAX_HEADER
    ensures !ParseHeader(framing, data, max).quickAck
  {
    if framing != Abridged {
      FlaggedWord(data, false);
    }
  }

  lemma {:induction false} PlainEncoded(framing: Framing, max: nat, data: bytes, size: nat, wire: nat, payload: nat)
    requires ValidMax(max) && |data| >= MAX_HEADER && data[if framing == Abridged then 0 else MAX_HEADER - 1] < 0x80
    requires ParseHeader(framing, data, max) == Header(size, wire, payload, false) && size + wire <= |data|
    ensures var (packet, padding) := (data[size..size + payload], data[size + payload..size + wire]);
            && |padding| <= 3 && WireSize(framing, packet, padding) <= max
            && Encode(framing, max, packet, padding) == Some(data[..size + wire])
  {
    hide ParseAbridged, ParseIntermediate, PutLE32;
    var (packet, padding) := (data[size..size + payload], data[size + payload..size + wire]);
    assert data[..size + wire] == data[..size] + (packet + padding);
    if framing == PaddedIntermediate {
      PlainIntermediate(data, max, true);
    } else {
      if framing == Abridged {
        AbridgedWire(data, max);
      } else {
        PlainIntermediate(data, max, false);
      }
      assert padding == [] && packet + padding == packet;
    }
  }

  lemma {:induction false} PlainIntermediate(data: bytes, max: nat, padded: bool)
    requires |data| >= MAX_HEADER && data[MAX_HEADER - 1] < 0x80
    requires ParseIntermediate(data, max, padded).Header?
    ensures var h := ParseIntermediate(data, max, padded);
            && h.size == MAX_HEADER && h.wire <= max && data[..MAX_HEADER] == PutLE32(h.wire)
            && 0 <= h.wire - h.payload <= 3 && (!padded ==> h.payload == h.wire) && h.payload % 4 == 0 && h.payload >= 4
  {
    hide GetLE32, PutLE32, Flagged;
    FlaggedWord(data, false);
    LE32Inverse(data[..MAX_HEADER]);
    var word := GetLE32(data[..MAX_HEADER]);
    TopBit(word);
    Aligned(word);
  }

  lemma {:induction false} Aligned(n: nat)
    requires n >= 4
    ensures (n - n % 4) % 4 == 0 && 4 <= n - n % 4 && n % 4 <= 3
  {}

  lemma {:induction false} AbridgedWire(data: bytes, max: nat)
    requires ParseAbridged(data, max).Header? && data[0] < 0x80
    ensures var h := ParseAbridged(data, max);
            var words := h.wire / 4;
            && h.size <= |data| && 1 <= words <= 0xFF_FFFF && 4 <= h.wire == words * 4 == h.payload <= max
            && data[..h.size] == if words <= 0x7e then [words]
               else [0x7f, words % 0x100, words / 0x100 % 0x100, words / 0x100 / 0x100]
  {
    var first: int := data[0];
    assert first % 0x80 == first;
    if first == 0x7f {
      Get24Digits(data[3], data[2], data[1]);
      Quarter(Get24(data[3], data[2], data[1]));
      hide Get24;
      assert data[..MAX_HEADER] == [data[0], data[1], data[2], data[3]];
    } else {
      Quarter(first);
      assert data[..1] == [data[0]];
    }
  }

  lemma {:induction false} Quarter(words: nat)
    ensures words * 4 / 4 == words
  {}

  datatype Sent = Sent(packet: bytes, padding: bytes, quickAck: bool)

  /** Everything was encoded and fits the decoder. */
  predicate AllFit(framing: Framing, encoderMax: nat, max: nat, sent: seq<Sent>) {
    forall i | 0 <= i < |sent| ::
      && |sent[i].padding| <= 3
      && Encode(framing, encoderMax, sent[i].packet, sent[i].padding).Some?
      && WireSize(framing, sent[i].packet, sent[i].padding) <= max
  }

  /** What goes over the wire for one packet. */
  function Wire(framing: Framing, encoderMax: nat, sent: Sent): (r: bytes)
    requires Encode(framing, encoderMax, sent.packet, sent.padding).Some?
  {
    Flagged(framing, Encode(framing, encoderMax, sent.packet, sent.padding).value, sent.quickAck)
  }

  function EncodeAll(framing: Framing, encoderMax: nat, max: nat, sent: seq<Sent>): bytes
    requires AllFit(framing, encoderMax, max, sent)
  {
    if sent == [] then []
    else
      assert AllFit(framing, encoderMax, max, sent[1..]);
      Wire(framing, encoderMax, sent[0]) + EncodeAll(framing, encoderMax, max, sent[1..])
  }

  function Payloads(sent: seq<Sent>): seq<Packet> {
    if sent == [] then [] else [Packet(sent[0].packet, sent[0].quickAck)] + Payloads(sent[1..])
  }

  /** For every framing, decoding the concatenated encodings yields exactly the packets sent. */
  lemma {:induction false} StreamRoundTrip(framing: Framing, encoderMax: nat, max: nat, sent: seq<Sent>)
    requires ValidMax(max) && AllFit(framing, encoderMax, max, sent)
    ensures Decode(framing, max, EncodeAll(framing, encoderMax, max, sent)) == Decoded(Payloads(sent), [], None)
    decreases |sent|
  {
    hide ParseHeader, Encode, Flagged;
    if sent == [] {
      NothingDecodes(framing, max);
    } else {
      var wire := Wire(framing, encoderMax, sent[0]);
      assert AllFit(framing, encoderMax, max, sent[1..]);
      var tail := EncodeAll(framing, encoderMax, max, sent[1..]);
      EncodedDecodes(framing, encoderMax, max, sent[0].packet, sent[0].padding, sent[0].quickAck, tail);
      assert (wire + tail)[|wire|..] == tail;
      StreamRoundTrip(framing, encoderMax, max, sent[1..]);
    }
  }

  lemma {:induction false} NothingDecodes(framing: Framing, max: nat)
    ensures Decode(framing, max, []) == Decoded([], [], None)
  {}

  // ---------------------------------------------------------------- the incremental decoder

  class Decoder {
    const framing: Framing
    const max: nat
    var buffer: array<byte> // its length is the slice's capacity
    var length: nat         // the slice's length
    var head: nat
    var err: Option<PacketError>

    ghost predicate Valid()
      reads this
    {
      && ValidMax(max)
      && head <= length <= buffer.Length <= max + MAX_HEADER
      && (err.Some? ==> head == length == 0 && buffer.Length == 0)
    }

    /** The plaintext retained for an incomplete packet. */
    ghost function Retained(): bytes
      requires Valid()
      reads this, buffer
    {
      buffer[head..length]
    }

    constructor (framing: Framing, max: nat)
      requires ValidMax(max)
      ensures Valid() && fresh(buffer) && this.framing == framing && this.max == max && Retained() == [] && err == None
    {
      this.framing, this.max := framing, max;
      buffer := new byte[0];
      length, head, err := 0, 0, None;
    }

    /** ensureBufferCapacity's first part: move what is retained to the front and wipe what it leaves. */
    method Compact()
      requires Valid() && err == None
      modifies this`head, this`length, buffer
      ensures Valid() && head == 0 && Retained() == old(Retained())
    {
      var retained := length - head;
      ghost var before := Retained();
      for i := 0 to retained
        invariant head == old(head) && length == old(length)
        invariant forall j | 0 <= j < i :: buffer[j] == before[j]
        invariant forall j | i <= j < retained :: buffer[head + j] == before[j]
      {
        buffer[i] := buffer[head + i];
      }
      for i := retained to length
        invariant head == old(head) && length == old(length)
        invariant forall j | 0 <= j < retained :: buffer[j] == before[j]
      {
        buffer[i] := 0;
      }
      length, head := retained, 0;
    }

    /** Its second part: a larger buffer, the old one wiped. */
    method Replace(capacity: nat)
      requires Valid() && err == None && head == 0 && length <= capacity <= max + MAX_HEADER
      modifies this`buffer, buffer
      ensures Valid() && fresh(buffer) && buffer.Length == capacity && Retained() == old(Retained())
    {
      var replacement := new byte[capacity](_ => 0);
      for i := 0 to length
        invariant buffer == old(buffer) && buffer[..] == old(buffer[..]) && replacement[..i] == buffer[..i]
      {
        replacement[i] := buffer[i];
      }
      for i := 0 to buffer.Length
        invariant buffer == old(buffer) && replacement[..length] == old(buffer[..length])
      {
        buffer[i] := 0;
      }
      buffer := replacement;
    }

    /** ensureBufferCapacity: compact, then grow within the bound; what is retained stays. */
    method EnsureCapacity(required: nat)
      requires Valid() && err == None && length - head <= required <= max + MAX_HEADER
      modifies this`head, this`length, this`buffer, buffer
      ensures Valid() && Retained() == old(Retained())
      ensures required <= buffer.Length - head
      ensures buffer == old(buffer) || fresh(buffer)
    {
      if required <= buffer.Length - head {
        return;
      }
      if head != 0 {
        Compact();
      }
      if required <= buffer.Length {
        return;
      }
      Replace(Min(Max(required, buffer.Length * 2), max + MAX_HEADER));
    }

    /** Append to a buffer with room. */
    method AppendBytes(data: bytes)
      requires Valid() && err == None && length + |data| <= buffer.Length
      modifies this`length, buffer
      ensures Valid() && Retained() == old(Retained()) + data
    {
      ghost var before := Retained();
      for i := 0 to |data|
        invariant length == old(length) + i && buffer[head..length] == before + data[..i]
      {
        ghost var now := buffer[head..length];
        buffer[length] := data[i];
        assert buffer[head..length] == now;
        length := length + 1;
        assert buffer[head..length] == now + [data[i]];
        assert data[..i + 1] == data[..i] + [data[i]];
      }
      assert data[..|data|] == data;
    }

    /** Feed: retain as much as fits the bound. */
    method Feed(data: bytes) returns (consumed: nat, failed: Option<PacketError>)
      requires Valid()
      modifies this, buffer
      ensures Valid() && failed == old(err) && err == old(err)
      ensures buffer == old(buffer) || fresh(buffer)
      ensures err.Some? ==> consumed == 0 && Retained() == old(Retained())
      ensures err.None? ==> consumed == Min(|data|, max + MAX_HEADER - |old(Retained())|)
      ensures err.None? ==> Retained() == old(Retained()) + data[..consumed]
    {
      if err.Some? {
        return 0, err;
      }
      var retained := length - head;
      consumed := Min(|data|, max + MAX_HEADER - retained);
      failed := None;
      if consumed == 0 {
        assert Retained() == Retained() + data[..0];
        return;
      }
      EnsureCapacity(retained + consumed);
      AppendBytes(data[..consumed]);
    }

    /** Next: exactly what the retained bytes hold; after an error the decoder stays failed and empty. */
    method Next() returns (r: Next)
      requires Valid()
      modifies this, buffer
      ensures Valid()
      ensures buffer == old(buffer) || fresh(buffer)
      ensures old(err).Some? ==> r == Fail(old(err).value) && err == old(err)
      ensures old(err).None? ==> r == NextPacket(framing, max, old(Retained()))
      ensures old(err).None? ==>
              match r
              case More => Retained() == old(Retained()) && err == None
              case Fail(e) => Retained() == [] && err == Some(e)
              case Got(p, n) => Retained() == old(Retained())[n..] && err == None
    {
      hide ParseHeader;
      if err.Some? {
        return Fail(err.value);
      }
      var data := buffer[head..length];
      match ParseHeader(framing, data, max)
      case NeedMore => return More;
      case Bad(e) =>
        Clear();
        err := Some(e);
        return Fail(e);
      case Header(size, wire, payload, quick) =>
        if |data| < size + wire {
          return More;
        }
        r := Got(Packet(data[size..size + payload], quick), size + wire);
        Consume(size + wire);
    }

    /** consumePlaintext: an emptied buffer is reused, unless it is too large to keep. */
    method Consume(size: nat)
      requires Valid() && err == None && head + size <= length
      modifies this, buffer
      ensures Valid() && err == None && Retained() == old(Retained())[size..]
      ensures buffer == old(buffer) || fresh(buffer)
      ensures Retained() == [] ==> buffer.Length <= MAX_RETAINED
    {
      ghost var before := Retained();
      for i := 0 to size
        invariant Valid() && err == None && head == old(head) && length == old(length) && buffer == old(buffer)
        invariant buffer[head + size..length] == before[size..]
      {
        buffer[head + i] := 0;
      }
      head := head + size;
      if head == length {
        if buffer.Length > MAX_RETAINED {
          buffer := new byte[0];
          length, head := 0, 0;
          return;
        }
        length, head := 0, 0;
      }
    }

    /** clearPlaintext. */
    method Clear()
      requires Valid()
      modifies this, buffer
      ensures Valid() && err == old(err) && Retained() == [] && fresh(buffer) && buffer.Length == 0 && head == length == 0
    {
      for i := 0 to buffer.Length
        invariant Valid() && err == old(err) && buffer == old(buffer)
      {
        buffer[i] := 0;
      }
      buffer := new byte[0];
      length, head := 0, 0;
    }

    /** Finish: truncated input is an error. */
    method Finish() returns (failed: Option<PacketError>)
      requires Valid()
      modifies this, buffer
      ensures Valid() && err == failed
      ensures old(err).Some? ==> failed == old(err)
      ensures old(err).None? ==> (failed == if old(Retained()) == [] then None else Some(Incomplete))
    {
      if err.Some? {
        return err;
      }
      if length - head != 0 {
        Clear();
        err := Some(Incomplete);
      }
      return err;
    }

    /** Close: an earlier error stays. */
    method Close()
      requires Valid()
      modifies this, buffer
      ensures Valid() && Retained() == [] && err == Some(if old(err).Some? then old(err).value else Closed)
    {
      Clear();
      if err.None? {
        err := Some(Closed);
      }
    }
  }

  /**
   * The frontend's loop over plaintext: it feeds what fits and asks again. The decoder never fills up without a
   * packet or an error, so some of the pending plaintext is consumed whenever the loop goes on.
   */
  method NextFromPlaintext(d: Decoder, plaintext: bytes) returns (r: Next, rest: bytes, stuck: bool)
    requires d.Valid() && d.err == None
    modifies d, d.buffer
    ensures d.Valid() && !stuck && (d.buffer == old(d.buffer) || fresh(d.buffer))
    ensures r == NextPacket(d.framing, d.max, old(d.Retained()) + plaintext) || r.Fail?
    ensures r.Fail? ==> NextPacket(d.framing, d.max, old(d.Retained()) + plaintext) == r
    ensures r.More? ==> rest == [] && d.Retained() == old(d.Retained()) + plaintext && d.err == None
    ensures r.Got? ==> d.Retained() + rest == (old(d.Retained()) + plaintext)[r.used..] && d.err == None
  {
    hide NextPacket;
    rest, stuck := plaintext, false;
    ghost var stream := d.Retained() + plaintext;
    while true
      invariant d.Valid() && d.err == None && (d.buffer == old(d.buffer) || fresh(d.buffer))
      invariant d.Retained() + rest == stream
      decreases |rest|
    {
      ghost var before := d.Retained();
      r := d.Next();
      NextStable(d.framing, d.max, before, rest);
      if !r.More? {
        if r.Got? {
          UsedFits(d.framing, d.max, before);
          assert before[r.used..] + rest == stream[r.used..];
        }
        return;
      }
      if |rest| == 0 {
        assert before + [] == before;
        return;
      }
      var consumed, failed := d.Feed(rest);
      if |before| >= d.max + MAX_HEADER {
        FullBufferDecides(d.framing, d.max, before);
      }
      assert before + rest[..consumed] + rest[consumed..] == before + rest;
      rest := rest[consumed..];
      if consumed == 0 {
        stuck := true;
        return;
      }
    }
  }

  lemma {:induction false} UsedFits(framing: Framing, max: nat, data: bytes)
    ensures var r := NextPacket(framing, max, data); r.Got? ==> r.used <= |data|
  {}

  // ---------------------------------------------------------------- any chunking

  /** All packets of one piece of plaintext, taken as the frontend takes them. */
  method ReceivePiece(d: Decoder, piece: bytes) returns (packets: seq<Packet>, failed: Option<PacketError>)
    requires d.Valid() && d.err == None
    modifies d, d.buffer
    ensures d.Valid() && (d.buffer == old(d.buffer) || fresh(d.buffer))
    ensures var all := Decode(d.framing, d.max, old(d.Retained()) + piece);
            && packets == all.packets && failed == all.error
            && (failed.None? ==> d.err == None && d.Retained() == all.rest)
  {
    hide NextPacket, Decode;
    packets, failed := [], None;
    var rest := piece;
    ghost var all := Decode(d.framing, d.max, d.Retained() + piece);
    while true
      invariant d.Valid() && d.err == None && (d.buffer == old(d.buffer) || fresh(d.buffer))
      invariant var more := Decode(d.framing, d.max, d.Retained() + rest);
                all == more.(packets := packets + more.packets)
      decreases |d.Retained()| + |rest|
    {
      ghost var stream := d.Retained() + rest;
      var r, after, stuck := NextFromPlaintext(d, rest);
      DecodeFront(d.framing, d.max, stream);
      rest := after;
      match r
      case Got(p, used) => packets := packets + [p];
      case More => assert packets + [] == packets; return;
      case Fail(error) => assert packets + [] == packets; failed := Some(error); return;
    }
  }

  /** Whatever pieces the plaintext comes in, the packets and the error are those of the whole stream. */
  method ReceiveStream(framing: Framing, max: nat, pieces: seq<bytes>)
    returns (packets: seq<Packet>, failed: Option<PacketError>)
    requires ValidMax(max)
    ensures var all := Decode(framing, max, Flatten(pieces)); packets == all.packets && failed == all.error
  {
    hide NextPacket, Decode;
    var d := new Decoder(framing, max);
    packets, failed := [], None;
    NothingDecodes(framing, max);
    assert pieces[..0] == [];
    for i := 0 to |pieces|
      invariant d.Valid() && d.err == None && fresh(d) && fresh(d.buffer) && d.framing == framing && d.max == max
      invariant Decode(framing, max, Flatten(pieces[..i])) == Decoded(packets, d.Retained(), None)
      invariant failed == None
    {
      assert pieces[..i + 1] == pieces[..i] + [pieces[i]];
      FlattenAppend(pieces[..i], [pieces[i]]);
      FlattenSingle(pieces[i]);
      DecodeMore(framing, max, Flatten(pieces[..i]), pieces[i]);
      var more;
      more, failed := ReceivePiece(d, pieces[i]);
      packets := packets + more;
      if failed.Some? {
        assert pieces == pieces[..i + 1] + pieces[i + 1..];
        FlattenAppend(pieces[..i + 1], pieces[i + 1..]);
        DecodeMore(framing, max, Flatten(pieces[..i + 1]), Flatten(pieces[i + 1..]));
        return;
      }
    }
    assert pieces[..|pieces|] == pieces;
  }

  lemma {:induction false} DecodeFront(framing: Framing, max: nat, stream: bytes)
    ensures match NextPacket(framing, max, stream)
            case More => Decode(framing, max, stream) == Decoded([], stream, None)
            case Fail(e) => Decode(framing, max, stream).packets == [] && Decode(framing, max, stream).error == Some(e)
            case Got(p, n) =>
              0 < n <= |stream| &&
              var d := Decode(framing, max, stream[n..]);
              Decode(framing, max, stream) == d.(packets := [p] + d.packets)
  {}

  /** Going on with more of the stream: what was decided stays, and the undecided tail is decoded with it. */
  lemma {:induction false} DecodeMore(framing: Framing, max: nat, a: bytes, b: bytes)
    ensures var (first, all) := (Decode(framing, max, a), Decode(framing, max, a + b));
            if first.error.Some? then all.packets == first.packets && all.error == first.error
            else
              var next := Decode(framing, max, first.rest + b);
              all == next.(packets := first.packets + next.packets)
    decreases |a|
  {
    hide NextPacket, Decode;
    DecodeFront(framing, max, a);
    DecodeFront(framing, max, a + b);
    NextStable(framing, max, a, b);
    match NextPacket(framing, max, a)
    case More => assert [] + Decode(framing, max, a + b).packets == Decode(framing, max, a + b).packets;
    case Fail(_) =>
    case Got(p, n) =>
      assert (a + b)[n..] == a[n..] + b;
      DecodeMore(framing, max, a[n..], b);
      var first := Decode(framing, max, a[n..]);
      if first.error.None? {
        var next := Decode(framing, max, first.rest + b);
        assert [p] + (first.packets + next.packets) == ([p] + first.packets) + next.packets;
      }
  }

  /** The encodings of any packets, received in any pieces, yield exactly those packets. */
  method ReceiveEncoded(framing: Framing, encoderMax: nat, max: nat, sent: seq<Sent>, pieces: seq<bytes>)
    returns (packets: seq<Packet>)
    requires ValidMax(max) && AllFit(framing, encoderMax, max, sent)
    requires Flatten(pieces) == EncodeAll(framing, encoderMax, max, sent)
    ensures packets == Payloads(sent)
  {
    var failed;
    packets, failed := ReceiveStream(framing, max, pieces);
    StreamRoundTrip(framing, encoderMax, max, sent);
  }
}
