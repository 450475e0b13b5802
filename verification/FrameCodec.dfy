/** The WEB shared-frame codec: an 8-byte header (type, 24-bit stream, 32-bit length) and a payload. */
module FrameCodec {
  import opened Bytes

  const FRAME_HEADER_SIZE := 8
  const MAX_FRAME_PAYLOAD := 1024 * 1024
  const MAX_BATCH_FRAMES := 4096
  const MAX_STREAM_ID := 0xFF_FFFF
  const INITIAL_STREAM_WINDOW := 4 * 1024 * 1024
  const RELAY_DATA_CHUNK := 64 * 1024
  const MAX_PING_PAYLOAD := 64

  const OPEN: byte := 0x01
  const DATA: byte := 0x02
  const CLOSE: byte := 0x03
  const WINDOW: byte := 0x04
  const PING: byte := 0x05
  const PONG: byte := 0x06
  const HELLO: byte := 0x10
  const WELCOME: byte := 0x11
  const BYE: byte := 0x1f

  datatype Frame = Frame(kind: byte, streamID: nat, payload: bytes)

  datatype Direction = ClientToRelay | RelayToClient

  datatype FrameError = EmptyBatch | IncompleteFrame | TooManyFrames | PayloadTooLarge | InvalidFrame

  datatype Result<T> = Ok(value: T) | Err(error: FrameError)

  /** WindowDelta: four big-endian bytes, never zero. */
  function WindowDelta(payload: bytes): (r: Result<nat>)
    ensures r.Ok? ==> 0 < r.value <= MAX_UINT32 && payload == PutBE32(r.value)
    ensures r.Err? ==> forall d: nat | 0 < d <= MAX_UINT32 :: payload != PutBE32(d)
  {
    if |payload| != 4 then Err(InvalidFrame)
    else
      BE32Inverse(payload);
      if GetBE32(payload) == 0 then Err(InvalidFrame) else Ok(GetBE32(payload))
  }

  function WindowPayload(delta: nat): (r: Result<bytes>)
    requires delta <= MAX_UINT32
    ensures r.Ok? <==> delta != 0
    ensures r.Ok? ==> WindowDelta(r.value) == Ok(delta)
  {
    BE32RoundTrip(delta);
    if delta == 0 then Err(InvalidFrame) else Ok(PutBE32(delta))
  }

  /** validateFrameShape: None when the frame is well shaped. */
  function ShapeError(f: Frame): Option<FrameError> {
    if f.streamID > MAX_STREAM_ID then Some(InvalidFrame)
    else if |f.payload| > MAX_FRAME_PAYLOAD then Some(PayloadTooLarge)
    else if f.kind == OPEN || f.kind == CLOSE then
      if f.streamID == 0 || |f.payload| != 0 then Some(InvalidFrame) else None
    else if f.kind == DATA then
      if f.streamID == 0 || |f.payload| == 0 then Some(InvalidFrame) else None
    else if f.kind == WINDOW then
      if f.streamID == 0 then Some(InvalidFrame)
      else if WindowDelta(f.payload).Err? then Some(InvalidFrame) else None
    else if f.kind == PING || f.kind == PONG then
      if f.streamID != 0 || |f.payload| > MAX_PING_PAYLOAD then Some(InvalidFrame) else None
    else if f.kind == HELLO then
      if f.streamID != 0 || f.payload != [1] then Some(InvalidFrame) else None
    else if f.kind == WELCOME then
      if f.streamID != 0 || |f.payload| != 0 then Some(InvalidFrame) else None
    else if f.kind == BYE then
      if f.streamID != 0 then Some(InvalidFrame) else None
    else Some(InvalidFrame)
  }

  predicate WellShaped(f: Frame) {
    ShapeError(f).None?
  }

  predicate AllWellShaped(fs: seq<Frame>) {
    forall i | 0 <= i < |fs| :: WellShaped(fs[i])
  }

  /** ValidateFrame: well shaped and allowed in the given direction. */
  predicate ValidIn(f: Frame, d: Direction) {
    && WellShaped(f)
    && match d
       case ClientToRelay => f.kind in {OPEN, DATA, CLOSE, WINDOW, PONG, HELLO}
       case RelayToClient => f.kind in {DATA, CLOSE, WINDOW, PING, WELCOME, BYE}
  }

  function Header(kind: byte, streamID: nat, size: nat): (h: bytes)
    requires streamID <= MAX_STREAM_ID && size <= MAX_UINT32
    ensures |h| == FRAME_HEADER_SIZE
  {
    [kind, streamID / 0x100 / 0x100, streamID / 0x100 % 0x100, streamID % 0x100] + PutBE32(size)
  }

  function Encode(f: Frame): (b: bytes)
    requires f.streamID <= MAX_STREAM_ID && |f.payload| <= MAX_UINT32
    ensures |b| == FRAME_HEADER_SIZE + |f.payload|
  {
    Header(f.kind, f.streamID, |f.payload|) + f.payload
  }

  function EncodeAll(fs: seq<Frame>): bytes
    requires AllWellShaped(fs)
  {
    if fs == [] then [] else Encode(fs[0]) + EncodeAll(fs[1..])
  }

  /** One frame from the front of a non-empty input, as the parse loop reads it. */
  function ParseOne(input: bytes): (r: Result<(Frame, nat)>)
    requires input != []
    ensures r.Ok? ==> FRAME_HEADER_SIZE <= r.value.1 <= |input|
  {
    if |input| < FRAME_HEADER_SIZE then Err(IncompleteFrame)
    else
      var size := GetBE32(input[4..8]);
      if size > MAX_FRAME_PAYLOAD then Err(PayloadTooLarge)
      else if FRAME_HEADER_SIZE + size > |input| then Err(IncompleteFrame)
      else
        var f := Frame(input[0], Get24(input[1], input[2], input[3]),
                       input[FRAME_HEADER_SIZE..FRAME_HEADER_SIZE + size]);
        match ShapeError(f)
        case Some(e) => Err(e)
        case None => Ok((f, FRAME_HEADER_SIZE + size))
  }

  /** The parse loop with `room` frames still allowed. */
  function ParseRest(input: bytes, room: nat): Result<seq<Frame>>
    decreases |input|
  {
    if input == [] then Ok([])
    else if room == 0 then Err(TooManyFrames)
    else match ParseOne(input)
      case Err(e) => Err(e)
      case Ok((f, n)) =>
        Prepend([f], ParseRest(input[n..], room - 1))
  }

  function Prepend(front: seq<Frame>, r: Result<seq<Frame>>): Result<seq<Frame>> {
    match r
    case Err(e) => r
    case Ok(fs) => Ok(front + fs)
  }

  lemma {:induction false} PrependNothing(r: Result<seq<Frame>>)
    ensures Prepend([], r) == r
  {
    assert r.Ok? ==> [] + r.value == r.value;
  }

  function Parse(input: bytes): Result<seq<Frame>> {
    if input == [] then Err(EmptyBatch) else ParseRest(input, MAX_BATCH_FRAMES)
  }

  /** ParseBatch: the loop computes Parse. */
  method ParseBatch(input: bytes) returns (r: Result<seq<Frame>>)
    ensures r == Parse(input)
  {
    if |input| == 0 {
      return Err(EmptyBatch);
    }
    var frames: seq<Frame> := [];
    var rest := input;
    assert Parse(input) == Prepend([], ParseRest(input, MAX_BATCH_FRAMES)) by {
      PrependNothing(ParseRest(input, MAX_BATCH_FRAMES));
    }
    while |rest| != 0
      invariant |frames| <= MAX_BATCH_FRAMES
      invariant Parse(input) == Prepend(frames, ParseRest(rest, MAX_BATCH_FRAMES - |frames|))
      decreases |rest|
    {
      if |frames| == MAX_BATCH_FRAMES {
        return Err(TooManyFrames);
      }
      match ParseOne(rest)
      case Err(e) => return Err(e);
      case Ok((f, n)) =>
        ghost var tail := ParseRest(rest[n..], MAX_BATCH_FRAMES - |frames| - 1);
        assert tail.Ok? ==> frames + ([f] + tail.value) == (frames + [f]) + tail.value;
        frames := frames + [f];
        rest := rest[n..];
    }
    assert frames + [] == frames;
    return Ok(frames);
  }

  /** AppendFrame: writes the header and payload after dst. */
  method AppendFrame(dst: bytes, f: Frame) returns (out: bytes, err: Option<FrameError>)
    ensures err == ShapeError(f)
    ensures err.Some? ==> out == dst
    ensures err.None? ==> out == dst + Encode(f)
  {
    err := ShapeError(f);
    if err.Some? {
      return dst, err;
    }
    out := dst + [f.kind, f.streamID / 0x100 / 0x100, f.streamID / 0x100 % 0x100, f.streamID % 0x100];
    out := out + PutBE32(|f.payload|);
    out := out + f.payload;
  }

  lemma {:induction false} EncodeHeaderFields(f: Frame, tail: bytes)
    requires f.streamID <= MAX_STREAM_ID && |f.payload| <= MAX_UINT32
    ensures var b := Encode(f) + tail;
            && b[0] == f.kind
            && Get24(b[1], b[2], b[3]) == f.streamID
            && GetBE32(b[4..8]) == |f.payload|
            && b[8..8 + |f.payload|] == f.payload
            && b[8 + |f.payload|..] == tail
  {
    var b := Encode(f) + tail;
    assert b[4..8] == PutBE32(|f.payload|);
    BE32RoundTrip(|f.payload|);
  }

  lemma {:induction false} ParseOneEncode(f: Frame, tail: bytes)
    requires WellShaped(f)
    ensures ParseOne(Encode(f) + tail) == Ok((f, FRAME_HEADER_SIZE + |f.payload|))
  {
    EncodeHeaderFields(f, tail);
  }

  lemma {:induction false} ParseOneSound(input: bytes)
    requires input != [] && ParseOne(input).Ok?
    ensures var (f, n) := ParseOne(input).value;
            && WellShaped(f)
            && n == FRAME_HEADER_SIZE + |f.payload|
            && input[..n] == Encode(f)
  {
    var (f, n) := ParseOne(input).value;
    BE32Inverse(input[4..8]);
    Get24Digits(input[1], input[2], input[3]);
    assert input[..n] == input[..4] + input[4..8] + input[8..n];
  }

  /** If the tail parses to `rest`, one encoding before it parses to `f` and `rest`. */
  lemma {:induction false} ParseRestStep(f: Frame, tail: bytes, rest: seq<Frame>, input: bytes, room: nat)
    requires WellShaped(f) && 0 < room && ParseRest(tail, room - 1) == Ok(rest)
    requires input == Encode(f) + tail
    ensures ParseRest(input, room) == Ok([f] + rest)
  {
    ParseOneEncode(f, tail);
    assert input[FRAME_HEADER_SIZE + |f.payload|..] == tail;
  }

  lemma {:induction false} ParseRestEncodeAll(fs: seq<Frame>, input: bytes, room: nat)
    requires AllWellShaped(fs) && |fs| <= room && input == EncodeAll(fs)
    ensures ParseRest(input, room) == Ok(fs)
    decreases |fs|
  {
    if fs == [] {
    } else {
      var front, rest, tail := fs[0], fs[1..], EncodeAll(fs[1..]);
      ParseRestEncodeAll(rest, tail, room - 1);
      ParseRestStep(front, tail, rest, input, room);
      assert fs == [front] + rest;
    }
  }

  lemma {:induction false} EncodeAllCons(f: Frame, fs: seq<Frame>)
    requires WellShaped(f) && AllWellShaped(fs)
    ensures AllWellShaped([f] + fs) && EncodeAll([f] + fs) == Encode(f) + EncodeAll(fs)
  {
    assert ([f] + fs)[1..] == fs;
  }

  lemma {:induction false} ParseRestSound(input: bytes, room: nat)
    requires ParseRest(input, room).Ok?
    ensures var fs := ParseRest(input, room).value;
            |fs| <= room && AllWellShaped(fs) && EncodeAll(fs) == input
            && (input != [] ==> fs != [])
    decreases |input|
  {
    if input != [] {
      var (f, n) := ParseOne(input).value;
      ParseRestSound(input[n..], room - 1);
      ParseOneSound(input);
      EncodeAllCons(f, ParseRest(input[n..], room - 1).value);
      assert input == input[..n] + input[n..];
    }
  }

  /** ParseBatch accepts exactly the concatenations of 1 to 4096 AppendFrame encodings, and returns those frames. */
  lemma {:induction false} ParseAcceptsExactly(input: bytes, fs: seq<Frame>)
    ensures Parse(input) == Ok(fs) <==>
            1 <= |fs| <= MAX_BATCH_FRAMES && AllWellShaped(fs) && EncodeAll(fs) == input
  {
    if Parse(input) == Ok(fs) {
      ParseRestSound(input, MAX_BATCH_FRAMES);
    }
    if 1 <= |fs| <= MAX_BATCH_FRAMES && AllWellShaped(fs) && EncodeAll(fs) == input {
      ParseRestEncodeAll(fs, input, MAX_BATCH_FRAMES);
    }
  }

  lemma {:induction false} EncodeAllAppend(a: seq<Frame>, b: seq<Frame>)
    requires AllWellShaped(a) && AllWellShaped(b)
    ensures AllWellShaped(a + b)
    ensures EncodeAll(a + b) == EncodeAll(a) + EncodeAll(b)
  {
    if a == [] {
      assert a + b == b;
    } else {
      assert (a + b)[1..] == a[1..] + b;
      EncodeAllAppend(a[1..], b);
    }
  }

  /** Rewriting the length bytes and appending to the payload re-encodes the longer frame. */
  lemma {:induction false} ExtendEncoding(f: Frame, more: bytes)
    requires f.streamID <= MAX_STREAM_ID && |f.payload| + |more| <= MAX_UINT32
    ensures var g := f.(payload := f.payload + more);
            var grown := Encode(f) + more;
            grown[..4] + PutBE32(|grown| - FRAME_HEADER_SIZE) + grown[FRAME_HEADER_SIZE..] == Encode(g)
  {
    var g := f.(payload := f.payload + more);
    var grown := Encode(f) + more;
    assert grown[FRAME_HEADER_SIZE..] == g.payload;
    assert grown[..4] == Encode(g)[..4];
  }
}
