/** The wire format by byte positions, which frames exist, and which error a malformed batch reports. */
module FrameLayout {
  import opened Bytes
  import opened FrameCodec

  /** Type, 24-bit stream and 32-bit length, most significant byte first, then the payload. */
  lemma {:induction false} LayoutExactly(f: Frame, wire: bytes)
    requires f.streamID <= MAX_STREAM_ID && |f.payload| <= MAX_UINT32
    ensures wire == Encode(f) <==>
            && |wire| == 8 + |f.payload| && wire[0] == f.kind
            && f.streamID == wire[1] as int * 0x1_0000 + wire[2] as int * 0x100 + wire[3] as int
            && |f.payload| == wire[4] as int * 0x100_0000 + wire[5] as int * 0x1_0000 + wire[6] as int * 0x100 + wire[7] as int
            && wire[8..] == f.payload
  {
    EncodeHeaderFields(f, []);
    assert Encode(f) + [] == Encode(f);
    ByteOrder(|f.payload|);
    var b := Encode(f);
    assert b[4..8] == PutBE32(|f.payload|);
    if |wire| == 8 + |f.payload| && wire[0] == f.kind && wire[8..] == f.payload
       && f.streamID == wire[1] as int * 0x1_0000 + wire[2] as int * 0x100 + wire[3] as int
       && |f.payload| == wire[4] as int * 0x100_0000 + wire[5] as int * 0x1_0000 + wire[6] as int * 0x100 + wire[7] as int {
      Digits(wire[1], wire[2], wire[3], b[1], b[2], b[3]);
      Words(wire[4], wire[5], wire[6], wire[7], b[4], b[5], b[6], b[7]);
      assert wire == wire[..8] + wire[8..] && b == b[..8] + b[8..];
      assert wire[..8] == b[..8];
    }
  }

  lemma {:induction false} Digits(a: byte, b: byte, c: byte, x: byte, y: byte, z: byte)
    requires a as int * 0x1_0000 + b as int * 0x100 + c as int == x as int * 0x1_0000 + y as int * 0x100 + z as int
    ensures a == x && b == y && c == z
  {}

  lemma {:induction false} Words(a: byte, b: byte, c: byte, d: byte, w: byte, x: byte, y: byte, z: byte)
    requires a as int * 0x100_0000 + b as int * 0x1_0000 + c as int * 0x100 + d as int
             == w as int * 0x100_0000 + x as int * 0x1_0000 + y as int * 0x100 + z as int
    ensures a == w && b == x && c == y && d == z
  {}

  /** The frames there are: those of a stream, and those of the connection. */
  predicate Exists(f: Frame) {
    && |f.payload| <= 0x10_0000
    && if 0 < f.streamID then
         f.streamID < 0x100_0000 &&
         (|| (f.kind in {1, 3} && f.payload == [])
          || (f.kind == 2 && f.payload != [])
          || (f.kind == 4 && |f.payload| == 4 && exists i | 0 <= i < 4 :: f.payload[i] != 0))
       else
         || (f.kind in {5, 6} && |f.payload| <= 64)
         || (f.kind == 0x10 && f.payload == [1])
         || (f.kind == 0x11 && f.payload == [])
         || f.kind == 0x1f
  }

  lemma {:induction false} ShapesExactly(f: Frame)
    ensures WellShaped(f) <==> Exists(f)
  {
    if |f.payload| == 4 {
      Zero(f.payload);
    }
  }

  lemma {:induction false} Zero(b: bytes)
    requires |b| == 4
    ensures GetBE32(b) == 0 <==> forall i | 0 <= i < 4 :: b[i] == 0
  {
    BE32Inverse(b);
    ByteOrder(GetBE32(b));
  }

  /** What stops the parse at the front of an input: the first of these that applies. */
  lemma {:induction false} ErrorExactly(input: bytes)
    requires input != []
    ensures ParseOne(input) == Err(IncompleteFrame) <==>
              |input| < 8 || (GetBE32(input[4..8]) <= 0x10_0000 && |input| < 8 + GetBE32(input[4..8]))
    ensures ParseOne(input) == Err(PayloadTooLarge) <==> |input| >= 8 && GetBE32(input[4..8]) > 0x10_0000
    ensures ParseOne(input) == Err(InvalidFrame) <==>
              && |input| >= 8 && GetBE32(input[4..8]) <= 0x10_0000 && |input| >= 8 + GetBE32(input[4..8])
              && !Exists(Frame(input[0], Get24(input[1], input[2], input[3]), input[8..8 + GetBE32(input[4..8])]))
  {
    if |input| >= 8 {
      var size := GetBE32(input[4..8]);
      if size <= 0x10_0000 && |input| >= 8 + size {
        ShapesExactly(Frame(input[0], Get24(input[1], input[2], input[3]), input[8..8 + size]));
      }
    }
    hide GetBE32, Get24;
  }

  lemma {:induction false} RestFails(fs: seq<Frame>, tail: bytes, room: nat)
    requires AllWellShaped(fs) && |fs| <= room && tail != []
    requires |fs| < room ==> ParseOne(tail).Err?
    ensures ParseRest(EncodeAll(fs) + tail, room) == Err(if |fs| == room then TooManyFrames else ParseOne(tail).error)
    decreases |fs|
  {
    hide ParseOne, Encode;
    if fs == [] {
      assert EncodeAll(fs) + tail == tail;
    } else {
      var input := EncodeAll(fs) + tail;
      assert input == Encode(fs[0]) + (EncodeAll(fs[1..]) + tail);
      ParseOneEncode(fs[0], EncodeAll(fs[1..]) + tail);
      assert input[FRAME_HEADER_SIZE + |fs[0].payload|..] == EncodeAll(fs[1..]) + tail;
      RestFails(fs[1..], tail, room - 1);
    }
  }

  /** A batch fails as a whole, with the error of the first frame that is malformed or one too many. */
  lemma {:induction false} FirstErrorWins(fs: seq<Frame>, tail: bytes)
    requires AllWellShaped(fs) && |fs| <= MAX_BATCH_FRAMES && tail != []
    requires |fs| < MAX_BATCH_FRAMES ==> ParseOne(tail).Err?
    ensures Parse(EncodeAll(fs) + tail) == Err(if |fs| == MAX_BATCH_FRAMES then TooManyFrames else ParseOne(tail).error)
  {
    hide ParseOne, EncodeAll;
    RestFails(fs, tail, MAX_BATCH_FRAMES);
  }
}
