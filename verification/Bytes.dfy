/** Byte strings, fixed-width integers and small sequence facts shared by the codecs. */
module Bytes {

  type byte = x: int | 0 <= x < 256
  type bytes = seq<byte>

  const MAX_UINT32 := 0xFFFF_FFFF
  const MAX_UINT64 := 0xFFFF_FFFF_FFFF_FFFF

  datatype Option<+T> = None | Some(value: T)

  function Min(a: int, b: int): int {
    if a <= b then a else b
  }

  function Max(a: int, b: int): int {
    if a <= b then b else a
  }

  /** Three big-endian bytes. */
  function Get24(high: byte, mid: byte, low: byte): (n: nat)
    ensures n <= 0xFF_FFFF
  {
    var h: int, m: int, l: int := high, mid, low;
    (h * 0x100 + m) * 0x100 + l
  }

  /** Big-endian encoding of a 32-bit value (binary.BigEndian.PutUint32). */
  function PutBE32(n: nat): (b: bytes)
    requires n <= MAX_UINT32
    ensures |b| == 4
  {
    var q1 := n / 0x100;
    var q2 := q1 / 0x100;
    [q2 / 0x100, q2 % 0x100, q1 % 0x100, n % 0x100]
  }

  function GetBE32(b: bytes): (n: nat)
    requires |b| == 4
    ensures n <= MAX_UINT32
  {
    Get24(b[0], b[1], b[2]) * 0x100 + b[3]
  }

  function PutLE32(n: nat): (b: bytes)
    requires n <= MAX_UINT32
    ensures |b| == 4
  {
    var q1 := n / 0x100;
    var q2 := q1 / 0x100;
    [n % 0x100, q1 % 0x100, q2 % 0x100, q2 / 0x100]
  }

  function GetLE32(b: bytes): (n: nat)
    requires |b| == 4
    ensures n <= MAX_UINT32
  {
    Get24(b[3], b[2], b[1]) * 0x100 + b[0]
  }

  lemma {:induction false} Get24Digits(high: byte, mid: byte, low: byte)
    ensures var n := Get24(high, mid, low);
            n / 0x100 / 0x100 == high && n / 0x100 % 0x100 == mid && n % 0x100 == low
  {
    var h: int, m: int := high, mid;
    assert Get24(high, mid, low) / 0x100 == h * 0x100 + m;
  }

  lemma {:induction false} BE32RoundTrip(n: nat)
    requires n <= MAX_UINT32
    ensures GetBE32(PutBE32(n)) == n
  {}

  lemma {:induction false} BE32Inverse(b: bytes)
    requires |b| == 4
    ensures PutBE32(GetBE32(b)) == b
  {
    var n := GetBE32(b);
    assert n / 0x100 == Get24(b[0], b[1], b[2]);
    Get24Digits(b[0], b[1], b[2]);
  }

  lemma {:induction false} LE32RoundTrip(n: nat)
    requires n <= MAX_UINT32
    ensures GetLE32(PutLE32(n)) == n
  {}

  lemma {:induction false} LE32Inverse(b: bytes)
    requires |b| == 4
    ensures PutLE32(GetLE32(b)) == b
  {
    var n := GetLE32(b);
    assert n / 0x100 == Get24(b[3], b[2], b[1]);
    Get24Digits(b[3], b[2], b[1]);
  }

  /** The most significant byte first, and the most significant byte last. */
  lemma {:induction false} ByteOrder(n: nat)
    requires n <= MAX_UINT32
    ensures var b := PutBE32(n); n == b[0] as int * 0x100_0000 + b[1] as int * 0x1_0000 + b[2] as int * 0x100 + b[3] as int
    ensures var b := PutLE32(n); n == b[3] as int * 0x100_0000 + b[2] as int * 0x1_0000 + b[1] as int * 0x100 + b[0] as int
  {
    BE32RoundTrip(n);
    LE32RoundTrip(n);
  }

  function Flatten<T>(parts: seq<seq<T>>): seq<T> {
    if parts == [] then [] else parts[0] + Flatten(parts[1..])
  }

  lemma {:induction false} FlattenAppend<T>(a: seq<seq<T>>, b: seq<seq<T>>)
    ensures Flatten(a + b) == Flatten(a) + Flatten(b)
  {
    if a == [] {
      assert a + b == b;
    } else {
      assert (a + b)[1..] == a[1..] + b;
      FlattenAppend(a[1..], b);
    }
  }

  lemma {:induction false} FlattenSingle<T>(p: seq<T>)
    ensures Flatten([p]) == p
  {
    assert Flatten([p]) == p + Flatten([]);
  }
}
