/**
 * Dynamic TLS record sizing and the response writer that relies on it: the planned size is the size
 * written, and no client response from any reachable state exceeds the precomputed maximum.
 */
module RecordSizer {
  import opened Bytes
  import opened SeqSums
  import ClientPacket

  const PROBE_SIZE := 1369
  const RAMP_RECORDS := 8
  const RAMP_BYTES := 128 * 1024
  const RECORD_HEADER_SIZE := 5
  const MAX_RECORD_PAYLOAD := 16384 + 256
  const APPLICATION_DATA: byte := 0x17

  const MAX_CLIENT_WIRE := ClientPacket.MAX_CLIENT_PACKET_SIZE + 7
  const MAX_TLS_RECORDS := 1 + RAMP_RECORDS + (MAX_CLIENT_WIRE + MAX_RECORD_PAYLOAD - 1) / MAX_RECORD_PAYLOAD
  const MAX_ENCODED_RESPONSE := MAX_CLIENT_WIRE + MAX_TLS_RECORDS * RECORD_HEADER_SIZE

  /** DRSState with its machine-width counters. */
  datatype Sizer = Sizer(records: nat, bytes: nat, splitNext: bool, drsOn: bool, maxSize: int)

  predicate Probing(d: Sizer) {
    d.drsOn && d.records < RAMP_RECORDS && d.bytes < RAMP_BYTES
  }

  function NextChunk(d: Sizer, remaining: int): (r: (Sizer, int))
    ensures 0 < remaining ==> r.1 <= remaining
  {
    if remaining <= 0 then (d, 0)
    else if d.splitNext then (d.(splitNext := false), 1)
    else if Probing(d) then (d, Min(remaining, PROBE_SIZE))
    else (d, Min(remaining, d.maxSize))
  }

  function Advance(d: Sizer, n: int): Sizer {
    if n <= 0 then d
    else d.(records := (d.records + 1) % 0x1_0000_0000, bytes := (d.bytes + n) % 0x1_0000_0000_0000_0000)
  }

  /** One record written. */
  function Wrote(d: Sizer, remaining: int): Sizer {
    Advance(NextChunk(d, remaining).0, NextChunk(d, remaining).1)
  }

  /** The payload sizes of the records that carry n bytes, as the wrap loop produces them. */
  function Chunks(d: Sizer, n: nat): (r: seq<nat>)
    ensures 0 < d.maxSize < 0x1_0000 ==> Sized(r)
    decreases n
  {
    var c := NextChunk(d, n).1;
    if n == 0 || c <= 0 then [] else [c] + Chunks(Wrote(d, n), n - c)
  }

  /** Sizes a record header can announce. */
  predicate Sized(chunks: seq<nat>) {
    forall i | 0 <= i < |chunks| :: 0 < chunks[i] < 0x1_0000
  }

  function Encoded(chunks: seq<nat>): nat {
    Total(chunks, Itself) + |chunks| * RECORD_HEADER_SIZE
  }

  class DrsState {
    var records: nat
    var bytes: nat
    var splitNext: bool
    const drsOn: bool
    const maxSize: int

    function View(): Sizer
      reads this
    {
      Sizer(records, bytes, splitNext, drsOn, maxSize)
    }

    constructor (drsOn: bool, splitFirst: bool, maxSize: int)
      ensures View() == Sizer(0, 0, splitFirst, drsOn, maxSize)
    {
      this.drsOn, this.splitNext, this.maxSize, records, bytes := drsOn, splitFirst, maxSize, 0, 0;
    }

    constructor Copy(d: Sizer)
      ensures View() == d
    {
      drsOn, splitNext, maxSize, records, bytes := d.drsOn, d.splitNext, d.maxSize, d.records, d.bytes;
    }

    method Next(remaining: int) returns (chunk: int)
      modifies this
      ensures (View(), chunk) == NextChunk(old(View()), remaining)
    {
      if remaining <= 0 {
        return 0;
      }
      if splitNext {
        splitNext := false;
        return 1;
      }
      if drsOn && records < RAMP_RECORDS && bytes < RAMP_BYTES {
        return Min(remaining, PROBE_SIZE);
      }
      return Min(remaining, maxSize);
    }

    method Record(n: int)
      modifies this
      ensures View() == Advance(old(View()), n)
    {
      if n <= 0 {
        return;
      }
      records := (records + 1) % 0x1_0000_0000;
      bytes := (bytes + n) % 0x1_0000_0000_0000_0000;
    }

    /** PlanSize: simulate on a copy. */
    method PlanSize(payloadLen: nat) returns (total: nat)
      ensures total == Encoded(Chunks(View(), payloadLen))
    {
      var sim := new DrsState.Copy(View());
      var remaining: int := payloadLen;
      total := 0;
      while remaining > 0
        invariant fresh(sim) && 0 <= remaining
        invariant total + Encoded(Chunks(sim.View(), remaining)) == Encoded(Chunks(View(), payloadLen))
      {
        ghost var before := sim.View();
        ghost var rest := Chunks(before, remaining);
        var c := sim.Next(remaining);
        if c <= 0 {
          break;
        }
        total := total + RECORD_HEADER_SIZE + c;
        sim.Record(c);
        remaining := remaining - c;
        assert rest == [c as nat] + Chunks(sim.View(), remaining) && rest[1..] == Chunks(sim.View(), remaining);
      }
    }
  }

  // ---------------------------------------------------------------- records

  function RecordHeader(n: nat): (h: bytes)
    requires n < 0x1_0000
    ensures |h| == RECORD_HEADER_SIZE
  {
    [APPLICATION_DATA, 0x03, 0x03, n / 0x100, n % 0x100]
  }

  /** The records that carry `body` in pieces of the given sizes. */
  function Records(body: bytes, chunks: seq<nat>): (r: bytes)
    requires Total(chunks, Itself) == |body| && Sized(chunks)
    ensures |r| == Encoded(chunks)
    decreases |chunks|
  {
    if chunks == [] then []
    else RecordHeader(chunks[0]) + body[..chunks[0]] + Records(body[chunks[0]..], chunks[1..])
  }

  /** What a TLS peer recovers from a stream of application records. */
  function Payload(stream: bytes): Option<bytes>
    decreases |stream|
  {
    if stream == [] then Some([])
    else if |stream| < RECORD_HEADER_SIZE || stream[0] != APPLICATION_DATA then None
    else
      var (high: int, low: int) := (stream[3], stream[4]);
      var n := high * 0x100 + low;
      if |stream| < RECORD_HEADER_SIZE + n then None
      else match Payload(stream[RECORD_HEADER_SIZE + n..])
        case None => None
        case Some(rest) => Some(stream[RECORD_HEADER_SIZE..RECORD_HEADER_SIZE + n] + rest)
  }

  lemma {:induction false} PayloadStep(n: nat, piece: bytes, rest: bytes)
    requires |piece| == n < 0x1_0000 && Payload(rest).Some?
    ensures Payload(RecordHeader(n) + piece + rest) == Some(piece + Payload(rest).value)
  {
    var stream := RecordHeader(n) + piece + rest;
    assert stream[3] == n / 0x100 && stream[4] == n % 0x100;
    assert stream[RECORD_HEADER_SIZE + n..] == rest && stream[RECORD_HEADER_SIZE..RECORD_HEADER_SIZE + n] == piece;
  }

  lemma {:induction false} RecordsCarry(body: bytes, chunks: seq<nat>)
    requires Total(chunks, Itself) == |body| && Sized(chunks)
    ensures Payload(Records(body, chunks)) == Some(body)
    decreases |chunks|
  {
    hide Payload, RecordHeader;
    if chunks == [] {
      EmptyPayload();
    } else {
      var n := chunks[0];
      RecordsCarry(body[n..], chunks[1..]);
      PayloadStep(n, body[..n], Records(body[n..], chunks[1..]));
      assert body == body[..n] + body[n..];
    }
  }

  lemma {:induction false} EmptyPayload()
    ensures Payload([]) == Some([])
  {}

  lemma {:induction false} ChunksTotal(d: Sizer, n: nat)
    requires d.maxSize > 0
    ensures Total(Chunks(d, n), Itself) == n
    decreases n
  {
    if n != 0 {
      var c := NextChunk(d, n).1;
      ChunksTotal(Wrote(d, n), n - c);
      assert Chunks(d, n)[1..] == Chunks(Wrote(d, n), n - c);
    }
  }

  // ---------------------------------------------------------------- the bound

  /** A connection's sizer after `count` records of `sent` bytes in all. */
  predicate Reachable(d: Sizer, count: nat, sent: nat) {
    && count <= sent && sent <= MAX_UINT64
    && d.records == count % 0x1_0000_0000 && d.bytes == sent
    && d.maxSize == MAX_RECORD_PAYLOAD
  }

  predicate Ramped(count: nat, sent: nat) {
    count >= RAMP_RECORDS || sent >= RAMP_BYTES
  }

  lemma {:induction false} WroteReachable(d: Sizer, count: nat, sent: nat, n: nat)
    requires Reachable(d, count, sent) && 0 < n && sent + NextChunk(d, n).1 <= MAX_UINT64
    ensures Reachable(Wrote(d, n), count + 1, sent + NextChunk(d, n).1)
  {}

  /** Once ramped, the probe phase never returns, although the record counter wraps around. */
  lemma {:induction false} NeverProbesAgain(d: Sizer, count: nat, sent: nat)
    requires Reachable(d, count, sent) && Ramped(count, sent)
    ensures !Probing(d)
  {
    if sent < RAMP_BYTES {
      assert count % 0x1_0000_0000 == count;
    }
  }

  /** Records that may still be smaller than the steady size. */
  function SmallLeft(d: Sizer, count: nat): nat {
    (if d.splitNext then 1 else 0) + (if count < RAMP_RECORDS then RAMP_RECORDS - count else 0)
  }

  function Steady(n: nat): nat {
    (n + MAX_RECORD_PAYLOAD - 1) / MAX_RECORD_PAYLOAD
  }

  lemma {:induction false} SteadyMonotone(a: nat, b: nat)
    requires a <= b
    ensures Steady(a) <= Steady(b)
  {}

  lemma {:induction false} SteadyFull(n: nat)
    requires MAX_RECORD_PAYLOAD <= n
    ensures Steady(n) == Steady(n - MAX_RECORD_PAYLOAD) + 1
  {}

  /** From any reachable state n bytes take at most the small records left and the steady count. */
  lemma {:induction false} ChunkCount(d: Sizer, n: nat, count: nat, sent: nat)
    requires Reachable(d, count, sent) && sent + n <= MAX_UINT64
    ensures |Chunks(d, n)| <= SmallLeft(d, count) + Steady(n)
    decreases n
  {
    if n != 0 {
      var c := NextChunk(d, n).1;
      WroteReachable(d, count, sent, n);
      ChunkCount(Wrote(d, n), n - c, count + 1, sent + c);
      SteadyMonotone(n - c, n);
      if Ramped(count, sent) {
        NeverProbesAgain(d, count, sent);
      }
      if !d.splitNext && !Probing(d) {
        if n >= MAX_RECORD_PAYLOAD {
          SteadyFull(n);
        } else {
          assert Steady(n) == 1 && Steady(0) == 0;
        }
      } else if !d.splitNext {
        assert count < RAMP_RECORDS;
      }
    }
  }

  /** Any client response within the wire bound fits the precomputed maximum, from any reachable state. */
  lemma {:induction false} ResponseFits(d: Sizer, n: nat, count: nat, sent: nat)
    requires Reachable(d, count, sent) && n <= MAX_CLIENT_WIRE && sent + n <= MAX_UINT64
    ensures Encoded(Chunks(d, n)) <= MAX_ENCODED_RESPONSE
  {
    ChunkCount(d, n, count, sent);
    ChunksTotal(d, n);
    SteadyMonotone(n, MAX_CLIENT_WIRE);
  }

  /**
   * A client packet of any framing, with the at most three random padding bytes the encoder adds, never makes
   * writeWire exceed its bound: its size error cannot happen on a connection that has carried less than 2^64 bytes.
   */
  lemma {:induction false} EveryPacketFits(framing: ClientPacket.Framing, max: nat, packet: bytes, padding: bytes,
                                           d: Sizer, count: nat, sent: nat)
    requires ClientPacket.ValidMax(max) && |padding| <= 3
    requires ClientPacket.Encode(framing, max, packet, padding).Some?
    requires Reachable(d, count, sent) && sent + |ClientPacket.Encode(framing, max, packet, padding).value| <= MAX_UINT64
    ensures Encoded(Chunks(d, |ClientPacket.Encode(framing, max, packet, padding).value|)) <= MAX_ENCODED_RESPONSE
  {
    hide Chunks, Encoded, Reachable;
    ResponseFits(d, |ClientPacket.Encode(framing, max, packet, padding).value|, count, sent);
  }

  /** The size of a record begun after `count` records of `sent` bytes, with n bytes left to carry. */
  predicate RecordSize(c: nat, n: nat, drsOn: bool, maxSize: int, count: nat, sent: nat) {
    if drsOn && count < RAMP_RECORDS && sent < RAMP_BYTES then c == PROBE_SIZE <= n || c == n < PROBE_SIZE
    else c == maxSize <= n || c == n < maxSize
  }

  /**
   * Every record of a response: one byte if it is the one that splits, then probes while neither eight records nor
   * 128 KiB went before it on the connection, then the steady size; only the last one may be shorter.
   */
  lemma {:induction false} ChunkSizes(d: Sizer, n: nat, count: nat, sent: nat, i: nat)
    requires Reachable(d, count, sent) && sent + n <= MAX_UINT64 && i < |Chunks(d, n)|
    ensures Total(Chunks(d, n)[..i], Itself) < n
    ensures var chunks := Chunks(d, n);
            var before := Total(chunks[..i], Itself);
            if i == 0 && d.splitNext then chunks[i] == 1
            else RecordSize(chunks[i], n - before, d.drsOn, d.maxSize, count + i, sent + before)
    decreases i
  {
    var chunks := Chunks(d, n);
    var c := NextChunk(d, n).1;
    FirstChunk(d, n);
    if i == 0 {
      assert chunks[..0] == [];
      if Ramped(count, sent) {
        NeverProbesAgain(d, count, sent);
      }
    } else {
      WroteReachable(d, count, sent, n);
      assert chunks[..i][1..] == chunks[1..][..i - 1];
      ChunkSizes(Wrote(d, n), n - c, count + 1, sent + c, i - 1);
    }
  }

  // ---------------------------------------------------------------- writing a response

  datatype Written = Written(out: bytes) | TooLarge | EmptyChunk | SizeMismatch

  /** XORKeyStream: the cipher's output at each position depends on the position and the byte. */
  function Encrypted(mask: (nat, byte) -> byte, position: nat, s: bytes): (r: bytes)
    ensures |r| == |s|
  {
    seq(|s|, i requires 0 <= i < |s| => mask(position + i, s[i]))
  }

  /** One turn of writeWire's loop: the next record, in place. */
  method WriteRecord(drs: DrsState, out: array<byte>, at: nat, wire: bytes, source: nat, mask: (nat, byte) -> byte, position: nat,
                     ghost whole: bytes)
    returns (chunk: nat)
    requires 0 < drs.maxSize < 0x1_0000 && source < |wire| && at <= out.Length == |whole|
    requires Pending(whole, out[..at], Encrypted(mask, position, wire)[source..], Chunks(drs.View(), |wire| - source))
    modifies drs, out
    ensures 0 < chunk <= |wire| - source && at + RECORD_HEADER_SIZE + chunk <= out.Length
    ensures Pending(whole, out[..at + RECORD_HEADER_SIZE + chunk], Encrypted(mask, position, wire)[source + chunk..],
                    Chunks(drs.View(), |wire| - source - chunk))
  {
    hide Records, Chunks, Encrypted, Pending, Total, Advance, RecordHeader;
    ghost var before := drs.View();
    FirstChunk(before, |wire| - source);
    var next := drs.Next(|wire| - source);
    chunk := next;
    FirstRecord(whole, out[..at], Encrypted(mask, position, wire)[source..], Chunks(before, |wire| - source));
    PieceEncrypted(mask, position, wire, source, chunk);
    PutRecord(out, at, wire[source..source + chunk], mask, position + source);
    drs.Record(chunk);
  }

  /** The loop of writeWire; None when the sizer hands out an empty chunk. */
  method WriteRecords(drs: DrsState, out: array<byte>, wire: bytes, mask: (nat, byte) -> byte, position: nat,
                      ghost whole: bytes)
    returns (destination: Option<nat>)
    requires 0 < drs.maxSize < 0x1_0000 && out.Length == |whole|
    requires Pending(whole, [], Encrypted(mask, position, wire), Chunks(drs.View(), |wire|))
    modifies drs, out
    ensures destination == Some(|whole|) && out[..] == whole
  {
    hide Records, Chunks, Encrypted, Pending, Total;
    ghost var body := Encrypted(mask, position, wire);
    var (source, at) := (0, 0);
    assert out[..0] == [] && body[0..] == body;
    while source < |wire|
      invariant 0 <= source <= |wire| && 0 <= at <= out.Length
      invariant Pending(whole, out[..at], body[source..], Chunks(drs.View(), |wire| - source))
    {
      var chunk := WriteRecord(drs, out, at, wire, source, mask, position, whole);
      if chunk <= 0 {
        return None;
      }
      source := source + chunk;
      at := at + RECORD_HEADER_SIZE + chunk;
    }
    AllWritten(whole, out[..at], body[source..], Chunks(drs.View(), |wire| - source));
    assert out[..] == out[..at];
    return Some(at);
  }

  /** writeWire's record-by-record encoding of a response into a buffer of the planned size. */
  method WriteWire(drs: DrsState, mask: (nat, byte) -> byte, position: nat, wire: bytes) returns (r: Written)
    requires 0 < drs.maxSize < 0x1_0000
    modifies drs
    ensures r.TooLarge? <==> Encoded(Chunks(old(drs.View()), |wire|)) > MAX_ENCODED_RESPONSE
    ensures r.TooLarge? ==> drs.View() == old(drs.View())
    ensures !r.TooLarge? ==>
            && Total(Chunks(old(drs.View()), |wire|), Itself) == |wire|
            && r == Written(Records(Encrypted(mask, position, wire), Chunks(old(drs.View()), |wire|)))
  {
    ghost var chunks := Chunks(drs.View(), |wire|);
    ghost var body := Encrypted(mask, position, wire);
    ChunksTotal(drs.View(), |wire|);
    hide Records, Chunks, Encrypted, Pending, Total;
    var encodedSize := drs.PlanSize(|wire|);
    if encodedSize > MAX_ENCODED_RESPONSE {
      return TooLarge;
    }
    var out := new byte[encodedSize];
    StartsPending(body, chunks);
    var destination := WriteRecords(drs, out, wire, mask, position, Records(body, chunks));
    if destination.None? {
      return EmptyChunk;
    }
    if destination.value != out.Length {
      return SizeMismatch;
    }
    return Written(out[..]);
  }

  lemma {:induction false} StartsPending(body: bytes, chunks: seq<nat>)
    requires Total(chunks, Itself) == |body| && Sized(chunks)
    ensures Pending(Records(body, chunks), [], body, chunks)
  {
    assert [] + Records(body, chunks) == Records(body, chunks);
  }

  lemma {:induction false} FirstChunk(d: Sizer, n: nat)
    requires 0 < n && d.maxSize > 0
    ensures var c := NextChunk(d, n).1;
            var rest := Chunks(d, n);
            0 < c <= n && rest != [] && rest[0] == c && rest[1..] == Chunks(Wrote(d, n), n - c)
  {}

  lemma {:induction false} PieceEncrypted(mask: (nat, byte) -> byte, position: nat, wire: bytes, source: nat, n: nat)
    requires source + n <= |wire|
    ensures var body := Encrypted(mask, position, wire);
            && body[source..][..n] == Encrypted(mask, position + source, wire[source..source + n])
            && body[source..][n..] == body[source + n..]
  {}

  lemma {:induction false} AllWritten(whole: bytes, written: bytes, body: bytes, chunks: seq<nat>)
    requires Pending(whole, written, body, chunks) && body == []
    ensures whole == written
  {
    assert chunks != [] ==> Total(chunks, Itself) > 0;
  }

  /** `whole` is what is written so far followed by the records still to be written. */
  predicate Pending(whole: bytes, written: bytes, body: bytes, chunks: seq<nat>) {
    Total(chunks, Itself) == |body| && Sized(chunks) && whole == written + Records(body, chunks)
  }

  lemma {:induction false} FirstRecord(whole: bytes, written: bytes, body: bytes, chunks: seq<nat>)
    requires Pending(whole, written, body, chunks) && chunks != []
    ensures chunks[0] <= |body| && |written| + RECORD_HEADER_SIZE + chunks[0] <= |whole|
    ensures Pending(whole, written + (RecordHeader(chunks[0]) + body[..chunks[0]]), body[chunks[0]..], chunks[1..])
  {}

  /** One record header and its encrypted payload, in place. */
  method PutRecord(out: array<byte>, at: nat, piece: bytes, mask: (nat, byte) -> byte, position: nat)
    requires |piece| < 0x1_0000 && at + RECORD_HEADER_SIZE + |piece| <= out.Length
    modifies out
    ensures out[..at + RECORD_HEADER_SIZE + |piece|] ==
            old(out[..at]) + (RecordHeader(|piece|) + Encrypted(mask, position, piece))
  {
    var n := |piece|;
    out[at], out[at + 1], out[at + 2] := APPLICATION_DATA, 0x03, 0x03;
    out[at + 3], out[at + 4] := n / 0x100, n % 0x100;
    var start := at + RECORD_HEADER_SIZE;
    for i := 0 to n
      invariant out[..start] == old(out[..at]) + RecordHeader(n)
      invariant out[start..start + i] == Encrypted(mask, position, piece)[..i]
    {
      out[start + i] := mask(position + i, piece[i]);
    }
    assert out[..start + n] == out[..start] + out[start..start + n];
  }
}
