/** streamIDHistory: an exact, lazily allocated bitmap over the 24-bit stream identifiers. */
module StreamHistory {
  import opened FrameCodec

  const CHUNK_BITS := 0x1_0000
  const WORD_BITS := 64
  const CHUNK_COUNT := 256
  const WORD_COUNT := 1024
  const MAX_BYTES := 0x20_0000

  /** Bit b of a word: word & (1 << b) != 0. */
  predicate Bit(word: nat, b: nat) {
    if b == 0 then word % 2 == 1 else Bit(word / 2, b - 1)
  }

  /** word | (1 << b). */
  function SetBit(word: nat, b: nat): nat {
    if b == 0 then word / 2 * 2 + 1 else 2 * SetBit(word / 2, b - 1) + word % 2
  }

  function Limit(bits: nat): (n: nat)
    ensures n > 0
  {
    if bits == 0 then 1 else 2 * Limit(bits - 1)
  }

  lemma {:induction false} SetBitSetsOne(word: nat, b: nat, c: nat)
    ensures Bit(SetBit(word, b), c) <==> b == c || Bit(word, c)
    decreases b, c
  {
    var grown := SetBit(word, b);
    if b == 0 {
      assert grown / 2 == word / 2 && grown % 2 == 1;
    } else {
      assert grown / 2 == SetBit(word / 2, b - 1) && grown % 2 == word % 2;
      if c != 0 {
        SetBitSetsOne(word / 2, b - 1, c - 1);
      }
    }
  }

  /** Words stay words: 64 bits suffice. */
  lemma {:induction false} SetBitFits(word: nat, b: nat, bits: nat)
    requires word < Limit(bits) && b < bits
    ensures SetBit(word, b) < Limit(bits)
  {
    var half := Limit(bits - 1);
    assert word / 2 < half;
    if b == 0 {
      assert word / 2 * 2 + 1 < 2 * half;
    } else {
      SetBitFits(word / 2, b - 1, bits - 1);
    }
  }

  lemma {:induction false} NoBits(b: nat)
    ensures !Bit(0, b)
  {
    if b != 0 {
      NoBits(b - 1);
    }
  }

  function Chunk(id: nat): nat {
    id / CHUNK_BITS
  }

  function Word(id: nat): nat {
    id % CHUNK_BITS / WORD_BITS
  }

  function Place(id: nat): nat {
    id % CHUNK_BITS % WORD_BITS
  }

  lemma {:induction false} Placed(id: nat)
    requires id <= MAX_STREAM_ID
    ensures Chunk(id) < CHUNK_COUNT && Word(id) < WORD_COUNT && Place(id) < WORD_BITS
  {}

  /** An identifier has its own bit. */
  lemma {:induction false} PlacesDiffer(a: nat, b: nat)
    requires Chunk(a) == Chunk(b) && Word(a) == Word(b) && Place(a) == Place(b)
    ensures a == b
  {
    assert a % CHUNK_BITS == Word(a) * WORD_BITS + Place(a) && b % CHUNK_BITS == Word(b) * WORD_BITS + Place(b);
    assert a == Chunk(a) * CHUNK_BITS + a % CHUNK_BITS && b == Chunk(b) * CHUNK_BITS + b % CHUNK_BITS;
  }

  /** A chunk's words, or none while it is not allocated. */
  type Block = seq<nat>

  const UNALLOCATED: Block := []
  const CLEAR: Block := seq(WORD_COUNT, _ => 0)

  predicate BlockOK(block: Block) {
    block == UNALLOCATED || (|block| == WORD_COUNT && forall i | 0 <= i < WORD_COUNT :: block[i] < Limit(WORD_BITS))
  }

  function Blocks(chunks: seq<Block>): nat {
    if chunks == [] then 0
    else Blocks(chunks[..|chunks| - 1]) + (if chunks[|chunks| - 1] == UNALLOCATED then 0 else 1)
  }

  lemma {:induction false} BlocksBound(chunks: seq<Block>)
    ensures Blocks(chunks) <= |chunks|
  {
    if chunks != [] {
      BlocksBound(chunks[..|chunks| - 1]);
    }
  }

  lemma {:induction false} BlocksUpdate(before: seq<Block>, i: nat, block: Block)
    requires i < |before| && block != UNALLOCATED
    ensures Blocks(before[i := block]) == Blocks(before) + (if before[i] == UNALLOCATED then 1 else 0)
  {
    var after := before[i := block];
    var n := |before| - 1;
    if i == n {
      assert after[..n] == before[..n];
    } else {
      assert after[..n] == before[..n][i := block];
      BlocksUpdate(before[..n], i, block);
    }
  }

  /** Whether the bitmap has an identifier. */
  predicate Recorded(chunks: seq<Block>, id: nat)
    requires |chunks| == CHUNK_COUNT && (forall i | 0 <= i < CHUNK_COUNT :: BlockOK(chunks[i])) && id <= MAX_STREAM_ID
  {
    Placed(id);
    var block := chunks[Chunk(id)];
    assert BlockOK(block);
    block != UNALLOCATED && Bit(block[Word(id)], Place(id))
  }

  function Marked(block: Block, id: nat): Block
    requires |block| == WORD_COUNT && id <= MAX_STREAM_ID
  {
    Placed(id);
    block[Word(id) := SetBit(block[Word(id)], Place(id))]
  }

  lemma {:induction false} MarkedIsOK(block: Block, id: nat)
    requires |block| == WORD_COUNT && BlockOK(block) && id <= MAX_STREAM_ID
    ensures BlockOK(Marked(block, id))
  {
    Placed(id);
    SetBitFits(block[Word(id)], Place(id), WORD_BITS);
  }

  lemma {:induction false} AllocatedIsEmpty()
    ensures |CLEAR| == WORD_COUNT && BlockOK(CLEAR) && forall b: nat :: !Bit(0, b)
  {
    forall b: nat ensures !Bit(0, b) { NoBits(b); }
  }

  /** Marking an identifier, its chunk allocated first if need be, adds exactly that identifier. */
  lemma {:induction false} MarkAddsOne(before: seq<Block>, id: nat, other: nat)
    requires |before| == CHUNK_COUNT && (forall i | 0 <= i < CHUNK_COUNT :: BlockOK(before[i]))
    requires id <= MAX_STREAM_ID && other <= MAX_STREAM_ID
    ensures Chunk(id) < CHUNK_COUNT
    ensures var block := if before[Chunk(id)] == UNALLOCATED then CLEAR else before[Chunk(id)];
            && |block| == WORD_COUNT && BlockOK(Marked(block, id))
            && (Recorded(before[Chunk(id) := Marked(block, id)], other) <==> other == id || Recorded(before, other))
  {
    hide Bit, SetBit, Limit, Word, Place, Chunk;
    Placed(id);
    Placed(other);
    AllocatedIsEmpty();
    var block := if before[Chunk(id)] == UNALLOCATED then CLEAR else before[Chunk(id)];
    MarkedIsOK(block, id);
    SetBitSetsOne(block[Word(id)], Place(id), Place(other));
    if Chunk(id) == Chunk(other) && Word(id) == Word(other) && Place(id) == Place(other) {
      PlacesDiffer(id, other);
    }
  }

  class History {
    const chunks: array<Block>
    var blocks: nat
    ghost var ids: set<nat> // what has been added

    ghost predicate Valid()
      reads this, chunks
    {
      && chunks.Length == CHUNK_COUNT
      && (forall i | 0 <= i < CHUNK_COUNT :: BlockOK(chunks[..][i]))
      && blocks == Blocks(chunks[..])
      && (forall id | id in ids :: id <= MAX_STREAM_ID)
      && (forall id | 0 <= id <= MAX_STREAM_ID :: id in ids <==> Recorded(chunks[..], id))
    }

    constructor ()
      ensures Valid() && fresh(chunks) && ids == {}
    {
      chunks := new Block[CHUNK_COUNT](_ => UNALLOCATED);
      blocks := 0;
      ids := {};
      new;
      NothingAllocated(chunks[..]);
    }

    method Contains(id: nat) returns (found: bool)
      requires Valid() && id <= MAX_STREAM_ID
      ensures found <==> id in ids
    {
      Placed(id);
      var block := chunks[Chunk(id)];
      assert block == chunks[..][Chunk(id)];
      if block == UNALLOCATED {
        return false;
      }
      return Bit(block[Word(id)], Place(id));
    }

    /** Records an identifier and reports whether it was new. */
    method Add(id: nat) returns (isNew: bool)
      requires Valid() && id <= MAX_STREAM_ID
      modifies this`blocks, this`ids, chunks
      ensures Valid() && ids == old(ids) + {id}
      ensures isNew <==> id !in old(ids)
    {
      hide Bit, SetBit, Limit, Word, Place, Chunk, Blocks;
      Placed(id);
      AllocatedIsEmpty();
      ghost var before := chunks[..];
      var index := Chunk(id);
      var block := chunks[index];
      assert before[index] == block && BlockOK(block);
      if block == UNALLOCATED {
        block := CLEAR;
        chunks[index] := block;
        blocks := blocks + 1;
      }
      if Bit(block[Word(id)], Place(id)) {
        return false;
      }
      ghost var was := block;
      block := block[Word(id) := SetBit(block[Word(id)], Place(id))];
      chunks[index] := block;
      ids := ids + {id};
      assert chunks[..] == before[index := Marked(was, id)];
      MarkAddsAll(before, id);
      BlocksUpdate(before, index, Marked(was, id));
      return true;
    }

    /** No session's history outgrows its bound, and its counter stays within 16 bits. */
    lemma BoundedSize()
      requires Valid()
      ensures blocks * WORD_COUNT * 8 <= MAX_BYTES && blocks < 0x1_0000
    {
      BlocksBound(chunks[..]);
    }
  }

  lemma {:induction false} MarkAddsAll(before: seq<Block>, id: nat)
    requires |before| == CHUNK_COUNT && (forall i | 0 <= i < CHUNK_COUNT :: BlockOK(before[i])) && id <= MAX_STREAM_ID
    ensures Chunk(id) < CHUNK_COUNT
    ensures var block := if before[Chunk(id)] == UNALLOCATED then CLEAR else before[Chunk(id)];
            && |block| == WORD_COUNT && BlockOK(Marked(block, id))
            && forall other | 0 <= other <= MAX_STREAM_ID ::
                 Recorded(before[Chunk(id) := Marked(block, id)], other) <==> other == id || Recorded(before, other)
  {
    hide BlockOK, Recorded, Marked, Chunk;
    Placed(id);
    MarkAddsOne(before, id, id);
    var block := if before[Chunk(id)] == UNALLOCATED then CLEAR else before[Chunk(id)];
    forall other | 0 <= other <= MAX_STREAM_ID
      ensures Recorded(before[Chunk(id) := Marked(block, id)], other) <==> other == id || Recorded(before, other)
    {
      MarkAddsOne(before, id, other);
    }
  }

  lemma {:induction false} NothingAllocated(chunks: seq<Block>)
    requires forall i | 0 <= i < |chunks| :: chunks[i] == UNALLOCATED
    ensures Blocks(chunks) == 0
  {
    if chunks != [] {
      NothingAllocated(chunks[..|chunks| - 1]);
    }
  }
}
