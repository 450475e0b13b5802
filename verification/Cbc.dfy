/**
 * Continuous AES-CBC between Middle-End peers: the bounded, resumable decrypter against one-shot
 * decryption of the whole stream, and the padding encrypter against the decrypter.
 *
 * The block cipher is a pair of function parameters; only their being inverse on blocks matters.
 */
module Cbc {
  import opened Bytes
  import ClientPacket

  type octets = seq<bv8>

  const BLOCK := 16
  const NOOP_SIZE := 4
  const MAX_ME_FRAME_SIZE := ClientPacket.MAX_CLIENT_PACKET_SIZE + 84 + 12
  const MAX_PER_FEED := MAX_ME_FRAME_SIZE / BLOCK * BLOCK

  /** Encryption and decryption of single blocks, inverse to each other. */
  ghost predicate BlockCipher(enc: octets -> octets, dec: octets -> octets) {
    forall b: octets | |b| == BLOCK :: |enc(b)| == BLOCK && dec(enc(b)) == b
  }

  function XorBlocks(a: octets, b: octets): (r: octets)
    requires |a| == BLOCK && |b| == BLOCK
    ensures |r| == BLOCK
  {
    seq(BLOCK, i requires 0 <= i < BLOCK => a[i] ^ b[i])
  }

  lemma {:induction false} XorBlocksTwice(a: octets, b: octets)
    requires |a| == BLOCK && |b| == BLOCK
    ensures XorBlocks(XorBlocks(a, b), b) == a
  {
    forall i | 0 <= i < BLOCK ensures (a[i] ^ b[i]) ^ b[i] == a[i] {}
  }

  function Fit(b: octets): (r: octets)
    ensures |r| == BLOCK && (|b| == BLOCK ==> r == b)
  {
    if |b| == BLOCK then b else seq(BLOCK, _ => 0)
  }

  /** CryptBlocks of the encrypting mode, started from iv. */
  function Encrypt(enc: octets -> octets, iv: octets, plain: octets): octets
    requires |iv| == BLOCK
    decreases |plain|
  {
    if |plain| < BLOCK then []
    else
      var c := Fit(enc(XorBlocks(plain[..BLOCK], iv)));
      c + Encrypt(enc, c, plain[BLOCK..])
  }

  /** CryptBlocks of the decrypting mode on the complete blocks of a stream. */
  function Decrypt(dec: octets -> octets, iv: octets, cipher: octets): (r: octets)
    requires |iv| == BLOCK
    ensures |r| == |cipher| / BLOCK * BLOCK
    decreases |cipher|
  {
    if |cipher| < BLOCK then []
    else XorBlocks(Fit(dec(cipher[..BLOCK])), iv) + Decrypt(dec, cipher[..BLOCK], cipher[BLOCK..])
  }

  /** The chaining value after a stream of complete blocks. */
  function Chain(iv: octets, cipher: octets): (r: octets)
    requires |iv| == BLOCK && |cipher| % BLOCK == 0
    ensures |r| == BLOCK
  {
    if |cipher| == 0 then iv else cipher[|cipher| - BLOCK..]
  }

  lemma {:induction false} BlockMultiple(n: nat)
    requires n % BLOCK == 0 && n != 0
    ensures n >= BLOCK && (n - BLOCK) % BLOCK == 0
  {}

  /** Decrypting a stream in two pieces cut at a block boundary. */
  lemma {:induction false} DecryptSplit(dec: octets -> octets, iv: octets, a: octets, b: octets)
    requires |iv| == BLOCK && |a| % BLOCK == 0
    ensures Decrypt(dec, iv, a + b) == Decrypt(dec, iv, a) + Decrypt(dec, Chain(iv, a), b)
    decreases |a|
  {
    if a == [] {
      assert a + b == b;
    } else {
      BlockMultiple(|a|);
      var first := a[..BLOCK];
      assert (a + b)[..BLOCK] == first && (a + b)[BLOCK..] == a[BLOCK..] + b;
      DecryptSplit(dec, first, a[BLOCK..], b);
      assert Chain(first, a[BLOCK..]) == Chain(iv, a);
    }
  }

  /** The block of ciphertext before block n, or the initial vector. */
  function Previous(iv: octets, cipher: octets, n: nat): (r: octets)
    requires |iv| == BLOCK && n * BLOCK <= |cipher|
    ensures |r| == BLOCK
  {
    if n == 0 then iv else cipher[(n - 1) * BLOCK..n * BLOCK]
  }

  /** Decryption is CBC: each byte is the decrypted block's, exclusive-or the one of the ciphertext before it. */
  lemma {:induction false} DecryptsBlocks(dec: octets -> octets, iv: octets, cipher: octets, n: nat, k: nat)
    requires |iv| == BLOCK && (n + 1) * BLOCK <= |cipher| && k < BLOCK
    requires |dec(cipher[n * BLOCK..(n + 1) * BLOCK])| == BLOCK
    ensures n * BLOCK + k < |Decrypt(dec, iv, cipher)|
    ensures Decrypt(dec, iv, cipher)[n * BLOCK + k] == dec(cipher[n * BLOCK..(n + 1) * BLOCK])[k] ^ Previous(iv, cipher, n)[k]
    decreases n
  {
    if n > 0 {
      var rest := cipher[BLOCK..];
      assert rest[(n - 1) * BLOCK..n * BLOCK] == cipher[n * BLOCK..(n + 1) * BLOCK];
      assert Previous(cipher[..BLOCK], rest, n - 1) == Previous(iv, cipher, n);
      DecryptsBlocks(dec, cipher[..BLOCK], rest, n - 1, k);
    }
  }

  /** Encryption is CBC: each block is the encryption of the plaintext exclusive-or the ciphertext before it. */
  lemma {:induction false} EncryptsBlocks(enc: octets -> octets, iv: octets, plain: octets, n: nat, mixed: octets)
    requires |iv| == BLOCK && (n + 1) * BLOCK <= |plain| && (forall b: octets | |b| == BLOCK :: |enc(b)| == BLOCK)
    requires var c := Encrypt(enc, iv, plain);
             && n * BLOCK <= |c| && |mixed| == BLOCK
             && forall k | 0 <= k < BLOCK :: mixed[k] == plain[n * BLOCK + k] ^ Previous(iv, c, n)[k]
    ensures var c := Encrypt(enc, iv, plain); (n + 1) * BLOCK <= |c| && c[n * BLOCK..(n + 1) * BLOCK] == enc(mixed)
    decreases n
  {
    var c := Encrypt(enc, iv, plain);
    var first := enc(XorBlocks(plain[..BLOCK], iv));
    assert c[..BLOCK] == first && c[BLOCK..] == Encrypt(enc, first, plain[BLOCK..]);
    if n == 0 {
      assert mixed == XorBlocks(plain[..BLOCK], iv);
    } else {
      assert Previous(first, c[BLOCK..], n - 1) == Previous(iv, c, n);
      EncryptsBlocks(enc, first, plain[BLOCK..], n - 1, mixed);
      assert c[BLOCK..][(n - 1) * BLOCK..n * BLOCK] == c[n * BLOCK..(n + 1) * BLOCK];
    }
  }

  /** Only complete blocks count. */
  lemma {:induction false} DecryptPartial(dec: octets -> octets, iv: octets, a: octets, tail: octets)
    requires |iv| == BLOCK && |a| % BLOCK == 0 && |tail| < BLOCK
    ensures Decrypt(dec, iv, a + tail) == Decrypt(dec, iv, a)
  {
    DecryptSplit(dec, iv, a, tail);
  }

  lemma {:induction false} OneBlock(enc: octets -> octets, dec: octets -> octets, iv: octets, p: octets)
    requires BlockCipher(enc, dec) && |iv| == BLOCK && |p| == BLOCK
    ensures var c := Fit(enc(XorBlocks(p, iv))); |c| == BLOCK && XorBlocks(Fit(dec(c)), iv) == p
  {
    XorBlocksTwice(p, iv);
    hide XorBlocks;
    assert dec(enc(XorBlocks(p, iv))) == XorBlocks(p, iv);
  }

  lemma {:induction false} DecryptEncrypt(enc: octets -> octets, dec: octets -> octets, iv: octets, plain: octets)
    requires BlockCipher(enc, dec) && |iv| == BLOCK && |plain| % BLOCK == 0
    ensures |Encrypt(enc, iv, plain)| == |plain|
    ensures Decrypt(dec, iv, Encrypt(enc, iv, plain)) == plain
    decreases |plain|
  {
    hide XorBlocks, Fit, BlockCipher;
    if plain != [] {
      BlockMultiple(|plain|);
      OneBlock(enc, dec, iv, plain[..BLOCK]);
      var c := Fit(enc(XorBlocks(plain[..BLOCK], iv)));
      DecryptEncrypt(enc, dec, c, plain[BLOCK..]);
      var rest := Encrypt(enc, c, plain[BLOCK..]);
      assert (c + rest)[..BLOCK] == c && (c + rest)[BLOCK..] == rest;
      assert plain == plain[..BLOCK] + plain[BLOCK..];
    }
  }

  // ---------------------------------------------------------------- the decrypter

  /** The complete blocks of n bytes, capped. */
  function Complete(n: nat, cap: nat): (r: nat)
    requires cap % BLOCK == 0
    ensures r <= n && r <= cap && r % BLOCK == 0 && (r < cap ==> n - r < BLOCK) && (n >= BLOCK && cap >= BLOCK ==> r >= BLOCK)
  {
    if n / BLOCK * BLOCK <= cap then n / BLOCK * BLOCK else cap
  }

  class CbcDecrypter {
    const dec: octets -> octets
    const start: octets
    var iv: octets
    var pending: octets
    ghost var done: octets  // the complete blocks consumed so far
    ghost var given: octets // the plaintext returned so far

    ghost predicate Valid()
      reads this
    {
      && |start| == BLOCK && |iv| == BLOCK && |pending| < BLOCK && |done| % BLOCK == 0
      && iv == Chain(start, done)
      && given == Decrypt(dec, start, done)
    }

    /** Everything consumed so far. */
    ghost function Taken(): octets
      reads this
    {
      done + pending
    }

    constructor (dec: octets -> octets, iv: octets)
      requires |iv| == BLOCK
      ensures Valid() && this.dec == dec && start == iv && Taken() == [] && given == []
    {
      this.dec, start, this.iv, pending, done, given := dec, iv, iv, [], [], [];
    }

    /** CryptBlocks of the continuous mode on whole blocks, once the pending ones are used up. */
    method CryptBlocks(blocks: octets) returns (plaintext: octets)
      requires Valid() && pending == [] && |blocks| % BLOCK == 0
      modifies this`iv, this`done, this`given
      ensures Valid() && pending == []
      ensures |plaintext| == |blocks| && done == old(done) + blocks && given == old(given) + plaintext
    {
      hide Decrypt, Chain;
      Extend(dec, start, done, blocks);
      plaintext := Decrypt(dec, iv, blocks);
      iv := Chain(iv, blocks);
      done, given := done + blocks, given + plaintext;
      WholeBlocks(|blocks|);
    }

    /**
     * Feed: consumes a prefix, some of a non-empty input. The plaintext returned over all calls is the
     * decryption of the complete blocks of everything consumed, and fewer than 16 bytes are kept back.
     */
    method Feed(data: octets) returns (consumed: nat, plaintext: octets)
      requires Valid()
      modifies this
      ensures Valid()
      ensures consumed <= |data| && (data != [] ==> 0 < consumed)
      ensures Taken() == old(Taken()) + data[..consumed] && given == old(given) + plaintext
      ensures given == Decrypt(dec, start, Taken())
      ensures |plaintext| <= MAX_PER_FEED
    {
      if |data| == 0 {
        consumed, plaintext := 0, [];
      } else if |pending| == 0 {
        consumed, plaintext := FeedAligned(data);
      } else {
        consumed, plaintext := FeedWithPending(data);
      }
      DecryptPartial(dec, start, done, pending);
    }

    method FeedAligned(data: octets) returns (consumed: nat, plaintext: octets)
      requires Valid() && pending == [] && data != []
      modifies this
      ensures Valid()
      ensures 0 < consumed <= |data|
      ensures Taken() == old(Taken()) + data[..consumed] && given == old(given) + plaintext
      ensures |plaintext| <= MAX_PER_FEED
    {
      hide Complete, Decrypt, Chain;
      var complete := Complete(|data|, MAX_PER_FEED);
      if complete == 0 {
        KeepTail(data);
        return |data|, [];
      }
      plaintext := CryptBlocks(data[..complete]);
      consumed := complete;
      var remaining := data[complete..];
      if complete < MAX_PER_FEED && |remaining| < BLOCK {
        KeepTail(remaining);
        consumed := consumed + |remaining|;
        assert data == data[..complete] + remaining;
      }
    }

    /** An incomplete block waits for its rest. */
    method KeepTail(tail: octets)
      requires Valid() && pending == [] && |tail| < BLOCK
      modifies this`pending
      ensures Valid() && pending == tail && Taken() == old(Taken()) + tail
    {
      hide Decrypt, Chain;
      pending := tail;
      assert done + [] == done;
    }

    /** The pending block is completed and decrypted. */
    method CompletePending(more: octets) returns (plaintext: octets)
      requires Valid() && |pending| + |more| == BLOCK
      modifies this
      ensures Valid() && pending == [] && |plaintext| == BLOCK
      ensures Taken() == old(Taken()) + more && given == old(given) + plaintext
    {
      hide Complete, Decrypt, Chain;
      var first := pending + more;
      ghost var before := done;
      pending := [];
      plaintext := CryptBlocks(first);
      assert (before + first) + [] == (before + old(pending)) + more;
    }

    method FeedWithPending(data: octets) returns (consumed: nat, plaintext: octets)
      requires Valid() && pending != [] && data != []
      modifies this
      ensures Valid()
      ensures 0 < consumed <= |data|
      ensures Taken() == old(Taken()) + data[..consumed] && given == old(given) + plaintext
      ensures |plaintext| <= MAX_PER_FEED
    {
      hide Complete, Decrypt, Chain;
      var needed := BLOCK - |pending|;
      if |data| < needed {
        pending := pending + data;
        return |data|, [];
      }
      plaintext := CompletePending(data[..needed]);
      var direct, rest := FeedDirect(data[needed..]);
      plaintext := plaintext + rest;
      consumed := needed + direct;
      assert data[..consumed] == data[..needed] + data[needed..][..direct];
    }

    /** What follows the completed block, up to the bound of one call. */
    method FeedDirect(remaining: octets) returns (consumed: nat, plaintext: octets)
      requires Valid() && pending == []
      modifies this
      ensures Valid() && consumed <= |remaining|
      ensures Taken() == old(Taken()) + remaining[..consumed] && given == old(given) + plaintext
      ensures |plaintext| <= MAX_PER_FEED - BLOCK
    {
      hide Complete, Decrypt, Chain;
      var direct := Complete(|remaining|, MAX_PER_FEED - BLOCK);
      plaintext := CryptBlocks(remaining[..direct]);
      consumed := direct;
      var tail := remaining[direct..];
      if |plaintext| < MAX_PER_FEED - BLOCK && |tail| < BLOCK {
        KeepTail(tail);
        consumed := consumed + |tail|;
        assert remaining == remaining[..direct] + tail;
      }
    }

    /** Finish: the stream ends cleanly exactly at a block boundary. */
    method Finish() returns (ok: bool)
      requires Valid()
      ensures ok <==> |Taken()| % BLOCK == 0
    {
      return |pending| == 0;
    }
  }

  lemma {:induction false} WholeBlocks(n: nat)
    requires n % BLOCK == 0
    ensures n / BLOCK * BLOCK == n
  {}

  /** Complete blocks decrypted from the chaining value extend the stream's plaintext. */
  lemma {:induction false} Extend(dec: octets -> octets, iv: octets, done: octets, blocks: octets)
    requires |iv| == BLOCK && |done| % BLOCK == 0 && |blocks| % BLOCK == 0
    ensures (|done| + |blocks|) % BLOCK == 0
    ensures Decrypt(dec, iv, done + blocks) == Decrypt(dec, iv, done) + Decrypt(dec, Chain(iv, done), blocks)
    ensures Chain(iv, done + blocks) == Chain(Chain(iv, done), blocks)
  {
    DecryptSplit(dec, iv, done, blocks);
    if blocks == [] {
      assert done + blocks == done;
    } else {
      BlockMultiple(|blocks|);
    }
  }

  // ---------------------------------------------------------------- the encrypter

  function Noops(n: nat): octets {
    if n == 0 then [] else [4, 0, 0, 0] + Noops(n - 1)
  }

  lemma {:induction false} NoopsLength(n: nat)
    ensures |Noops(n)| == NOOP_SIZE * n
  {
    if n != 0 {
      NoopsLength(n - 1);
    }
  }

  lemma {:induction false} NoopsSnoc(n: nat)
    ensures Noops(n + 1) == Noops(n) + [4, 0, 0, 0]
  {
    if n == 0 {
      assert Noops(1) == [4, 0, 0, 0] + Noops(0);
    } else {
      NoopsSnoc(n - 1);
    }
  }

  predicate Encryptable(plaintext: octets) {
    0 < |plaintext| <= MAX_PER_FEED && |plaintext| % NOOP_SIZE == 0
  }

  function PaddingNoops(size: nat): nat {
    if size % BLOCK == 0 then 0 else (BLOCK - size % BLOCK) / NOOP_SIZE
  }

  /** A batch followed by the length-4 no-op frames that reach a block boundary. */
  function Padded(plaintext: octets): octets {
    plaintext + Noops(PaddingNoops(|plaintext|))
  }

  lemma {:induction false} Words(n: nat)
    requires n % NOOP_SIZE == 0
    ensures n % BLOCK == 0 || n % BLOCK == 4 || n % BLOCK == 8 || n % BLOCK == 12
  {
    var (p, q, r) := (n / NOOP_SIZE, n / BLOCK, n % BLOCK);
    assert n == NOOP_SIZE * p && n == BLOCK * q + r;
    assert r == NOOP_SIZE * (p - NOOP_SIZE * q);
  }

  lemma {:induction false} PaddedAligned(plaintext: octets)
    requires |plaintext| % NOOP_SIZE == 0
    ensures |Padded(plaintext)| % BLOCK == 0 && |Padded(plaintext)| < |plaintext| + BLOCK
    ensures PaddingNoops(|plaintext|) <= 3
  {
    Words(|plaintext|);
    NoopsLength(PaddingNoops(|plaintext|));
  }

  class CbcEncrypter {
    const enc: octets -> octets
    var iv: octets

    constructor (enc: octets -> octets, iv: octets)
      requires |iv| == BLOCK
      ensures this.enc == enc && this.iv == iv
    {
      this.enc, this.iv := enc, iv;
    }

    /** Encrypt: refused batches leave the cipher where it was. */
    method EncryptBatch(plaintext: octets) returns (r: Option<octets>)
      requires |iv| == BLOCK
      modifies this
      ensures |iv| == BLOCK
      ensures r.None? <==> !Encryptable(plaintext)
      ensures r.None? ==> iv == old(iv)
      ensures r.Some? ==> r.value == Encrypt(enc, old(iv), Padded(plaintext))
                          && |r.value| % BLOCK == 0 && iv == Chain(old(iv), r.value)
    {
      if |plaintext| == 0 || |plaintext| % NOOP_SIZE != 0 || |plaintext| > MAX_PER_FEED {
        return None;
      }
      var paddingSize := 0;
      if |plaintext| % BLOCK != 0 {
        paddingSize := BLOCK - |plaintext| % BLOCK;
      }
      var padded := plaintext;
      assert padded == plaintext + Noops(0);
      var noops := paddingSize / NOOP_SIZE;
      assert noops == PaddingNoops(|plaintext|);
      for i := 0 to noops
        invariant iv == old(iv) && padded == plaintext + Noops(i)
      {
        NoopsSnoc(i);
        padded := padded + [4, 0, 0, 0];
      }
      assert padded == Padded(plaintext);
      PaddedAligned(plaintext);
      EncryptLength(enc, iv, padded);
      var cipher := Encrypt(enc, iv, padded);
      iv := Chain(iv, cipher);
      return Some(cipher);
    }
  }

  lemma {:induction false} EncryptLength(enc: octets -> octets, iv: octets, plain: octets)
    requires |iv| == BLOCK && |plain| % BLOCK == 0
    ensures |Encrypt(enc, iv, plain)| == |plain|
    decreases |plain|
  {
    if plain != [] {
      BlockMultiple(|plain|);
      EncryptLength(enc, Fit(enc(XorBlocks(plain[..BLOCK], iv))), plain[BLOCK..]);
    }
  }

  /** The ciphertexts of successive batches, each chained to the one before. */
  function EncryptAll(enc: octets -> octets, iv: octets, batches: seq<octets>): octets
    requires |iv| == BLOCK && forall i | 0 <= i < |batches| :: Encryptable(batches[i])
    decreases |batches|
  {
    if batches == [] then []
    else
      assert Encryptable(batches[0]);
      PaddedAligned(batches[0]);
      EncryptLength(enc, iv, Padded(batches[0]));
      var cipher := Encrypt(enc, iv, Padded(batches[0]));
      cipher + EncryptAll(enc, Chain(iv, cipher), batches[1..])
  }

  function PaddedAll(batches: seq<octets>): octets {
    if batches == [] then [] else Padded(batches[0]) + PaddedAll(batches[1..])
  }

  lemma {:induction false} DecryptNothing(dec: octets -> octets, iv: octets)
    requires |iv| == BLOCK
    ensures Decrypt(dec, iv, []) == []
  {}

  /** Decrypting the concatenated outputs recovers every batch, each followed only by its no-op padding. */
  lemma {:induction false} StreamRoundTrip(enc: octets -> octets, dec: octets -> octets, iv: octets, batches: seq<octets>)
    requires BlockCipher(enc, dec) && |iv| == BLOCK
    requires forall i | 0 <= i < |batches| :: Encryptable(batches[i])
    ensures Decrypt(dec, iv, EncryptAll(enc, iv, batches)) == PaddedAll(batches)
    decreases |batches|
  {
    hide Decrypt, Encrypt, Padded, Chain, BlockCipher;
    if batches == [] {
      DecryptNothing(dec, iv);
    } else {
      var p := Padded(batches[0]);
      PaddedAligned(batches[0]);
      EncryptLength(enc, iv, p);
      DecryptEncrypt(enc, dec, iv, p);
      var cipher := Encrypt(enc, iv, p);
      StreamRoundTrip(enc, dec, Chain(iv, cipher), batches[1..]);
      DecryptSplit(dec, iv, cipher, EncryptAll(enc, Chain(iv, cipher), batches[1..]));
    }
  }

  // ---------------------------------------------------------------- any split

  /** Feeding a ciphertext in any pieces returns the decryption of its complete blocks; the rest is kept back. */
  method DecryptStream(dec: octets -> octets, iv: octets, pieces: seq<octets>)
    returns (plaintext: octets, clean: bool)
    requires |iv| == BLOCK
    ensures plaintext == Decrypt(dec, iv, Flatten(pieces))
    ensures clean <==> |Flatten(pieces)| % BLOCK == 0
  {
    hide Decrypt, Chain;
    var d := new CbcDecrypter(dec, iv);
    plaintext := [];
    assert pieces[..0] == [];
    for i := 0 to |pieces|
      invariant d.Valid() && fresh(d) && d.dec == dec && d.start == iv
      invariant d.Taken() == Flatten(pieces[..i]) && d.given == plaintext
      invariant plaintext == Decrypt(dec, iv, d.Taken())
    {
      var rest := pieces[i];
      ghost var before := d.Taken();
      while rest != []
        invariant d.Valid() && fresh(d)
        invariant d.Taken() + rest == before + pieces[i] && d.given == plaintext
        invariant plaintext == Decrypt(dec, iv, d.Taken())
        decreases |rest|
      {
        ghost var taken := d.Taken();
        var consumed, some := d.Feed(rest);
        plaintext := plaintext + some;
        assert taken + rest[..consumed] + rest[consumed..] == taken + rest;
        rest := rest[consumed..];
      }
      assert pieces[..i + 1] == pieces[..i] + [pieces[i]];
      FlattenAppend(pieces[..i], [pieces[i]]);
      FlattenSingle(pieces[i]);
    }
    assert pieces[..|pieces|] == pieces;
    clean := d.Finish();
  }
}
