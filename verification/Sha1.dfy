/**
  The buffered implementation of src/sha.c on a little-endian machine, proved equal to
  the digest of module Sha1Spec for every way of feeding the message.
 */
module Words {
  /** Choosing between y and z by x, with and without the negation. */
  lemma Choose(x: bv32, y: bv32, z: bv32)
    ensures z ^ (x & (y ^ z)) == (x & y) ^ (!x & z)
  {
  }

  /** The majority of three, with and without exclusive or. */
  lemma Majority(x: bv32, y: bv32, z: bv32)
    ensures (x & (y | z)) | (y & z) == (x & y) ^ (x & z) ^ (y & z)
  {
  }
}

module Sha1 {
  import opened Common
  import Words
  import opened Sha1Spec

  // ---------------------------------------------------------------- macros

  /** ROTL */
  function RolBy1(x: Word): Word {
    (x << 1) | (x >> 31)
  }

  function RolBy5(x: Word): Word {
    (x << 5) | (x >> 27)
  }

  function RolBy30(x: Word): Word {
    (x << 30) | (x >> 2)
  }

  /** The shifts make the rotations of section 3.2. */
  lemma ShiftsRotate(x: Word)
    ensures RolBy1(x) == Rotl1(x) && RolBy5(x) == Rotl5(x) && RolBy30(x) == Rotl30(x)
  {
  }

  const K_0_19: Word := 0x5a827999
  const K_20_39: Word := 0x6ed9eba1
  const K_40_59: Word := 0x8f1bbcdc
  const K_60_79: Word := 0xca62c1d6

  /** The constant of the twenty rounds that start at t. */
  function RoundConstant(t: nat): Word {
    if t == 0 then K_0_19 else if t == 20 then K_20_39 else if t == 40 then K_40_59 else K_60_79
  }

  lemma RoundConstantIsK(t: nat, w: nat)
    requires t in {0, 20, 40, 60} && t <= w < t + 20
    ensures RoundConstant(t) == K(w)
  {
  }

  /** F_0_19 */
  function F0(x: Word, y: Word, z: Word): Word {
    z ^ (x & (y ^ z))
  }

  /** F_20_39 and F_60_79 */
  function F1(x: Word, y: Word, z: Word): Word {
    x ^ y ^ z
  }

  /** F_40_59 */
  function F2(x: Word, y: Word, z: Word): Word {
    (x & (y | z)) | (y & z)
  }

  /** The rewritten round functions are those of section 4.1.1. */
  lemma F0IsCh(x: Word, y: Word, z: Word)
    ensures F0(x, y, z) == Ch(x, y, z)
  {
    Words.Choose(x, y, z);
  }

  lemma F2IsMaj(x: Word, y: Word, z: Word)
    ensures F2(x, y, z) == Maj(x, y, z)
  {
    Words.Majority(x, y, z);
  }

  /** The temporary of DO_ROUND: the scheduled word is added before the constant. */
  function Temp(a: Word, f: Word, e: Word, w: Word, k: Word): Word {
    RolBy5(a) + f + e + w + k
  }

  function Sum(r: Word, f: Word, e: Word, x: Word, y: Word): Word {
    r + f + e + x + y
  }

  lemma SumInAnyOrder(r: Word, f: Word, e: Word, x: Word, y: Word)
    ensures Sum(r, f, e, x, y) == Sum(r, f, e, y, x)
  {
  }

  lemma TempIsSum(a: Word, f: Word, e: Word, w: Word, k: Word)
    ensures Temp(a, f, e, w, k) == Sum(RolBy5(a), f, e, w, k) && T(a, f, e, k, w) == Sum(Rotl5(a), f, e, k, w)
  {
    hide RolBy5, Rotl5;
  }

  lemma TempIsT(a: Word, f: Word, e: Word, w: Word, k: Word)
    ensures Temp(a, f, e, w, k) == T(a, f, e, k, w)
  {
    hide *;
    TempIsSum(a, f, e, w, k);
    ShiftsRotate(a);
    SumInAnyOrder(Rotl5(a), f, e, w, k);
  }

  /** DO_ROUND */
  function DoRound(h: Digest, f: Word, k: Word, w: Word): Digest {
    Digest(Temp(h.a, f, h.e, w, k), h.a, RolBy30(h.b), h.c, h.d)
  }

  lemma DoRoundIsMix(h: Digest, f: Word, k: Word, w: Word)
    ensures DoRound(h, f, k, w) == Mix(h, f, k, w)
  {
    hide Temp, T, RolBy30, Rotl30;
    TempIsT(h.a, f, h.e, w, k);
    ShiftsRotate(h.b);
  }

  /** BYTESWAP */
  function ByteSwap(x: Word): Word {
    (((x >> 8) | (x << 24)) & 0xff00ff00) | (((x << 8) | (x >> 24)) & 0x00ff00ff)
  }

  /** Four bytes of memory as the processor loads them. */
  function LittleEndian(b0: Byte, b1: Byte, b2: Byte, b3: Byte): Word {
    b0 as Word | (b1 as Word << 8) | (b2 as Word << 16) | (b3 as Word << 24)
  }

  lemma SwappedLoadIsBigEndian(b0: Byte, b1: Byte, b2: Byte, b3: Byte)
    ensures ByteSwap(LittleEndian(b0, b1, b2, b3)) == BigEndian(b0, b1, b2, b3)
  {
  }

  /** _byteswap64 */
  function ByteSwap64(x: bv64): bv64 {
    var a := (x >> 32) as Word;
    var b := (x & 0xffff_ffff) as Word;
    (ByteSwap(b) as bv64 << 32) | ByteSwap(a) as bv64
  }

  /** The eight bytes of x in memory. */
  function Stored64(x: bv64): seq<Byte> {
    [(x & 0xff) as Byte, ((x >> 8) & 0xff) as Byte, ((x >> 16) & 0xff) as Byte, ((x >> 24) & 0xff) as Byte,
     ((x >> 32) & 0xff) as Byte, ((x >> 40) & 0xff) as Byte, ((x >> 48) & 0xff) as Byte, (x >> 56) as Byte]
  }

  lemma SwappedStoreIsBigEndian(x: bv64)
    ensures Stored64(ByteSwap64(x)) == Bytes64(x)
  {
  }

  const PADDING: seq<Byte> := [0x80] + Zeros(63)

  // ---------------------------------------------------------------- facts about the specification

  /** The length of m less its last, incomplete block. */
  function Full(m: seq<Byte>): nat {
    |m| - |m| % BLOCK_SIZE
  }

  lemma HashAppendBlock(m: seq<Byte>, block: seq<Byte>)
    requires |m| % BLOCK_SIZE == 0 && |block| == BLOCK_SIZE
    ensures HashBlocks(m + block) == Compress(HashBlocks(m), block)
  {
    var all := m + block;
    assert all[..|all| - BLOCK_SIZE] == m && all[|all| - BLOCK_SIZE..] == block;
  }

  // ---------------------------------------------------------------- SHA1Context

  class Sha1Context {
    var totalLength: nat
    const hash: array<Word>
    var bufferLength: nat
    const bytes: array<Byte>
    ghost var message: seq<Byte>   // everything fed so far

    ghost predicate Shaped()
      reads this
    {
      hash.Length == 5 && bytes.Length == BLOCK_SIZE && hash as object != bytes
    }

    ghost function H(): Digest
      requires Shaped()
      reads this, hash
    {
      Digest(hash[0], hash[1], hash[2], hash[3], hash[4])
    }

    /** The complete blocks of the message have been hashed, the rest of it sits in the buffer. */
    ghost predicate Valid()
      reads this, hash, bytes
    {
      && Shaped()
      && bufferLength == |message| % BLOCK_SIZE
      && bytes[..bufferLength] == message[Full(message)..]
      && H() == HashBlocks(message[..Full(message)])
      && totalLength == BitLength(message)
    }

    /** SHA1Init */
    constructor ()
      ensures Valid() && message == []
      ensures fresh(hash) && fresh(bytes)
    {
      hash := new Word[5];
      bytes := new Byte[BLOCK_SIZE];
      totalLength := 0;
      bufferLength := 0;
      message := [];
      new;
      hash[0] := 0x67452301;
      hash[1] := 0xefcdab89;
      hash[2] := 0x98badcfe;
      hash[3] := 0x10325476;
      hash[4] := 0xc3d2e1f0;
    }

    /** The first loop of SHA1Guts: the 16 words of the buffer, swapped into buf. */
    method LoadBlock(buf: array<Word>)
      requires Shaped() && buf.Length == 80 && buf != hash
      modifies buf
      ensures forall t :: 0 <= t < 16 ==> buf[t] == Schedule(bytes[..], t)
    {
      hide ByteSwap, LittleEndian;
      ghost var block := bytes[..];
      var w, cbuf := 0, 0;
      for i := 0 to 16
        invariant w == i && cbuf == 4 * i
        invariant forall t :: 0 <= t < w ==> buf[t] == Schedule(block, t)
      {
        var b0, b1, b2, b3 := bytes[cbuf], bytes[cbuf + 1], bytes[cbuf + 2], bytes[cbuf + 3];
        buf[w] := ByteSwap(LittleEndian(b0, b1, b2, b3));
        LoadedWord(block, w, b0, b1, b2, b3);
        w, cbuf := w + 1, cbuf + 4;
      }
    }

    /** The second loop: 64 more words through four trailing pointers. */
    method Derive(buf: array<Word>, ghost block: seq<Byte>)
      requires buf.Length == 80 && |block| == BLOCK_SIZE
      requires forall t :: 0 <= t < 16 ==> buf[t] == Schedule(block, t)
      modifies buf
      ensures forall t :: 0 <= t < 80 ==> buf[t] == Schedule(block, t)
    {
      hide RolBy1, Rotl1, Xor4;
      var w, w16, w14, w8, w3 := 16, 0, 2, 8, 13;
      for i := 0 to 64
        invariant w == 16 + i && w3 == 13 + i && w8 == 8 + i && w14 == 2 + i && w16 == i
        invariant forall t :: 0 <= t < w ==> buf[t] == Schedule(block, t)
      {
        buf[w] := Xor4(buf[w3], buf[w8], buf[w14], buf[w16]);
        ShiftsRotate(buf[w]);
        buf[w] := RolBy1(buf[w]);
        w, w3, w8, w14, w16 := w + 1, w3 + 1, w8 + 1, w14 + 1, w16 + 1;
      }
    }

    /** Twenty rounds from round t on, with one of the three round macros. */
    method TwentyRounds(h: Digest, t: nat, buf: array<Word>, ghost h0: Digest,
                        ghost block: seq<Byte>) returns (r: Digest)
      requires buf.Length == 80 && |block| == BLOCK_SIZE && t in {0, 20, 40, 60}
      requires forall i :: 0 <= i < 80 ==> buf[i] == Schedule(block, i)
      requires h == Rounds(h0, block, t)
      ensures r == Rounds(h0, block, t + 20)
    {
      hide F0, F1, F2, K, RoundConstant, Temp, RolBy30, Round;
      var a, b, c, d, e := h.a, h.b, h.c, h.d, h.e;
      var w := t;
      for i := 0 to 20
        invariant w == t + i
        invariant Digest(a, b, c, d, e) == Rounds(h0, block, w)
      {
        var f := if t == 0 then F0(b, c, d) else if t == 40 then F2(b, c, d) else F1(b, c, d);
        MacroRound(Digest(a, b, c, d, e), t, w, f, buf[w]);
        var temp := Temp(a, f, e, buf[w], RoundConstant(t));
        w := w + 1;
        e := d;
        d := c;
        c := RolBy30(b);
        b := a;
        a := temp;
      }
      r := Digest(a, b, c, d, e);
    }

    /** SHA1Guts on the buffer. */
    method Guts()
      requires Shaped()
      modifies hash
      ensures H() == Compress(old(H()), bytes[..])
    {
      hide Add, Rounds, Schedule;
      var buf := new Word[80];
      LoadBlock(buf);
      Derive(buf, bytes[..]);
      ghost var h0, block := H(), bytes[..];
      NoRounds(h0, block);
      var r := Digest(hash[0], hash[1], hash[2], hash[3], hash[4]);
      r := TwentyRounds(r, 0, buf, h0, block);
      r := TwentyRounds(r, 20, buf, h0, block);
      r := TwentyRounds(r, 40, buf, h0, block);
      r := TwentyRounds(r, 60, buf, h0, block);
      hash[0] := Add(hash[0], r.a);
      hash[1] := Add(hash[1], r.b);
      hash[2] := Add(hash[2], r.c);
      hash[3] := Add(hash[3], r.d);
      hash[4] := Add(hash[4], r.e);
    }

    /** One turn of the loop of SHA1Update: a piece that fits the free part of the buffer. */
    method Feed(piece: seq<Byte>)
      requires Valid() && 0 < |piece| <= BLOCK_SIZE - bufferLength
      modifies this, hash, bytes
      ensures Valid() && message == old(message) + piece
    {
      hide Compress, HashBlocks, BitLength;
      ghost var m := message;
      forall i | 0 <= i < |piece| {
        bytes[bufferLength + i] := piece[i];
      }
      totalLength := (totalLength + |piece| * 8) % 0x1_0000_0000_0000_0000;
      bufferLength := bufferLength + |piece|;
      message := message + piece;
      assert bytes[..bufferLength] == m[Full(m)..] + piece;
      if bufferLength < BLOCK_SIZE {
        PieceFits(m, piece);
      } else {
        PieceFills(m, piece);
        assert message[..Full(message)] == message;
        assert bytes[..] == bytes[..bufferLength];
        Guts();
        bufferLength := 0;
      }
    }

    lemma RoomIsLeft()
      requires Valid()
      ensures bufferLength < BLOCK_SIZE
    {
    }

    /** SHA1Update */
    method Update(data: seq<Byte>)
      requires Valid() && |data| < WORD
      modifies this, hash, bytes
      ensures Valid() && message == old(message) + data
    {
      hide HashBlocks, BitLength, Sha1Context.Valid;
      var start, len := 0, |data|;
      while len > 0
        invariant start + len == |data| && 0 <= len
        invariant Valid() && message == old(message) + data[..start]
      {
        RoomIsLeft();
        var bytesToCopy := BLOCK_SIZE - bufferLength;
        if bytesToCopy > len {
          bytesToCopy := len;
        }
        Feed(data[start .. start + bytesToCopy]);
        assert data[..start] + data[start .. start + bytesToCopy] == data[..start + bytesToCopy];
        start := start + bytesToCopy;
        len := len - bytesToCopy;
      }
      assert data[..start] == data;
    }

    /** SHA1Final: the digest of everything fed so far. */
    method Final() returns (digest: seq<Byte>)
      requires Valid()
      modifies this, hash, bytes
      ensures digest == Sha1(old(message))
    {
      hide LengthField, HashBlocks, DigestBytes;
      ghost var m := message;
      var bytesToPad := 120 - bufferLength;
      if bytesToPad > 64 {
        bytesToPad := bytesToPad - 64;
      }
      var lengthPad := SwappedLength();
      Update(PADDING[..bytesToPad]);
      Update(lengthPad);
      PaddingIsPad(m, bytesToPad, lengthPad);
      assert message[..Full(message)] == message;
      digest := Output();
    }

    /** BYTESWAP64(totalLength) as it lies in memory. */
    method SwappedLength() returns (lengthPad: seq<Byte>)
      requires Valid()
      ensures lengthPad == LengthField(message)
    {
      lengthPad := Stored64(ByteSwap64(totalLength as bv64));
      SwappedStoreIsBigEndian(totalLength as bv64);
    }

    /** The loop that writes the hash words most significant byte first. */
    method Output() returns (digest: seq<Byte>)
      requires Shaped()
      ensures digest == DigestBytes(H())
    {
      hide WordBytes;
      digest := [];
      for i := 0 to 5
        invariant digest == WordsBytes(hash[..i])
      {
        digest := digest + WordBytes(hash[i]);
        assert hash[..i + 1][..i] == hash[..i];
      }
      assert hash[..5] == [hash[0], hash[1], hash[2], hash[3], hash[4]];
      FiveWords(hash[0], hash[1], hash[2], hash[3], hash[4]);
    }
  }

  function WordsBytes(ws: seq<Word>): seq<Byte> {
    if ws == [] then [] else WordsBytes(ws[..|ws| - 1]) + WordBytes(ws[|ws| - 1])
  }

  lemma FiveWords(a: Word, b: Word, c: Word, d: Word, e: Word)
    ensures WordsBytes([a, b, c, d, e]) == DigestBytes(Digest(a, b, c, d, e))
  {
    hide WordBytes;
    assert [a, b, c, d, e][..4] == [a, b, c, d];
    assert [a, b, c, d][..3] == [a, b, c];
    assert [a, b, c][..2] == [a, b];
    assert [a, b][..1] == [a];
    assert [a][..0] == [];
    assert WordsBytes([a]) == WordBytes(a);
    assert WordsBytes([a, b]) == WordBytes(a) + WordBytes(b);
    assert WordsBytes([a, b, c]) == WordBytes(a) + WordBytes(b) + WordBytes(c);
  }

  lemma NoRounds(h: Digest, block: seq<Byte>)
    requires |block| == BLOCK_SIZE
    ensures Rounds(h, block, 0) == h
  {
  }

  lemma MeterWraps(m: seq<Byte>, piece: seq<Byte>)
    ensures (BitLength(m) + |piece| * 8) % 0x1_0000_0000_0000_0000 == BitLength(m + piece)
  {
  }

  lemma BlockFilling(n: nat, k: nat)
    requires 0 < k <= BLOCK_SIZE - n % BLOCK_SIZE
    ensures (n + k) % BLOCK_SIZE == if n % BLOCK_SIZE + k < BLOCK_SIZE then n % BLOCK_SIZE + k else 0
  {
  }

  /** A piece that leaves room in the buffer only extends the rest of the message. */
  lemma PieceFits(m: seq<Byte>, piece: seq<Byte>)
    requires 0 < |piece| < BLOCK_SIZE - |m| % BLOCK_SIZE
    ensures var all := m + piece;
            && (BitLength(m) + |piece| * 8) % 0x1_0000_0000_0000_0000 == BitLength(all)
            && |all| % BLOCK_SIZE == |m| % BLOCK_SIZE + |piece|
            && all[Full(all)..] == m[Full(m)..] + piece && all[..Full(all)] == m[..Full(m)]
  {
    MeterWraps(m, piece);
    hide BitLength;
    BlockFilling(|m|, |piece|);
  }

  lemma FullIsWholeBlocks(m: seq<Byte>)
    ensures Full(m) % BLOCK_SIZE == 0 && |m| % BLOCK_SIZE == |m| - Full(m)
  {
  }

  /** A piece that fills the buffer completes a block. */
  lemma PieceFills(m: seq<Byte>, piece: seq<Byte>)
    requires |piece| == BLOCK_SIZE - |m| % BLOCK_SIZE
    ensures |m + piece| % BLOCK_SIZE == 0 && Full(m + piece) == |m + piece|
    ensures (BitLength(m) + |piece| * 8) % 0x1_0000_0000_0000_0000 == BitLength(m + piece)
    ensures var rest := m[Full(m)..] + piece;
            |rest| == BLOCK_SIZE && HashBlocks(m + piece) == Compress(HashBlocks(m[..Full(m)]), rest)
  {
    MeterWraps(m, piece);
    hide Compress, HashBlocks, BitLength;
    BlockFilling(|m|, |piece|);
    FullIsWholeBlocks(m);
    var whole, rest := m[..Full(m)], m[Full(m)..] + piece;
    HashAppendBlock(whole, rest);
    assert whole + rest == m + piece;
  }

  /** The 120-minus-bufferLength rule pads as section 5.1.1 asks. */
  lemma PaddingIsPad(m: seq<Byte>, n: nat, lengthPad: seq<Byte>)
    requires n == if 120 - |m| % BLOCK_SIZE > 64 then 56 - |m| % BLOCK_SIZE else 120 - |m| % BLOCK_SIZE
    requires lengthPad == LengthField(m)
    ensures 0 < n <= 64 && m + PADDING[..n] + lengthPad == Pad(m)
    ensures |Pad(m)| % BLOCK_SIZE == 0
  {
    hide LengthField;
    PadFillsBlocks(m);
    assert n == 1 + ZeroCount(|m|);
    assert PADDING[..n] == [0x80] + Zeros(ZeroCount(|m|));
  }

  lemma LoadedWord(block: seq<Byte>, t: nat, b0: Byte, b1: Byte, b2: Byte, b3: Byte)
    requires |block| == BLOCK_SIZE && t < 16
    requires b0 == block[4 * t] && b1 == block[4 * t + 1] && b2 == block[4 * t + 2] && b3 == block[4 * t + 3]
    ensures ByteSwap(LittleEndian(b0, b1, b2, b3)) == Schedule(block, t)
  {
    SwappedLoadIsBigEndian(b0, b1, b2, b3);
  }

  /** One DO_ROUND of the macro group that starts at round t is round w of the standard. */
  lemma MacroRound(h: Digest, t: nat, w: nat, f: Word, x: Word)
    requires t in {0, 20, 40, 60} && t <= w < t + 20
    requires f == if t == 0 then F0(h.b, h.c, h.d) else if t == 40 then F2(h.b, h.c, h.d) else F1(h.b, h.c, h.d)
    ensures DoRound(h, f, RoundConstant(t), x) == Round(h, w, x)
  {
    hide DoRound, Mix, F0, F2, Ch, Maj, K, RoundConstant;
    RoundConstantIsK(t, w);
    F0IsCh(h.b, h.c, h.d);
    F2IsMaj(h.b, h.c, h.d);
    DoRoundIsMix(h, f, RoundConstant(t), x);
  }

  /** shahash of src/chunk.c and check_hash_succeed: one message in one piece. */
  method DigestOf(data: seq<Byte>) returns (digest: seq<Byte>)
    requires |data| < WORD
    ensures digest == Sha1(data)
  {
    var sc := new Sha1Context();
    sc.Update(data);
    assert [] + data == data;
    digest := sc.Final();
  }

  function Concat(pieces: seq<seq<Byte>>): seq<Byte> {
    if pieces == [] then [] else Concat(pieces[..|pieces| - 1]) + pieces[|pieces| - 1]
  }

  /** However a message is cut into pieces, empty ones included, the digest is that of the whole. */
  method DigestOfPieces(pieces: seq<seq<Byte>>) returns (digest: seq<Byte>)
    requires forall i :: 0 <= i < |pieces| ==> |pieces[i]| < WORD
    ensures digest == Sha1(Concat(pieces))
  {
    hide Sha1;
    var sc := new Sha1Context();
    for i := 0 to |pieces|
      invariant sc.Valid() && fresh(sc) && fresh(sc.hash) && fresh(sc.bytes)
      invariant sc.message == Concat(pieces[..i])
    {
      sc.Update(pieces[i]);
      assert pieces[..i + 1][..i] == pieces[..i];
    }
    assert pieces[..|pieces|] == pieces;
    digest := sc.Final();
  }
}
