/**
  SHA-1 as FIPS 180-4 defines it, for messages made of bytes.
 */
module Sha1Spec {
  import opened Common

  type Word = bv32

  const BLOCK_SIZE: nat := 64

  /** Section 3.2, operation 5, for the three distances in use. */
  function Rotl1(x: Word): Word {
    x.RotateLeft(1)
  }

  function Rotl5(x: Word): Word {
    x.RotateLeft(5)
  }

  function Rotl30(x: Word): Word {
    x.RotateLeft(30)
  }

  function Xor4(x: Word, y: Word, z: Word, w: Word): Word {
    x ^ y ^ z ^ w
  }

  /** Addition modulo 2^32. */
  function Add(x: Word, y: Word): Word {
    x + y
  }

  /** Section 4.1.1. */
  function Ch(x: Word, y: Word, z: Word): Word {
    (x & y) ^ (!x & z)
  }

  function Parity(x: Word, y: Word, z: Word): Word {
    x ^ y ^ z
  }

  function Maj(x: Word, y: Word, z: Word): Word {
    (x & y) ^ (x & z) ^ (y & z)
  }

  function F(t: nat, x: Word, y: Word, z: Word): Word {
    if t < 20 then Ch(x, y, z)
    else if t < 40 then Parity(x, y, z)
    else if t < 60 then Maj(x, y, z)
    else Parity(x, y, z)
  }

  /** Section 4.2.1. */
  function K(t: nat): Word {
    if t < 20 then 0x5a827999
    else if t < 40 then 0x6ed9eba1
    else if t < 60 then 0x8f1bbcdc
    else 0xca62c1d6
  }

  /** The constants are the integer parts of 2^30 times the square roots of 2, 3, 5 and 10. */
  lemma ConstantsAreRoots(t: nat)
    ensures var k, n := K(t) as nat, if t < 20 then 2 else if t < 40 then 3 else if t < 60 then 5 else 10;
            k * k <= n * 0x1000_0000_0000_0000 < (k + 1) * (k + 1)
  {
  }

  datatype Digest = Digest(a: Word, b: Word, c: Word, d: Word, e: Word)

  /** Section 5.3.1. */
  const INITIAL := Digest(0x67452301, 0xefcdab89, 0x98badcfe, 0x10325476, 0xc3d2e1f0)

  /** Four bytes of a block as a word, most significant byte first (section 3.1). */
  function BigEndian(b0: Byte, b1: Byte, b2: Byte, b3: Byte): Word {
    (b0 as Word << 24) | (b1 as Word << 16) | (b2 as Word << 8) | b3 as Word
  }

  /** Section 6.1.2, step 1. */
  function Schedule(block: seq<Byte>, t: nat): Word
    requires |block| == BLOCK_SIZE
    decreases t, |block|
  {
    if t < 16 then BigEndian(block[4 * t], block[4 * t + 1], block[4 * t + 2], block[4 * t + 3])
    else Rotl1(Xor4(Schedule(block, t - 3), Schedule(block, t - 8), Schedule(block, t - 14), Schedule(block, t - 16)))
  }

  /** The temporary T of section 6.1.2, step 3. */
  function T(a: Word, f: Word, e: Word, k: Word, w: Word): Word {
    Rotl5(a) + f + e + k + w
  }

  /** The new working variables from the value f of the round function, the constant and the scheduled word. */
  function Mix(h: Digest, f: Word, k: Word, w: Word): Digest {
    Digest(T(h.a, f, h.e, k, w), h.a, Rotl30(h.b), h.c, h.d)
  }

  /** Section 6.1.2, one turn of step 3. */
  function Round(h: Digest, t: nat, w: Word): Digest {
    Mix(h, F(t, h.b, h.c, h.d), K(t), w)
  }

  function Rounds(h: Digest, block: seq<Byte>, t: nat): Digest
    requires |block| == BLOCK_SIZE
    decreases t, |block|
  {
    if t == 0 then h else Round(Rounds(h, block, t - 1), t - 1, Schedule(block, t - 1))
  }

  function Plus(x: Digest, y: Digest): Digest {
    Digest(Add(x.a, y.a), Add(x.b, y.b), Add(x.c, y.c), Add(x.d, y.d), Add(x.e, y.e))
  }

  /** Section 6.1.2, steps 2 to 4. */
  function Compress(h: Digest, block: seq<Byte>): Digest
    requires |block| == BLOCK_SIZE
  {
    Plus(h, Rounds(h, block, 80))
  }

  function HashBlocks(m: seq<Byte>): Digest
    requires |m| % BLOCK_SIZE == 0
  {
    if m == [] then INITIAL
    else Compress(HashBlocks(m[..|m| - BLOCK_SIZE]), m[|m| - BLOCK_SIZE..])
  }

  /** The length of m in bits, as the 64-bit number of section 5.1.1. */
  function BitLength(m: seq<Byte>): nat {
    8 * |m| % 0x1_0000_0000_0000_0000
  }

  function Bytes64(x: bv64): (r: seq<Byte>)
    ensures |r| == 8
  {
    [(x >> 56) as Byte, ((x >> 48) & 0xff) as Byte, ((x >> 40) & 0xff) as Byte, ((x >> 32) & 0xff) as Byte,
     ((x >> 24) & 0xff) as Byte, ((x >> 16) & 0xff) as Byte, ((x >> 8) & 0xff) as Byte, (x & 0xff) as Byte]
  }

  /** How many zero bytes follow the byte 0x80. */
  function ZeroCount(length: nat): nat {
    (119 - length % BLOCK_SIZE) % BLOCK_SIZE
  }

  /** Section 5.1.1: the smallest number of zeroes that leaves room for the length at the end of a block. */
  lemma ZeroCountIsLeast(length: nat, k: nat)
    ensures (length + 1 + ZeroCount(length)) % BLOCK_SIZE == 56
    ensures (length + 1 + k) % BLOCK_SIZE == 56 ==> ZeroCount(length) <= k
  {
    var q, r := length / BLOCK_SIZE, length % BLOCK_SIZE;
    WholeBlocks(q, r + 1 + ZeroCount(length));
    WholeBlocks(q, r + 1 + k);
    assert length + 1 + ZeroCount(length) == q * BLOCK_SIZE + (r + 1 + ZeroCount(length));
    assert length + 1 + k == q * BLOCK_SIZE + (r + 1 + k);
  }

  lemma WholeBlocks(q: nat, x: nat)
    ensures (q * BLOCK_SIZE + x) % BLOCK_SIZE == x % BLOCK_SIZE
  {
  }

  function Zeros(n: nat): seq<Byte> {
    seq(n, _ => 0)
  }

  function LengthField(m: seq<Byte>): (r: seq<Byte>)
    ensures |r| == 8
  {
    Bytes64(BitLength(m) as bv64)
  }

  function Pad(m: seq<Byte>): seq<Byte> {
    m + [0x80] + Zeros(ZeroCount(|m|)) + LengthField(m)
  }

  lemma PadFillsBlocks(m: seq<Byte>)
    ensures |Pad(m)| % BLOCK_SIZE == 0
  {
    hide LengthField;
    var n := |m| + 1 + ZeroCount(|m|);
    assert n % BLOCK_SIZE == 56 by {
      ZeroCountIsLeast(|m|, 0);
    }
    assert |Pad(m)| == n + 8;
  }

  function WordBytes(x: Word): seq<Byte> {
    [(x >> 24) as Byte, ((x >> 16) & 0xff) as Byte, ((x >> 8) & 0xff) as Byte, (x & 0xff) as Byte]
  }

  function DigestBytes(h: Digest): seq<Byte> {
    WordBytes(h.a) + WordBytes(h.b) + WordBytes(h.c) + WordBytes(h.d) + WordBytes(h.e)
  }

  /** Section 6.1. */
  function Sha1(m: seq<Byte>): (digest: seq<Byte>)
    ensures |digest| == 20
  {
    PadFillsBlocks(m);
    DigestBytes(HashBlocks(Pad(m)))
  }
}
