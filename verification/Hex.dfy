/**
  Hash names as text and as bytes, src/chunk.c.
 */
module Hex {
  import opened Common

  /** The digit sprintf prints for a value below 16. */
  function Digit(n: Byte): char
    requires n < 16
  {
    match n
    case 0 => '0'
    case 1 => '1'
    case 2 => '2'
    case 3 => '3'
    case 4 => '4'
    case 5 => '5'
    case 6 => '6'
    case 7 => '7'
    case 8 => '8'
    case 9 => '9'
    case 10 => 'a'
    case 11 => 'b'
    case 12 => 'c'
    case 13 => 'd'
    case 14 => 'e'
    case _ => 'f'
  }

  predicate IsDigit(c: char) {
    '0' <= c <= '9' || 'a' <= c <= 'f'
  }

  /** A name as the chunk lists spell it: lower-case digits, two a byte. */
  predicate LowerHex(s: string) {
    |s| % 2 == 0 && forall i :: 0 <= i < |s| ==> IsDigit(s[i])
  }

  /** What "%.2x" prints for a byte: two digits, high half first. */
  function Pair(b: Byte): (r: string)
    ensures |r| == 2
  {
    [Digit(b >> 4), Digit(b & 15)]
  }

  /** binary2hex */
  function FromBytes(bytes: seq<Byte>): (r: string)
    ensures |r| == 2 * |bytes|
  {
    if bytes == [] then "" else FromBytes(bytes[..|bytes| - 1]) + Pair(bytes[|bytes| - 1])
  }

  method Binary2Hex(buf: seq<Byte>) returns (hex: string)
    ensures hex == FromBytes(buf)
  {
    hide Pair;
    hex := "";
    for i := 0 to |buf|
      invariant hex == FromBytes(buf[..i])
    {
      hex := hex + Pair(buf[i]);
      assert buf[..i + 1][..i] == buf[..i];
    }
    assert buf[..|buf|] == buf;
  }

  function SmallByte(k: nat): Byte
    requires k < 16
  {
    match k
    case 0 => 0
    case 1 => 1
    case 2 => 2
    case 3 => 3
    case 4 => 4
    case 5 => 5
    case 6 => 6
    case 7 => 7
    case 8 => 8
    case 9 => 9
    case 10 => 10
    case 11 => 11
    case 12 => 12
    case 13 => 13
    case 14 => 14
    case _ => 15
  }

  /** _hex2binary: the upper case of a signed char less '0' or 'A' - 10, as a byte whether or not it was a digit. */
  function Value(c: char): Byte {
    var n := if c as int >= 128 then c as int - 256 else c as int;
    var u := if 97 <= n <= 122 then n - 32 else n;
    var v := (if u <= 57 then u - 48 else u - 55) % 256;
    if v < 16 then SmallByte(v) else v as Byte
  }

  /** _hex2binary(high) << 4 | _hex2binary(low), cut to a byte. */
  function ByteOf(high: char, low: char): Byte {
    (Value(high) << 4) | Value(low)
  }

  /** hex2binary over an even number of characters. */
  function ToBytes(hex: string): (r: seq<Byte>)
    ensures |r| == |hex| / 2
  {
    if |hex| < 2 then [] else ToBytes(hex[..|hex| - 2]) + [ByteOf(hex[|hex| - 2], hex[|hex| - 1])]
  }

  method Hex2Binary(hex: string) returns (buf: seq<Byte>)
    requires |hex| % 2 == 0
    ensures buf == ToBytes(hex)
  {
    hide ByteOf;
    buf := [];
    var i := 0;
    while i < |hex|
      invariant i <= |hex| && i % 2 == 0 && buf == ToBytes(hex[..i])
    {
      buf := buf + [ByteOf(hex[i], hex[i + 1])];
      assert hex[..i + 2][..i] == hex[..i];
      i := i + 2;
    }
    assert hex[..|hex|] == hex;
  }

  lemma ValueOfDigit(n: Byte)
    requires n < 16
    ensures Value(Digit(n)) == n && IsDigit(Digit(n))
  {
  }

  lemma DigitAt(k: nat)
    requires k < 16
    ensures SmallByte(k) < 16
    ensures Digit(SmallByte(k)) as int == if k < 10 then 48 + k else 87 + k
  {
  }

  lemma DigitOfValue(c: char)
    requires IsDigit(c)
    ensures Value(c) < 16 && Digit(Value(c)) == c
  {
    hide Digit, SmallByte;
    var k := if c <= '9' then c as int - 48 else c as int - 87;
    DigitAt(k);
    assert Value(c) == SmallByte(k);
    assert Digit(Value(c)) as int == c as int;
  }

  lemma HalvesJoin(b: Byte)
    ensures ((b >> 4) << 4) | (b & 15) == b
  {
  }

  lemma HalvesAreSmall(b: Byte)
    ensures b >> 4 < 16 && b & 15 < 16
  {
  }

  lemma HalvesPart(high: Byte, low: Byte)
    requires high < 16 && low < 16
    ensures ((high << 4) | low) >> 4 == high && ((high << 4) | low) & 15 == low
  {
  }

  lemma ByteOfItsDigits(b: Byte)
    ensures ByteOf(Pair(b)[0], Pair(b)[1]) == b
    ensures IsDigit(Pair(b)[0]) && IsDigit(Pair(b)[1])
  {
    hide Digit, Value, IsDigit;
    HalvesAreSmall(b);
    ValueOfDigit(b >> 4);
    ValueOfDigit(b & 15);
    HalvesJoin(b);
  }

  lemma DigitsOfByteOf(high: char, low: char)
    requires IsDigit(high) && IsDigit(low)
    ensures Pair(ByteOf(high, low)) == [high, low]
  {
    hide Digit, Value, IsDigit;
    DigitOfValue(high);
    DigitOfValue(low);
    HalvesPart(Value(high), Value(low));
  }

  /** Bytes survive the trip through text. */
  lemma {:induction false} BytesThroughText(bytes: seq<Byte>)
    ensures ToBytes(FromBytes(bytes)) == bytes
  {
    hide Pair, ByteOf;
    if bytes != [] {
      var front, last := bytes[..|bytes| - 1], bytes[|bytes| - 1];
      var text := FromBytes(bytes);
      BytesThroughText(front);
      assert text[..|text| - 2] == FromBytes(front);
      ByteOfItsDigits(last);
    }
  }

  lemma {:induction false} TextIsLowerHex(bytes: seq<Byte>)
    ensures LowerHex(FromBytes(bytes))
  {
    hide Pair, IsDigit;
    if bytes != [] {
      TextIsLowerHex(bytes[..|bytes| - 1]);
      ByteOfItsDigits(bytes[|bytes| - 1]);
    }
  }

  /** And lower-case names survive the trip through bytes. */
  lemma {:induction false} TextThroughBytes(hex: string)
    requires LowerHex(hex)
    ensures FromBytes(ToBytes(hex)) == hex
    decreases |hex|
  {
    hide Pair, ByteOf, IsDigit;
    if hex != [] {
      var front := hex[..|hex| - 2];
      TextThroughBytes(front);
      DigitsOfByteOf(hex[|hex| - 2], hex[|hex| - 1]);
      var bytes := ToBytes(hex);
      assert bytes[..|bytes| - 1] == ToBytes(front);
      assert hex == front + [hex[|hex| - 2], hex[|hex| - 1]];
    }
  }
}
