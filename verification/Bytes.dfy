/** Bytes, 32-bit words, and the little-endian packing of peer_node.cpp:103-119. */
module Bytes {
  type Byte = x: nat | x < 256
  type Word = x: nat | x < 0x1_0000_0000

  /** peer_node.cpp:103-110 */
  function FourByteToOne(c: Word): (r: seq<Byte>)
    ensures |r| == 4
  {
    [c % 256, (c / 0x100) % 256, (c / 0x1_0000) % 256, (c / 0x100_0000) % 256]
  }

  /** peer_node.cpp:112-119 */
  function OneByteToFour(b: seq<Byte>): Word
    requires |b| == 4
  {
    var b0: int, b1: int, b2: int, b3: int := b[0], b[1], b[2], b[3];
    b0 + b1 * 0x100 + b2 * 0x1_0000 + b3 * 0x100_0000
  }

  /** Shifting by one byte and then by another is shifting by two. */
  lemma TwoShifts(c: nat)
    ensures c / 0x100 / 0x100 == c / 0x1_0000
  {
  }

  lemma ThreeShifts(c: nat)
    ensures c / 0x1_0000 / 0x100 == c / 0x100_0000
  {
  }

  /** Unpacking undoes packing. */
  lemma UnpackingPacks(c: Word)
    ensures OneByteToFour(FourByteToOne(c)) == c
  {
    var q1: int, q2: int, q3: int := c / 0x100, c / 0x1_0000, c / 0x100_0000;
    TwoShifts(c);
    ThreeShifts(c);
    assert c % 256 + q1 * 256 == c && q1 % 256 + q2 * 256 == q1 && q2 % 256 + q3 * 256 == q2 && q3 % 256 == q3;
  }

  /** A number below the base is the remainder, and the rest the quotient. */
  lemma LowDigit(low: nat, high: nat)
    requires low < 256
    ensures (low + high * 256) % 256 == low && (low + high * 256) / 256 == high
  {
  }

  /** Packing undoes unpacking. */
  lemma PackingUnpacks(b: seq<Byte>)
    requires |b| == 4
    ensures FourByteToOne(OneByteToFour(b)) == b
  {
    var b0: int, b1: int, b2: int, b3: int := b[0], b[1], b[2], b[3];
    var w := OneByteToFour(b);
    var high2 := b2 + b3 * 256;
    var high1 := b1 + high2 * 256;
    LowDigit(b0, high1);
    LowDigit(b1, high2);
    LowDigit(b2, b3);
    assert w / 0x100 == high1 && w / 0x1_0000 == high2 && w / 0x100_0000 == b3;
  }

  /** The packing is a bijection between words and byte quadruples. */
  lemma PackingIsBijective(c: Word, b: seq<Byte>)
    requires |b| == 4
    ensures OneByteToFour(FourByteToOne(c)) == c
    ensures FourByteToOne(OneByteToFour(b)) == b
  {
    UnpackingPacks(c);
    PackingUnpacks(b);
  }
}
