/**
  Byte- and word-level vocabulary of the PIC18F core: a register cell holds one
  byte, an opcode is one 16-bit word, and bits are indexed 0 (least significant)
  to 7.
 */
module Bits {

  /** The contents of one 8-bit register cell. */
  type Byte = bv8

  /** One 16-bit program word (an opcode). */
  type Word = bv16

  /** A one-bit field or flag value: 0 or 1. */
  type Bit = b: bv8 | b <= 1

  /** A bit position inside a byte. */
  type BitIndex = i: bv8 | i < 8

  /** Bit i of v, computed as the register's `__getitem__` does: (v & (1 << i)) >> i. */
  function BitOf(v: Byte, i: BitIndex): Bit
  {
    (v & (1 << i)) >> i
  }

  /**
    The byte v with bit i replaced by `bit`, the masked update of the register's
    `__setitem__`: (v & ~(1 << i)) | (bit << i).
   */
  function WithBit(v: Byte, i: BitIndex, bit: Bit): (r: Byte)
    ensures BitOf(r, i) == bit
    ensures forall j: BitIndex :: j != i ==> BitOf(r, j) == BitOf(v, j)
  {
    (v & !(1 << i)) | (bit << i)
  }

  /** The byte v with bit i inverted and the other seven bits kept. */
  function Toggled(v: Byte, i: BitIndex): (r: Byte)
    ensures BitOf(r, i) == 1 - BitOf(v, i)
    ensures forall j: BitIndex :: j != i ==> BitOf(r, j) == BitOf(v, j)
  {
    WithBit(v, i, 1 - BitOf(v, i))
  }

  /** Toggling a bit twice gives back the byte: Toggled is its own inverse. */
  lemma ToggleTwice(v: Byte, i: BitIndex)
    ensures Toggled(Toggled(v, i), i) == v
  {
  }

  /** Writing back the bit just read leaves the byte as it was. */
  lemma WriteBackIsIdentity(v: Byte, i: BitIndex)
    ensures WithBit(v, i, BitOf(v, i)) == v
  {
  }

  /** The byte whose value is x, built bit by bit from the top. */
  function ByteOf(x: nat): (b: Byte)
    requires x < 0x100
    ensures b as int == x
  {
    if x == 0 then 0
    else
      var c := ByteOf(x / 2);
      ShiftIn(c, x % 2 == 1);
      (c << 1) | (if x % 2 == 1 then 1 else 0)
  }

  /** Shifting a bit in at the bottom doubles the value and adds the bit. */
  lemma ShiftIn(c: Byte, one: bool)
    requires c < 0x80
    ensures ((c << 1) | (if one then 1 else 0)) as int == 2 * c as int + (if one then 1 else 0)
  {
  }
}
