/**
  The STATUS flags of op.py and the pure flag formulas of its addition and
  logic helpers, together with the primitives that set, reset and affect
  STATUS bits.
 */
module Alu {
  import opened Bits

  /** Flag masks in the STATUS register (op.py:4). */
  const N: Byte := 0x10
  const OV: Byte := 0x08
  const Z: Byte := 0x04
  const DC: Byte := 0x02
  const C: Byte := 0x01

  /** All five arithmetic flags. */
  const ALL_FLAGS: Byte := 0x1F

  /** A byte read as a two's-complement number. */
  function Signed(b: Byte): (v: int)
    ensures -0x80 <= v < 0x80
    ensures b < 0x80 ==> v == b as int
  {
    if b < 0x80 then b as int else b as int - 0x100
  }

  /**
    The flags `_add` sets for arg1 + arg2 (op.py:16-26): carry out of bit 7,
    carry out of bit 3, zero result byte, operands of one sign giving a result
    of the other sign, and bit 7 of the result. No bit outside the five flags
    is ever set.
   */
  function AddFlags(arg1: Byte, arg2: Byte): (sb: Byte)
    ensures sb & !ALL_FLAGS == 0
  {
    var sum := arg1 as bv16 + arg2 as bv16;
    var c := if sum & 0x100 != 0 then C else 0;
    var dc := if ((arg1 & 0xF) + (arg2 & 0xF)) & 0x10 != 0 then DC else 0;
    var z := if sum & 0xFF == 0 then Z else 0;
    var ov := if arg1 & 0x80 == arg2 & 0x80 && arg1 & 0x80 != ((sum & 0xFF) as Byte) & 0x80 then OV else 0;
    var n := if sum & 0x80 != 0 then N else 0;
    c | dc | z | ov | n
  }

  /** What each of the five flags of `_add` says about the addition. */
  lemma AddFlagsMeaning(arg1: Byte, arg2: Byte)
    ensures var sb := AddFlags(arg1, arg2);
      (sb & C != 0 <==> arg1 as bv16 + arg2 as bv16 > 0xFF)
      && (sb & DC != 0 <==> (arg1 & 0xF) + (arg2 & 0xF) >= 0x10)
      && (sb & Z != 0 <==> arg1 + arg2 == 0)
      && (sb & OV != 0 <==> arg1 & 0x80 == arg2 & 0x80 && (arg1 + arg2) & 0x80 != arg1 & 0x80)
      && (sb & N != 0 <==> (arg1 + arg2) & 0x80 != 0)
  {
  }

  /** The flags of an addition do not depend on the order of its operands. */
  lemma AddFlagsSymmetric(arg1: Byte, arg2: Byte)
    ensures AddFlags(arg1, arg2) == AddFlags(arg2, arg1)
  {
  }

  /** C is set exactly when the unsigned sum does not fit in a byte. */
  lemma CarryIsUnsignedOverflow(arg1: Byte, arg2: Byte)
    ensures AddFlags(arg1, arg2) & C != 0 <==> arg1 as int + arg2 as int > 0xFF
  {
  }

  /** OV is set exactly when the signed sum leaves [-128, 127]. */
  lemma OverflowIsSignedOverflow(arg1: Byte, arg2: Byte)
    ensures AddFlags(arg1, arg2) & OV != 0 <==> !(-0x80 <= Signed(arg1) + Signed(arg2) < 0x80)
  {
    if arg1 < 0x80 {
      if arg2 < 0x80 { } else { }
    } else {
      if arg2 < 0x80 { } else { }
    }
  }

  /** Z is set exactly when the sum is 0 or 256. */
  lemma ZeroIsSumMultipleOf256(arg1: Byte, arg2: Byte)
    ensures AddFlags(arg1, arg2) & Z != 0 <==> arg1 as int + arg2 as int == 0 || arg1 as int + arg2 as int == 0x100
  {
  }

  /** N is set exactly when the result byte is negative as a signed number. */
  lemma NegativeIsSignOfResult(arg1: Byte, arg2: Byte)
    ensures AddFlags(arg1, arg2) & N != 0 <==> Signed(arg1 + arg2) < 0
  {
  }

  /**
    The flags of a three-operand addition arg1 + arg2 + cin with carry in, as
    the commented-out `addwfc` at minipic/op.py:228-259 computes them: carry and
    digit carry include cin, and OV is the carry into bit 7 differing from the
    carry out of it.
   */
  function AddcFlags(arg1: Byte, arg2: Byte, cin: Bit): (sb: Byte)
    ensures sb & !ALL_FLAGS == 0
  {
    var sum := arg1 as bv16 + arg2 as bv16 + cin as bv16;
    var c := if sum & 0x100 != 0 then C else 0;
    var dc := if ((arg1 & 0xF) + (arg2 & 0xF) + cin) & 0x10 != 0 then DC else 0;
    var z := if sum & 0xFF == 0 then Z else 0;
    var ov := if (((arg1 & 0x7F) + (arg2 & 0x7F) + cin) & 0x80 != 0) != (sum & 0x100 != 0) then OV else 0;
    var n := if sum & 0x80 != 0 then N else 0;
    c | dc | z | ov | n
  }

  /** What C, DC, Z and N of the three-operand addition say about it. */
  lemma AddcFlagsMeaning(arg1: Byte, arg2: Byte, cin: Bit)
    ensures var sb := AddcFlags(arg1, arg2, cin);
      (sb & C != 0 <==> arg1 as bv16 + arg2 as bv16 + cin as bv16 > 0xFF)
      && (sb & DC != 0 <==> (arg1 & 0xF) + (arg2 & 0xF) + cin >= 0x10)
      && (sb & Z != 0 <==> arg1 + arg2 + cin == 0)
      && (sb & N != 0 <==> (arg1 + arg2 + cin) & 0x80 != 0)
  {
  }

  /** With carry in 0 the three-operand flags are those of `_add`. */
  lemma AddcWithoutCarryIsAdd(arg1: Byte, arg2: Byte)
    ensures AddcFlags(arg1, arg2, 0) == AddFlags(arg1, arg2)
  {
  }

  /** C of the three-operand addition is unsigned overflow of the whole sum. */
  lemma AddcCarryIsUnsignedOverflow(arg1: Byte, arg2: Byte, cin: Bit)
    ensures AddcFlags(arg1, arg2, cin) & C != 0 <==> arg1 as int + arg2 as int + cin as int > 0xFF
  {
    AddcFlagsMeaning(arg1, arg2, cin);
    WideSum(arg1, arg2, cin);
  }

  /** The 16-bit sum of two bytes and a carry is their sum as numbers. */
  lemma WideSum(arg1: Byte, arg2: Byte, cin: Bit)
    ensures (arg1 as bv16 + arg2 as bv16 + cin as bv16) as int == arg1 as int + arg2 as int + cin as int
  {
  }

  /** OV of the three-operand addition is signed overflow of the whole sum. */
  lemma AddcOverflowIsSignedOverflow(arg1: Byte, arg2: Byte, cin: Bit)
    ensures AddcFlags(arg1, arg2, cin) & OV != 0
            <==> !(-0x80 <= Signed(arg1) + Signed(arg2) + cin as int < 0x80)
  {
    if arg1 < 0x80 {
      if arg2 < 0x80 { } else { }
    } else {
      if arg2 < 0x80 { } else { }
    }
  }

  /** The flags `_and` sets for a logic result (op.py:40-44): Z for zero, N for bit 7. */
  function LogicFlags(result: Byte): (sb: Byte)
    ensures sb & Z != 0 <==> result == 0
    ensures sb & N != 0 <==> result & 0x80 != 0
    ensures sb & !(N | Z) == 0
  {
    (if result == 0 then Z else 0) | (if result & 0x80 != 0 then N else 0)
  }

  /** STATUS after `setStatusBits(bits)`: the given bits become 1. */
  function SetBits(status: Byte, bits: Byte): (r: Byte)
    ensures r & bits == bits
    ensures r & !bits == status & !bits
  {
    status | bits
  }

  /** STATUS after `resetStatusBits(bits)`: the given bits become 0. */
  function ResetBits(status: Byte, bits: Byte): (r: Byte)
    ensures r & bits == 0
    ensures r & !bits == status & !bits
  {
    status & !bits
  }

  /**
    STATUS after `affectStatusBits(mask, bits)`: the bits under the mask are
    taken from `bits`, the others kept.
   */
  function Affect(status: Byte, mask: Byte, bits: Byte): (r: Byte)
    ensures r & mask == bits & mask
    ensures r & !mask == status & !mask
  {
    (status & !mask) | (bits & mask)
  }

  /**
    Setting the computed bits and then resetting the rest of the mask, as
    `_add` and `_and` do, is affecting the mask with the computed bits.
   */
  lemma SetThenResetIsAffect(status: Byte, mask: Byte, bits: Byte)
    requires bits & !mask == 0
    ensures ResetBits(SetBits(status, bits), !bits & mask) == Affect(status, mask, bits)
  {
  }

  /** The two checks of test/test_picmicro.py on the affect primitive. */
  lemma AffectExamples()
    ensures Affect(0, 0, 0x1F) == 0
    ensures Affect(0, 0x06, 0x0C) == 0x04
  {
  }
}
