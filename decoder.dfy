/**
  The instruction decoder of minipic/cli.py: a 16-bit opcode is compared,
  under masks that keep its top n bits, with the operation codes, from the
  finest mask to the coarsest, and the first match decides the operation.
 */
module Decoder {
  import opened Bits
  import opened Wrappers
  import opened Ops

  // `CMD_COPn` (minipic/cli.py:8-23): the opcode with only its top n bits kept.
  function Cop4(w: Word): Word { w & 0xF000 }
  function Cop5(w: Word): Word { w & 0xF800 }
  function Cop6(w: Word): Word { w & 0xFC00 }
  function Cop7(w: Word): Word { w & 0xFE00 }
  function Cop8(w: Word): Word { w & 0xFF00 }
  function Cop10(w: Word): Word { w & 0xFFC0 }
  function Cop12(w: Word): Word { w & 0xFFF0 }
  function Cop15(w: Word): Word { w & 0xFFFE }

  // The operation codes of minipic/cli.py:25-95 appear below as literals,
  // each followed by its name there: the solver reasons about bit-vector
  // literals directly but not through named constants.

  /** The f field, bits 0-7. */
  function FField(w: Word): Byte
  {
    (w & 0xFF) as Byte
  }

  /** The a field (or s field of CALL), bit 8. */
  function AField(w: Word): Bit
  {
    ((w & 0x100) >> 8) as Byte
  }

  /** The b field of a bit operation, bits 9-11. */
  function BField(w: Word): BitIndex
  {
    ((w & 0xE00) >> 9) as Byte
  }

  /**
    `decode_op` as written (minipic/cli.py:97-153). None is Python's None:
    the bare `return` of the CALL pattern, and the end of the function for
    an opcode no pattern matches.
   */
  function DecodeOp(w: Word): (r: Option<Op>)
    ensures r.Some? ==> r.value.Nop? || r.value.Movlw? || r.value.Movwf? || r.value.Btfsc? || r.value.Btg?
  {
    if w == 0x0004 /* COP_CLRWDT */ || w == 0x0007 /* COP_DAW */ || w == 0x0000 /* COP_NOP */ then Some(Nop)
    else if Cop15(w) == 0x0010 /* COP_RETFIE */ then Some(Nop)
    else if Cop12(w) == 0x0100 /* COP_MOVLB */ then Some(Nop)
    else if Cop10(w) == 0xEE00 /* COP_LFSR */ then Some(Nop)
    else if Cop8(w) == 0x0F00 /* COP_ADDLW */ then Some(Nop)
    else if Cop8(w) == 0x0E00 /* COP_MOVLW */ then Some(Movlw(FField(w)))
    else if Cop7(w) == 0xEC00 /* COP_CALL */ then None
    else if Cop7(w) == 0x6E00 /* COP_MOVWF */ then Some(Movwf(FField(w), AField(w)))
    else if Cop6(w) == 0x2400 /* COP_ADDWF */ then Some(Nop)
    else if Cop5(w) == 0xD000 /* COP_BRA */ then Some(Nop)
    else if Cop4(w) == 0xB000 /* COP_BTFSC */ then Some(Btfsc(FField(w), BField(w), AField(w)))
    else if Cop4(w) == 0x7000 /* COP_BTG */ then Some(Btg(FField(w), BField(w), AField(w)))
    else None
  }

  /**
    The decoder with CALL completed: its 20-bit target is the low 8 bits of
    the first word below the low 12 bits of the following word, and an
    opcode no pattern matches is a NOP like the other recognised-but-not-
    implemented patterns.
   */
  function Decode(w: Word, next: Word): (r: Op)
    ensures r.Call? <==> Cop7(w) == 0xEC00
    ensures r.Call? ==> r.s == AField(w)
  {
    if Cop7(w) == 0xEC00 && DecodeOp(w).None? then Call(CallTarget(w, next), AField(w))
    else if DecodeOp(w).Some? then DecodeOp(w).value
    else Nop
  }

  /** The CALL target, (next & 0xFFF) << 8 | (w & 0xFF). */
  function CallTarget(w: Word, next: Word): Target
  {
    (next & 0xFFF) as int * 0x100 + (w & 0xFF) as int
  }

  /** The word an operation the decoder recognises is encoded as. */
  function Encode(op: Op): Word
    requires op.Nop? || op.Movlw? || op.Movwf? || op.Btfsc? || op.Btg?
  {
    match op
    case Nop => 0x0000 /* COP_NOP */
    case Movlw(k) => 0x0E00 /* COP_MOVLW */ | (k as Word)
    case Movwf(f, a) => 0x6E00 /* COP_MOVWF */ | ((a as Word) << 8) | (f as Word)
    case Btfsc(f, b, a) => 0xB000 /* COP_BTFSC */ | ((b as Word) << 9) | ((a as Word) << 8) | (f as Word)
    case Btg(f, b, a) => 0x7000 /* COP_BTG */ | ((b as Word) << 9) | ((a as Word) << 8) | (f as Word)
  }

  /**
    The two words of CALL n, s: 0xEC00 | s << 8 | bits 0-7 of n, then
    0xF000 | bits 8-19 of n, built from the three bytes of n.
   */
  function EncodeCall(n: Target, s: Bit): (Word, Word)
  {
    CallWords(s, ByteOf(n % 0x100), ByteOf(n / 0x100 % 0x100), ByteOf(n / 0x10000))
  }

  /** The two words of CALL with the target given as its low, middle and top bytes. */
  function CallWords(s: Bit, lo: Byte, mid: Byte, top: Byte): (Word, Word)
  {
    (0xEC00 /* COP_CALL */ | ((s as Word) << 8) | (lo as Word), 0xF000 /* COP_NOP2 */ | ((top as Word) << 8) | (mid as Word))
  }

  /** The fields of a decoded word are within the operand ranges. */
  lemma FieldsInRange(w: Word)
    ensures FField(w) as int <= 0xFF && AField(w) <= 1 && BField(w) <= 7
    ensures FField(w) as Word == w & 0xFF
  {
  }

  /** The exact opcodes 0x0000, 0x0004 and 0x0007 decode to NOP. */
  lemma ExactNops()
    ensures DecodeOp(0x0000) == Some(Nop) && DecodeOp(0x0004) == Some(Nop) && DecodeOp(0x0007) == Some(Nop)
  {
  }

  /** The matched-but-stubbed patterns RETFIE, MOVLB, LFSR, ADDLW, ADDWF and BRA decode to NOP. */
  lemma StubsDecodeToNop(w: Word)
    requires Cop15(w) == 0x0010 || Cop12(w) == 0x0100 || Cop10(w) == 0xEE00
             || Cop8(w) == 0x0F00 || Cop6(w) == 0x2400 || Cop5(w) == 0xD000
    ensures DecodeOp(w) == Some(Nop)
  {
    if Cop6(w) == 0x2400 || Cop5(w) == 0xD000 {
      assert Cop8(w) != 0x0E00 && Cop7(w) != 0xEC00 && Cop7(w) != 0x6E00;
    }
  }

  /** Every word whose top byte is 0x0E decodes to MOVLW with its low byte. */
  lemma MovlwPattern(w: Word)
    requires w & 0xFF00 == 0x0E00
    ensures DecodeOp(w) == Some(Movlw(FField(w)))
  {
    assert !(w == 0x0004 || w == 0x0007 || w == 0x0000);
    assert Cop15(w) != 0x0010 && Cop12(w) != 0x0100 && Cop10(w) != 0xEE00;
    assert Cop8(w) != 0x0F00 && Cop8(w) == 0x0E00;
  }

  /** Every word whose top seven bits are those of 0x6E00 decodes to MOVWF with its f and a fields. */
  lemma MovwfPattern(w: Word)
    requires w & 0xFE00 == 0x6E00
    ensures DecodeOp(w) == Some(Movwf(FField(w), AField(w)))
  {
    assert !(w == 0x0004 || w == 0x0007 || w == 0x0000);
    assert Cop15(w) != 0x0010 && Cop12(w) != 0x0100 && Cop10(w) != 0xEE00;
    assert Cop8(w) != 0x0F00 && Cop8(w) != 0x0E00 && Cop7(w) != 0xEC00 && Cop7(w) == 0x6E00;
  }

  /** Every word whose top nibble is 0xB decodes to BTFSC with its f, b and a fields. */
  lemma BtfscPattern(w: Word)
    requires w & 0xF000 == 0xB000
    ensures DecodeOp(w) == Some(Btfsc(FField(w), BField(w), AField(w)))
  {
    assert !(w == 0x0004 || w == 0x0007 || w == 0x0000);
    assert Cop15(w) != 0x0010 && Cop12(w) != 0x0100 && Cop10(w) != 0xEE00;
    assert Cop8(w) != 0x0F00 && Cop8(w) != 0x0E00 && Cop7(w) != 0xEC00 && Cop7(w) != 0x6E00;
    assert Cop6(w) != 0x2400 && Cop5(w) != 0xD000 && Cop4(w) == 0xB000;
  }

  /** Every word whose top nibble is 0x7 decodes to BTG with its f, b and a fields. */
  lemma BtgPattern(w: Word)
    requires w & 0xF000 == 0x7000
    ensures DecodeOp(w) == Some(Btg(FField(w), BField(w), AField(w)))
  {
    assert !(w == 0x0004 || w == 0x0007 || w == 0x0000);
    assert Cop15(w) != 0x0010 && Cop12(w) != 0x0100 && Cop10(w) != 0xEE00;
    assert Cop8(w) != 0x0F00 && Cop8(w) != 0x0E00 && Cop7(w) != 0xEC00 && Cop7(w) != 0x6E00;
    assert Cop6(w) != 0x2400 && Cop5(w) != 0xD000 && Cop4(w) != 0xB000 && Cop4(w) == 0x7000;
  }

  /** Every recognised operation decodes back from its encoding. */
  lemma DecodeEncode(op: Op)
    requires op.Nop? || op.Movlw? || op.Movwf? || op.Btfsc? || op.Btg?
    ensures DecodeOp(Encode(op)) == Some(op)
  {
    var w := Encode(op);
    match op
    case Nop =>
    case Movlw(k) =>
      assert w & 0xFF00 == 0x0E00 && FField(w) == k;
      MovlwPattern(w);
    case Movwf(f, a) =>
      assert w & 0xFE00 == 0x6E00 && FField(w) == f && AField(w) == a;
      MovwfPattern(w);
    case Btfsc(f, b, a) =>
      BitOpFields(0xB000, f, b, a);
      BtfscPattern(w);
    case Btg(f, b, a) =>
      BitOpFields(0x7000, f, b, a);
      BtgPattern(w);
  }

  /** The fields of a bit operation are read back from the word it is encoded as. */
  lemma BitOpFields(code: Word, f: Byte, b: BitIndex, a: Bit)
    requires code & 0x0FFF == 0
    ensures var w := code | ((b as Word) << 9) | ((a as Word) << 8) | (f as Word);
      w & 0xF000 == code && FField(w) == f && BField(w) == b && AField(w) == a
  {
  }

  /** For every k, 0x0E00 | k decodes to MOVLW k. */
  lemma MovlwDecodes(k: Byte)
    ensures DecodeOp(0x0E00 | k as Word) == Some(Movlw(k))
  {
    DecodeEncode(Movlw(k));
  }

  /** As written, every CALL-pattern opcode decodes to no operation. */
  lemma CallDecodesToNone(w: Word)
    requires Cop7(w) == 0xEC00
    ensures DecodeOp(w).None?
  {
    assert !(w == 0x0004 || w == 0x0007 || w == 0x0000);
    assert Cop15(w) != 0x0010 && Cop12(w) != 0x0100 && Cop10(w) != 0xEE00;
    assert Cop8(w) != 0x0F00 && Cop8(w) != 0x0E00;
  }

  /** An opcode no pattern matches (the second word of a two-word instruction, or MOVF) decodes to None. */
  lemma UnmatchedDecodesToNone()
    ensures DecodeOp(0xF000).None? && DecodeOp(0x5000).None?
  {
  }

  /** The completed decoder reads CALL n, s back from its two words. */
  lemma DecodeCall(n: Target, s: Bit)
    ensures Decode(EncodeCall(n, s).0, EncodeCall(n, s).1) == Call(n, s)
  {
    TargetBytes(n);
    DecodeCallBytes(s, ByteOf(n % 0x100), ByteOf(n / 0x100 % 0x100), ByteOf(n / 0x10000));
  }

  /** A target is rebuilt from the three bytes EncodeCall splits it into. */
  lemma TargetBytes(n: Target)
    ensures ByteOf(n / 0x10000) < 0x10
    ensures n == ByteOf(n / 0x10000) as int * 0x10000 + ByteOf(n / 0x100 % 0x100) as int * 0x100
                 + ByteOf(n % 0x100) as int
  {
    ThreeBytes(n);
  }

  /** The two CALL words built from the bytes of a target decode to CALL of that target. */
  lemma DecodeCallBytes(s: Bit, lo: Byte, mid: Byte, top: Byte)
    requires top < 0x10
    ensures top as int < 0x10
            && Decode(CallWords(s, lo, mid, top).0, CallWords(s, lo, mid, top).1)
               == Call(top as int * 0x10000 + mid as int * 0x100 + lo as int, s)
  {
    var w, next := CallWords(s, lo, mid, top).0, CallWords(s, lo, mid, top).1;
    CallFirstWord(s, lo, mid, top);
    CallSecondWord(s, lo, mid, top);
    DecodeAgrees(w, next);
    assert CallTarget(w, next) == top as int * 0x10000 + mid as int * 0x100 + lo as int;
  }

  /** The first word of CALL is in the CALL pattern and carries s and the low byte of the target. */
  lemma CallFirstWord(s: Bit, lo: Byte, mid: Byte, top: Byte)
    ensures var w := CallWords(s, lo, mid, top).0;
      Cop7(w) == 0xEC00 && AField(w) == s && (w & 0xFF) as int == lo as int
  {
  }

  /** The low 12 bits of the second word of CALL are the top and middle bytes of the target. */
  lemma CallSecondWord(s: Bit, lo: Byte, mid: Byte, top: Byte)
    requires top < 0x10
    ensures (CallWords(s, lo, mid, top).1 & 0xFFF) as int == top as int * 0x100 + mid as int
  {
  }

  lemma ThreeBytes(n: int)
    requires 0 <= n < 0x100000
    ensures n == (n / 0x10000 * 0x100 + n / 0x100 % 0x100) * 0x100 + n % 0x100
  {
  }

  /**
    The completed decoder agrees with `decode_op` wherever `decode_op`
    returns an operation, reads the CALL pattern as CALL, and gives NOP for
    every other opcode.
   */
  lemma DecodeAgrees(w: Word, next: Word)
    ensures DecodeOp(w).Some? ==> Decode(w, next) == DecodeOp(w).value
    ensures Cop7(w) == 0xEC00 ==> Decode(w, next) == Call(CallTarget(w, next), AField(w))
    ensures DecodeOp(w).None? && Cop7(w) != 0xEC00 ==> Decode(w, next) == Nop
  {
    if Cop7(w) == 0xEC00 {
      CallDecodesToNone(w);
    }
  }
}
