/**
  The operations the core executes: the live instruction classes of
  minipic/op.py and the byte-oriented functions of op.py, each with its
  decoded operand fields.
 */
module Ops {
  import opened Bits

  /** A 20-bit word address, the target field of CALL and GOTO. */
  type Target = n: int | 0 <= n < 0x100000

  datatype Op =
    | Nop
    | Movlw(k: Byte)
    | Movwf(f: Byte, a: Bit)
    | Btg(f: Byte, b: BitIndex, a: Bit)
    | Btfsc(f: Byte, b: BitIndex, a: Bit)
    | Call(n: Target, s: Bit)
    | Decfsz(f: Byte, d: Bit, a: Bit)
    | Goto(target: Target)
    | Return(s: Bit)
    | Addwf(f: Byte, d: Bit, a: Bit)
    | Addwfc(f: Byte, d: Bit, a: Bit)
    | Andwf(f: Byte, d: Bit, a: Bit)
    | Clrf(f: Byte, a: Bit)
    | Comf(f: Byte, d: Bit, a: Bit)
    | Cpfseq(f: Byte, a: Bit)
    | Cpfsgt(f: Byte, a: Bit)
    | Cpfslt(f: Byte, a: Bit)
    | Addlw(k: Byte)

  /**
    The SIZE attribute of each operation: 2 by default, 4 for the two-word
    CALL and GOTO, and 1 for RETURN (minipic/op.py:16, 69, 98, 106).
   */
  function Size(op: Op): (n: int)
    ensures n == 1 <==> op.Return?
    ensures n == 4 <==> op.Call? || op.Goto?
    ensures n == 2 <==> !(op.Return? || op.Call? || op.Goto?)
  {
    match op
    case Call(_, _) => 4
    case Goto(_) => 4
    case Return(_) => 1
    case _ => 2
  }
}
