/**
  Registers of the core (minipic/register.py): the program counter, the byte
  register with whole-byte and single-bit access, the stubbed STATUS register,
  and the data-memory addresses of the special function registers.
 */
module Register {
  import opened Bits

  /** Data-memory addresses of the working register, STATUS and the bank select register. */
  const WREG: int := 0xFE8
  const STATUS: int := 0xFD8
  const BSR: int := 0xFE0

  /** One past the largest program address; the program counter wraps here. */
  const PC_MAX: int := 0x200000

  /** The program counter after adding delta, reduced modulo PC_MAX. */
  function Wrapped(value: int, delta: int): (r: int)
    ensures 0 <= r < PC_MAX
    ensures 0 <= value + delta < PC_MAX ==> r == value + delta
    ensures PC_MAX <= value + delta < 2 * PC_MAX ==> r == value + delta - PC_MAX
    ensures -PC_MAX <= value + delta < 0 ==> r == value + delta + PC_MAX
  {
    (value + delta) % PC_MAX
  }

  /** Two increments in a row are one increment by their sum. */
  lemma WrappedTwice(value: int, d1: int, d2: int)
    ensures Wrapped(Wrapped(value, d1), d2) == Wrapped(value, d1 + d2)
  {
    var q := (value + d1) / PC_MAX;
    assert value + d1 == q * PC_MAX + Wrapped(value, d1);
    assert Wrapped(value, d1) + d2 == (value + d1 + d2) - q * PC_MAX;
    ModShift(value + d1 + d2, q);
  }

  /** Subtracting a multiple of PC_MAX does not change the residue. */
  lemma ModShift(x: int, q: int)
    ensures (x - q * PC_MAX) % PC_MAX == x % PC_MAX
  {
    var y := x - q * PC_MAX;
    var qx := x / PC_MAX;
    var qy := y / PC_MAX;
    assert x == qx * PC_MAX + x % PC_MAX;
    assert y == qy * PC_MAX + y % PC_MAX;
    assert y % PC_MAX - x % PC_MAX == (qx - q - qy) * PC_MAX;
  }

  /** The program counter: a fresh one is 0, and `Inc` wraps modulo PC_MAX. */
  class Pc {
    var value: int

    constructor ()
      ensures value == 0
    {
      value := 0;
    }

    method Inc(delta: int)
      modifies this
      ensures value == Wrapped(old(value), delta)
    {
      value := (value + delta) % PC_MAX;
    }
  }

  /** A register cell holding one byte, with whole-byte and single-bit access. */
  class ByteRegister {
    var value: Byte

    constructor ()
      ensures value == 0
    {
      value := 0;
    }

    /** Stores a byte; the source's assertion 0 <= value <= 0xFF is the parameter's type. */
    method Put(v: Byte)
      modifies this
      ensures value == v
    {
      value := v;
    }

    /** The byte last stored. */
    function Get(): (v: Byte)
      reads this
      ensures v == value
    {
      value
    }

    /**
      Sets bit i to `bit`; the source's assertions 0 <= i <= 7 and bit in
      {0, 1} are the parameters' types.
     */
    method SetBit(i: BitIndex, bit: Bit)
      modifies this
      ensures BitOf(value, i) == bit
      ensures forall j: BitIndex :: j != i ==> BitOf(value, j) == BitOf(old(value), j)
    {
      value := WithBit(value, i, bit);
    }

    /** Bit i of the stored byte, (value >> i) & 1. */
    function GetBit(i: BitIndex): (b: Bit)
      reads this
      ensures b == 1 <==> value & (1 << i) != 0
    {
      BitOf(value, i)
    }
  }

  /**
    The STATUS register of minipic: its byte and bit writes are stubs, so
    nothing written through them is kept.
   */
  class Status {
    var value: Byte

    constructor ()
      ensures value == 0
    {
      value := 0;
    }

    /** Stub: the written byte is discarded. */
    method Put(v: int)
      ensures value == old(value)
    {
    }

    /** Stub: the written bit is discarded. */
    method SetBit(i: int, bit: int)
      ensures value == old(value)
    {
    }

    function Get(): (v: Byte)
      reads this
      ensures v == value
    {
      value
    }
  }
}
