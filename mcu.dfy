/**
  The core of the microcontroller: program counter, data memory, program
  memory and return stack (minipic/picmicro.py:31-37), with the accessors of
  picmicro.py for WREG, BSR and STATUS and its STATUS bit primitives.
 */
module Core {
  import opened Bits
  import opened Wrappers
  import opened Register
  import opened DataMem
  import opened CallStack
  import opened Alu
  import opened ProgramMem
  import opened Semantics

  /**
    `inc_pc` as written (picmicro.py:78-79): (pc + delta) & 0x200000 keeps
    only bit 21 of the sum.
   */
  function MaskedIncrement(pc: int, delta: int): (r: int)
    ensures r == 0 || r == PC_MAX
  {
    (pc + delta) / PC_MAX % 2 * PC_MAX
  }

  /**
    The unit test expects incPC(2) then incPC(10) to give 2 and then 12; the
    wrapping increment does, the masking one gives 0 at the first step.
   */
  lemma MaskedIncrementBreaksTest()
    ensures MaskedIncrement(0, 2) == 0
    ensures Wrapped(0, 2) == 2 && Wrapped(Wrapped(0, 2), 10) == 12
  {
  }

  class Mcu {
    const pc: Pc
    const data: DataMemory
    const program: ProgramMemory
    const stack: Stack

    ghost predicate Valid()
      reads this, pc, program, stack, stack.storage
    {
      program.Valid() && stack.Valid() && 0 <= pc.value < PC_MAX
    }

    /** The machine state the operations act on. */
    function Abs(): Machine
      reads this, pc, data, stack, stack.storage
      requires stack.Valid()
    {
      Machine(pc.value, data.storage, stack.Abs())
    }

    /** PC 0, the three SFR cells at 0, an empty stack and a program of NOPs. */
    constructor ()
      ensures Valid() && fresh(pc) && fresh(data) && fresh(program) && fresh(program.memory)
      ensures fresh(stack) && fresh(stack.storage)
      ensures Abs() == Machine(0, map[WREG := 0, BSR := 0, STATUS := 0], EmptyStack)
      ensures forall k :: 0 <= k < SLOTS ==> program.memory[k] == Ops.Nop
    {
      pc := new Pc();
      data := new DataMemory();
      program := new ProgramMemory();
      stack := new Stack();
    }

    /** The `wreg` property: the cell at 0xFE8. */
    function Wreg(): (v: Byte)
      reads this, data
      ensures Load(data.storage, WREG) == Ok(v)
    {
      Peek(data.storage, WREG)
    }

    /** The `bsr` property: the cell at 0xFE0. */
    function Bsr(): (v: Byte)
      reads this, data
      ensures Load(data.storage, BSR) == Ok(v)
    {
      Peek(data.storage, BSR)
    }

    /** The `status` property: the cell at 0xFD8. */
    function Status(): (v: Byte)
      reads this, data
      ensures Load(data.storage, STATUS) == Ok(v)
    {
      Peek(data.storage, STATUS)
    }

    method SetWreg(value: int)
      requires 0 <= value <= 0xFF
      modifies data
      ensures data.storage == old(data.storage)[WREG := value as Byte]
    {
      var ok := data.Write(WREG, value as Byte);
    }

    method SetBsr(value: int)
      requires 0 <= value <= 0xFF
      modifies data
      ensures data.storage == old(data.storage)[BSR := value as Byte]
    {
      var ok := data.Write(BSR, value as Byte);
    }

    /** `inc_pc` with the wrap of minipic's program counter. */
    method IncPc(delta: int)
      modifies pc
      ensures pc.value == Wrapped(old(pc.value), delta)
    {
      pc.Inc(delta);
    }

    method SetStatusBits(bits: Byte)
      modifies data
      ensures data.storage == WithStatus(old(data.storage), SetBits(old(Status()), bits))
    {
      var ok := data.Write(STATUS, SetBits(Status(), bits));
    }

    method ResetStatusBits(bits: Byte)
      modifies data
      ensures data.storage == WithStatus(old(data.storage), ResetBits(old(Status()), bits))
    {
      var ok := data.Write(STATUS, ResetBits(Status(), bits));
    }

    /**
      The flag update op.py performs after an arithmetic or logic result:
      set the flags in `bits`, then reset those of `mask` not in `bits`.
      Together the two writes affect exactly the flags of `mask`.
     */
    method SetThenResetStatusBits(bits: Byte, mask: Byte)
      requires bits & !mask == 0
      modifies data
      ensures data.storage == WithStatus(old(data.storage), Affect(old(Status()), mask, bits))
    {
      ghost var d0 := data.storage;
      SetStatusBits(bits);
      ghost var s1 := SetBits(Load(d0, STATUS).value, bits);
      ResetStatusBits(!bits & mask);
      StatusOverwrite(d0, s1, ResetBits(s1, !bits & mask));
      SetThenResetIsAffect(Load(d0, STATUS).value, mask, bits);
    }

    method AffectStatusBits(mask: Byte, bits: Byte)
      modifies data
      ensures data.storage == WithStatus(old(data.storage), Affect(old(Status()), mask, bits))
    {
      var ok := data.Write(STATUS, Affect(Status(), mask, bits));
    }
  }
}
