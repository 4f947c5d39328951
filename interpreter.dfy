/**
  The fetch-execute step of minipic/interpreter.py. The operation stored at
  the slot PC selects is executed; the operation itself owns the advance of
  PC. `Interpreter.step` as written adds the operation's SIZE once more,
  which StepAsWritten models.
 */
module Interpret {
  import opened Bits
  import opened Wrappers
  import opened Register
  import opened DataMem
  import opened CallStack
  import opened Ops
  import opened ProgramMem
  import opened Semantics
  import opened OpFacts
  import opened Core
  import opened Execute

  /** The operation at PC in a program of SLOTS slots. */
  function Current(m: Machine, program: seq<Op>): (op: Op)
    requires |program| == SLOTS && 0 <= m.pc < PC_MAX
    ensures Fetch(program, m.pc) == Some(op)
  {
    program[m.pc / 2]
  }

  /** One step: fetch the operation at PC and execute it. */
  function StepSpec(m: Machine, program: seq<Op>): (r: Result<Machine, Fault>)
    requires |program| == SLOTS && 0 <= m.pc < PC_MAX
    ensures r.Ok? && !Current(m, program).Call? && !Current(m, program).Return? ==> r.value.stack == m.stack
  {
    ExecSpec(Current(m, program), m)
  }

  /**
    `Interpreter.step` as written (minipic/interpreter.py:9-12): execute,
    then add the operation's SIZE to PC again.
   */
  function StepAsWritten(m: Machine, program: seq<Op>): (r: Result<Machine, Fault>)
    requires |program| == SLOTS && 0 <= m.pc < PC_MAX
    ensures r.Ok? <==> StepSpec(m, program).Ok?
  {
    var op := Current(m, program);
    ThenAdvance(ExecSpec(op, m), Size(op))
  }

  /** A step keeps PC a program address and the return stack well formed. */
  lemma StepKeepsInv(m: Machine, program: seq<Op>)
    requires |program| == SLOTS && Inv(m)
    requires StepSpec(m, program).Ok?
    ensures Inv(StepSpec(m, program).value)
  {
    ExecKeepsInv(Current(m, program), m);
  }

  /**
    Whatever the operation, the step as written ends SIZE bytes past where
    the operation itself left PC.
   */
  lemma StepAsWrittenOverAdvances(m: Machine, program: seq<Op>)
    requires |program| == SLOTS && 0 <= m.pc < PC_MAX
    requires StepSpec(m, program).Ok?
    ensures StepAsWritten(m, program).Ok?
    ensures StepAsWritten(m, program).value
            == StepSpec(m, program).value.(pc := Wrapped(StepSpec(m, program).value.pc, Size(Current(m, program))))
  {
  }

  /** A NOP at address 0 should end the step at 2; as written it ends at 4. */
  lemma NopStepAsWrittenSkips(program: seq<Op>, m: Machine)
    requires |program| == SLOTS && program[0] == Nop && m.pc == 0
    ensures StepSpec(m, program).value.pc == 2
    ensures StepAsWritten(m, program).value.pc == 4
  {
  }

  /**
    A RETURN to address 0x100 should end the step at 0x100; as written it
    ends at the odd address 0x101, the middle of an instruction.
   */
  lemma ReturnStepAsWrittenIsOdd(program: seq<Op>, m: Machine)
    requires |program| == SLOTS && 0 <= m.pc < PC_MAX
    requires program[m.pc / 2] == Return(0) && m.stack.entries == [0x100]
    ensures StepSpec(m, program).value.pc == 0x100
    ensures StepAsWritten(m, program).value.pc == 0x101
  {
  }

  /** The interpreter: a core whose program is run one step at a time. */
  class Interpreter {
    const cpu: Mcu

    /** A fresh core: PC 0, empty stack, WREG, BSR and STATUS at 0, every slot a NOP. */
    constructor ()
      ensures cpu.Valid() && fresh(cpu) && fresh(cpu.pc) && fresh(cpu.data)
      ensures fresh(cpu.program) && fresh(cpu.program.memory) && fresh(cpu.stack) && fresh(cpu.stack.storage)
      ensures cpu.Abs() == Machine(0, map[WREG := 0, BSR := 0, STATUS := 0], EmptyStack)
      ensures forall k :: 0 <= k < SLOTS ==> cpu.program.memory[k] == Nop
    {
      cpu := new Mcu();
    }

    /** Fetches the operation at PC and executes it. */
    method Step() returns (r: Outcome<Fault>)
      requires cpu.Valid()
      modifies cpu.pc, cpu.data, cpu.stack, cpu.stack.storage
      ensures cpu.Valid()
      ensures Matches(r, old(cpu.Abs()), cpu.Abs(), StepSpec(old(cpu.Abs()), cpu.program.memory[..]))
    {
      var fetched := cpu.program.Get(cpu.pc.value);
      r := Execute.Execute(fetched.value, cpu);
    }
  }
}
