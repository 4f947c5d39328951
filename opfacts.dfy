/**
  Properties of the operation classes of minipic/op.py and of the machine
  invariant under every operation.
 */
module OpFacts {
  import opened Bits
  import opened Wrappers
  import opened Register
  import opened DataMem
  import opened CallStack
  import opened Ops
  import opened Semantics

  /** The operand address an operation accesses, for those that have one. */
  function OperandOf(op: Op, m: Machine): Option<int>
  {
    match op
    case Movwf(f, a) => Some(Operand(m, f, a))
    case Btg(f, _, a) => Some(Operand(m, f, a))
    case Btfsc(f, _, a) => Some(Operand(m, f, a))
    case Decfsz(f, _, a) => Some(Operand(m, f, a))
    case Addwf(f, _, a) => Some(Operand(m, f, a))
    case Addwfc(f, _, a) => Some(Operand(m, f, a))
    case Andwf(f, _, a) => Some(Operand(m, f, a))
    case Clrf(f, a) => Some(Operand(m, f, a))
    case Comf(f, _, a) => Some(Operand(m, f, a))
    case Cpfseq(f, a) => Some(Operand(m, f, a))
    case Cpfsgt(f, a) => Some(Operand(m, f, a))
    case Cpfslt(f, a) => Some(Operand(m, f, a))
    case _ => None
  }

  /**
    An operation faults exactly when it has an operand whose address lies
    outside the data space; every other register it touches is a fixed SFR.
   */
  lemma FaultIffOperandOutside(op: Op, m: Machine)
    ensures ExecSpec(op, m).Err? <==> OperandOf(op, m).Some? && !InSpace(OperandOf(op, m).value)
  {
  }

  /** Fast-access operands (a = 0) never fault, and neither does an operation without an operand. */
  lemma FastAccessNeverFaults(op: Op, m: Machine)
    requires OperandOf(op, m).Some? ==> op.a == 0
    ensures ExecSpec(op, m).Ok?
  {
    if OperandOf(op, m).Some? {
      FastAccessWindow(op.f, 0, Bsr(m));
    }
    FaultIffOperandOutside(op, m);
  }

  /**
    Every operation keeps the program counter a program address and the
    return stack well formed.
   */
  lemma {:induction false} ExecKeepsInv(op: Op, m: Machine)
    requires Inv(m)
    requires ExecSpec(op, m).Ok?
    ensures Inv(ExecSpec(op, m).value)
  {
    match op
    case Call(n, s) =>
      PushKeepsWellFormed(m.stack, Wrapped(m.pc, 4));
    case Return(s) =>
      PopKeepsWellFormed(m.stack);
    case Nop => StackFreeKeepsInv(op, m);
    case Movlw(_) => StackFreeKeepsInv(op, m);
    case Movwf(_, _) => StackFreeKeepsInv(op, m);
    case Btg(_, _, _) => StackFreeKeepsInv(op, m);
    case Btfsc(_, _, _) => StackFreeKeepsInv(op, m);
    case Decfsz(_, _, _) => StackFreeKeepsInv(op, m);
    case Goto(_) => StackFreeKeepsInv(op, m);
    case _ => ByteOpKeepsInv(op, m);
  }

  /** The operations of minipic/op.py that neither touch the stack nor fault on it keep the invariant. */
  lemma StackFreeKeepsInv(op: Op, m: Machine)
    requires op.Nop? || op.Movlw? || op.Movwf? || op.Btg? || op.Btfsc? || op.Decfsz? || op.Goto?
    requires Inv(m)
    requires ExecSpec(op, m).Ok?
    ensures ExecSpec(op, m).value.stack == m.stack
    ensures Inv(ExecSpec(op, m).value)
  {
  }

  /** The byte-oriented operations of op.py keep the invariant: they change data and advance PC. */
  lemma ByteOpKeepsInv(op: Op, m: Machine)
    requires op.Addwf? || op.Addwfc? || op.Andwf? || op.Clrf? || op.Comf?
             || op.Cpfseq? || op.Cpfsgt? || op.Cpfslt? || op.Addlw?
    requires Inv(m)
    requires ExecSpec(op, m).Ok?
    ensures ExecSpec(op, m).value.stack == m.stack
    ensures Inv(ExecSpec(op, m).value)
  {
  }

  /** MOVLW sets WREG to k, advances PC by 2 and changes nothing else. */
  lemma MovlwLoadsWreg(m: Machine, k: Byte)
    ensures ExecSpec(Movlw(k), m).Ok?
    ensures var r := ExecSpec(Movlw(k), m).value;
      Wreg(r) == k && r.pc == Wrapped(m.pc, 2) && r.stack == m.stack
      && forall x :: x != WREG ==> Peek(r.data, x) == Peek(m.data, x)
  {
  }

  /**
    MOVWF copies WREG into the operand cell (when it is backed), leaves WREG
    unchanged, advances PC by 2 and changes no other cell.
   */
  lemma MovwfCopiesWreg(m: Machine, f: Byte, a: Bit)
    requires InSpace(Operand(m, f, a))
    ensures ExecSpec(Movwf(f, a), m).Ok?
    ensures var r := ExecSpec(Movwf(f, a), m).value;
      (Backed(Operand(m, f, a)) ==> Peek(r.data, Operand(m, f, a)) == Wreg(m))
      && Wreg(r) == Wreg(m) && r.pc == Wrapped(m.pc, 2) && r.stack == m.stack
      && forall x :: x != Operand(m, f, a) ==> Peek(r.data, x) == Peek(m.data, x)
  {
  }

  /**
    BTG inverts bit b of a backed operand, keeps its other seven bits and
    every other cell, and advances PC by 2.
   */
  lemma BtgTogglesOneBit(m: Machine, f: Byte, b: BitIndex, a: Bit)
    requires Backed(Operand(m, f, a))
    ensures ExecSpec(Btg(f, b, a), m).Ok?
    ensures var r := ExecSpec(Btg(f, b, a), m).value;
      var before := Peek(m.data, Operand(m, f, a));
      var after := Peek(r.data, Operand(m, f, a));
      BitOf(after, b) == 1 - BitOf(before, b)
      && (forall j: BitIndex :: j != b ==> BitOf(after, j) == BitOf(before, j))
      && (forall x :: x != Operand(m, f, a) ==> Peek(r.data, x) == Peek(m.data, x))
      && r.pc == Wrapped(m.pc, 2) && r.stack == m.stack
  {
  }

  /**
    BTG as written inverts bit a instead of bit b: BTG 0x00, 3 with a = 0 on a
    zero cell leaves 0x01 where bit 3 (0x08) was meant.
   */
  lemma BtgAsWrittenTogglesWrongBit()
    ensures var m := Machine(0, map[], EmptyStack);
      BtgAsWritten(m, 0, 3, 0) == Ok(Machine(2, map[0 := 0x01], EmptyStack))
      && ExecSpec(Btg(0, 3, 0), m) == Ok(Machine(2, map[0 := 0x08], EmptyStack))
  {
  }

  /**
    BTFSC writes nothing and advances PC by 4 when bit b of the operand is 0,
    by 2 when it is 1.
   */
  lemma BtfscSkipsOnClear(m: Machine, f: Byte, b: BitIndex, a: Bit)
    requires InSpace(Operand(m, f, a))
    ensures ExecSpec(Btfsc(f, b, a), m).Ok?
    ensures var r := ExecSpec(Btfsc(f, b, a), m).value;
      var bit := BitOf(Load(m.data, Operand(m, f, a)).value, b);
      r.data == m.data && r.stack == m.stack
      && (bit == 0 ==> r.pc == Wrapped(m.pc, 4))
      && (bit == 1 ==> r.pc == Wrapped(m.pc, 2))
  {
  }

  /**
    CALL pushes the address of the following instruction, jumps to n << 1,
    keeps the data cells and, when s = 1, saves WREG, STATUS and BSR.
   */
  lemma CallPushesReturnAddress(m: Machine, n: Target, s: Bit)
    requires |m.stack.entries| < SIZE
    ensures var r := ExecSpec(Call(n, s), m).value;
      r.pc == n * 2 && r.pc < PC_MAX && r.data == m.data
      && r.stack.entries == m.stack.entries + [Wrapped(m.pc, 4)]
      && (s == 1 ==> r.stack.ws == Wreg(m) && r.stack.statuss == StatusOf(m) && r.stack.bsrs == Bsr(m))
      && (s == 0 ==> r.stack.ws == m.stack.ws && r.stack.statuss == m.stack.statuss && r.stack.bsrs == m.stack.bsrs)
  {
  }

  /**
    A subroutine returns where it was called from: whatever the callee did
    to the data cells and PC, a RETURN that finds the stack CALL left behind
    resumes at the instruction after the CALL with the caller's stack, and
    with s = 1 on both it restores the caller's WREG, STATUS and BSR.
   */
  lemma {:induction false} CallThenReturn(m: Machine, n: Target, s: Bit, callee: Machine)
    requires |m.stack.entries| < SIZE
    requires callee.stack == ExecSpec(Call(n, s), m).value.stack
    ensures var r := ExecSpec(Return(s), callee).value;
      r.pc == Wrapped(m.pc, 4) && r.stack.entries == m.stack.entries
      && (s == 1 ==> Wreg(r) == Wreg(m) && StatusOf(r) == StatusOf(m) && Bsr(r) == Bsr(m))
  {
    var pushed := PushVal(m.stack, Wrapped(m.pc, 4));
    PushThenPop(m.stack, Wrapped(m.pc, 4));
    assert PopVal(callee.stack).0 == Wrapped(m.pc, 4);
    assert PopVal(callee.stack).1.entries == m.stack.entries;
  }

  /** RETURN on an empty stack resumes at address 0. */
  lemma ReturnOnEmptyStack(m: Machine, s: Bit)
    requires m.stack.entries == []
    ensures ExecSpec(Return(s), m).value.pc == 0
  {
  }

  /**
    DECFSZ stores the operand minus one (modulo 256) in the steered
    destination and advances PC by 4 exactly when that result is 0.
   */
  lemma DecfszSkipsOnZero(m: Machine, f: Byte, d: Bit, a: Bit)
    requires InSpace(Operand(m, f, a))
    ensures ExecSpec(Decfsz(f, d, a), m).Ok?
    ensures var r := ExecSpec(Decfsz(f, d, a), m).value;
      var src := Load(m.data, Operand(m, f, a)).value;
      var dest := Steer(Operand(m, f, a), d);
      (Backed(dest) ==> Peek(r.data, dest) as int == (src as int - 1) % 0x100)
      && (forall x :: x != dest ==> Peek(r.data, x) == Peek(m.data, x))
      && (src == 1 ==> r.pc == Wrapped(m.pc, 4))
      && (src != 1 ==> r.pc == Wrapped(m.pc, 2))
      && r.stack == m.stack
  {
  }

  /**
    DECFSZ as written fails on a zero operand, where the wrapping decrement
    stores 0xFF and does not skip.
   */
  lemma DecfszAsWrittenFailsOnZero()
    ensures var m := Machine(0, map[], EmptyStack);
      DecfszAsWritten(m, 0, 1, 0) == None
      && ExecSpec(Decfsz(0, 1, 0), m) == Ok(Machine(2, map[0 := 0xFF], EmptyStack))
  {
  }

  /** As written and corrected agree on every operand other than 0. */
  lemma DecfszAsWrittenAgreesAboveZero(m: Machine, f: Byte, d: Bit, a: Bit)
    requires Load(m.data, Operand(m, f, a)) != Ok(0)
    ensures DecfszAsWritten(m, f, d, a) == Some(ExecSpec(Decfsz(f, d, a), m))
  {
    var src := Load(m.data, Operand(m, f, a));
    if src.Ok? {
      DecrementAgrees(src.value);
    }
  }

  lemma DecrementAgrees(v: Byte)
    requires v != 0
    ensures 0 <= v as int - 1 <= 0xFF
    ensures (v as int - 1 == 0) == (v - 1 == 0)
  {
  }

  /** GOTO jumps to k << 1 and changes no cell and no stack entry. */
  lemma GotoJumps(m: Machine, k: Target)
    ensures ExecSpec(Goto(k), m) == Ok(m.(pc := k * 2))
    ensures k * 2 < PC_MAX
  {
  }
}
