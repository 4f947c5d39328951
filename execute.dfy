/**
  The `execute` methods of the operation classes of minipic/op.py, and the
  byte-oriented functions of op.py followed by the advance of PC that the
  core's `execute` owns. Each is proved to behave as ExecSpec says: on
  success the core ends in the specified state, on a fault it reports the
  fault and the state is as it was.
 */
module Execute {
  import opened Bits
  import opened Wrappers
  import opened Register
  import opened DataMem
  import opened CallStack
  import opened Ops
  import opened Semantics
  import opened Core
  import ByteOps

  /** NOP (minipic/op.py:20-23): only PC advances, by 2. */
  method ExecNop(cpu: Mcu) returns (r: Outcome<Fault>)
    requires cpu.Valid()
    modifies cpu.pc
    ensures cpu.Valid()
    ensures Matches(r, old(cpu.Abs()), cpu.Abs(), ExecSpec(Nop, old(cpu.Abs())))
  {
    cpu.IncPc(2);
    r := Pass;
  }

  /** MOVLW (minipic/op.py:25-31): WREG := k, then PC advances by 2. */
  method ExecMovlw(cpu: Mcu, k: Byte) returns (r: Outcome<Fault>)
    requires cpu.Valid()
    modifies cpu.pc, cpu.data
    ensures cpu.Valid()
    ensures Matches(r, old(cpu.Abs()), cpu.Abs(), ExecSpec(Movlw(k), old(cpu.Abs())))
  {
    var ok := cpu.data.Write(WREG, k);
    cpu.IncPc(2);
    r := Pass;
  }

  /** MOVWF (minipic/op.py:33-42): the operand cell := WREG, then PC advances by 2. */
  method ExecMovwf(cpu: Mcu, f: Byte, a: Bit) returns (r: Outcome<Fault>)
    requires cpu.Valid()
    modifies cpu.pc, cpu.data
    ensures cpu.Valid()
    ensures Matches(r, old(cpu.Abs()), cpu.Abs(), ExecSpec(Movwf(f, a), old(cpu.Abs())))
  {
    ghost var m0 := cpu.Abs();
    var w := cpu.Wreg();
    var dest := Resolve(f, a, cpu.Bsr());
    assert dest == Operand(m0, f, a);
    r := cpu.data.Write(dest, w);
    if r.Fail? {
      return;
    }
    cpu.IncPc(2);
  }

  /**
    BTG with its intended meaning (minipic/op.py:44-53): bit b of the operand
    is inverted, then PC advances by 2.
   */
  method ExecBtg(cpu: Mcu, f: Byte, b: BitIndex, a: Bit) returns (r: Outcome<Fault>)
    requires cpu.Valid()
    modifies cpu.pc, cpu.data
    ensures cpu.Valid()
    ensures Matches(r, old(cpu.Abs()), cpu.Abs(), ExecSpec(Btg(f, b, a), old(cpu.Abs())))
  {
    ghost var m0 := cpu.Abs();
    var addr := Resolve(f, a, cpu.Bsr());
    assert addr == Operand(m0, f, a);
    var read := cpu.data.Read(addr);
    if read.Err? {
      return Fail(read.error);
    }
    var ok := cpu.data.Write(addr, Toggled(read.value, b));
    cpu.IncPc(2);
    r := Pass;
  }

  /**
    BTFSC (minipic/op.py:55-65): when bit b of the operand is 0 PC first
    advances by 2 to skip, then by 2 more; no cell is written.
   */
  method ExecBtfsc(cpu: Mcu, f: Byte, b: BitIndex, a: Bit) returns (r: Outcome<Fault>)
    requires cpu.Valid()
    modifies cpu.pc
    ensures cpu.Valid()
    ensures Matches(r, old(cpu.Abs()), cpu.Abs(), ExecSpec(Btfsc(f, b, a), old(cpu.Abs())))
  {
    ghost var m0 := cpu.Abs();
    var addr := Resolve(f, a, cpu.Bsr());
    assert addr == Operand(m0, f, a);
    var read := cpu.data.Read(addr);
    if read.Err? {
      return Fail(read.error);
    }
    SkipOrStep(cpu, BitOf(read.value, b) == 0);
    r := Pass;
  }

  /**
    The tail of the skip operations: PC advances by 2 more when the next
    instruction is skipped, then by the operation's own size of 2.
   */
  method SkipOrStep(cpu: Mcu, skip: bool)
    modifies cpu.pc
    ensures cpu.pc.value == Wrapped(old(cpu.pc.value), if skip then 4 else 2)
  {
    if skip {
      cpu.IncPc(2);
      WrappedTwice(old(cpu.pc.value), 2, 2);
    }
    cpu.IncPc(2);
  }

  /**
    CALL (minipic/op.py:67-79): the address of the following instruction is
    pushed, PC := n << 1, and with s = 1 WREG, STATUS and BSR are copied into
    the shadow registers of the stack.
   */
  method ExecCall(cpu: Mcu, n: Target, s: Bit) returns (r: Outcome<Fault>)
    requires cpu.Valid()
    modifies cpu.pc, cpu.stack, cpu.stack.storage
    ensures cpu.Valid()
    ensures Matches(r, old(cpu.Abs()), cpu.Abs(), ExecSpec(Call(n, s), old(cpu.Abs())))
  {
    cpu.stack.Push(Wrapped(cpu.pc.value, 4));
    cpu.pc.value := n * 2;
    if s == 1 {
      cpu.stack.ws := cpu.Wreg();
      cpu.stack.statuss := cpu.Status();
      cpu.stack.bsrs := cpu.Bsr();
    }
    r := Pass;
  }

  /**
    DECFSZ with its intended meaning (minipic/op.py:81-94): the operand less
    one, wrapped to a byte, is stored in the steered destination; PC advances
    by 2 more when that result is 0.
   */
  method ExecDecfsz(cpu: Mcu, f: Byte, d: Bit, a: Bit) returns (r: Outcome<Fault>)
    requires cpu.Valid()
    modifies cpu.pc, cpu.data
    ensures cpu.Valid()
    ensures Matches(r, old(cpu.Abs()), cpu.Abs(), ExecSpec(Decfsz(f, d, a), old(cpu.Abs())))
  {
    ghost var m0 := cpu.Abs();
    var src := Resolve(f, a, cpu.Bsr());
    assert src == Operand(m0, f, a);
    var read := cpu.data.Read(src);
    if read.Err? {
      return Fail(read.error);
    }
    var dest := Steer(src, d);
    var result := read.value - 1;
    var ok := cpu.data.Write(dest, result);
    SkipOrStep(cpu, result == 0);
    r := Pass;
  }

  /** GOTO (minipic/op.py:96-102): PC := k << 1. */
  method ExecGoto(cpu: Mcu, k: Target) returns (r: Outcome<Fault>)
    requires cpu.Valid()
    modifies cpu.pc
    ensures cpu.Valid()
    ensures Matches(r, old(cpu.Abs()), cpu.Abs(), ExecSpec(Goto(k), old(cpu.Abs())))
  {
    cpu.pc.value := k * 2;
    r := Pass;
  }

  /**
    RETURN (minipic/op.py:104-114): PC := the popped address, and with s = 1
    WREG, STATUS and BSR are restored from the shadow registers.
   */
  method ExecReturn(cpu: Mcu, s: Bit) returns (r: Outcome<Fault>)
    requires cpu.Valid()
    modifies cpu.pc, cpu.data, cpu.stack
    ensures cpu.Valid()
    ensures Matches(r, old(cpu.Abs()), cpu.Abs(), ExecSpec(Return(s), old(cpu.Abs())))
  {
    var v := cpu.stack.Pop();
    cpu.pc.value := v;
    if s == 1 {
      var ok := cpu.data.Write(WREG, cpu.stack.ws);
      ok := cpu.data.Write(STATUS, cpu.stack.statuss);
      ok := cpu.data.Write(BSR, cpu.stack.bsrs);
    }
    r := Pass;
  }

  /**
    The tail of a byte-oriented operation of op.py: once the operation has
    succeeded, PC advances by 2; a failed one leaves PC where it stopped.
   */
  method AdvanceOnPass(cpu: Mcu, r: Outcome<Fault>, ghost before: Machine, ghost spec: Result<Machine, Fault>)
    requires cpu.Valid() && Matches(r, before, cpu.Abs(), spec)
    modifies cpu.pc
    ensures cpu.Valid()
    ensures Matches(r, before, cpu.Abs(), ThenAdvance(spec, 2))
  {
    if r.Pass? {
      cpu.IncPc(2);
    }
  }

  /**
    One operation executed on the core: the dispatch on the operation record
    that the classes of minipic/op.py and the functions of op.py perform.
   */
  method Execute(op: Op, cpu: Mcu) returns (r: Outcome<Fault>)
    requires cpu.Valid()
    modifies cpu.pc, cpu.data, cpu.stack, cpu.stack.storage
    ensures cpu.Valid()
    ensures Matches(r, old(cpu.Abs()), cpu.Abs(), ExecSpec(op, old(cpu.Abs())))
  {
    ghost var m0 := cpu.Abs();
    match op {
      case Nop => r := ExecNop(cpu);
      case Movlw(k) => r := ExecMovlw(cpu, k);
      case Movwf(f, a) => r := ExecMovwf(cpu, f, a);
      case Btg(f, b, a) => r := ExecBtg(cpu, f, b, a);
      case Btfsc(f, b, a) => r := ExecBtfsc(cpu, f, b, a);
      case Call(n, s) => r := ExecCall(cpu, n, s);
      case Decfsz(f, d, a) => r := ExecDecfsz(cpu, f, d, a);
      case Goto(k) => r := ExecGoto(cpu, k);
      case Return(s) => r := ExecReturn(cpu, s);
      case Addwf(_, _, _) => r := ExecArith(op, cpu);
      case Addwfc(_, _, _) => r := ExecArith(op, cpu);
      case Andwf(_, _, _) => r := ExecArith(op, cpu);
      case Addlw(_) => r := ExecArith(op, cpu);
      case Clrf(_, _) => r := ExecFileOp(op, cpu);
      case Comf(_, _, _) => r := ExecFileOp(op, cpu);
      case Cpfseq(_, _) => r := ExecCompare(op, cpu);
      case Cpfsgt(_, _) => r := ExecCompare(op, cpu);
      case Cpfslt(_, _) => r := ExecCompare(op, cpu);
    }
  }

  /** The arithmetic and logic operations with W: ADDWF, ADDWFC, ANDWF and ADDLW. */
  method ExecArith(op: Op, cpu: Mcu) returns (r: Outcome<Fault>)
    requires cpu.Valid() && (op.Addwf? || op.Addwfc? || op.Andwf? || op.Addlw?)
    modifies cpu.pc, cpu.data
    ensures cpu.Valid()
    ensures Matches(r, old(cpu.Abs()), cpu.Abs(), ExecSpec(op, old(cpu.Abs())))
  {
    ghost var m0 := cpu.Abs();
    match op {
      case Addwf(f, d, a) =>
        r := ByteOps.Addwf(cpu, f, d, a);
        assert ExecSpec(op, m0) == ThenAdvance(AddwfSpec(m0, f, d, a), 2);
        AdvanceOnPass(cpu, r, m0, AddwfSpec(m0, f, d, a));
      case Addwfc(f, d, a) =>
        r := ByteOps.Addwfc(cpu, f, d, a);
        assert ExecSpec(op, m0) == ThenAdvance(AddwfcSpec(m0, f, d, a), 2);
        AdvanceOnPass(cpu, r, m0, AddwfcSpec(m0, f, d, a));
      case Andwf(f, d, a) =>
        r := ByteOps.Andwf(cpu, f, d, a);
        assert ExecSpec(op, m0) == ThenAdvance(AndwfSpec(m0, f, d, a), 2);
        AdvanceOnPass(cpu, r, m0, AndwfSpec(m0, f, d, a));
      case Addlw(k) =>
        r := ByteOps.Addlw(cpu, k);
        assert ExecSpec(op, m0) == ThenAdvance(AddSpec(m0, WREG, k), 2);
        AdvanceOnPass(cpu, r, m0, AddSpec(m0, WREG, k));
    }
  }

  /** The operations that clear or complement a file register: CLRF and COMF. */
  method ExecFileOp(op: Op, cpu: Mcu) returns (r: Outcome<Fault>)
    requires cpu.Valid() && (op.Clrf? || op.Comf?)
    modifies cpu.pc, cpu.data
    ensures cpu.Valid()
    ensures Matches(r, old(cpu.Abs()), cpu.Abs(), ExecSpec(op, old(cpu.Abs())))
  {
    ghost var m0 := cpu.Abs();
    match op {
      case Clrf(f, a) =>
        r := ByteOps.Clrf(cpu, f, a);
        assert ExecSpec(op, m0) == ThenAdvance(ClrfSpec(m0, f, a), 2);
        AdvanceOnPass(cpu, r, m0, ClrfSpec(m0, f, a));
      case Comf(f, d, a) =>
        r := ByteOps.Comf(cpu, f, d, a);
        assert ExecSpec(op, m0) == ThenAdvance(ComfSpec(m0, f, d, a), 2);
        AdvanceOnPass(cpu, r, m0, ComfSpec(m0, f, d, a));
    }
  }

  /** The compare-and-skip operations: CPFSEQ, CPFSGT and CPFSLT. */
  method ExecCompare(op: Op, cpu: Mcu) returns (r: Outcome<Fault>)
    requires cpu.Valid() && (op.Cpfseq? || op.Cpfsgt? || op.Cpfslt?)
    modifies cpu.pc
    ensures cpu.Valid()
    ensures Matches(r, old(cpu.Abs()), cpu.Abs(), ExecSpec(op, old(cpu.Abs())))
  {
    ghost var m0 := cpu.Abs();
    match op {
      case Cpfseq(f, a) =>
        r := ByteOps.Cpfseq(cpu, f, a);
        assert ExecSpec(op, m0) == ThenAdvance(CompareSpec(m0, f, a, op), 2);
        AdvanceOnPass(cpu, r, m0, CompareSpec(m0, f, a, op));
      case Cpfsgt(f, a) =>
        r := ByteOps.Cpfsgt(cpu, f, a);
        assert ExecSpec(op, m0) == ThenAdvance(CompareSpec(m0, f, a, op), 2);
        AdvanceOnPass(cpu, r, m0, CompareSpec(m0, f, a, op));
      case Cpfslt(f, a) =>
        r := ByteOps.Cpfslt(cpu, f, a);
        assert ExecSpec(op, m0) == ThenAdvance(CompareSpec(m0, f, a, op), 2);
        AdvanceOnPass(cpu, r, m0, CompareSpec(m0, f, a, op));
    }
  }
}
