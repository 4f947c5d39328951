/**
  The meaning of each operation as a function of the machine state: the data
  cells, the program counter and the return stack. Program memory is not part
  of this state because no operation writes it.

  Operations of minipic/op.py advance the program counter themselves; the
  byte-oriented functions of op.py only add the skip, and `ExecSpec` adds their
  size of 2, so that `execute` alone owns the program counter.
 */
module Semantics {
  import opened Bits
  import opened Wrappers
  import opened Register
  import opened DataMem
  import opened CallStack
  import opened Ops
  import opened Alu

  datatype Machine = Machine(pc: int, data: Cells, stack: StackVal)

  /** The program counter is a program address and the stack is well formed. */
  predicate Inv(m: Machine)
  {
    0 <= m.pc < PC_MAX && WellFormed(m.stack)
  }

  function Wreg(m: Machine): Byte { Peek(m.data, WREG) }
  function Bsr(m: Machine): Byte { Peek(m.data, BSR) }
  function StatusOf(m: Machine): Byte { Peek(m.data, STATUS) }

  /**
    The operand address of `_operand_reg` (minipic/op.py:3-8): with a = 1 the
    bank select register supplies the high byte; with a = 0 the access bank
    maps f below 0x80 to itself and f from 0x80 to the SFR page 0xF80-0xFFF.
   */
  function Resolve(f: Byte, a: Bit, bsr: Byte): (addr: int)
    ensures a == 1 ==> addr / 0x100 == bsr as int && addr % 0x100 == f as int
    ensures a == 0 ==> addr % 0x100 == f as int && Backed(addr)
  {
    if a == 1 then bsr as int * 0x100 + f as int
    else if f < 0x80 then f as int
    else 0xF00 + f as int
  }

  /** The address as the source forms it, with shifts and bitwise or on 16 bits. */
  function ResolveBitwise(f: Byte, a: Bit, bsr: Byte): bv16
  {
    if a == 1 then (bsr as bv16 << 8) | f as bv16
    else if f < 0x80 then f as bv16
    else 0xF00 | f as bv16
  }

  /**
    The arithmetic address is the bitwise one the source computes: its high
    byte is that of the 16-bit value, and so is its low byte.
   */
  lemma ResolveIsBitwise(f: Byte, a: Bit, bsr: Byte)
    ensures var x := ResolveBitwise(f, a, bsr);
      Resolve(f, a, bsr) == ((x >> 8) as Byte) as int * 0x100 + ((x & 0xFF) as Byte) as int
  {
    ResolveBitwiseHalves(f, a, bsr);
  }

  lemma ResolveBitwiseHalves(f: Byte, a: Bit, bsr: Byte)
    ensures var x := ResolveBitwise(f, a, bsr);
      (x & 0xFF) as Byte == f
      && (x >> 8) as Byte == if a == 1 then bsr else if f < 0x80 then 0 else 0x0F
  {
  }

  /** Fast-access addressing ignores BSR and lands in [0, 0x7F] or [0xF80, 0xFFF]. */
  lemma FastAccessWindow(f: Byte, bsr1: Byte, bsr2: Byte)
    ensures Resolve(f, 0, bsr1) == Resolve(f, 0, bsr2)
    ensures 0 <= Resolve(f, 0, bsr1) < 0x80 || 0xF80 <= Resolve(f, 0, bsr1) < 0x1000
    ensures Backed(Resolve(f, 0, bsr1))
  {
  }

  /** A banked address is in the data space exactly when BSR is below 0x10. */
  lemma BankedInSpaceIffLowBank(f: Byte, bsr: Byte)
    ensures InSpace(Resolve(f, 1, bsr)) <==> bsr < 0x10
  {
  }

  function Operand(m: Machine, f: Byte, a: Bit): int
  {
    Resolve(f, a, Bsr(m))
  }

  /** The destination of `_result_reg` (minipic/op.py:10-11): WREG for d = 0, the operand for d = 1. */
  function Steer(operand: int, d: Bit): (dest: int)
    ensures d == 0 ==> dest == WREG
    ensures d == 1 ==> dest == operand
  {
    if d == 0 then WREG else operand
  }

  function Advance(m: Machine, delta: int): Machine
  {
    m.(pc := Wrapped(m.pc, delta))
  }

  /** Adds delta to the program counter of a successful result. */
  function ThenAdvance(r: Result<Machine, Fault>, delta: int): Result<Machine, Fault>
  {
    if r.Ok? then Ok(Advance(r.value, delta)) else r
  }

  /**
    An imperative run that reports r and leaves state `after` behaves as
    `spec` says: on success it ends in the specified state, and on a fault it
    reports that fault and leaves the state as it was.
   */
  predicate Matches(r: Outcome<Fault>, before: Machine, after: Machine, spec: Result<Machine, Fault>)
  {
    match spec
    case Ok(m) => r.Pass? && after == m
    case Err(e) => r == Fail(e) && after == before
  }

  /** The cells with STATUS replaced. */
  function WithStatus(data: Cells, s: Byte): Cells
  {
    data[STATUS := s]
  }

  /** A second STATUS write replaces the first. */
  lemma StatusOverwrite(data: Cells, s1: Byte, s2: Byte)
    ensures WithStatus(WithStatus(data, s1), s2) == WithStatus(data, s2)
  {
  }

  // ---------------------------------------------------------------------
  // The byte-oriented functions of op.py

  /**
    `_add` (op.py:6-30): adds value to the cell at addr, stores the low byte
    there and sets all five flags from the addition.
   */
  function AddSpec(m: Machine, addr: int, value: Byte): (r: Result<Machine, Fault>)
    ensures r.Ok? ==> r.value.pc == m.pc && r.value.stack == m.stack
  {
    match Load(m.data, addr)
    case Err(e) => Err(e)
    case Ok(arg1) =>
      var d1 := Put(m.data, addr, arg1 + value);
      Ok(m.(data := WithStatus(d1, Affect(Peek(d1, STATUS), ALL_FLAGS, AddFlags(arg1, value)))))
  }

  /** `_and` (op.py:32-47): the conjunction stored at addr, N and Z set from it. */
  function AndSpec(m: Machine, addr: int, value: Byte): (r: Result<Machine, Fault>)
    ensures r.Ok? ==> r.value.pc == m.pc && r.value.stack == m.stack
  {
    match Load(m.data, addr)
    case Err(e) => Err(e)
    case Ok(arg1) =>
      var d1 := Put(m.data, addr, arg1 & value);
      Ok(m.(data := WithStatus(d1, Affect(Peek(d1, STATUS), N | Z, LogicFlags(arg1 & value)))))
  }

  /** `addwf` (op.py:55-69). */
  function AddwfSpec(m: Machine, f: Byte, d: Bit, a: Bit): (r: Result<Machine, Fault>)
    ensures r.Ok? ==> r.value.pc == m.pc && r.value.stack == m.stack
  {
    var arg := Operand(m, f, a);
    if d == 1 then AddSpec(m, arg, Wreg(m))
    else match Load(m.data, arg)
      case Err(e) => Err(e)
      case Ok(v) => AddSpec(m, WREG, v)
  }

  /**
    `addwfc` with its intended meaning: one addition of WREG, f and the carry
    flag, whose flags are those of the whole three-operand sum, as in the
    commented-out `addwfc` at minipic/op.py:228-259.
   */
  function AddwfcSpec(m: Machine, f: Byte, d: Bit, a: Bit): (r: Result<Machine, Fault>)
    ensures r.Ok? ==> r.value.pc == m.pc && r.value.stack == m.stack
  {
    var arg := Operand(m, f, a);
    var cin: Bit := StatusOf(m) & C;
    match Load(m.data, arg)
    case Err(e) => Err(e)
    case Ok(v) => Ok(AddWithCarry(m, Steer(arg, d), Wreg(m), v, cin))
  }

  /** Stores w + v + cin at dest and sets the five flags of that sum. */
  function AddWithCarry(m: Machine, dest: int, w: Byte, v: Byte, cin: Bit): (r: Machine)
    requires InSpace(dest)
    ensures r.pc == m.pc && r.stack == m.stack
    ensures Backed(dest) && dest != STATUS ==> Peek(r.data, dest) == w + v + cin
  {
    var d1 := Put(m.data, dest, w + v + cin);
    m.(data := WithStatus(d1, Affect(Peek(d1, STATUS), ALL_FLAGS, AddcFlags(w, v, cin))))
  }

  /**
    `addwfc` as written (op.py:74-90): the addition of `addwf`, then a second
    `_add` of the carry flag read before the first, so the final flags are
    those of the second addition alone.
   */
  function AddwfcAsWritten(m: Machine, f: Byte, d: Bit, a: Bit): (r: Result<Machine, Fault>)
    ensures r.Ok? ==> r.value.pc == m.pc && r.value.stack == m.stack
  {
    var arg := Operand(m, f, a);
    var cin: Byte := StatusOf(m) & C;
    match AddwfSpec(m, f, d, a)
    case Err(e) => Err(e)
    case Ok(m1) => AddSpec(m1, Steer(arg, d), cin)
  }

  /** `andwf` (op.py:95-109). */
  function AndwfSpec(m: Machine, f: Byte, d: Bit, a: Bit): (r: Result<Machine, Fault>)
    ensures r.Ok? ==> r.value.pc == m.pc && r.value.stack == m.stack
  {
    var arg := Operand(m, f, a);
    if d == 1 then AndSpec(m, arg, Wreg(m))
    else match Load(m.data, arg)
      case Err(e) => Err(e)
      case Ok(v) => AndSpec(m, WREG, v)
  }

  /** `clrf` (op.py:114-126): clears the cell, then sets Z and touches no other flag. */
  function ClrfSpec(m: Machine, f: Byte, a: Bit): (r: Result<Machine, Fault>)
    ensures r.Ok? ==> r.value.pc == m.pc && r.value.stack == m.stack
  {
    match Store(m.data, Operand(m, f, a), 0)
    case Err(e) => Err(e)
    case Ok(d1) => Ok(m.(data := WithStatus(d1, SetBits(Peek(d1, STATUS), Z))))
  }

  /** `comf` (op.py:131-153): N and Z are updated from ~f first, then ~f is stored. */
  function ComfSpec(m: Machine, f: Byte, d: Bit, a: Bit): (r: Result<Machine, Fault>)
    ensures r.Ok? ==> r.value.pc == m.pc && r.value.stack == m.stack
  {
    var arg := Operand(m, f, a);
    match Load(m.data, arg)
    case Err(e) => Err(e)
    case Ok(v) =>
      var d1 := WithStatus(m.data, Affect(StatusOf(m), N | Z, LogicFlags(!v)));
      Ok(m.(data := Put(d1, Steer(arg, d), !v)))
  }

  /** The compare-and-skip functions (op.py:158-203): add 2 to PC when `skip(f, W)`. */
  function CompareSpec(m: Machine, f: Byte, a: Bit, op: Op): (r: Result<Machine, Fault>)
    requires op.Cpfseq? || op.Cpfsgt? || op.Cpfslt?
    ensures r.Ok? ==> r.value.data == m.data && r.value.stack == m.stack
  {
    match Load(m.data, Operand(m, f, a))
    case Err(e) => Err(e)
    case Ok(v) =>
      var skip := match op
        case Cpfseq(_, _) => v == Wreg(m)
        case Cpfsgt(_, _) => v < Wreg(m)
        case Cpfslt(_, _) => v > Wreg(m);
      Ok(if skip then Advance(m, 2) else m)
  }

  // ---------------------------------------------------------------------
  // The operation classes of minipic/op.py

  /** BTG with its intended meaning: bit b of the operand is inverted. */
  function BtgSpec(m: Machine, f: Byte, b: BitIndex, a: Bit): (r: Result<Machine, Fault>)
    ensures r.Err? <==> !InSpace(Operand(m, f, a))
    ensures r.Ok? ==> r.value.pc == Wrapped(m.pc, 2) && r.value.stack == m.stack
  {
    var arg := Operand(m, f, a);
    match Load(m.data, arg)
    case Err(e) => Err(e)
    case Ok(v) => Ok(Advance(m.(data := Put(m.data, arg, Toggled(v, b))), 2))
  }

  /** BTG as written (minipic/op.py:50-53): the bit inverted is the one indexed by the a field. */
  function BtgAsWritten(m: Machine, f: Byte, b: BitIndex, a: Bit): (r: Result<Machine, Fault>)
    ensures r.Err? <==> !InSpace(Operand(m, f, a))
    ensures r.Ok? ==> r.value.pc == Wrapped(m.pc, 2) && r.value.stack == m.stack
  {
    var arg := Operand(m, f, a);
    match Load(m.data, arg)
    case Err(e) => Err(e)
    case Ok(v) => Ok(Advance(m.(data := Put(m.data, arg, Toggled(v, a))), 2))
  }

  /**
    DECFSZ with its intended meaning: the decrement wraps within the byte, as
    the commented-out `decfsz` at minipic/op.py:404-420 stores `result & 0xff`.
   */
  function DecfszSpec(m: Machine, f: Byte, d: Bit, a: Bit): (r: Result<Machine, Fault>)
    ensures r.Err? <==> !InSpace(Operand(m, f, a))
    ensures r.Ok? ==> r.value.stack == m.stack && (r.value.pc == Wrapped(m.pc, 2) || r.value.pc == Wrapped(m.pc, 4))
  {
    var arg := Operand(m, f, a);
    match Load(m.data, arg)
    case Err(e) => Err(e)
    case Ok(v) =>
      var result := v - 1;
      Ok(Advance(m.(data := Put(m.data, Steer(arg, d), result)), if result == 0 then 4 else 2))
  }

  /**
    DECFSZ as written (minipic/op.py:87-94): src - 1 is handed to `put`, whose
    assertion fails for -1; None stands for that failure. Otherwise src - 1 is
    a byte and is stored as it is.
   */
  function DecfszAsWritten(m: Machine, f: Byte, d: Bit, a: Bit): (r: Option<Result<Machine, Fault>>)
    ensures r.None? <==> Load(m.data, Operand(m, f, a)) == Ok(0)
  {
    var arg := Operand(m, f, a);
    match Load(m.data, arg)
    case Err(e) => Some(Err(e))
    case Ok(v) =>
      var result := v as int - 1;
      if !(0 <= result <= 0xFF) then None
      else Some(Ok(Advance(m.(data := Put(m.data, Steer(arg, d), v - 1)), if result == 0 then 4 else 2)))
  }

  /** CALL n, s: the return address is pushed, with WREG, STATUS and BSR saved when s = 1. */
  function CallSpec(m: Machine, n: Target, s: Bit): (r: Machine)
    ensures r.pc == n * 2 && r.data == m.data
    ensures s == 1 ==> r.stack.ws == Wreg(m) && r.stack.statuss == StatusOf(m) && r.stack.bsrs == Bsr(m)
  {
    var pushed := PushVal(m.stack, Wrapped(m.pc, 4));
    var stack := if s == 1 then pushed.(ws := Wreg(m), statuss := StatusOf(m), bsrs := Bsr(m)) else pushed;
    m.(pc := n * 2, stack := stack)
  }

  /** RETURN s: the popped address is the new PC, with WREG, STATUS and BSR restored when s = 1. */
  function ReturnSpec(m: Machine, s: Bit): (r: Machine)
    ensures s == 0 ==> r.data == m.data
    ensures s == 1 ==> Wreg(r) == m.stack.ws && StatusOf(r) == m.stack.statuss && Bsr(r) == m.stack.bsrs
  {
    var (v, popped) := PopVal(m.stack);
    var data := if s == 1
      then m.data[WREG := popped.ws][STATUS := popped.statuss][BSR := popped.bsrs]
      else m.data;
    Machine(v, data, popped)
  }

  /** The effect of executing one operation, program counter included. */
  function ExecSpec(op: Op, m: Machine): (r: Result<Machine, Fault>)
    ensures r.Ok? && !op.Call? && !op.Return? ==> r.value.stack == m.stack
  {
    match op
    case Nop => Ok(Advance(m, 2))
    case Movlw(k) => Ok(Advance(m.(data := Put(m.data, WREG, k)), 2))
    case Movwf(f, a) =>
      (match Store(m.data, Operand(m, f, a), Wreg(m))
       case Err(e) => Err(e)
       case Ok(d1) => Ok(Advance(m.(data := d1), 2)))
    case Btg(f, b, a) => BtgSpec(m, f, b, a)
    case Btfsc(f, b, a) =>
      (match Load(m.data, Operand(m, f, a))
       case Err(e) => Err(e)
       case Ok(v) => Ok(Advance(m, if BitOf(v, b) == 0 then 4 else 2)))
    case Call(n, s) => Ok(CallSpec(m, n, s))
    case Decfsz(f, d, a) => DecfszSpec(m, f, d, a)
    case Goto(k) => Ok(m.(pc := k * 2))
    case Return(s) => Ok(ReturnSpec(m, s))
    case Addwf(f, d, a) => ThenAdvance(AddwfSpec(m, f, d, a), 2)
    case Addwfc(f, d, a) => ThenAdvance(AddwfcSpec(m, f, d, a), 2)
    case Andwf(f, d, a) => ThenAdvance(AndwfSpec(m, f, d, a), 2)
    case Clrf(f, a) => ThenAdvance(ClrfSpec(m, f, a), 2)
    case Comf(f, d, a) => ThenAdvance(ComfSpec(m, f, d, a), 2)
    case Cpfseq(f, a) => ThenAdvance(CompareSpec(m, f, a, op), 2)
    case Cpfsgt(f, a) => ThenAdvance(CompareSpec(m, f, a, op), 2)
    case Cpfslt(f, a) => ThenAdvance(CompareSpec(m, f, a, op), 2)
    case Addlw(k) => ThenAdvance(AddSpec(m, WREG, k), 2)
  }
}
