/**
  Properties of the byte-oriented functions of op.py: what each writes, which
  flags it sets and which it leaves, and the values its unit tests pin.
 */
module ByteFacts {
  import opened Bits
  import opened Wrappers
  import opened Register
  import opened DataMem
  import opened CallStack
  import opened Ops
  import opened Alu
  import opened Semantics

  /** A fresh core: PC 0, no cell written, empty stack. */
  const Fresh := Machine(0, map[], EmptyStack)

  /**
    `_add` on a backed cell other than STATUS stores the low byte of the sum
    there, sets the five flags to those of the addition, keeps the top three
    STATUS bits, and changes no other cell, the PC or the stack.
   */
  lemma AddStoresSumAndFlags(m: Machine, addr: int, value: Byte)
    requires Backed(addr) && addr != STATUS
    ensures AddSpec(m, addr, value).Ok?
    ensures var r := AddSpec(m, addr, value).value;
      var arg1 := Peek(m.data, addr);
      Peek(r.data, addr) == arg1 + value
      && StatusOf(r) & ALL_FLAGS == AddFlags(arg1, value)
      && StatusOf(r) & !ALL_FLAGS == StatusOf(m) & !ALL_FLAGS
      && (forall x :: x != addr && x != STATUS ==> Peek(r.data, x) == Peek(m.data, x))
      && r.pc == m.pc && r.stack == m.stack
  {
    var arg1 := Peek(m.data, addr);
    var st := Affect(StatusOf(m), ALL_FLAGS, AddFlags(arg1, value));
    AddResult(m, addr, value);
    AddStatusFlags(StatusOf(m), arg1, value);
    TwoCellsChanged(m.data, addr, arg1 + value, st);
  }

  /**
    `_add` on STATUS itself: the sum is stored there first and the flag
    update then rewrites its five low bits, so STATUS ends as the top three
    bits of the sum above the flags of the addition.
   */
  lemma AddToStatus(m: Machine, value: Byte)
    ensures AddSpec(m, STATUS, value).Ok?
    ensures var r := AddSpec(m, STATUS, value).value;
      var arg1 := StatusOf(m);
      StatusOf(r) == ((arg1 + value) & !ALL_FLAGS) | AddFlags(arg1, value)
      && (forall x :: x != STATUS ==> Peek(r.data, x) == Peek(m.data, x))
      && r.pc == m.pc && r.stack == m.stack
  {
    var arg1 := StatusOf(m);
    assert Load(m.data, STATUS) == Ok(arg1);
    AffectAll(arg1 + value, AddFlags(arg1, value));
  }

  /** Affecting all five flags keeps the top three bits and replaces the rest. */
  lemma AffectAll(s: Byte, flags: Byte)
    requires flags & !ALL_FLAGS == 0
    ensures Affect(s, ALL_FLAGS, flags) == (s & !ALL_FLAGS) | flags
  {
  }

  /** Writing addr and then STATUS leaves every other cell as it was. */
  lemma TwoCellsChanged(mem: Cells, addr: int, v: Byte, st: Byte)
    ensures forall x :: x != addr && x != STATUS ==> Peek(mem[addr := v][STATUS := st], x) == Peek(mem, x)
  {
  }

  /** Affecting all five flags with those of a sum keeps the three top STATUS bits. */
  lemma AddStatusFlags(status: Byte, arg1: Byte, value: Byte)
    ensures var st := Affect(status, ALL_FLAGS, AddFlags(arg1, value));
      st & ALL_FLAGS == AddFlags(arg1, value) && st & !ALL_FLAGS == status & !ALL_FLAGS
  {
  }

  /** The state `_add` leaves on a backed cell other than STATUS, written out. */
  lemma AddResult(m: Machine, addr: int, value: Byte)
    requires Backed(addr) && addr != STATUS
    ensures var arg1 := Peek(m.data, addr);
      AddSpec(m, addr, value)
      == Ok(m.(data := m.data[addr := arg1 + value][STATUS := Affect(StatusOf(m), ALL_FLAGS, AddFlags(arg1, value))]))
  {
    assert Load(m.data, addr) == Ok(Peek(m.data, addr));
  }

  /**
    The unit test of `_add`: from a fresh core, adding 0, 10, 0x0F, 0x70 and
    0x80 to cell 0 gives 0, 10, 25, 0x89, 0x09 with STATUS Z, 0, DC, OV|N and
    C|OV.
   */
  lemma AddSequence()
    ensures var m1 := AddSpec(Fresh, 0, 0).value;
      var m2 := AddSpec(m1, 0, 10).value;
      var m3 := AddSpec(m2, 0, 0x0F).value;
      var m4 := AddSpec(m3, 0, 0x70).value;
      var m5 := AddSpec(m4, 0, 0x80).value;
      Peek(m1.data, 0) == 0 && StatusOf(m1) == Z
      && Peek(m2.data, 0) == 10 && StatusOf(m2) == 0
      && Peek(m3.data, 0) == 25 && StatusOf(m3) == DC
      && Peek(m4.data, 0) == 0x89 && StatusOf(m4) == OV | N
      && Peek(m5.data, 0) == 0x09 && StatusOf(m5) == C | OV
  {
  }

  /**
    `_and` stores the conjunction, sets Z and N from it and leaves C, DC and
    OV as they were.
   */
  lemma AndKeepsArithmeticFlags(m: Machine, addr: int, value: Byte)
    requires Backed(addr) && addr != STATUS
    ensures AndSpec(m, addr, value).Ok?
    ensures var r := AndSpec(m, addr, value).value;
      var result := Peek(m.data, addr) & value;
      Peek(r.data, addr) == result
      && (StatusOf(r) & Z != 0 <==> result == 0)
      && (StatusOf(r) & N != 0 <==> result & 0x80 != 0)
      && StatusOf(r) & !(N | Z) == StatusOf(m) & !(N | Z)
      && (forall x :: x != addr && x != STATUS ==> Peek(r.data, x) == Peek(m.data, x))
  {
    var result := Peek(m.data, addr) & value;
    AndResult(m, addr, value);
    TwoCellsChanged(m.data, addr, result, Affect(StatusOf(m), N | Z, LogicFlags(result)));
  }

  /** The state `_and` leaves on a backed cell other than STATUS, written out. */
  lemma AndResult(m: Machine, addr: int, value: Byte)
    requires Backed(addr) && addr != STATUS
    ensures var result := Peek(m.data, addr) & value;
      AndSpec(m, addr, value)
      == Ok(m.(data := m.data[addr := result][STATUS := Affect(StatusOf(m), N | Z, LogicFlags(result))]))
  {
    assert Load(m.data, addr) == Ok(Peek(m.data, addr));
  }

  /**
    `comf` stores the complement of a backed operand in the steered
    destination, sets Z and N from it and leaves C, DC and OV as they were.
   */
  lemma ComfKeepsArithmeticFlags(m: Machine, f: Byte, d: Bit, a: Bit)
    requires Backed(Operand(m, f, a)) && Steer(Operand(m, f, a), d) != STATUS
    ensures ComfSpec(m, f, d, a).Ok?
    ensures var r := ComfSpec(m, f, d, a).value;
      var result := !Peek(m.data, Operand(m, f, a));
      var dest := Steer(Operand(m, f, a), d);
      Peek(r.data, dest) == result
      && (StatusOf(r) & Z != 0 <==> result == 0)
      && (StatusOf(r) & N != 0 <==> result & 0x80 != 0)
      && StatusOf(r) & !(N | Z) == StatusOf(m) & !(N | Z)
      && (forall x :: x != dest && x != STATUS ==> Peek(r.data, x) == Peek(m.data, x))
  {
  }

  /**
    `addwf` with d = 0 stores W + f in WREG and leaves f; with d = 1 it
    stores f + W in f and leaves WREG.
   */
  lemma AddwfSteersResult(m: Machine, f: Byte, d: Bit, a: Bit)
    requires Backed(Operand(m, f, a))
    requires Operand(m, f, a) != WREG && Operand(m, f, a) != STATUS
    ensures AddwfSpec(m, f, d, a).Ok?
    ensures var r := AddwfSpec(m, f, d, a).value;
      var fv := Peek(m.data, Operand(m, f, a));
      (d == 0 ==> Wreg(r) == Wreg(m) + fv && Peek(r.data, Operand(m, f, a)) == fv)
      && (d == 1 ==> Peek(r.data, Operand(m, f, a)) == fv + Wreg(m) && Wreg(r) == Wreg(m))
      && StatusOf(r) & ALL_FLAGS == AddFlags(Wreg(m), fv)
  {
    if d == 0 {
      AddwfIntoWreg(m, f, a);
    } else {
      AddwfIntoFile(m, f, a);
    }
  }

  lemma AddwfIntoWreg(m: Machine, f: Byte, a: Bit)
    requires Backed(Operand(m, f, a))
    requires Operand(m, f, a) != WREG && Operand(m, f, a) != STATUS
    ensures AddwfSpec(m, f, 0, a).Ok?
    ensures var r := AddwfSpec(m, f, 0, a).value;
      var fv := Peek(m.data, Operand(m, f, a));
      Wreg(r) == Wreg(m) + fv && Peek(r.data, Operand(m, f, a)) == fv
      && StatusOf(r) & ALL_FLAGS == AddFlags(Wreg(m), fv)
  {
    var fv := Peek(m.data, Operand(m, f, a));
    assert AddwfSpec(m, f, 0, a) == AddSpec(m, WREG, fv);
    AddStoresSumAndFlags(m, WREG, fv);
    var r := AddSpec(m, WREG, fv).value;
    assert Peek(r.data, Operand(m, f, a)) == fv;
  }

  lemma AddwfIntoFile(m: Machine, f: Byte, a: Bit)
    requires Backed(Operand(m, f, a))
    requires Operand(m, f, a) != WREG && Operand(m, f, a) != STATUS
    ensures AddwfSpec(m, f, 1, a).Ok?
    ensures var r := AddwfSpec(m, f, 1, a).value;
      var fv := Peek(m.data, Operand(m, f, a));
      Peek(r.data, Operand(m, f, a)) == fv + Wreg(m) && Wreg(r) == Wreg(m)
      && StatusOf(r) & ALL_FLAGS == AddFlags(Wreg(m), fv)
  {
    var fv := Peek(m.data, Operand(m, f, a));
    AddStoresSumAndFlags(m, Operand(m, f, a), Wreg(m));
    AddFlagsSymmetric(fv, Wreg(m));
  }

  /** The unit test of `addlw`: WREG 0x10 plus 0x15 gives 0x25 with STATUS 0. */
  lemma AddlwExample()
    ensures var m := Fresh.(data := map[WREG := 0x10]);
      var r := ExecSpec(Addlw(0x15), m).value;
      Wreg(r) == 0x25 && StatusOf(r) == 0 && r.pc == 2
  {
  }

  /** The unit test of `addwf`: WREG 0x17 plus f 0xC2 into WREG gives 0xD9 with f unchanged. */
  lemma AddwfExample()
    ensures var m := Fresh.(data := map[WREG := 0x17, 0 := 0xC2]);
      var r := AddwfSpec(m, 0, 0, 0).value;
      Wreg(r) == 0xD9 && Peek(r.data, 0) == 0xC2
  {
  }

  /**
    The unit test of `addwfc`: with C = 1, f = 0x4D and WREG 2, the result
    into WREG is 0x50, C is clear and f is unchanged, both as written and as
    intended.
   */
  lemma AddwfcExample()
    ensures var m := Fresh.(data := map[STATUS := C, 0 := 0x4D, WREG := 0x02]);
      var r := AddwfcSpec(m, 0, 0, 1).value;
      var w := AddwfcAsWritten(m, 0, 0, 1).value;
      StatusOf(r) & C == 0 && Peek(r.data, 0) == 0x4D && Wreg(r) == 0x50
      && StatusOf(w) & C == 0 && Peek(w.data, 0) == 0x4D && Wreg(w) == 0x50
  {
  }

  /**
    `addwfc` as written loses the carry of its first addition: with C = 0,
    f = 0xFF and WREG 1 the sum 0x100 leaves C clear, where the addition with
    carry sets it. Both store 0.
   */
  lemma AddwfcAsWrittenLosesCarry()
    ensures var m := Fresh.(data := map[STATUS := 0, 0 := 0xFF, WREG := 0x01]);
      var r := AddwfcSpec(m, 0, 0, 0).value;
      var w := AddwfcAsWritten(m, 0, 0, 0).value;
      Wreg(r) == 0 && Wreg(w) == 0
      && StatusOf(r) & C == C && StatusOf(w) & C == 0
  {
  }

  /**
    `addwfc` into a backed cell other than STATUS stores W + f + C there and
    sets the flags of that whole sum.
   */
  lemma AddwfcAddsCarry(m: Machine, f: Byte, d: Bit, a: Bit)
    requires Backed(Operand(m, f, a)) && Steer(Operand(m, f, a), d) != STATUS
    ensures AddwfcSpec(m, f, d, a)
            == Ok(AddWithCarry(m, Steer(Operand(m, f, a), d), Wreg(m), Peek(m.data, Operand(m, f, a)), StatusOf(m) & C))
  {
    assert Load(m.data, Operand(m, f, a)) == Ok(Peek(m.data, Operand(m, f, a)));
  }

  /** The three-operand addition stores the byte sum and the flags of the whole sum. */
  lemma AddWithCarryStores(m: Machine, dest: int, w: Byte, v: Byte, cin: Bit)
    requires Backed(dest) && dest != STATUS
    ensures var r := AddWithCarry(m, dest, w, v, cin);
      Peek(r.data, dest) == w + v + cin
      && StatusOf(r) & ALL_FLAGS == AddcFlags(w, v, cin)
  {
  }

  /** `clrf` clears the cell and sets Z without clearing any other flag. */
  lemma ClrfSetsZero(m: Machine, f: Byte, a: Bit)
    requires Backed(Operand(m, f, a)) && Operand(m, f, a) != STATUS
    ensures ClrfSpec(m, f, a).Ok?
    ensures var r := ClrfSpec(m, f, a).value;
      Peek(r.data, Operand(m, f, a)) == 0
      && StatusOf(r) == StatusOf(m) | Z
      && (forall x :: x != Operand(m, f, a) && x != STATUS ==> Peek(r.data, x) == Peek(m.data, x))
  {
  }

  /**
    The compare-and-skip functions add 2 to PC exactly when f == W, f < W
    and f > W respectively, and change no cell and no flag.
   */
  lemma CompareSkipsOnRelation(m: Machine, f: Byte, a: Bit, op: Op)
    requires op == Cpfseq(f, a) || op == Cpfsgt(f, a) || op == Cpfslt(f, a)
    requires InSpace(Operand(m, f, a))
    ensures CompareSpec(m, f, a, op).Ok?
    ensures var v := Load(m.data, Operand(m, f, a)).value;
      var r := CompareSpec(m, f, a, op).value;
      var skip := (op.Cpfseq? && v == Wreg(m)) || (op.Cpfsgt? && v < Wreg(m)) || (op.Cpfslt? && v > Wreg(m));
      r.data == m.data && r.stack == m.stack
      && r.pc == (if skip then Wrapped(m.pc, 2) else m.pc)
  {
    var v := Load(m.data, Operand(m, f, a));
    assert v.Ok?;
  }
}
