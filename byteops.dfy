/**
  The byte-oriented functions of op.py as imperative procedures on the core:
  each reads and writes data cells, updates STATUS through the set and reset
  primitives, and the compare functions skip by incrementing PC. Each is
  proved to behave as its specification in the Semantics module.
 */
module ByteOps {
  import opened Bits
  import opened Wrappers
  import opened Register
  import opened DataMem
  import opened Ops
  import opened Alu
  import opened Semantics
  import opened Core

  /** `_add` (op.py:6-30). */
  method Add(cpu: Mcu, addr: int, value: Byte) returns (r: Outcome<Fault>)
    requires cpu.Valid()
    modifies cpu.data
    ensures cpu.Valid()
    ensures Matches(r, old(cpu.Abs()), cpu.Abs(), AddSpec(old(cpu.Abs()), addr, value))
  {
    ghost var m0 := cpu.Abs();
    var read := cpu.data.Read(addr);
    if read.Err? {
      return Fail(read.error);
    }
    var arg1 := read.value;
    var ok := cpu.data.Write(addr, arg1 + value);
    ghost var d1 := cpu.data.storage;
    cpu.SetThenResetStatusBits(AddFlags(arg1, value), ALL_FLAGS);
    AddUnfolds(m0, addr, value, arg1);
    r := Pass;
  }

  /** `_and` (op.py:32-47). */
  method And(cpu: Mcu, addr: int, value: Byte) returns (r: Outcome<Fault>)
    requires cpu.Valid()
    modifies cpu.data
    ensures cpu.Valid()
    ensures Matches(r, old(cpu.Abs()), cpu.Abs(), AndSpec(old(cpu.Abs()), addr, value))
  {
    ghost var m0 := cpu.Abs();
    var read := cpu.data.Read(addr);
    if read.Err? {
      return Fail(read.error);
    }
    var result := read.value & value;
    var ok := cpu.data.Write(addr, result);
    ghost var d1 := cpu.data.storage;
    assert d1 == Put(m0.data, addr, result);
    cpu.SetThenResetStatusBits(LogicFlags(result), N | Z);
    AndUnfolds(m0, addr, value, read.value);
    assert cpu.Abs() == m0.(data := cpu.data.storage);
    r := Pass;
  }

  /** `addwf` (op.py:55-69). */
  method Addwf(cpu: Mcu, f: Byte, d: Bit, a: Bit) returns (r: Outcome<Fault>)
    requires cpu.Valid()
    modifies cpu.data
    ensures cpu.Valid()
    ensures Matches(r, old(cpu.Abs()), cpu.Abs(), AddwfSpec(old(cpu.Abs()), f, d, a))
  {
    var argAddr := Resolve(f, a, cpu.Bsr());
    var secondArg: Byte;
    if d == 1 {
      secondArg := cpu.Wreg();
    } else {
      var read := cpu.data.Read(argAddr);
      if read.Err? {
        return Fail(read.error);
      }
      secondArg := read.value;
    }
    r := Add(cpu, Steer(argAddr, d), secondArg);
  }

  /** `addwfc` as one addition of WREG, f and the carry flag. */
  method Addwfc(cpu: Mcu, f: Byte, d: Bit, a: Bit) returns (r: Outcome<Fault>)
    requires cpu.Valid()
    modifies cpu.data
    ensures cpu.Valid()
    ensures Matches(r, old(cpu.Abs()), cpu.Abs(), AddwfcSpec(old(cpu.Abs()), f, d, a))
  {
    ghost var m0 := cpu.Abs();
    var argAddr := Resolve(f, a, cpu.Bsr());
    var carryFlag: Bit := cpu.Status() & C;
    var resAddr := Steer(argAddr, d);
    var read := cpu.data.Read(argAddr);
    if read.Err? {
      return Fail(read.error);
    }
    assert argAddr == Operand(m0, f, a) && carryFlag == StatusOf(m0) & C;
    AddwfcUnfolds(m0, f, d, a, read.value);
    StoreWithCarry(cpu, resAddr, cpu.Wreg(), read.value, carryFlag);
    r := Pass;
  }

  /** The store and flag update of `addwfc`: dest := w + v + cin, then the five flags of that sum. */
  method StoreWithCarry(cpu: Mcu, dest: int, w: Byte, v: Byte, cin: Bit)
    requires cpu.Valid() && InSpace(dest)
    modifies cpu.data
    ensures cpu.Valid()
    ensures cpu.Abs() == AddWithCarry(old(cpu.Abs()), dest, w, v, cin)
  {
    var ok := cpu.data.Write(dest, w + v + cin);
    cpu.AffectStatusBits(ALL_FLAGS, AddcFlags(w, v, cin));
  }

  /** `andwf` (op.py:95-109). */
  method Andwf(cpu: Mcu, f: Byte, d: Bit, a: Bit) returns (r: Outcome<Fault>)
    requires cpu.Valid()
    modifies cpu.data
    ensures cpu.Valid()
    ensures Matches(r, old(cpu.Abs()), cpu.Abs(), AndwfSpec(old(cpu.Abs()), f, d, a))
  {
    var argAddr := Resolve(f, a, cpu.Bsr());
    var secondArg: Byte;
    if d == 1 {
      secondArg := cpu.Wreg();
    } else {
      var read := cpu.data.Read(argAddr);
      if read.Err? {
        return Fail(read.error);
      }
      secondArg := read.value;
    }
    r := And(cpu, Steer(argAddr, d), secondArg);
  }

  /** `clrf` (op.py:114-126). */
  method Clrf(cpu: Mcu, f: Byte, a: Bit) returns (r: Outcome<Fault>)
    requires cpu.Valid()
    modifies cpu.data
    ensures cpu.Valid()
    ensures Matches(r, old(cpu.Abs()), cpu.Abs(), ClrfSpec(old(cpu.Abs()), f, a))
  {
    var argAddr := Resolve(f, a, cpu.Bsr());
    r := cpu.data.Write(argAddr, 0);
    if r.Fail? {
      return;
    }
    cpu.SetStatusBits(Z);
  }

  /** `comf` (op.py:131-153): the flags are updated before the result is stored. */
  method Comf(cpu: Mcu, f: Byte, d: Bit, a: Bit) returns (r: Outcome<Fault>)
    requires cpu.Valid()
    modifies cpu.data
    ensures cpu.Valid()
    ensures Matches(r, old(cpu.Abs()), cpu.Abs(), ComfSpec(old(cpu.Abs()), f, d, a))
  {
    ghost var m0 := cpu.Abs();
    var argAddr := Resolve(f, a, cpu.Bsr());
    var resAddr := Steer(argAddr, d);
    var read := cpu.data.Read(argAddr);
    if read.Err? {
      return Fail(read.error);
    }
    var result := !read.value;
    cpu.SetThenResetStatusBits(LogicFlags(result), N | Z);
    r := cpu.data.Write(resAddr, result);
    ComfUnfolds(m0, f, d, a, read.value);
  }

  /** `cpfseq` (op.py:158-169): skip when f == W. */
  method Cpfseq(cpu: Mcu, f: Byte, a: Bit) returns (r: Outcome<Fault>)
    requires cpu.Valid()
    modifies cpu.pc
    ensures cpu.Valid()
    ensures Matches(r, old(cpu.Abs()), cpu.Abs(), CompareSpec(old(cpu.Abs()), f, a, Ops.Cpfseq(f, a)))
  {
    ghost var m0 := cpu.Abs();
    var argAddr := Resolve(f, a, cpu.Bsr());
    assert argAddr == Operand(m0, f, a);
    var read := cpu.data.Read(argAddr);
    if read.Err? {
      return Fail(read.error);
    }
    CompareUnfolds(m0, f, a, Ops.Cpfseq(f, a), read.value);
    var w := cpu.Wreg();
    if read.value == w {
      cpu.IncPc(2);
    }
    assert cpu.Abs() == (if read.value == w then Advance(m0, 2) else m0);
    r := Pass;
  }

  /** `cpfsgt` (op.py:174-185): skip when f < W. */
  method Cpfsgt(cpu: Mcu, f: Byte, a: Bit) returns (r: Outcome<Fault>)
    requires cpu.Valid()
    modifies cpu.pc
    ensures cpu.Valid()
    ensures Matches(r, old(cpu.Abs()), cpu.Abs(), CompareSpec(old(cpu.Abs()), f, a, Ops.Cpfsgt(f, a)))
  {
    ghost var m0 := cpu.Abs();
    var argAddr := Resolve(f, a, cpu.Bsr());
    assert argAddr == Operand(m0, f, a);
    var read := cpu.data.Read(argAddr);
    if read.Err? {
      return Fail(read.error);
    }
    CompareUnfolds(m0, f, a, Ops.Cpfsgt(f, a), read.value);
    var w := cpu.Wreg();
    if read.value < w {
      cpu.IncPc(2);
    }
    assert cpu.Abs() == (if read.value < w then Advance(m0, 2) else m0);
    r := Pass;
  }

  /** `cpfslt` (op.py:190-201): skip when f > W. */
  method Cpfslt(cpu: Mcu, f: Byte, a: Bit) returns (r: Outcome<Fault>)
    requires cpu.Valid()
    modifies cpu.pc
    ensures cpu.Valid()
    ensures Matches(r, old(cpu.Abs()), cpu.Abs(), CompareSpec(old(cpu.Abs()), f, a, Ops.Cpfslt(f, a)))
  {
    ghost var m0 := cpu.Abs();
    var argAddr := Resolve(f, a, cpu.Bsr());
    assert argAddr == Operand(m0, f, a);
    var read := cpu.data.Read(argAddr);
    if read.Err? {
      return Fail(read.error);
    }
    CompareUnfolds(m0, f, a, Ops.Cpfslt(f, a), read.value);
    var w := cpu.Wreg();
    if read.value > w {
      cpu.IncPc(2);
    }
    assert cpu.Abs() == (if read.value > w then Advance(m0, 2) else m0);
    r := Pass;
  }

  /** `addlw` (op.py:206-212). */
  method Addlw(cpu: Mcu, k: Byte) returns (r: Outcome<Fault>)
    requires cpu.Valid()
    modifies cpu.data
    ensures cpu.Valid()
    ensures Matches(r, old(cpu.Abs()), cpu.Abs(), AddSpec(old(cpu.Abs()), WREG, k))
  {
    r := Add(cpu, WREG, k);
  }

  lemma CompareUnfolds(m: Machine, f: Byte, a: Bit, op: Ops.Op, v: Byte)
    requires op.Cpfseq? || op.Cpfsgt? || op.Cpfslt?
    requires Load(m.data, Operand(m, f, a)) == Ok(v)
    ensures op.Cpfseq? ==> CompareSpec(m, f, a, op) == Ok(if v == Wreg(m) then Advance(m, 2) else m)
    ensures op.Cpfsgt? ==> CompareSpec(m, f, a, op) == Ok(if v < Wreg(m) then Advance(m, 2) else m)
    ensures op.Cpfslt? ==> CompareSpec(m, f, a, op) == Ok(if v > Wreg(m) then Advance(m, 2) else m)
  {
  }

  lemma AddUnfolds(m: Machine, addr: int, value: Byte, arg1: Byte)
    requires Load(m.data, addr) == Ok(arg1)
    ensures var d1 := Put(m.data, addr, arg1 + value);
      AddSpec(m, addr, value) == Ok(m.(data := WithStatus(d1, Affect(Peek(d1, STATUS), ALL_FLAGS, AddFlags(arg1, value)))))
  {
  }

  lemma AndUnfolds(m: Machine, addr: int, value: Byte, arg1: Byte)
    requires Load(m.data, addr) == Ok(arg1)
    ensures var d1 := Put(m.data, addr, arg1 & value);
      AndSpec(m, addr, value) == Ok(m.(data := WithStatus(d1, Affect(Peek(d1, STATUS), N | Z, LogicFlags(arg1 & value)))))
  {
  }

  lemma AddwfcUnfolds(m: Machine, f: Byte, d: Bit, a: Bit, v: Byte)
    requires Load(m.data, Operand(m, f, a)) == Ok(v)
    ensures AddwfcSpec(m, f, d, a) == Ok(AddWithCarry(m, Steer(Operand(m, f, a), d), Wreg(m), v, StatusOf(m) & C))
  {
  }

  lemma ComfUnfolds(m: Machine, f: Byte, d: Bit, a: Bit, v: Byte)
    requires Load(m.data, Operand(m, f, a)) == Ok(v)
    ensures var d1 := WithStatus(m.data, Affect(StatusOf(m), N | Z, LogicFlags(!v)));
      ComfSpec(m, f, d, a) == Ok(m.(data := Put(d1, Steer(Operand(m, f, a), d), !v)))
  {
  }
}
