/**
  The data memory of the core (picmicro.py, minipic/picmicro.py): one address
  space 0x000-0xFFF split into general-purpose registers below 0x300, a gap up
  to 0xF00 that reads as 0 and ignores writes, and special function registers
  from 0xF00 on. Any address outside the space is an addressing fault.
 */
module DataMem {
  import opened Bits
  import opened Wrappers
  import opened Register

  const DATA_ADDR_SUP: int := 0x1000
  const GPR_ADDR_SUP: int := 0x300
  const SFR_ADDR_MIN: int := 0xF00

  /** The fault raised for an address outside the data space. */
  datatype Fault = OutOfDataMemoryAccess

  /** Stored cells by address; an address never written holds 0. */
  type Cells = map<int, Byte>

  predicate InSpace(addr: int)
  {
    0 <= addr < DATA_ADDR_SUP
  }

  /** In the space and outside the gap: a cell that keeps what is written to it. */
  predicate Backed(addr: int)
  {
    InSpace(addr) && (addr < GPR_ADDR_SUP || addr >= SFR_ADDR_MIN)
  }

  predicate InGap(addr: int)
  {
    GPR_ADDR_SUP <= addr < SFR_ADDR_MIN
  }

  /** The byte held by a backed cell: what was last stored, or 0. */
  function Peek(mem: Cells, addr: int): Byte
  {
    if addr in mem then mem[addr] else 0
  }

  /** Reading a cell (`DataMemory.__getitem__`). */
  function Load(mem: Cells, addr: int): (r: Result<Byte, Fault>)
    ensures r.Err? <==> !InSpace(addr)
    ensures InGap(addr) ==> r == Ok(0)
  {
    if !InSpace(addr) then Err(OutOfDataMemoryAccess)
    else if Backed(addr) then Ok(Peek(mem, addr))
    else Ok(0)
  }

  /** Writing a cell whose address is already known to be in the space. */
  function Put(mem: Cells, addr: int, v: Byte): (r: Cells)
    requires InSpace(addr)
    ensures Backed(addr) ==> Peek(r, addr) == v
    ensures InGap(addr) ==> r == mem
  {
    if Backed(addr) then mem[addr := v] else mem
  }

  /** Writing a cell (`DataMemory.__setitem__`). */
  function Store(mem: Cells, addr: int, v: Byte): (r: Result<Cells, Fault>)
    ensures r.Err? <==> !InSpace(addr)
    ensures r.Ok? && Backed(addr) ==> Peek(r.value, addr) == v
  {
    if !InSpace(addr) then Err(OutOfDataMemoryAccess) else Ok(Put(mem, addr, v))
  }

  /** Reads and writes both fault exactly outside [0, 0x1000). */
  lemma FaultExactlyOutside(mem: Cells, addr: int, v: Byte)
    ensures Load(mem, addr).Err? <==> addr < 0 || addr >= 0x1000
    ensures Store(mem, addr, v).Err? <==> addr < 0 || addr >= 0x1000
  {
  }

  /** A write to a backed cell is read back; every other address reads as before. */
  lemma ReadAfterWrite(mem: Cells, addr: int, v: Byte, other: int)
    requires Backed(addr) && other != addr
    ensures Store(mem, addr, v).Ok? && Load(Store(mem, addr, v).value, addr) == Ok(v)
    ensures Load(Store(mem, addr, v).value, other) == Load(mem, other)
  {
  }

  /** Updating one cell of the map leaves what every other address peeks at. */
  lemma PeekOther(mem: Cells, addr: int, v: Byte, other: int)
    requires other != addr
    ensures Peek(mem[addr := v], other) == Peek(mem, other)
  {
  }

  /** The gap reads 0 and a write to it changes no cell. */
  lemma GapIsDead(mem: Cells, addr: int, v: Byte)
    requires 0x300 <= addr < 0xF00
    ensures Load(mem, addr) == Ok(0)
    ensures Store(mem, addr, v) == Ok(mem)
  {
  }

  /**
    The checks of test/test_picmicro.py: 10 written to GPR 100 or to WREG is
    read back, and copying one cell into another makes them read equal.
   */
  lemma SetGetRoundTrip(mem: Cells, addr1: int, addr2: int)
    requires addr1 == 100 || addr1 == WREG
    requires Backed(addr2)
    ensures Load(Store(mem, addr1, 10).value, addr1) == Ok(10)
    ensures var copied := Store(mem, addr1, Load(mem, addr2).value).value;
      Load(copied, addr1) == Load(copied, addr2)
  {
  }

  /**
    The data memory object. `Read` and `Write` follow picmicro.py: a write
    checks that it stores a byte, then the address.
   */
  class DataMemory {
    var storage: Cells

    /** WREG, BSR and STATUS exist from construction, each holding 0. */
    constructor ()
      ensures storage == map[WREG := 0, BSR := 0, STATUS := 0]
    {
      storage := map[WREG := 0, BSR := 0, STATUS := 0];
    }

    method Read(addr: int) returns (r: Result<Byte, Fault>)
      ensures r == Load(storage, addr)
      ensures r.Err? <==> !InSpace(addr)
      ensures r.Ok? && InGap(addr) ==> r.value == 0
      ensures r.Ok? && !InGap(addr) ==> r.value == Peek(storage, addr)
    {
      if !(0 <= addr < DATA_ADDR_SUP) {
        return Err(OutOfDataMemoryAccess);
      }
      if addr < GPR_ADDR_SUP || addr >= SFR_ADDR_MIN {
        return Ok(Peek(storage, addr));
      }
      return Ok(0);
    }

    /** Stores a byte; the source's assertion 0 <= byte <= 0xFF is the parameter's type. */
    method Write(addr: int, byte: Byte) returns (r: Outcome<Fault>)
      modifies this
      ensures r.Fail? <==> !InSpace(addr)
      ensures r.Fail? ==> r == Fail(OutOfDataMemoryAccess)
      ensures r.Pass? ==> Ok(storage) == Store(old(storage), addr, byte)
      ensures r.Fail? ==> storage == old(storage)
    {
      if !(0 <= addr < DATA_ADDR_SUP) {
        return Fail(OutOfDataMemoryAccess);
      }
      if addr < GPR_ADDR_SUP || addr >= SFR_ADDR_MIN {
        storage := storage[addr := byte];
      }
      return Pass;
    }
  }
}
