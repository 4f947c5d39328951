/**
  Program memory (minipic/picmicro.py:21-29): 0x200000 bytes of program space
  held as one operation per two-byte slot, every slot a NOP at start. Byte
  address addr selects slot addr >> 1, with Python's list indexing: a
  negative slot counts from the end and a slot past the end is an IndexError.
 */
module ProgramMem {
  import opened Wrappers
  import opened Ops

  /** Bytes of program space. */
  const SIZE: int := 0x200000

  /** Number of slots, SIZE >> 1. */
  const SLOTS: int := 0x100000

  /** The list index a byte address selects, or None for an IndexError. */
  function Slot(addr: int): (r: Option<int>)
    ensures r.Some? ==> 0 <= r.value < SLOTS
    ensures 0 <= addr < SIZE ==> r == Some(addr / 2)
    ensures r.None? <==> addr < -SIZE || addr >= SIZE
  {
    var i := addr / 2;
    if 0 <= i < SLOTS then Some(i)
    else if -SLOTS <= i < 0 then Some(i + SLOTS)
    else None
  }

  /** Byte addresses 2k and 2k+1 select the same slot. */
  lemma OddAddressAliases(k: int)
    requires 0 <= k < SLOTS
    ensures Slot(2 * k) == Slot(2 * k + 1) == Some(k)
  {
  }

  /** The operation at a byte address (`ProgramMemory.__getitem__`). */
  function Fetch(program: seq<Op>, addr: int): (r: Option<Op>)
    requires |program| == SLOTS
    ensures r.Some? <==> -SIZE <= addr < SIZE
    ensures 0 <= addr < SIZE ==> r == Some(program[addr / 2])
  {
    match Slot(addr)
    case None => None
    case Some(i) => Some(program[i])
  }

  /** Program memory after storing op at a byte address (`ProgramMemory.__setitem__`). */
  function StoreOp(program: seq<Op>, addr: int, op: Op): (r: Option<seq<Op>>)
    requires |program| == SLOTS
    ensures r.Some? <==> -SIZE <= addr < SIZE
    ensures r.Some? ==> |r.value| == SLOTS && r.value[Slot(addr).value] == op
  {
    match Slot(addr)
    case None => None
    case Some(i) => Some(program[i := op])
  }

  /**
    A store followed by a fetch of the same slot returns the stored
    operation; every other slot is unchanged.
   */
  lemma FetchAfterStore(program: seq<Op>, addr: int, op: Op, other: int)
    requires |program| == SLOTS && 0 <= addr < SIZE && 0 <= other < SIZE
    ensures StoreOp(program, addr, op).Some?
    ensures var p := StoreOp(program, addr, op).value;
      |p| == SLOTS
      && Fetch(p, addr) == Some(op)
      && (other / 2 == addr / 2 ==> Fetch(p, other) == Some(op))
      && (other / 2 != addr / 2 ==> Fetch(p, other) == Fetch(program, other))
  {
  }

  class ProgramMemory {
    const memory: array<Op>

    ghost predicate Valid()
      reads this
    {
      memory.Length == SLOTS
    }

    /** All SIZE >> 1 slots hold NOP. */
    constructor ()
      ensures Valid() && fresh(memory)
      ensures forall k :: 0 <= k < SLOTS ==> memory[k] == Nop
    {
      memory := new Op[SLOTS](_ => Nop);
    }

    method Get(addr: int) returns (r: Option<Op>)
      requires Valid()
      ensures r == Fetch(memory[..], addr)
    {
      var i := addr / 2;
      if 0 <= i < SLOTS {
        r := Some(memory[i]);
      } else if -SLOTS <= i < 0 {
        r := Some(memory[i + SLOTS]);
      } else {
        r := None;
      }
    }

    /** Stores op; Fail is the IndexError of an address past either end. */
    method Set(addr: int, op: Op) returns (r: Outcome<()>)
      requires Valid()
      modifies memory
      ensures r.Pass? <==> StoreOp(old(memory[..]), addr, op).Some?
      ensures r.Pass? ==> memory[..] == StoreOp(old(memory[..]), addr, op).value
      ensures r.Fail? ==> memory[..] == old(memory[..])
    {
      var i := addr / 2;
      if 0 <= i < SLOTS {
        memory[i] := op;
        r := Pass;
      } else if -SLOTS <= i < 0 {
        memory[i + SLOTS] := op;
        r := Pass;
      } else {
        r := Fail(());
      }
    }
  }
}
