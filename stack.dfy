/**
  The hardware return-address stack (the commented-out `Stack` class at
  minipic/picmicro.py:60-91): 31 entries of program addresses, a stack pointer, and the
  "fast" shadow copies of WREG, STATUS and BSR used by CALL and RETURN.

  A push on a full stack is dropped; a pop or top on an empty stack gives 0
  and setting the top of an empty stack is ignored.
 */
module CallStack {
  import opened Bits
  import opened Wrappers
  import opened Register

  /** Number of return-address entries. */
  const SIZE: int := 31

  /** The stack as a value: live entries bottom first, and the three shadow bytes. */
  datatype StackVal = StackVal(entries: seq<int>, ws: Byte, statuss: Byte, bsrs: Byte)

  const EmptyStack := StackVal([], 0, 0, 0)

  /** At most SIZE entries, each a program address. */
  predicate WellFormed(s: StackVal)
  {
    |s.entries| <= SIZE && forall k :: 0 <= k < |s.entries| ==> 0 <= s.entries[k] < PC_MAX
  }

  function PushVal(s: StackVal, v: int): (r: StackVal)
    ensures |s.entries| < SIZE ==> r.entries == s.entries + [v]
    ensures |s.entries| >= SIZE ==> r.entries == s.entries
    ensures r.ws == s.ws && r.statuss == s.statuss && r.bsrs == s.bsrs
  {
    if |s.entries| < SIZE then s.(entries := s.entries + [v]) else s
  }

  /** The popped value and the stack after the pop. */
  function PopVal(s: StackVal): (r: (int, StackVal))
    ensures s.entries == [] ==> r == (0, s)
    ensures s.entries != [] ==> r.1.entries + [r.0] == s.entries
    ensures r.1.ws == s.ws && r.1.statuss == s.statuss && r.1.bsrs == s.bsrs
  {
    if s.entries == [] then (0, s)
    else (s.entries[|s.entries| - 1], s.(entries := s.entries[..|s.entries| - 1]))
  }

  function TopVal(s: StackVal): (v: int)
    ensures s.entries == [] ==> v == 0
    ensures s.entries != [] ==> v == PopVal(s).0
  {
    if s.entries == [] then 0 else s.entries[|s.entries| - 1]
  }

  function SetTopVal(s: StackVal, v: int): (r: StackVal)
    ensures s.entries == [] ==> r == s
    ensures s.entries != [] ==> PopVal(r) == (v, PopVal(s).1)
  {
    if s.entries == [] then s else s.(entries := s.entries[|s.entries| - 1 := v])
  }

  /** Push then pop returns the pushed value and restores the stack, when it was not full. */
  lemma PushThenPop(s: StackVal, v: int)
    requires |s.entries| < SIZE
    ensures PopVal(PushVal(s, v)) == (v, s)
  {
    assert (s.entries + [v])[..|s.entries|] == s.entries;
  }

  /** Pushing onto a full stack changes nothing. */
  lemma PushOnFullIsDropped(s: StackVal, v: int)
    requires |s.entries| == SIZE
    ensures PushVal(s, v) == s
  {
  }

  /** Pushing a program address keeps the stack well formed. */
  lemma PushKeepsWellFormed(s: StackVal, v: int)
    requires WellFormed(s) && 0 <= v < PC_MAX
    ensures WellFormed(PushVal(s, v))
  {
  }

  /** Popping keeps the stack well formed and yields a program address. */
  lemma PopKeepsWellFormed(s: StackVal)
    requires WellFormed(s)
    ensures WellFormed(PopVal(s).1) && 0 <= PopVal(s).0 < PC_MAX
  {
  }

  /** Pushes every value of vs in order. */
  function PushAll(s: StackVal, vs: seq<int>): StackVal
    decreases |vs|
  {
    if vs == [] then s else PushAll(PushVal(s, vs[0]), vs[1..])
  }

  /** Pops n times; the popped values in the order they came off. */
  function PopMany(s: StackVal, n: nat): (seq<int>, StackVal)
    decreases n
  {
    if n == 0 then ([], s)
    else
      var (v, s') := PopVal(s);
      var (vs, s'') := PopMany(s', n - 1);
      ([v] + vs, s'')
  }

  function Reversed(vs: seq<int>): (r: seq<int>)
    ensures |r| == |vs|
  {
    if vs == [] then [] else Reversed(vs[1..]) + [vs[0]]
  }

  /**
    N pushes followed by N pops return the pushed values last-in first-out and
    restore the stack, as long as the N pushes fit.
   */
  lemma {:induction false} PushesThenPops(s: StackVal, vs: seq<int>)
    requires |s.entries| + |vs| <= SIZE
    ensures PopMany(PushAll(s, vs), |vs|) == (Reversed(vs), s)
    decreases |vs|
  {
    if vs != [] {
      var s1 := PushVal(s, vs[0]);
      PushesThenPops(s1, vs[1..]);
      var top := PushAll(s1, vs[1..]);
      assert PopMany(top, |vs| - 1) == (Reversed(vs[1..]), s1);
      PopManySplit(top, |vs| - 1);
      PushThenPop(s, vs[0]);
    }
  }

  /** Popping n + 1 times is popping n times and then once more. */
  lemma {:induction false} PopManySplit(s: StackVal, n: nat)
    ensures PopMany(s, n + 1).0 == PopMany(s, n).0 + [PopVal(PopMany(s, n).1).0]
    ensures PopMany(s, n + 1).1 == PopVal(PopMany(s, n).1).1
    decreases n
  {
    if n > 0 {
      PopManySplit(PopVal(s).1, n - 1);
    }
  }

  /**
    The commented-out push (minipic/picmicro.py:68-74) as written: it skips the push only when
    stkptr > SIZE, so at stkptr == SIZE it indexes one past the storage;
    None stands for that IndexError.
   */
  function PushAsWritten(storage: seq<int>, stkptr: nat, v: int): (r: Option<(seq<int>, nat)>)
    ensures r.None? <==> |storage| <= stkptr <= SIZE
    ensures r.Some? && stkptr <= SIZE ==> r.value.1 == stkptr + 1 && |r.value.0| == |storage| && r.value.0[stkptr] == v
  {
    if stkptr > SIZE then Some((storage, stkptr))
    else if stkptr < |storage| then Some((storage[stkptr := v], stkptr + 1))
    else None
  }

  /** On a full stack the as-written push raises IndexError where the corrected push drops the value. */
  lemma PushAsWrittenOverruns(storage: seq<int>, v: int)
    requires |storage| == SIZE
    ensures PushAsWritten(storage, SIZE, v) == None
    ensures PushVal(StackVal(storage, 0, 0, 0), v) == StackVal(storage, 0, 0, 0)
  {
  }

  /**
    The stack object: `storage` is the fixed array of entries and `stkptr` the
    number of live ones.
   */
  class Stack {
    const storage: array<int>
    var stkptr: nat
    var ws: Byte
    var statuss: Byte
    var bsrs: Byte

    ghost predicate Valid()
      reads this, storage
    {
      storage.Length == SIZE && stkptr <= SIZE
      && forall k :: 0 <= k < stkptr ==> 0 <= storage[k] < PC_MAX
    }

    function Abs(): StackVal
      reads this, storage
      requires Valid()
    {
      StackVal(storage[..stkptr], ws, statuss, bsrs)
    }

    constructor ()
      ensures Valid() && fresh(storage)
      ensures Abs() == EmptyStack
    {
      storage := new int[SIZE](_ => 0);
      stkptr := 0;
      ws, statuss, bsrs := 0, 0, 0;
    }

    method Push(value: int)
      requires Valid() && 0 <= value < PC_MAX
      modifies this, storage
      ensures Valid()
      ensures Abs() == PushVal(old(Abs()), value)
    {
      if stkptr >= SIZE {
        return;
      }
      storage[stkptr] := value;
      stkptr := stkptr + 1;
      assert storage[..stkptr] == old(storage[..stkptr]) + [value];
    }

    method Pop() returns (v: int)
      requires Valid()
      modifies this
      ensures Valid()
      ensures (v, Abs()) == PopVal(old(Abs()))
    {
      if stkptr == 0 {
        return 0;
      }
      stkptr := stkptr - 1;
      v := storage[stkptr];
      assert old(storage[..stkptr]) == storage[..stkptr] + [v];
    }

    method Top() returns (v: int)
      requires Valid()
      ensures v == TopVal(Abs())
    {
      if stkptr == 0 {
        return 0;
      }
      v := storage[stkptr - 1];
    }

    method SetTop(value: int)
      requires Valid() && 0 <= value < PC_MAX
      modifies storage
      ensures Valid()
      ensures Abs() == SetTopVal(old(Abs()), value)
    {
      if stkptr == 0 {
        return;
      }
      storage[stkptr - 1] := value;
      assert storage[..stkptr] == old(storage[..stkptr])[stkptr - 1 := value];
    }
  }
}
