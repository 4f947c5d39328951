# PIC18F core model

A Dafny model of the core of a small PIC18F microcontroller simulator. The
simulator exists in two overlapping generations: the root-level `op.py` and
`picmicro.py`, and the newer `minipic/` package. This model combines them into
one sequential core:

- **Bits, Alu** — byte and word vocabulary. Also the STATUS flag formulas of
  `_add`/`_and` (C, DC, Z, OV, N) and the set/reset/affect primitives on the
  status byte.
- **Register** — the program counter, which wraps modulo 0x200000. The 8-bit
  `ByteRegister` with whole-byte and single-bit access, and the `Status` stub
  whose writes are no-ops.
- **DataMem** — the bounded data memory of `picmicro.py`:
  - addresses 0x000–0x2FF and 0xF00–0xFFF are backed;
  - the gap 0x300–0xEFF reads 0 and drops writes;
  - anything outside 0x000–0xFFF raises `OutOfDataMemoryAccess`.
- **ProgramMem** — program memory of 0x100000 slots indexed by `addr >> 1`, all
  NOP at reset.
- **CallStack** — the 31-entry return stack with its three shadow registers. A
  push on a full stack is dropped; a pop on an empty one gives 0.
- **Core** — the microcontroller object (`Mcu`): program counter, data memory,
  program memory and stack, with the WREG/BSR/STATUS accessors and status-bit
  helpers.
- **Ops, Semantics** — the operation set and a state-transformer specification
  of every operation on an abstract machine (`Machine`).
- **ByteOps, Execute** — the imperative operations: the byte-oriented
  commands of `op.py` and the `execute` methods of `minipic/op.py`. Each is
  proved to change the `Mcu` exactly as its specification says.
- **ByteFacts, OpFacts** — what the operations promise: flag meanings, result
  steering, skips, CALL/RETURN pairing, faults, and preservation of the machine
  invariant.
- **Decoder** — the layered-mask instruction decoder `decode_op`.
- **HexLoad** — the Intel HEX loader `load_hex`: Data (00), End-of-File (01)
  and Extended Linear Address (04) records. A word is held as the number
  `int(text, 16)` returns. It becomes a 16-bit word only when the decoder
  takes it. The loop over a record reads its words through a reader, which is
  `WordsOf(data)` in the load, so the lemmas about that loop hold for any
  reader.
- **Interpret** — the fetch/execute `step`.

The model gives the program counter one owner, the operation itself. NOP,
MOVLW, MOVWF, BTG, BTFSC and DECFSZ advance it, CALL, GOTO and RETURN set it,
and the `op.py` commands advance by 2 after succeeding (and by 2 more when they
skip). `step` is then fetch plus execute. The source's extra `pc.inc(SIZE)` is
modelled separately as `StepAsWritten` and listed under Findings.

Where the code and its documentation disagree, the model follows the code:
`cpfsgt` skips when f < WREG and `cpfslt` when f > WREG (op.py:184, 200), as
the docstrings say. This is the reverse of the manufacturer's datasheet.

## Model

| member | source | states |
|---|---|---|
| Bits.WithBit | minipic/register.py:36-39 | bit i of the result is the written bit; the other seven bits are unchanged |
| Bits.Toggled | minipic/op.py:52 | bit i is inverted and the other seven bits are unchanged |
| Bits.ToggleTwice | minipic/op.py:52 | toggling the same bit twice restores the byte |
| Bits.WriteBackIsIdentity | minipic/register.py:36-42 | writing back the bit just read leaves the byte unchanged |
| Bits.ByteOf | minipic/cli.py:165-166 | the byte built from a number below 0x100 has exactly that value |
| Alu.Signed | op.py:23 | the two's-complement reading of a byte lies in [-128, 128) and equals the byte below 0x80 |
| Alu.AddFlags | op.py:16-26 | the computed flag byte has no bits outside C, DC, Z, OV, N |
| Alu.AddFlagsMeaning | op.py:16-26 | C iff the 9-bit sum exceeds 0xFF; DC iff the low nibbles carry; Z iff the result byte is 0; OV iff both operands share bit 7 and the result differs; N iff bit 7 of the result is set |
| Alu.AddFlagsSymmetric | op.py:16-26 | the flags of an addition do not depend on operand order |
| Alu.CarryIsUnsignedOverflow | op.py:17-18 | C is set iff the integer sum exceeds 255 |
| Alu.OverflowIsSignedOverflow | op.py:23-24 | OV is set iff the sum of the signed readings leaves [-128, 128) |
| Alu.ZeroIsSumMultipleOf256 | op.py:21-22 | Z is set iff the integer sum is 0 or 256 |
| Alu.NegativeIsSignOfResult | op.py:25-26 | N is set iff the result byte is negative as a signed byte |
| Alu.AddcFlags | op.py:74-90 | the flags of an add with carry-in have no bits outside the five flags |
| Alu.AddcFlagsMeaning | op.py:74-90 | C, DC, Z and N of an add with carry-in, stated over the three-operand sum |
| Alu.AddcWithoutCarryIsAdd | op.py:74-90 | with carry-in 0 the flags equal those of a plain add |
| Alu.AddcCarryIsUnsignedOverflow | op.py:74-90 | C is set iff the integer sum of both operands and the carry exceeds 255 |
| Alu.AddcOverflowIsSignedOverflow | op.py:74-90 | OV is set iff the signed sum of both operands plus the carry leaves [-128, 128) |
| Alu.LogicFlags | op.py:40-44 | Z iff the result is 0, N iff bit 7 is set, no other flag bit set |
| Alu.SetBits | op.py:29 | the named bits become 1 and every other bit is unchanged |
| Alu.ResetBits | op.py:30 | the named bits become 0 and every other bit is unchanged |
| Alu.Affect | test/test_picmicro.py:51-55 | the bits under the mask come from `bits`, the rest from the old status |
| Alu.SetThenResetIsAffect | op.py:29-30 | setting the computed flags and then clearing the other masked flags is the affect primitive |
| Alu.AffectExamples | test/test_picmicro.py:51-55 | affect(mask 0, bits 0b11111) leaves 0; affect(mask 0b00110, bits 0b01100) gives 0b100 |
| Register.Wrapped | minipic/register.py:24-25 | the wrapped PC lies in [0, 0x200000) and equals value + delta modulo 0x200000 |
| Register.WrappedTwice | minipic/register.py:24-25 | two increments compose to one increment by the sum |
| Register.Pc.constructor | minipic/register.py:22-23 | a fresh PC is 0 |
| Register.Pc.Inc | minipic/register.py:24-25 | the new value is the old one plus delta, wrapped modulo 0x200000 |
| Register.ByteRegister.constructor | minipic/register.py:29-30 | a fresh register holds 0 |
| Register.ByteRegister.Put | minipic/register.py:31-33 | after `put` the register holds the value put |
| Register.ByteRegister.Get | minipic/register.py:34-35 | `get` returns the stored value |
| Register.ByteRegister.SetBit | minipic/register.py:36-39 | bit i becomes the written bit and the other seven bits are unchanged |
| Register.ByteRegister.GetBit | minipic/register.py:40-42 | the result is 1 iff bit i of the value is set |
| Register.Status.constructor | minipic/register.py:86-90 | a fresh status register holds 0 |
| Register.Status.Put | minipic/register.py:91-92 | the stubbed `put` leaves the value unchanged |
| Register.Status.SetBit | minipic/register.py:93-94 | the stubbed bit write leaves the value unchanged |
| Register.Status.Get | minipic/register.py:34-35 | `get` returns the stored value |
| DataMem.Load | picmicro.py:40-52 | a read faults exactly outside [0, 0x1000), and a gap address reads 0 |
| DataMem.Put | picmicro.py:26-38 | a backed cell then holds the value; a write into the gap changes nothing |
| DataMem.Store | picmicro.py:26-38 | a write faults exactly outside [0, 0x1000); otherwise a backed cell then holds the value |
| DataMem.FaultExactlyOutside | picmicro.py:34-49 | a read or write faults exactly when the address is outside [0, 0x1000) |
| DataMem.ReadAfterWrite | picmicro.py:26-52 | a write to a backed cell is read back, and other cells read as before |
| DataMem.PeekOther | picmicro.py:36-38 | updating one cell does not change another |
| DataMem.GapIsDead | picmicro.py:36-52 | addresses in [0x300, 0xF00) read 0 and writes to them change nothing |
| DataMem.SetGetRoundTrip | test/test_picmicro.py:19-36 | writing 10 to GPR 100 or to WREG reads back 10; copying cell addr2 into addr1 makes the two read equal |
| DataMem.DataMemory.constructor | minipic/picmicro.py:13-17 | the WREG, BSR and STATUS cells exist from construction and hold 0 |
| DataMem.DataMemory.Read | picmicro.py:40-52 | faults exactly outside [0, 0x1000); a gap address reads 0; a backed address reads the stored byte |
| DataMem.DataMemory.Write | picmicro.py:26-38 | faults with `OutOfDataMemoryAccess` exactly outside [0, 0x1000) and then changes nothing; otherwise the memory is the stored result |
| ProgramMem.Slot | minipic/picmicro.py:26-29 | a byte address maps to slot addr >> 1, inside the 0x100000 slots |
| ProgramMem.Fetch | minipic/picmicro.py:26-27 | a fetch succeeds exactly for -0x200000 <= addr < 0x200000 (Python negative indexing included); for addr >= 0 it reads slot addr >> 1 |
| ProgramMem.StoreOp | minipic/picmicro.py:28-29 | a store succeeds on the same range, keeps 0x100000 slots, and the slot then holds the operation |
| ProgramMem.OddAddressAliases | minipic/picmicro.py:26-29 | byte addresses 2k and 2k+1 name the same slot |
| ProgramMem.FetchAfterStore | minipic/picmicro.py:26-29 | a store is fetched back at both aliasing addresses, and every other slot is unchanged |
| ProgramMem.ProgramMemory.constructor | minipic/picmicro.py:23-25 | program memory starts with every slot holding NOP |
| ProgramMem.ProgramMemory.Get | minipic/picmicro.py:26-27 | reads slot addr >> 1 |
| ProgramMem.ProgramMemory.Set | minipic/picmicro.py:28-29 | writes slot addr >> 1 and changes nothing else; an address outside the list fails and changes nothing |
| CallStack.PushVal | minipic/picmicro.py:68-74 | a push appends when there is room and is dropped on a full stack; shadows unchanged |
| CallStack.PopVal | minipic/picmicro.py:75-80 | pop on an empty stack gives 0 and leaves it; otherwise it removes and returns the top |
| CallStack.TopVal | minipic/picmicro.py:81-85 | top of an empty stack is 0, otherwise the value pop would return |
| CallStack.SetTopVal | minipic/picmicro.py:86-91 | setting top of an empty stack is ignored; otherwise only the top entry changes |
| CallStack.PushThenPop | minipic/picmicro.py:68-80 | pop after push returns the pushed value and the previous stack (LIFO) |
| CallStack.PushOnFullIsDropped | minipic/picmicro.py:71-72 | a push on a full 31-entry stack changes nothing |
| CallStack.PushKeepsWellFormed | minipic/picmicro.py:68-74 | a push of a PC value keeps at most 31 entries, each a PC value |
| CallStack.PopKeepsWellFormed | minipic/picmicro.py:75-80 | a pop keeps the stack well formed and returns a PC value |
| CallStack.Reversed | minipic/picmicro.py:68-80 | reversal keeps the length |
| CallStack.PushesThenPops | minipic/picmicro.py:68-80 | popping n values after pushing n values returns them in reverse order and restores the stack |
| CallStack.PopManySplit | minipic/picmicro.py:75-80 | popping n+1 values is popping n and then one more |
| CallStack.PushAsWritten | minipic/picmicro.py:68-74 | the commented-out push raises IndexError exactly when stkptr has reached the storage length without passing SIZE; otherwise it writes storage[stkptr] and increments stkptr |
| CallStack.PushAsWrittenOverruns | minipic/picmicro.py:71-73 | on a full stack the guard `stkptr > SIZE` lets the write to storage[31] through, out of range, while the intended push drops the value |
| CallStack.Stack.constructor | minipic/picmicro.py:63-67 | a fresh stack is empty with zero shadows |
| CallStack.Stack.Push | minipic/picmicro.py:68-74 | the new stack is the pushed stack value |
| CallStack.Stack.Pop | minipic/picmicro.py:75-80 | returns and removes as the pop value says |
| CallStack.Stack.Top | minipic/picmicro.py:81-85 | returns the top value |
| CallStack.Stack.SetTop | minipic/picmicro.py:86-91 | the new stack is the stack with its top replaced |
| Core.MaskedIncrement | picmicro.py:78-79 | the masked increment `(pc + delta) & 0x200000` can only be 0 or 0x200000 |
| Core.MaskedIncrementBreaksTest | picmicro.py:78-79 | incrementing 0 by 2 gives 0 under the mask, while wrapping gives 2 and then 12, as test/test_picmicro.py:45-49 expects |
| Core.Mcu.constructor | minipic/picmicro.py:31-37 | PC 0, WREG/BSR/STATUS 0, empty stack, all program slots NOP |
| Core.Mcu.Wreg | picmicro.py:81-83 | reads the data cell 0xFE8 |
| Core.Mcu.Bsr | picmicro.py:92-94 | reads the data cell 0xFE0 |
| Core.Mcu.Status | picmicro.py:88-90 | reads the data cell 0xFD8 |
| Core.Mcu.SetWreg | picmicro.py:84-86 | writes the data cell 0xFE8 and nothing else |
| Core.Mcu.SetBsr | picmicro.py:95-97 | writes the data cell 0xFE0 and nothing else |
| Core.Mcu.IncPc | minipic/register.py:24-25 | the PC advances by delta, wrapped |
| Core.Mcu.SetStatusBits | op.py:29 | STATUS gets the named bits set, others kept |
| Core.Mcu.ResetStatusBits | op.py:30 | STATUS gets the named bits cleared, others kept |
| Core.Mcu.SetThenResetStatusBits | op.py:29-30 | the set-then-reset pair leaves STATUS equal to the affect primitive |
| Core.Mcu.AffectStatusBits | test/test_picmicro.py:51-55 | STATUS becomes the affect of the old status |
| Ops.Size | minipic/op.py:14-106 | SIZE is 1 for RETURN, 4 for CALL and GOTO, 2 for every other operation |
| Semantics.Resolve | minipic/op.py:3-8 | with a=1 the address is BSR·0x100 + f; with a=0 its low byte is f and it is a backed cell |
| Semantics.ResolveIsBitwise | minipic/op.py:4-7 | the arithmetic address equals the source's `(bsr << 8) \| f` / `0x0F00 \| f` bit formula |
| Semantics.ResolveBitwiseHalves | minipic/op.py:4-7 | the low byte of the bit formula is f; the high byte is BSR with a=1, 0 for f < 0x80 and 0x0F otherwise |
| Semantics.FastAccessWindow | minipic/op.py:6-7 | with a=0 the address does not depend on BSR and lies in [0, 0x7F] or [0xF80, 0xFFF] |
| Semantics.BankedInSpaceIffLowBank | minipic/op.py:4-5 | a banked address lies in data memory iff BSR < 0x10 |
| Semantics.Steer | minipic/op.py:10-11 | d=0 sends the result to WREG, d=1 to the operand cell |
| Semantics.StatusOverwrite | op.py:29-30 | a second status write replaces the first |
| Semantics.AddSpec | op.py:6-30 | `_add` changes neither PC nor stack |
| Semantics.AndSpec | op.py:32-47 | `_and` changes neither PC nor stack |
| Semantics.AddwfSpec | op.py:55-69 | `addwf` changes neither PC nor stack |
| Semantics.AddwfcSpec | op.py:74-90 | `addwfc` changes neither PC nor stack |
| Semantics.AndwfSpec | op.py:95-109 | `andwf` changes neither PC nor stack |
| Semantics.ClrfSpec | op.py:114-126 | `clrf` changes neither PC nor stack |
| Semantics.ComfSpec | op.py:131-153 | `comf` changes neither PC nor stack |
| Semantics.CompareSpec | op.py:158-201 | the compare-and-skip commands change no data cell and no stack entry |
| Semantics.AddWithCarry | op.py:74-90 | the steered cell, when backed and not STATUS, holds W + f + C; PC and stack unchanged |
| Semantics.AddwfcAsWritten | op.py:74-90 | the two-`_add` `addwfc` changes neither PC nor stack |
| Semantics.BtgSpec | minipic/op.py:44-53 | BTG faults iff its operand is outside data memory; otherwise PC + 2 and the stack unchanged |
| Semantics.BtgAsWritten | minipic/op.py:50-53 | as written, BTG faults on the same operands and also advances PC by 2 with the stack unchanged |
| Semantics.DecfszSpec | minipic/op.py:81-94 | DECFSZ faults iff its operand is outside data memory; otherwise PC + 2 or PC + 4 and the stack unchanged |
| Semantics.DecfszAsWritten | minipic/op.py:87-94 | as written, DECFSZ fails its byte assertion exactly when the operand reads 0 |
| Semantics.CallSpec | minipic/op.py:67-79 | CALL sets PC to n·2, leaves data memory, and with s=1 saves WREG, STATUS and BSR in the shadows |
| Semantics.ReturnSpec | minipic/op.py:104-114 | RETURN with s=0 leaves data memory; with s=1 WREG, STATUS and BSR come back from the shadows |
| Semantics.ExecSpec | minipic/op.py:17-114 | every operation other than CALL and RETURN leaves the stack as it was |
| ByteOps.Add | op.py:6-30 | the new machine state is `_add`'s specification, or the fault it raises |
| ByteOps.And | op.py:32-47 | the new machine state is `_and`'s specification, or the fault |
| ByteOps.Addwf | op.py:55-69 | the new machine state is `addwf`'s specification |
| ByteOps.Addwfc | op.py:74-90 | the new machine state is the add-with-carry specification |
| ByteOps.StoreWithCarry | op.py:74-90 | stores the three-operand sum and its flags |
| ByteOps.Andwf | op.py:95-109 | the new machine state is `andwf`'s specification |
| ByteOps.Clrf | op.py:114-126 | the new machine state is `clrf`'s specification |
| ByteOps.Comf | op.py:131-153 | the new machine state is `comf`'s specification |
| ByteOps.Cpfseq | op.py:158-169 | the new machine state is `cpfseq`'s specification |
| ByteOps.Cpfsgt | op.py:174-185 | the new machine state is `cpfsgt`'s specification |
| ByteOps.Cpfslt | op.py:190-201 | the new machine state is `cpfslt`'s specification |
| ByteOps.Addlw | op.py:206-212 | `addlw` is `_add` on the WREG cell |
| ByteOps.CompareUnfolds | op.py:158-201 | cpfseq skips iff f = W, cpfsgt iff f < W, cpfslt iff f > W |
| ByteOps.AddUnfolds | op.py:13-30 | `_add` writes `arg1 + value` to the operand and overwrites all five flags |
| ByteOps.AndUnfolds | op.py:39-47 | `_and` writes `arg1 & value` and overwrites only N and Z |
| ByteOps.AddwfcUnfolds | op.py:74-90 | `addwfc` adds W, f and the carry into the steered cell |
| ByteOps.ComfUnfolds | op.py:145-153 | `comf` sets N, Z for `~f` and writes `~f` to the steered cell |
| ByteFacts.AddStoresSumAndFlags | op.py:13-30 | the cell gets arg1 + value; the five flags are AddFlags; the other status bits, other cells, PC and stack are unchanged |
| ByteFacts.AddToStatus | op.py:13-30 | `_add` on STATUS itself succeeds and leaves STATUS as the top three bits of the sum above the five flags of the addition; every other cell, the PC and the stack are unchanged |
| ByteFacts.AffectAll | op.py:29-30 | affecting all five flags keeps the top three bits and replaces the rest |
| ByteFacts.TwoCellsChanged | op.py:28-30 | writing the result and STATUS changes no other cell |
| ByteFacts.AddStatusFlags | op.py:29-30 | the flag bits become the computed flags and the other status bits are kept |
| ByteFacts.AddResult | op.py:13-30 | the machine after `_add` in closed form |
| ByteFacts.AddSequence | test/test_ops.py:9-28 | successive adds of 0, 10, 0xF, 0x70, 0x80 give 0, 10, 25, 0x89, 0x09 with STATUS Z, 0, DC, OV\|N, C\|OV |
| ByteFacts.AndKeepsArithmeticFlags | op.py:39-47 | `_and` stores the AND, sets Z and N from it, and keeps C, DC, OV and all other cells |
| ByteFacts.AndResult | op.py:39-47 | the machine after `_and` in closed form |
| ByteFacts.ComfKeepsArithmeticFlags | op.py:145-153 | `comf` stores `~f` to the steered cell, sets Z and N from it, and keeps C, DC, OV and all other cells |
| ByteFacts.AddwfSteersResult | op.py:55-69 | d=0 puts W+f in WREG and leaves f; d=1 puts f+W in f and leaves WREG; the flags are those of the sum |
| ByteFacts.AddwfIntoWreg | op.py:55-69 | with d=0 WREG gets W+f and f is unchanged |
| ByteFacts.AddwfIntoFile | op.py:55-69 | with d=1 f gets f+W and WREG is unchanged |
| ByteFacts.AddlwExample | test/test_ops.py:30-34 | WREG 0x10 plus 0x15 gives 0x25 with STATUS 0 |
| ByteFacts.AddwfExample | test/test_ops.py:36-41 | WREG 0x17 plus f 0xC2 gives WREG 0xD9 with f still 0xC2 |
| ByteFacts.AddwfcExample | test/test_ops.py:43-50 | C=1, f=0x4D, W=2 gives W=0x50, C=0 and f unchanged, both as written and corrected |
| ByteFacts.AddwfcAsWrittenLosesCarry | op.py:86-90 | with W=1, f=0xFF, C=0 the two-step code leaves C clear though 1+0xFF carries out; the corrected add sets it |
| ByteFacts.AddwfcAddsCarry | op.py:74-90 | the corrected `addwfc` is one add of W, f and C with three-operand flags |
| ByteFacts.AddWithCarryStores | op.py:74-90 | the steered cell gets W + f + C and the flags are AddcFlags |
| ByteFacts.ClrfSetsZero | op.py:121-126 | `clrf` writes 0, sets Z, keeps the other flags and all other cells |
| ByteFacts.CompareSkipsOnRelation | op.py:158-201 | a compare skips (PC + 2) exactly on its relation, and changes no cell or stack |
| OpFacts.FaultIffOperandOutside | picmicro.py:34-49 | an operation faults iff its operand address lies outside [0, 0x1000) |
| OpFacts.FastAccessNeverFaults | minipic/op.py:6-7 | an operation using the access bank (a=0) never faults |
| OpFacts.ExecKeepsInv | minipic/op.py:20-114 | every operation keeps the PC in range and the stack well formed |
| OpFacts.StackFreeKeepsInv | minipic/op.py:20-102 | operations other than CALL/RETURN leave the stack alone and keep the invariant |
| OpFacts.ByteOpKeepsInv | op.py:55-212 | the commands of `op.py` leave the stack alone and keep the invariant |
| OpFacts.MovlwLoadsWreg | minipic/op.py:25-31 | MOVLW sets WREG to k, advances PC by 2, writes nothing else |
| OpFacts.MovwfCopiesWreg | minipic/op.py:33-42 | MOVWF copies WREG to the operand cell, keeps WREG, advances PC by 2, writes nothing else |
| OpFacts.BtgTogglesOneBit | minipic/op.py:44-53 | BTG flips bit b of the operand, keeps the other bits and cells, and advances PC by 2 |
| OpFacts.BtgAsWrittenTogglesWrongBit | minipic/op.py:52 | BTG 0,3,0 on a zero cell sets bit 0 as written but bit 3 as intended |
| OpFacts.BtfscSkipsOnClear | minipic/op.py:55-65 | BTFSC writes nothing; PC + 4 when bit b is 0, PC + 2 otherwise |
| OpFacts.CallPushesReturnAddress | minipic/op.py:67-79 | CALL pushes PC+4, jumps to n << 1, and with s=1 copies WREG, STATUS, BSR into the shadows |
| OpFacts.CallThenReturn | minipic/op.py:67-114 | RETURN after CALL resumes at the old PC + 4 with the old stack, and with s=1 restores WREG, STATUS, BSR |
| OpFacts.ReturnOnEmptyStack | minipic/op.py:110 | RETURN on an empty stack jumps to 0 |
| OpFacts.DecfszSkipsOnZero | minipic/op.py:81-94 | DECFSZ stores src-1 (mod 256) in the steered cell; PC + 4 when it reaches 0, PC + 2 otherwise |
| OpFacts.DecfszAsWrittenFailsOnZero | minipic/op.py:90-93 | on src 0 the code puts -1 and fails the byte assertion; the corrected one stores 0xFF |
| OpFacts.DecfszAsWrittenAgreesAboveZero | minipic/op.py:87-94 | for src ≠ 0 the code as written and the corrected DECFSZ agree |
| OpFacts.DecrementAgrees | minipic/op.py:90-91 | for v ≠ 0 the integer and byte decrements agree, including the zero test |
| OpFacts.GotoJumps | minipic/op.py:96-102 | GOTO sets PC to k << 1, inside program memory, and changes nothing else |
| Execute.ExecNop | minipic/op.py:20-23 | NOP's new state is its specification |
| Execute.ExecMovlw | minipic/op.py:25-31 | MOVLW's new state is its specification |
| Execute.ExecMovwf | minipic/op.py:33-42 | MOVWF's new state is its specification |
| Execute.ExecBtg | minipic/op.py:44-53 | BTG's new state is the corrected specification |
| Execute.ExecBtfsc | minipic/op.py:55-65 | BTFSC's new state is its specification |
| Execute.SkipOrStep | minipic/op.py:63-65 | PC advances by 4 on a skip and by 2 otherwise |
| Execute.ExecCall | minipic/op.py:67-79 | CALL's new state is its specification |
| Execute.ExecDecfsz | minipic/op.py:81-94 | DECFSZ's new state is the corrected specification |
| Execute.ExecGoto | minipic/op.py:96-102 | GOTO's new state is its specification |
| Execute.ExecReturn | minipic/op.py:104-114 | RETURN's new state is its specification |
| Execute.AdvanceOnPass | op.py:55-212 | a byte command that succeeded then advances PC by its size 2 |
| Execute.Execute | minipic/op.py:17-18 | executing any operation changes the machine exactly as its specification says |
| Execute.ExecArith | op.py:55-212 | add/and commands change the machine as specified, then advance PC |
| Execute.ExecFileOp | op.py:114-153 | `clrf` and `comf` change the machine as specified, then advance PC |
| Execute.ExecCompare | op.py:158-201 | compare-and-skip commands change PC as specified |
| Decoder.DecodeOp | minipic/cli.py:97-153 | `decode_op` produces only NOP, MOVLW, MOVWF, BTFSC or BTG, or nothing |
| Decoder.Decode | minipic/cli.py:97-153 | the completed decoder gives CALL exactly for the CALL pattern, with s from bit 8 |
| Decoder.FieldsInRange | minipic/cli.py:136-153 | f ≤ 0xFF, a ≤ 1, b ≤ 7, and f is the low byte of the opcode |
| Decoder.ExactNops | minipic/cli.py:101-107 | opcodes 0x0000, 0x0004 and 0x0007 decode to NOP |
| Decoder.StubsDecodeToNop | minipic/cli.py:110-146 | RETFIE, MOVLB, LFSR, ADDLW, ADDWF and BRA patterns decode to NOP |
| Decoder.MovlwPattern | minipic/cli.py:125-129 | any opcode with top byte 0x0E decodes to MOVLW of its low byte |
| Decoder.MovwfPattern | minipic/cli.py:131-136 | any opcode with top seven bits 0x6E00 decodes to MOVWF(f, a) |
| Decoder.BtfscPattern | minipic/cli.py:148-151 | any opcode with top nibble 0xB decodes to BTFSC(f, b, a) |
| Decoder.BtgPattern | minipic/cli.py:148-153 | any opcode with top nibble 0x7 decodes to BTG(f, b, a) |
| Decoder.DecodeEncode | minipic/cli.py:97-153 | decoding the encoding of NOP, MOVLW, MOVWF, BTFSC or BTG gives the operation back |
| Decoder.BitOpFields | minipic/cli.py:151-153 | the bit-operation encoding places f, b, a where the decoder reads them |
| Decoder.MovlwDecodes | minipic/cli.py:125-129 | for every k, 0x0E00 \| k decodes to MOVLW(k) |
| Decoder.CallDecodesToNone | minipic/cli.py:131-134 | a CALL-pattern opcode decodes to no operation as written |
| Decoder.UnmatchedDecodesToNone | minipic/cli.py:148-153 | opcodes matching no pattern (0xF000, 0x5000) fall off the end with no operation |
| Decoder.DecodeCall | minipic/cli.py:131-134 | the corrected two-word decoder decodes the encoding of CALL n, s back to CALL n, s |
| Decoder.TargetBytes | minipic/cli.py:131-134 | a 20-bit CALL target splits into a top nibble and two bytes that rebuild it |
| Decoder.DecodeCallBytes | minipic/cli.py:131-134 | the two CALL words built from s and three target bytes decode to that CALL |
| Decoder.CallFirstWord | minipic/cli.py:131-134 | the first CALL word matches the CALL pattern and carries s and the low byte |
| Decoder.CallSecondWord | minipic/cli.py:131-134 | the second CALL word carries the high twelve bits of the target |
| Decoder.ThreeBytes | minipic/cli.py:131-134 | a 20-bit target is its top, middle and low bytes recombined |
| Decoder.DecodeAgrees | minipic/cli.py:97-153 | the corrected decoder agrees with `decode_op` wherever the latter returns an operation, decodes CALL, and gives NOP elsewhere |
| HexLoad.Slice | minipic/cli.py:158-161 | Python slicing: clipped to the string, the characters at the indices taken |
| HexLoad.DigitValue | minipic/cli.py:158-160 | a hex digit has a value below 16 |
| HexLoad.Digit | minipic/cli.py:158-160 | the digit of a value below 16 is a hex digit with that value |
| HexLoad.Pow16 | minipic/cli.py:158-160 | powers of 16 are positive |
| HexLoad.Pow16Monotone | minipic/cli.py:158-160 | powers of 16 grow with the exponent |
| HexLoad.HexValue | minipic/cli.py:158-160 | an n-digit hex string has value below 16^n |
| HexLoad.ParseHex | minipic/cli.py:158-160 | `int(s, 16)` succeeds iff s is a non-empty string of hex digits, with value below 16^length |
| HexLoad.HexDigits | minipic/cli.py:158-160 | writing a value as n digits gives n hex digits |
| HexLoad.ParseHexDigits | minipic/cli.py:158-160 | parsing the digits of a value gives the value back |
| HexLoad.HexValueOfDigits | minipic/cli.py:158-160 | the value of the digits of v is v |
| HexLoad.ParseFields | minipic/cli.py:158-161 | a record parses iff its length, address and type fields are hex; the fields are in range and the data part has at most 2·LL characters; any failure is a ValueError |
| HexLoad.WordText | minipic/cli.py:165 | the text of one word is at most four characters |
| HexLoad.ToWord | minipic/cli.py:131-153 | the 16-bit word handed to the decoder has the value of the number read |
| HexLoad.WordOfBytes | minipic/cli.py:165-166 | the word of a high and a low byte is hi·256 + lo |
| HexLoad.ParseWord | minipic/cli.py:165-166 | a word parses iff its byte-swapped text is valid hex, and is then the value of that text |
| HexLoad.PutAt | minipic/cli.py:167-168 | a store at a byte address succeeds iff the address is in the program list, and then replaces slot addr >> 1 |
| HexLoad.NextWord | minipic/cli.py:164-166 | the second word the completed decoder gets: the readable word at i + 2 when the record holds one, else 0xF000 (used by the CALL rows below) |
| HexLoad.StoreWords | minipic/cli.py:164-168 | storing a data record keeps the program at 0x100000 slots; which slot gets which word is stated by the StoreWords lemmas below |
| HexLoad.LineStep | minipic/cli.py:157-173 | processing one record keeps the program at 0x100000 slots; each record type is stated by the lemmas below |
| HexLoad.LoadFrom | minipic/cli.py:155-173 | loading keeps the program at 0x100000 slots; each record type is stated by the lemmas below |
| HexLoad.Load | minipic/cli.py:155-173 | the load with the completed decoder keeps the program at 0x100000 slots |
| HexLoad.LoadAsWritten | minipic/cli.py:155-173 | the load with `decode_op` as written keeps the program at 0x100000 slots |
| HexLoad.DataRecordStored | minipic/cli.py:162-168 | a data record stores its words at the current upper address half plus its address field; on an error the load stops with it, otherwise it goes on with the next line and the same upper half |
| HexLoad.StoreWordsPassIff | minipic/cli.py:164-168 | a data record completes iff every one of its words is hex and lands inside program memory |
| HexLoad.StoreWordsKeepsOutside | minipic/cli.py:164-168 | slots below the first word's slot and from the slot past base + len on keep their contents |
| HexLoad.StoreWordsStores | minipic/cli.py:164-168 | the word at offset j, decoded with its following word, ends in slot (base + j) >> 1 whenever every earlier word was stored, whether or not the record completes |
| HexLoad.StoreWordsHere | minipic/cli.py:165-168 | the word at the current offset ends in its slot; no later word of the record overwrites it |
| HexLoad.EndOfFileStops | minipic/cli.py:169-170 | an End-of-File record stops loading, ignoring the lines after it |
| HexLoad.ExtendedAddressSetsHigher | minipic/cli.py:171-173 | an Extended Linear Address record sets the high address for the records after it |
| HexLoad.OtherRecordSkipped | minipic/cli.py:162-173 | a record of any other type is skipped |
| HexLoad.EndOfFileRecord | minipic/cli.py:158-161 | the record ":00000001FF" parses as length 0, address 0, type 1 |
| HexLoad.ExtendedAddressRecord | minipic/cli.py:158-173 | ":020000040001F9" parses as length 2, type 4 with data value 1 |
| HexLoad.RecordField | minipic/cli.py:158-160 | a field holding the n digits of v parses to v |
| HexLoad.ChecksumNotRead | minipic/cli.py:158-161 | characters after the data field (the checksum) do not change the parsed record |
| HexLoad.WordIsByteSwapped | minipic/cli.py:165-166 | the bytes lo, hi in the record give the word hi·256 + lo |
| HexLoad.WordValue | minipic/cli.py:165-166 | four digits hi, lo parse to hi·256 + lo |
| HexLoad.DigitsOfWord | minipic/cli.py:165-166 | the hex digits of a word are those of its two bytes |
| HexLoad.FirstWordStored | minipic/cli.py:164-168 | the first word of a record is decoded into slot base >> 1 |
| HexLoad.CallRecordStoresNone | minipic/cli.py:131-168 | as written, a record starting with a CALL word stores no operation in its slot |
| HexLoad.CallRecordStoresCall | minipic/cli.py:164-168 | with the corrected decoder that slot holds the CALL with its full target |
| HexLoad.LoadHex | minipic/cli.py:155-173 | the program memory and the outcome after loading are those of `Load`, whose per-record and per-slot effects are the lemmas above |
| HexLoad.LoadFromLine | minipic/cli.py:157-173 | loading from line k is one record step followed by loading the rest |
| HexLoad.LoadLine | minipic/cli.py:158-173 | one record changes program memory and the high address as the record step says (per slot: the StoreWords lemmas) |
| HexLoad.StoreRecord | minipic/cli.py:164-168 | program memory and outcome after a data record are those of `StoreWords`, so each word lands in its slot as StoreWordsStores says |
| HexLoad.StoreOne | minipic/cli.py:165-168 | one word is stored, or the record fails, as specified |
| HexLoad.StoreWordsUnreadable | minipic/cli.py:166 | a word that is not hex makes the record fail with ValueError and store nothing more |
| HexLoad.StoreWordsAt | minipic/cli.py:167-168 | a word at an address outside program memory fails with IndexError; otherwise it is stored and the rest follows |
| Interpret.Current | minipic/interpreter.py:10 | the operation fetched is the one in slot pc >> 1 |
| Interpret.StepSpec | minipic/interpreter.py:9-12 | a step by any operation other than CALL or RETURN leaves the stack |
| Interpret.StepAsWritten | minipic/interpreter.py:9-12 | the step as written faults exactly when the corrected step does |
| Interpret.StepKeepsInv | minipic/interpreter.py:9-12 | a step keeps PC in [0, 0x200000) and the stack well formed |
| Interpret.StepAsWrittenOverAdvances | minipic/interpreter.py:11-12 | the step as written ends SIZE past the corrected step |
| Interpret.NopStepAsWrittenSkips | minipic/interpreter.py:11-12 | a NOP at 0 ends at 2 corrected but at 4 as written |
| Interpret.ReturnStepAsWrittenIsOdd | minipic/interpreter.py:11-12 | a RETURN to 0x100 ends at 0x101 as written |
| Interpret.Interpreter.constructor | minipic/interpreter.py:7-8 | a fresh interpreter holds a reset core |
| Interpret.Interpreter.Step | minipic/interpreter.py:9-12 | one step changes the core exactly as fetch-then-execute specifies |

## Left out

- Tracing: the `trace.add_event` calls of `SFR` and `GPR` are a logging sink. `SFR` and `GPR` otherwise behave as `ByteRegister`, so they are not modelled separately.
- Cell identity: `DataMemory.__getitem__` hands out register objects through `setdefault`. The model keeps a map from addresses to byte values, so it does not state that repeated lookups return the same object.
- The two data memories are unified into the bounded one of `picmicro.py`. The unbounded `minipic/picmicro.py` dictionary is not modelled beyond its initial WREG/BSR/STATUS cells.
- Register.Status: the `minipic` `Status` stub drops every write, which would make every flag a no-op. The core therefore keeps STATUS as an ordinary cell written through the affect primitive, as in `op.py`. The stub's no-op writes are stated on `Register.Status` alone.
- Semantics.AddSpec: its own ensures states only that PC and stack are unchanged; the stored result and flags are stated by the ByteFacts and ByteOps lemmas.
- Semantics.AndSpec: its own ensures states only that PC and stack are unchanged; the stored result and flags are stated by the ByteFacts and ByteOps lemmas.
- Semantics.AddwfSpec: its own ensures states only that PC and stack are unchanged; the stored result and flags are stated by the ByteFacts and ByteOps lemmas.
- Semantics.AddwfcSpec: its own ensures states only that PC and stack are unchanged; the stored result and flags are stated by the ByteFacts and ByteOps lemmas.
- Semantics.AndwfSpec: its own ensures states only that PC and stack are unchanged; the stored result and flags are stated by the ByteFacts and ByteOps lemmas.
- Semantics.ClrfSpec: its own ensures states only that PC and stack are unchanged; the stored result and flags are stated by the ByteFacts and ByteOps lemmas.
- Semantics.ComfSpec: its own ensures states only that PC and stack are unchanged; the stored result and flags are stated by the ByteFacts and ByteOps lemmas.
- Semantics.CompareSpec: its own ensures states only that data and stack are unchanged; the skip is stated by ByteOps.CompareUnfolds and ByteFacts.CompareSkipsOnRelation.
- Core.Mcu.SetStatusBits, Core.Mcu.ResetStatusBits, Core.Mcu.AffectStatusBits: `setStatusBits`, `resetStatusBits` and `affectStatusBits` are called by `op.py` and the tests but are not defined in any source file. Their meaning is inferred from those calls.
- DataMem.DataMemory.Write: the value is a `Byte`, so the source's `0 <= byte <= 0xff` assertion is a type, and its ordering before the address check is not observable.
- Python crashes are not modelled; each call gets its evident meaning instead. Among them:
  - the names missing from `minipic/op.py`'s imports (`BSR`, `STATUS`);
  - `pic`/`.set` in `RETURN`;
  - `other`/`RegularReg` in `picmicro.py`;
  - `Status()` without its trace argument, and the `MCU` without a `stack` field;
  - minipic/interpreter.py:4 imports `PICmicro`, but minipic/picmicro.py defines only `MCU`;
  - minipic/interpreter.py:10 indexes program memory with the `PC` object, whose `addr >> 1` has no `__rshift__` to call;
  - op.py:169, 185 and 201 call `pic.incPC`, but picmicro.py:78 defines `inc_pc`;
  - picmicro.py:76 assigns `self.status = 0`, but `status` is a property without a setter.
- Shared default memory: picmicro.py:66 evaluates `data=DataMemory()` once, so every `PICmicro()` built without an argument shares one data memory. The model gives each core its own memory.
- CALL pushes PC+4 wrapped modulo 0x200000. The stack's `0 <= value < PC_SUP` assertion would otherwise fail for a CALL in the last two words.
- HexLoad.StoreWords: its own ensures states only the program length. The slot of each word, the untouched slots and when the record completes are stated by StoreWordsStores, StoreWordsKeepsOutside and StoreWordsPassIff.
- HexLoad.LineStep: its own ensures states only the program length. Each record type is stated through LoadFrom by DataRecordStored, EndOfFileStops, ExtendedAddressSetsHigher and OtherRecordSkipped.
- HexLoad.LoadFrom: its own ensures states only the program length. Each record type is stated by DataRecordStored, EndOfFileStops, ExtendedAddressSetsHigher and OtherRecordSkipped.
- HexLoad.Load: its own ensures states only the program length; it is LoadFrom from the first line with upper half 0.
- HexLoad.LoadAsWritten: its own ensures states only the program length; it is LoadFrom with `decode_op` as the decoder.
- HexLoad.LoadHex: its ensures equates memory and outcome with `Load`. Per-record and per-slot effects are stated on `LoadFrom` and `StoreWords` by the lemmas named above.
- HexLoad.LoadLine: its ensures equates the record's effect with `LineStep`. A data record's stores are stated by DataRecordStored and the StoreWords lemmas.
- HexLoad.StoreRecord: its ensures equates memory and outcome with `StoreWords`. Which slot gets which word is stated by StoreWordsStores, StoreWordsKeepsOutside and StoreWordsPassIff.
- HexLoad.ParseHex: `int(s, 16)` also accepts surrounding whitespace, a sign, underscores and a `0x` prefix. The model accepts only non-empty strings of hex digits; other input is a ValueError.
- Decoder.Decode: `decode_op` reads one word. The corrected decoder also takes the following word to complete CALL. In the loader that is the next word of the same record, or 0xF000 when the record ends. A CALL split across two records is not joined.
- Decoder.Decode: an opcode that matches no pattern becomes NOP in the corrected decoder, where `decode_op` returns `None`.
- Decoder.DecodeOp: the `CMD_COPn` mask helpers are stated through the pattern lemmas rather than lemmas of their own.
- The CLI, `ports.py`, `asm_scaner.py`, the logging setup and `sfr.py` are not part of this model. They are I/O, concurrency, a lexer wrapper and constants.
- `load_hex` reads from a file handle. The model takes a sequence of lines.
- The commented-out instructions of `minipic/op.py` beyond RETURN are not modelled.

## Findings

| source | as written | input that shows it | evidently intended | confidence | as-written member | corrected member |
|---|---|---|---|---|---|---|
| minipic/op.py:52 | BTG toggles bit `self.a` | BTG f=0, b=3, a=0 on a zero cell sets bit 0 | toggle bit `self.b` | high; not executed | OpFacts.BtgAsWrittenTogglesWrongBit | OpFacts.BtgTogglesOneBit |
| minipic/op.py:90-93 | DECFSZ puts `src - 1` unchecked | src = 0 gives -1, failing `put`'s byte assertion | store 0xFF (decrement modulo 256) | high; not executed | OpFacts.DecfszAsWrittenFailsOnZero | OpFacts.DecfszSkipsOnZero |
| minipic/picmicro.py:71-73 | push guard `stkptr > SIZE` | push on a full stack (stkptr 31) writes storage[31], out of range | drop the push when full (`stkptr >= SIZE`) | high; not executed | CallStack.PushAsWrittenOverruns | CallStack.PushOnFullIsDropped |
| picmicro.py:78-79 | `inc_pc` uses `& PC_SUP` | pc 0, delta 2 gives 0; test/test_picmicro.py:45-49 expects 2 | `% PC_SUP`, as minipic/register.py:25 | high; not executed | Core.MaskedIncrementBreaksTest | Register.WrappedTwice |
| minipic/cli.py:131-168 | `decode_op` returns `None` for CALL, and the loader stores it | a record whose first word is 0xEC12 (any word whose top seven bits are 0xEC00) | decode the two-word CALL | medium; not executed | HexLoad.CallRecordStoresNone | HexLoad.CallRecordStoresCall |
| minipic/interpreter.py:11-12 | `step` adds SIZE after `execute` already moved PC | NOP at 0 ends at 4; RETURN to 0x100 ends at 0x101 | PC owned by `execute` alone | high; not executed | Interpret.StepAsWrittenOverAdvances | Interpret.StepKeepsInv |
| op.py:86-90 | `addwfc` is two `_add` calls, so the flags come from the carry add only | W=1, f=0xFF, C=0: the sum carries out but C ends clear | one three-operand add with its flags | medium; not executed | ByteFacts.AddwfcAsWrittenLosesCarry | ByteFacts.AddwfcAddsCarry |
