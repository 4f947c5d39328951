/**
  The Intel HEX loader of minipic/cli.py (`load_hex`). Each line is a record
  `:LLAAAATT<data>CC`; the loader reads the byte count LL, the address AAAA
  and the type TT, and for a data record (00) stores the decoded words of
  the data into program memory at `(higher << 16 | AAAA) + i`; an end-of-file
  record (01) stops loading and an extended linear address record (04) sets
  `higher`. The checksum CC is never read. Python's `int(s, 16)` raising
  ValueError and the program list raising IndexError abort the load, with
  the words stored so far kept.
 */
module HexLoad {
  import opened Bits
  import opened Wrappers
  import opened Ops
  import opened Decoder
  import opened ProgramMem

  /** The two exceptions that end a load early. */
  datatype LoadError = ValueError | IndexError

  /** Python's `s[i:j]` for 0 <= i, j: both ends are clamped to the length. */
  function Slice(s: string, i: nat, j: nat): (r: string)
    ensures |r| <= |s| && (i <= j ==> |r| <= j - i)
    ensures j <= |s| && i <= j ==> |r| == j - i
    ensures forall k :: 0 <= k < |r| ==> i + k < |s| && r[k] == s[i + k]
  {
    var lo := if i < |s| then i else |s|;
    var hi := if j < |s| then j else |s|;
    if hi <= lo then [] else s[lo..hi]
  }

  predicate IsHexDigit(c: char)
  {
    '0' <= c <= '9' || 'a' <= c <= 'f' || 'A' <= c <= 'F'
  }

  predicate AllHex(s: string)
  {
    forall k :: 0 <= k < |s| ==> IsHexDigit(s[k])
  }

  function DigitValue(c: char): (d: nat)
    requires IsHexDigit(c)
    ensures d < 16
  {
    if '0' <= c <= '9' then c as int - '0' as int
    else if 'a' <= c <= 'f' then c as int - 'a' as int + 10
    else c as int - 'A' as int + 10
  }

  /** The upper-case digit of a value below 16. */
  function Digit(d: nat): (c: char)
    requires d < 16
    ensures IsHexDigit(c) && DigitValue(c) == d
  {
    if d < 10 then ('0' as int + d) as char else ('A' as int + d - 10) as char
  }

  function Pow16(n: nat): (p: nat)
    ensures p >= 1
  {
    if n == 0 then 1 else 16 * Pow16(n - 1)
  }

  lemma {:induction false} Pow16Monotone(a: nat, b: nat)
    requires a <= b
    ensures Pow16(a) <= Pow16(b)
    decreases b
  {
    if a < b {
      Pow16Monotone(a, b - 1);
    }
  }

  /** The value of a string of hex digits, most significant first; it is below 16^|s|. */
  function HexValue(s: string): (v: nat)
    requires AllHex(s)
    ensures v < Pow16(|s|)
  {
    if |s| == 0 then 0 else HexValue(s[..|s| - 1]) * 16 + DigitValue(s[|s| - 1])
  }

  /** Python's `int(s, 16)` on the strings a HEX file holds: None is the ValueError of an empty or non-hex string. */
  function ParseHex(s: string): (r: Option<nat>)
    ensures r.Some? <==> |s| > 0 && AllHex(s)
    ensures r.Some? ==> r.value < Pow16(|s|)
  {
    if |s| > 0 && AllHex(s) then Some(HexValue(s)) else None
  }

  /** v written as n upper-case hex digits, most significant first. */
  function HexDigits(v: nat, n: nat): (s: string)
    ensures |s| == n && AllHex(s)
  {
    if n == 0 then [] else HexDigits(v / 16, n - 1) + [Digit(v % 16)]
  }

  /** Parsing n digits written for v gives v back, for every v below 16^n. */
  lemma {:induction false} ParseHexDigits(v: nat, n: nat)
    requires 0 < n && v < Pow16(n)
    ensures ParseHex(HexDigits(v, n)) == Some(v)
  {
    HexValueOfDigits(v, n);
  }

  lemma {:induction false} HexValueOfDigits(v: nat, n: nat)
    requires v < Pow16(n)
    ensures HexValue(HexDigits(v, n)) == v
  {
    if n > 0 {
      var s := HexDigits(v, n);
      assert s[..n - 1] == HexDigits(v / 16, n - 1);
      HexValueOfDigits(v / 16, n - 1);
    }
  }

  /** The fields of a record line: LL, AAAA, TT and the 2 * LL characters of data. */
  datatype Fields = Fields(len: nat, start: nat, kind: nat, data: string)

  /** Reading the fields of a line, as `load_hex` slices and converts them (minipic/cli.py:158-161). */
  function ParseFields(line: string): (r: Result<Fields, LoadError>)
    ensures r.Err? ==> r.error == ValueError
    ensures r.Ok? ==> r.value.len < 0x100 && r.value.start < 0x10000 && r.value.kind < 0x100
    ensures r.Ok? ==> |r.value.data| <= 2 * r.value.len
    ensures r.Ok? <==> ParseHex(Slice(line, 1, 3)).Some? && ParseHex(Slice(line, 3, 7)).Some?
                       && ParseHex(Slice(line, 7, 9)).Some?
  {
    var ll := ParseHex(Slice(line, 1, 3));
    var aaaa := ParseHex(Slice(line, 3, 7));
    var tt := ParseHex(Slice(line, 7, 9));
    if ll.None? || aaaa.None? || tt.None? then Err(ValueError)
    else
      Pow16Monotone(|Slice(line, 1, 3)|, 2);
      Pow16Monotone(|Slice(line, 3, 7)|, 4);
      Pow16Monotone(|Slice(line, 7, 9)|, 2);
      Ok(Fields(ll.value, aaaa.value, tt.value, Slice(line, 9, 9 + 2 * ll.value)))
  }

  /** The text of the word at byte offset i: byte i + 1 followed by byte i. */
  function WordText(data: string, i: nat): (s: string)
    ensures |s| <= 4
  {
    Slice(data, 2 * i + 2, 2 * i + 4) + Slice(data, 2 * i, 2 * i + 2)
  }

  /** A word as the loader holds it: the int that `int(text, 16)` returns for its four digits. */
  type HexWord = v: nat | v < 0x10000

  /** The 16-bit word with the value v, assembled from its two bytes, as the decoder takes it. */
  function ToWord(v: HexWord): (r: Word)
    ensures r as int == v
  {
    WordOfBytes(ByteOf(v / 0x100), ByteOf(v % 0x100));
    ((ByteOf(v / 0x100) as Word) << 8) | (ByteOf(v % 0x100) as Word)
  }

  lemma WordOfBytes(hi: bv8, lo: bv8)
    ensures ((((hi as Word) << 8) | (lo as Word)) as int) == hi as int * 0x100 + lo as int
  {
  }

  /** The word at byte offset i of the data, or None for the ValueError of `int`. */
  function ParseWord(data: string, i: nat): (r: Option<HexWord>)
    ensures r.Some? <==> ParseHex(WordText(data, i)).Some?
    ensures r.Some? ==> r.value == ParseHex(WordText(data, i)).value
  {
    var text := WordText(data, i);
    match ParseHex(text)
    case None => None
    case Some(v) =>
      Pow16Monotone(|text|, 4);
      Some(v)
  }

  /**
    The reader of a record's data: the word at each byte offset. The loop
    over a record below reads its words through such a reader.
   */
  function WordsOf(data: string): nat -> Option<HexWord>
  {
    i => ParseWord(data, i)
  }

  /**
    The word that follows offset i in the same record, which the completed
    decoder reads as the second word of CALL; 0xF000 (a target page of 0)
    when the record ends there.
   */
  function NextWord(read: nat -> Option<HexWord>, len: nat, i: nat): (r: HexWord)
    ensures i + 2 < len && read(i + 2).Some? ==> r == read(i + 2).value
    ensures i + 2 >= len || read(i + 2).None? ==> r == 0xF000
  {
    if i + 2 < len then
      match read(i + 2)
      case Some(w) => w
      case None => 0xF000
    else 0xF000
  }

  /** The program list after `program[addr] = x`, or None for its IndexError. */
  function PutAt<T>(program: seq<T>, addr: int, x: T): (r: Option<seq<T>>)
    requires |program| == SLOTS
    ensures r.Some? <==> Slot(addr).Some?
    ensures r.Some? ==> r.value == program[Slot(addr).value := x]
  {
    match Slot(addr)
    case None => None
    case Some(k) => Some(program[k := x])
  }

  /**
    The inner loop of a data record (minipic/cli.py:164-168) from byte offset
    i on: each word is decoded and stored at base + i.
   */
  function StoreWords<T>(decode: (HexWord, HexWord) -> T, read: nat -> Option<HexWord>, len: nat, base: nat, i: nat, program: seq<T>)
    : (r: (seq<T>, Outcome<LoadError>))
    requires |program| == SLOTS
    ensures |r.0| == SLOTS
    decreases len - i
  {
    if i >= len then (program, Pass)
    else
      match read(i)
      case None => (program, Fail(ValueError))
      case Some(w) =>
        match PutAt(program, base + i, decode(w, NextWord(read, len, i)))
        case None => (program, Fail(IndexError))
        case Some(p) => StoreWords(decode, read, len, base, i + 2, p)
  }

  /** Where one line leaves the load: going on with a program and upper half, or stopped. */
  datatype Step<T> = Continue(program: seq<T>, higher: nat) | Stop(program: seq<T>, status: Outcome<LoadError>)

  /** One iteration of the loop over lines (minipic/cli.py:158-173). */
  function LineStep<T>(decode: (HexWord, HexWord) -> T, line: string, higher: nat, program: seq<T>): (r: Step<T>)
    requires |program| == SLOTS
    ensures |r.program| == SLOTS
  {
    match ParseFields(line)
    case Err(e) => Stop(program, Fail(e))
    case Ok(f) =>
      if f.kind == 0 then
        var (p, st) := StoreWords(decode, WordsOf(f.data), f.len, higher * 0x10000 + f.start, 0, program);
        if st.Fail? then Stop(p, st) else Continue(p, higher)
      else if f.kind == 1 then Stop(program, Pass)
      else if f.kind == 4 then
        match ParseHex(f.data)
        case None => Stop(program, Fail(ValueError))
        case Some(h) => Continue(program, h)
      else Continue(program, higher)
  }

  /**
    `load_hex` from the given line on, with `higher` the current upper half
    of the address: the program memory it leaves and how it ends.
   */
  function LoadFrom<T>(decode: (HexWord, HexWord) -> T, lines: seq<string>, higher: nat, program: seq<T>)
    : (r: (seq<T>, Outcome<LoadError>))
    requires |program| == SLOTS
    ensures |r.0| == SLOTS
    decreases |lines|
  {
    if |lines| == 0 then (program, Pass)
    else
      match LineStep(decode, lines[0], higher, program)
      case Stop(p, st) => (p, st)
      case Continue(p, h) => LoadFrom(decode, lines[1..], h, p)
  }

  /** `decode_op` as a decoder of word pairs: the following word is ignored. */
  function DecodeOneWord(w: HexWord, next: HexWord): Option<Op>
  {
    DecodeOp(ToWord(w))
  }

  /** The completed decoder on the words as loaded: a word and the one after it. */
  function DecodeWords(w: HexWord, next: HexWord): Op
  {
    Decode(ToWord(w), ToWord(next))
  }

  /** The load as written: each slot receives what `decode_op` returns, None included. */
  function LoadAsWritten(lines: seq<string>, program: seq<Option<Op>>): (r: (seq<Option<Op>>, Outcome<LoadError>))
    requires |program| == SLOTS
    ensures |r.0| == SLOTS
  {
    LoadFrom(DecodeOneWord, lines, 0, program)
  }

  /** The load with the completed decoder: every slot receives an operation. */
  function Load(lines: seq<string>, program: seq<Op>): (r: (seq<Op>, Outcome<LoadError>))
    requires |program| == SLOTS
    ensures |r.0| == SLOTS
  {
    LoadFrom(DecodeWords, lines, 0, program)
  }

  /** An end-of-file record stops the load: the lines after it are not read. */
  lemma EndOfFileStops<T>(decode: (HexWord, HexWord) -> T, line: string, rest: seq<string>, higher: nat, program: seq<T>)
    requires |program| == SLOTS
    requires ParseFields(line).Ok? && ParseFields(line).value.kind == 1
    ensures LoadFrom(decode, [line] + rest, higher, program) == (program, Pass)
  {
    assert ([line] + rest)[0] == line;
  }

  /** An extended linear address record sets the upper address half for the lines after it. */
  lemma ExtendedAddressSetsHigher<T>(decode: (HexWord, HexWord) -> T, line: string, rest: seq<string>, higher: nat, program: seq<T>)
    requires |program| == SLOTS
    requires ParseFields(line).Ok? && ParseFields(line).value.kind == 4
    requires ParseHex(ParseFields(line).value.data).Some?
    ensures LoadFrom(decode, [line] + rest, higher, program)
            == LoadFrom(decode, rest, ParseHex(ParseFields(line).value.data).value, program)
  {
    assert ([line] + rest)[0] == line && ([line] + rest)[1..] == rest;
  }

  /** A record of any other type than 00, 01 and 04 is skipped. */
  lemma OtherRecordSkipped<T>(decode: (HexWord, HexWord) -> T, line: string, rest: seq<string>, higher: nat, program: seq<T>)
    requires |program| == SLOTS
    requires ParseFields(line).Ok? && ParseFields(line).value.kind !in {0, 1, 4}
    ensures LoadFrom(decode, [line] + rest, higher, program) == LoadFrom(decode, rest, higher, program)
  {
    assert ([line] + rest)[0] == line && ([line] + rest)[1..] == rest;
  }

  /** The end-of-file record `:00000001FF` has type 01. */
  lemma EndOfFileRecord()
    ensures ParseFields(":00000001FF").Ok?
    ensures var f := ParseFields(":00000001FF").value; f.len == 0 && f.start == 0 && f.kind == 1
  {
    var line := ":00000001FF";
    RecordField(line, 1, 3, 0, 2);
    RecordField(line, 3, 7, 0, 4);
    RecordField(line, 7, 9, 1, 2);
  }

  /** The record `:020000040001F9` is an extended linear address record for upper half 1. */
  lemma ExtendedAddressRecord()
    ensures ParseFields(":020000040001F9").Ok?
    ensures var f := ParseFields(":020000040001F9").value;
      f.len == 2 && f.start == 0 && f.kind == 4 && ParseHex(f.data) == Some(1)
  {
    var line := ":020000040001F9";
    RecordField(line, 1, 3, 2, 2);
    RecordField(line, 3, 7, 0, 4);
    RecordField(line, 7, 9, 4, 2);
    RecordField(line, 9, 13, 1, 4);
  }

  /** A field of a concrete line that reads as v. */
  lemma RecordField(line: string, i: nat, j: nat, v: nat, n: nat)
    requires i + n == j <= |line| && 0 < n && v < Pow16(n)
    requires line[i..j] == HexDigits(v, n)
    ensures ParseHex(Slice(line, i, j)) == Some(v)
  {
    ParseHexDigits(v, n);
  }

  /** The checksum and anything after the data are never read. */
  lemma ChecksumNotRead(line: string, tail: string)
    requires ParseFields(line).Ok? && |line| == 9 + 2 * ParseFields(line).value.len
    ensures ParseFields(line + tail) == ParseFields(line)
  {
    var s := line + tail;
    assert Slice(s, 1, 3) == Slice(line, 1, 3);
    assert Slice(s, 3, 7) == Slice(line, 3, 7);
    assert Slice(s, 7, 9) == Slice(line, 7, 9);
    var len := ParseFields(line).value.len;
    assert Slice(s, 9, 9 + 2 * len) == Slice(line, 9, 9 + 2 * len);
  }

  /** The word at an offset is read with its two bytes swapped: bytes lo, hi give hi * 0x100 + lo. */
  lemma WordIsByteSwapped(lo: nat, hi: nat)
    requires lo < 0x100 && hi < 0x100
    ensures ParseWord(HexDigits(lo, 2) + HexDigits(hi, 2), 0).Some?
    ensures ParseWord(HexDigits(lo, 2) + HexDigits(hi, 2), 0).value == hi * 0x100 + lo
  {
    var data := HexDigits(lo, 2) + HexDigits(hi, 2);
    assert Slice(data, 2, 4) == HexDigits(hi, 2);
    assert Slice(data, 0, 2) == HexDigits(lo, 2);
    WordValue(hi, lo);
  }

  lemma WordValue(hi: nat, lo: nat)
    requires lo < 0x100 && hi < 0x100
    ensures ParseHex(HexDigits(hi, 2) + HexDigits(lo, 2)) == Some(hi * 0x100 + lo)
  {
    var v := hi * 0x100 + lo;
    assert Pow16(4) == 0x10000;
    ParseHexDigits(v, 4);
    DigitsOfWord(hi, lo);
    assert HexDigits(v / 16, 3) == HexDigits(hi, 2) + [Digit(lo / 16)];
    assert HexDigits(v, 4) == HexDigits(hi, 2) + [Digit(lo / 16)] + [Digit(lo % 16)];
    assert HexDigits(lo / 16, 1) == [Digit(lo / 16)];
    assert HexDigits(lo, 2) == [Digit(lo / 16)] + [Digit(lo % 16)];
    assert HexDigits(v, 4) == HexDigits(hi, 2) + HexDigits(lo, 2);
  }

  lemma DigitsOfWord(hi: nat, lo: nat)
    requires lo < 0x100 && hi < 0x100
    ensures (hi * 0x100 + lo) / 16 / 16 == hi && (hi * 0x100 + lo) / 16 % 16 == lo / 16
    ensures (hi * 0x100 + lo) % 16 == lo % 16 && lo / 16 / 16 == 0 && lo / 16 % 16 == lo / 16
  {
    var v := hi * 0x100 + lo;
    assert v / 16 == hi * 16 + lo / 16;
  }

  /** The load as imperative code: `load_hex` over a list of lines and a program memory. */
  method LoadHex(lines: seq<string>, pm: ProgramMemory) returns (r: Outcome<LoadError>)
    requires pm.Valid()
    modifies pm.memory
    ensures (pm.memory[..], r) == Load(lines, old(pm.memory[..]))
  {
    var higher: nat := 0;
    var k := 0;
    while k < |lines|
      invariant 0 <= k <= |lines|
      invariant LoadFrom(DecodeWords, lines[k..], higher, pm.memory[..]) == Load(lines, old(pm.memory[..]))
    {
      LoadFromLine(DecodeWords, lines, k, higher, pm.memory[..]);
      var stop;
      stop, r, higher := LoadLine(lines[k], higher, pm);
      if stop {
        return;
      }
      k := k + 1;
    }
    return Pass;
  }

  /** LoadFrom on the lines from k on takes the step of line k, then goes on with the lines after it. */
  lemma LoadFromLine<T>(decode: (HexWord, HexWord) -> T, lines: seq<string>, k: nat, higher: nat, program: seq<T>)
    requires |program| == SLOTS && k < |lines|
    ensures LoadFrom(decode, lines[k..], higher, program)
            == match LineStep(decode, lines[k], higher, program)
               case Stop(p, st) => (p, st)
               case Continue(p, h) => LoadFrom(decode, lines[k + 1..], h, p)
  {
    assert lines[k..][0] == lines[k] && lines[k..][1..] == lines[k + 1..];
  }

  /** The body of the loop over lines: one record read and acted on. */
  method LoadLine(line: string, higher: nat, pm: ProgramMemory) returns (stop: bool, r: Outcome<LoadError>, next: nat)
    requires pm.Valid()
    modifies pm.memory
    ensures (if stop then Stop(pm.memory[..], r) else Continue(pm.memory[..], next))
            == LineStep(DecodeWords, line, higher, old(pm.memory[..]))
  {
    var fields := ParseFields(line);
    if fields.Err? {
      return true, Fail(fields.error), higher;
    }
    var f := fields.value;
    if f.kind == 0 {
      var base := higher * 0x10000 + f.start;
      var done := StoreRecord(DecodeWords, f.data, f.len, base, pm);
      ghost var stored := StoreWords(DecodeWords, WordsOf(f.data), f.len, base, 0, old(pm.memory[..]));
      assert LineStep(DecodeWords, line, higher, old(pm.memory[..]))
             == if stored.1.Fail? then Stop(stored.0, stored.1) else Continue(stored.0, higher);
      return done.Fail?, done, higher;
    } else if f.kind == 1 {
      return true, Pass, higher;
    } else if f.kind == 4 {
      var h := ParseHex(f.data);
      if h.None? {
        return true, Fail(ValueError), higher;
      }
      return false, Pass, h.value;
    } else {
      return false, Pass, higher;
    }
  }

  /** The inner loop over the words of one data record. */
  method StoreRecord(decode: (HexWord, HexWord) -> Op, data: string, len: nat, base: nat, pm: ProgramMemory)
    returns (r: Outcome<LoadError>)
    requires pm.Valid()
    modifies pm.memory
    ensures (pm.memory[..], r) == StoreWords(decode, WordsOf(data), len, base, 0, old(pm.memory[..]))
  {
    var i := 0;
    while i < len
      invariant StoreWords(decode, WordsOf(data), len, base, i, pm.memory[..]) == StoreWords(decode, WordsOf(data), len, base, 0, old(pm.memory[..]))
      decreases len - i
    {
      var stop;
      stop, r := StoreOne(decode, data, len, base, i, pm);
      if stop {
        return;
      }
      i := i + 2;
    }
    return Pass;
  }

  /** One word of a data record: read, decoded and stored, or the error that ends the record. */
  method StoreOne(decode: (HexWord, HexWord) -> Op, data: string, len: nat, base: nat, i: nat, pm: ProgramMemory)
    returns (stop: bool, r: Outcome<LoadError>)
    requires pm.Valid() && i < len
    modifies pm.memory
    ensures stop ==> r.Fail? && (pm.memory[..], r) == StoreWords(decode, WordsOf(data), len, base, i, old(pm.memory[..]))
    ensures !stop ==> StoreWords(decode, WordsOf(data), len, base, i + 2, pm.memory[..])
                      == StoreWords(decode, WordsOf(data), len, base, i, old(pm.memory[..]))
  {
    var w := ParseWord(data, i);
    if w.None? {
      StoreWordsUnreadable(decode, WordsOf(data), len, base, i, pm.memory[..]);
      return true, Fail(ValueError);
    }
    var op := decode(w.value, NextWord(WordsOf(data), len, i));
    ghost var stores := StoreOp(pm.memory[..], base + i, op);
    var stored := pm.Set(base + i, op);
    StoreWordsAt(decode, WordsOf(data), len, base, i, old(pm.memory[..]), w.value, stores);
    if stored.Fail? {
      return true, Fail(IndexError);
    }
    return false, Pass;
  }

  /** A word that is not hexadecimal ends the record with ValueError and stores nothing more. */
  lemma StoreWordsUnreadable<T>(decode: (HexWord, HexWord) -> T, read: nat -> Option<HexWord>, len: nat, base: nat, i: nat, program: seq<T>)
    requires |program| == SLOTS && i < len && read(i).None?
    ensures StoreWords(decode, read, len, base, i, program) == (program, Fail(ValueError))
  {
  }

  /**
    A readable word is stored at base + i and the record goes on at i + 2, or
    its address is past the end of program memory and the record ends with
    IndexError.
   */
  lemma StoreWordsAt(decode: (HexWord, HexWord) -> Op, read: nat -> Option<HexWord>, len: nat, base: nat, i: nat, program: seq<Op>, w: HexWord,
                     stores: Option<seq<Op>>)
    requires |program| == SLOTS && i < len && read(i) == Some(w)
    requires stores == StoreOp(program, base + i, decode(w, NextWord(read, len, i)))
    ensures stores.Some? ==> |stores.value| == SLOTS
    ensures stores.Some? ==> StoreWords(decode, read, len, base, i, program) == StoreWords(decode, read, len, base, i + 2, stores.value)
    ensures stores.None? ==> StoreWords(decode, read, len, base, i, program) == (program, Fail(IndexError))
  {
  }

  /** Every word of a record from offset i up to offset j is hexadecimal and addresses program memory. */
  predicate Storable(read: nat -> Option<HexWord>, base: nat, i: nat, j: nat)
    decreases j - i
  {
    i >= j || (read(i).Some? && base + i < SIZE && Storable(read, base, i + 2, j))
  }

  /**
    A data record completes exactly when each of its words is hexadecimal
    and lands inside program memory.
   */
  lemma {:induction false} StoreWordsPassIff<T>(decode: (HexWord, HexWord) -> T, read: nat -> Option<HexWord>, len: nat, base: nat, i: nat,
                                                program: seq<T>)
    requires |program| == SLOTS
    ensures StoreWords(decode, read, len, base, i, program).1.Pass? <==> Storable(read, base, i, len)
    decreases len - i
  {
    if i >= len {
      assert StoreWords(decode, read, len, base, i, program).1 == Pass && Storable(read, base, i, len);
    } else {
      match read(i)
      case None =>
        assert StoreWords(decode, read, len, base, i, program).1 == Fail(ValueError) && !Storable(read, base, i, len);
      case Some(w) =>
        match PutAt(program, base + i, decode(w, NextWord(read, len, i)))
        case None =>
          assert StoreWords(decode, read, len, base, i, program).1 == Fail(IndexError) && !Storable(read, base, i, len);
        case Some(p) =>
          assert StoreWords(decode, read, len, base, i, program) == StoreWords(decode, read, len, base, i + 2, p);
          assert Storable(read, base, i, len) == Storable(read, base, i + 2, len);
          StoreWordsPassIff(decode, read, len, base, i + 2, p);
    }
  }

  /**
    The slots a record does not reach keep their contents: those below the
    slot of base + i and those from the slot past base + len on.
   */
  lemma {:induction false} StoreWordsKeepsOutside<T>(decode: (HexWord, HexWord) -> T, read: nat -> Option<HexWord>, len: nat, base: nat, i: nat,
                                                     program: seq<T>, k: nat)
    requires |program| == SLOTS && k < SLOTS
    requires 2 * k + 2 <= base + i || base + len <= 2 * k
    ensures StoreWords(decode, read, len, base, i, program).0[k] == program[k]
    decreases len - i
  {
    if i < len {
      match read(i)
      case None =>
      case Some(w) =>
        match PutAt(program, base + i, decode(w, NextWord(read, len, i)))
        case None =>
        case Some(p) =>
          assert k != (base + i) / 2;
          StoreWordsKeepsOutside(decode, read, len, base, i + 2, p, k);
    }
  }

  /**
    The word w at offset j, word n of a record read from offset i on, is
    decoded with the word after it and stored at the slot of base + j,
    provided every word before it is readable and addresses program memory:
    no later word of the record overwrites it, whether the record completes
    or stops further on.
   */
  lemma {:induction false} StoreWordsStores<T>(decode: (HexWord, HexWord) -> T, read: nat -> Option<HexWord>, len: nat, base: nat, i: nat,
                                               program: seq<T>, n: nat, j: nat, w: HexWord)
    requires |program| == SLOTS && j == i + 2 * n && j < len
    requires Storable(read, base, i, j) && read(j) == Some(w) && base + j < SIZE
    ensures StoreWords(decode, read, len, base, i, program).0[(base + j) / 2] == decode(w, NextWord(read, len, j))
    decreases n
  {
    if n == 0 {
      StoreWordsHere(decode, read, len, base, i, program);
    } else {
      var p := PutAt(program, base + i, decode(read(i).value, NextWord(read, len, i))).value;
      StoreWordsStores(decode, read, len, base, i + 2, p, n - 1, j, w);
    }
  }

  /** The word at offset i itself is stored at its slot and kept there by the rest of the record. */
  lemma StoreWordsHere<T>(decode: (HexWord, HexWord) -> T, read: nat -> Option<HexWord>, len: nat, base: nat, i: nat, program: seq<T>)
    requires |program| == SLOTS && i < len && read(i).Some? && base + i < SIZE
    ensures StoreWords(decode, read, len, base, i, program).0[(base + i) / 2]
            == decode(read(i).value, NextWord(read, len, i))
  {
    var p := PutAt(program, base + i, decode(read(i).value, NextWord(read, len, i))).value;
    StoreWordsKeepsOutside(decode, read, len, base, i + 2, p, (base + i) / 2);
  }

  /** The first word of a record goes to the slot of its base address. */
  lemma FirstWordStored<T>(decode: (HexWord, HexWord) -> T, read: nat -> Option<HexWord>, len: nat, base: nat, program: seq<T>, w: HexWord)
    requires |program| == SLOTS && 0 < len && base < SIZE && read(0) == Some(w)
    ensures StoreWords(decode, read, len, base, 0, program).0[base / 2] == decode(w, NextWord(read, len, 0))
  {
    StoreWordsStores(decode, read, len, base, 0, program, 0, 0, w);
  }

  /**
    As written, a record whose first word is in the CALL pattern leaves None
    in the slot of its base address: `decode_op` returns nothing for CALL.
   */
  lemma CallRecordStoresNone(data: string, len: nat, base: nat, program: seq<Option<Op>>, w: HexWord)
    requires |program| == SLOTS && 0 < len && base < SIZE
    requires ParseWord(data, 0) == Some(w) && Cop7(ToWord(w)) == 0xEC00
    ensures StoreWords(DecodeOneWord, WordsOf(data), len, base, 0, program).0[base / 2] == None
  {
    FirstWordStored(DecodeOneWord, WordsOf(data), len, base, program, w);
    CallDecodesToNone(ToWord(w));
  }

  /**
    With the completed decoder the same record stores CALL, its target taken
    from the word after the first.
   */
  lemma CallRecordStoresCall(data: string, len: nat, base: nat, program: seq<Op>, w: HexWord)
    requires |program| == SLOTS && 0 < len && base < SIZE
    requires ParseWord(data, 0) == Some(w) && Cop7(ToWord(w)) == 0xEC00
    ensures StoreWords(DecodeWords, WordsOf(data), len, base, 0, program).0[base / 2]
            == Call(CallTarget(ToWord(w), ToWord(NextWord(WordsOf(data), len, 0))), AField(ToWord(w)))
  {
    FirstWordStored(DecodeWords, WordsOf(data), len, base, program, w);
    DecodeAgrees(ToWord(w), ToWord(NextWord(WordsOf(data), len, 0)));
  }

  /**
    A data record stores its words with the current upper address half; the
    load stops with the record's error if it has one and otherwise goes on
    with the next line and the same upper half.
   */
  lemma DataRecordStored<T>(decode: (HexWord, HexWord) -> T, line: string, rest: seq<string>, higher: nat, program: seq<T>)
    requires |program| == SLOTS
    requires ParseFields(line).Ok? && ParseFields(line).value.kind == 0
    ensures var f := ParseFields(line).value;
      var stored := StoreWords(decode, WordsOf(f.data), f.len, higher * 0x10000 + f.start, 0, program);
      LoadFrom(decode, [line] + rest, higher, program)
      == if stored.1.Fail? then stored else LoadFrom(decode, rest, higher, stored.0)
  {
    assert ([line] + rest)[0] == line && ([line] + rest)[1..] == rest;
  }
}
