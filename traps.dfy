/** The trap service routines and the table that maps a trap vector to its
    routine. The console is a value: the bytes still to be read from standard
    input, and the words written to standard output so far. */
module Traps {
  import opened Constants
  import opened Helpers
  import opened Machine

  type Byte = bv8

  const NEWLINE: Byte := 0x0A

  /** Standard input still unread, and the words printed so far. */
  datatype Console = Console(input: seq<Byte>, output: seq<Word>)

  /** The outcome of a routine or an instruction that may use the console. */
  datatype IoEffect = IoEffect(status: Status, state: VmState, console: Console)

  /** The six routines. */
  datatype Trap = GetChar | Output | PutString | Input | PutStringP | Halt

  /** The traps table: one routine per vector 0x20..0x25 and nothing else. */
  const TRAPS: map<int, Trap> :=
    map[T_GETC as int := GetChar, T_OUT as int := Output, T_PUTS as int := PutString,
        T_IN as int := Input, T_PUTSP as int := PutStringP, T_HALT as int := Halt]

  // ---------------------------------------------------------------------
  // Reading a line.

  /** The number of bytes a line read takes from `bs`: everything up to and
      including the first newline, or all of `bs` when it has none. */
  function LineLength(bs: seq<Byte>): (n: nat)
    ensures n <= |bs|
    ensures |bs| > 0 ==> n > 0
    ensures forall k :: 0 <= k < n - 1 ==> bs[k] != NEWLINE
    ensures 0 < n < |bs| ==> bs[n - 1] == NEWLINE
  {
    if |bs| == 0 then 0
    else if bs[0] == NEWLINE then 1
    else 1 + LineLength(bs[1..])
  }

  /** Reading a line takes exactly the first line: what is left starts right
      after the first newline. */
  lemma {:induction false} LineLengthSplitsAtNewline(line: seq<Byte>, rest: seq<Byte>)
    requires NEWLINE !in line
    ensures LineLength(line + [NEWLINE] + rest) == |line| + 1
  {
    if |line| > 0 {
      assert (line + [NEWLINE] + rest)[1..] == line[1..] + [NEWLINE] + rest;
      LineLengthSplitsAtNewline(line[1..], rest);
    } else {
      assert (line + [NEWLINE] + rest)[0] == NEWLINE;
    }
  }

  // ---------------------------------------------------------------------
  // The routines as functions on the state.

  /** trapGetChar and trapInput: the first byte of the next input line goes
      to R0 through writeReg, so COND changes too. With no input left the
      line is empty and taking its first byte is fatal. */
  function ReadChar(s: VmState, io: Console): (r: IoEffect)
    requires s.Valid()
    ensures r.state.Valid()
  {
    if |io.input| == 0 then IoEffect(Fatal(InputExhausted), s, io)
    else IoEffect(Running, s.WriteReg(R_R0, io.input[0] as Word),
                  io.(input := io.input[LineLength(io.input)..]))
  }

  /** trapOutput: prints R0 and changes no machine state. */
  function PrintChar(s: VmState, io: Console): (r: IoEffect)
    requires s.Valid()
    ensures r.state.Valid()
  {
    IoEffect(Running, s, io.(output := io.output + [s.ReadReg(R_R0)]))
  }

  /** The address k cells after i, wrapping round as a 16-bit sum does. */
  function Offset(i: Word, k: nat): Word {
    if k == 0 then i else Offset(i, k - 1) + 1
  }

  lemma {:induction false} OffsetSucc(i: Word, k: nat)
    ensures Offset(i + 1, k) == Offset(i, k + 1)
  {
    if k > 0 {
      OffsetSucc(i, k - 1);
    }
  }

  /** The words a string scan prints and how the scan ended. */
  datatype Scan = Scan(text: seq<Word>, status: Status)

  /** The words from address i up to the first zero word, read through
      readMem; a read that faults (the keyboard status register, or 0xFFFF)
      stops the scan with that fault. */
  function ScanString(s: VmState, i: Word): Scan
    requires s.Valid()
    decreases 0xFFFF - i
  {
    match s.ReadMem(i)
    case Err(f) => Scan([], Fatal(f))
    case Ok(w) =>
      if w == 0 then Scan([], Running)
      else
        ReadOkAddress(s, i);
        var rest := ScanString(s, i + 1);
        Scan([w] + rest.text, rest.status)
  }

  /** One step of the scan: a fault or a zero word ends it, and any other
      word is printed before the scan of the rest, which starts at the next
      address (the word read was not at 0xFFFF). */
  lemma ScanNext(s: VmState, i: Word, w: Word)
    requires s.Valid() && s.ReadMem(i) == Ok(w) && w != 0
    ensures i != 0xFFFF
    ensures ScanString(s, i) == Scan([w] + ScanString(s, i + 1).text, ScanString(s, i + 1).status)
  {
    ReadOkAddress(s, i);
  }

  /** A scan whose first read faults or gives zero prints nothing. */
  lemma ScanStops(s: VmState, i: Word)
    requires s.Valid() && (s.ReadMem(i).Err? || s.ReadMem(i) == Ok(0))
    ensures ScanString(s, i) ==
      if s.ReadMem(i).Err? then Scan([], Fatal(s.ReadMem(i).fault)) else Scan([], Running)
  {
  }

  /** The scan prints the nonzero words at i, i+1, ... and stops at the first
      address whose read gives zero (the scan then goes on running) or faults
      (the scan then stops with that fault). */
  lemma ScanStringReads(s: VmState, i: Word)
    requires s.Valid()
    ensures var r := ScanString(s, i);
      && (forall k :: 0 <= k < |r.text| ==> r.text[k] != 0 && s.ReadMem(Offset(i, k)) == Ok(r.text[k]))
      && (r.status == Running ==> s.ReadMem(Offset(i, |r.text|)) == Ok(0))
      && (r.status != Running ==> r.status.Fatal? && s.ReadMem(Offset(i, |r.text|)) == Err(r.status.fault))
  {
    var r := ScanString(s, i);
    forall k | 0 <= k < |r.text|
      ensures r.text[k] != 0 && s.ReadMem(Offset(i, k)) == Ok(r.text[k])
    {
      ScanTextAt(s, i, k);
    }
    ScanEndsAt(s, i);
  }

  /** The k-th word the scan prints is nonzero and is what readMem gives k
      cells after i. */
  lemma {:induction false} ScanTextAt(s: VmState, i: Word, k: nat)
    requires s.Valid() && k < |ScanString(s, i).text|
    ensures ScanString(s, i).text[k] != 0
    ensures s.ReadMem(Offset(i, k)) == Ok(ScanString(s, i).text[k])
    decreases k
  {
    match s.ReadMem(i)
    case Ok(w) =>
      ScanNext(s, i, w);
      if k > 0 {
        ScanTextAt(s, i + 1, k - 1);
        OffsetSucc(i, k - 1);
      }
  }

  /** The scan stops at the cell just past the words it printed: a zero word
      when it goes on running, a faulting read otherwise. */
  lemma {:induction false} ScanEndsAt(s: VmState, i: Word)
    requires s.Valid()
    ensures var r := ScanString(s, i);
      && (r.status == Running ==> s.ReadMem(Offset(i, |r.text|)) == Ok(0))
      && (r.status != Running ==> r.status.Fatal? && s.ReadMem(Offset(i, |r.text|)) == Err(r.status.fault))
    decreases |ScanString(s, i).text|
  {
    match s.ReadMem(i)
    case Err(_) =>
    case Ok(w) =>
      if w != 0 {
        ScanNext(s, i, w);
        ScanEndsAt(s, i + 1);
        OffsetSucc(i, |ScanString(s, i + 1).text|);
      }
  }

  /** trapPutString and trapPutStringP: print the words from R0 up to the
      first zero word, one output item per word, and change no machine state. */
  function PrintString(s: VmState, io: Console): (r: IoEffect)
    requires s.Valid()
    ensures r.state.Valid()
  {
    var scan := ScanString(s, s.ReadReg(R_R0));
    IoEffect(scan.status, s, io.(output := io.output + scan.text))
  }

  /** Runs routine t. trapHalt ends the run; it is the only way to halt. */
  function RunTrap(t: Trap, s: VmState, io: Console): (r: IoEffect)
    requires s.Valid()
    ensures r.state.Valid()
  {
    match t
    case GetChar => ReadChar(s, io)
    case Output => PrintChar(s, io)
    case PutString => PrintString(s, io)
    case Input => ReadChar(s, io)
    case PutStringP => PrintString(s, io)
    case Halt => IoEffect(Halted, s, io)
  }

  // ---------------------------------------------------------------------
  // Properties of the routines.

  /** The table holds exactly the vectors 0x20..0x25, each of which fits in
      the 8-bit trap field. */
  lemma TrapTableDomain(v: Word)
    ensures v as int in TRAPS <==> 0x20 <= v <= 0x25
    ensures v as int in TRAPS ==> v < 0x100 && (TRAPS[v as int] == Halt <==> v == T_HALT)
  {
  }

  /** A routine halts exactly when it is trapHalt, and trapHalt changes
      nothing. */
  lemma OnlyHaltHalts(t: Trap, s: VmState, io: Console)
    requires s.Valid()
    ensures RunTrap(t, s, io).status == Halted <==> t == Halt
    ensures t == Halt ==> RunTrap(t, s, io) == IoEffect(Halted, s, io)
  {
    if t in {PutString, PutStringP} {
      ScanNeverHalts(s, s.ReadReg(R_R0));
    }
  }

  lemma {:induction false} ScanNeverHalts(s: VmState, i: Word)
    requires s.Valid()
    ensures ScanString(s, i).status != Halted
    decreases |ScanString(s, i).text|
  {
    match s.ReadMem(i)
    case Err(_) =>
    case Ok(w) =>
      if w != 0 {
        ScanNext(s, i, w);
        ScanNeverHalts(s, i + 1);
      }
  }

  /** trapGetChar and trapInput store the first byte of the line, zero
      extended, into R0 and set COND to F_ZRO for a zero byte and F_POS for
      any other; PC, the other registers and memory are unchanged, and no byte
      is echoed. The input loses exactly its first line: every byte up to and
      including the first newline, or all of it when there is no newline.
      With no input left the read is fatal and changes nothing. */
  lemma ReadCharEffect(s: VmState, io: Console)
    requires s.Valid()
    ensures |io.input| == 0 ==> ReadChar(s, io) == IoEffect(Fatal(InputExhausted), s, io)
    ensures |io.input| > 0 ==>
      var e := ReadChar(s, io);
      var c := io.input[0] as Word;
      var n := |io.input| - |e.console.input|;
      && e.status == Running
      && e.state.memory == s.memory
      && e.state.registers == s.registers[R_R0 := c][R_COND := if c == 0 then F_ZRO else F_POS]
      && e.console.output == io.output
      && 0 < n <= |io.input|
      && e.console.input == io.input[n..]
      && (forall k :: 0 <= k < n - 1 ==> io.input[k] != NEWLINE)
      && (n < |io.input| ==> io.input[n - 1] == NEWLINE)
  {
    if |io.input| > 0 {
      FlagForCases(io.input[0] as Word);
    }
  }

  /** Reading from a line, its newline and more input leaves exactly the
      input after that newline; an empty line puts the newline itself in R0. */
  lemma ReadCharLine(s: VmState, line: seq<Byte>, rest: seq<Byte>, out: seq<Word>)
    requires s.Valid() && NEWLINE !in line
    ensures var e := ReadChar(s, Console(line + [NEWLINE] + rest, out));
      && e.status == Running
      && e.console == Console(rest, out)
      && e.state.registers[R_R0] == (if |line| == 0 then NEWLINE else line[0]) as Word
  {
    var bs := line + [NEWLINE] + rest;
    LineLengthSplitsAtNewline(line, rest);
    assert bs[|line| + 1..] == rest;
    assert bs[0] == if |line| == 0 then NEWLINE else line[0];
    WriteRegEffect(s, R_R0, bs[0] as Word);
  }

  /** trapOutput appends R0 to the output and changes nothing else. */
  lemma PrintCharEffect(s: VmState, io: Console)
    requires s.Valid()
    ensures PrintChar(s, io) == IoEffect(Running, s, Console(io.input, io.output + [s.registers[R_R0]]))
  {
  }

  /** The text the program writes for one word. It converts the word to a
      rune, which is a 32-bit integer, and prints that integer in decimal. */
  function Decimal(n: nat): (r: seq<char>)
    ensures |r| > 0
    ensures forall k :: 0 <= k < |r| ==> '0' <= r[k] <= '9'
    decreases n
  {
    if n < 10 then [DigitChar(n)] else Decimal(n / 10) + [DigitChar(n % 10)]
  }

  function DigitChar(d: nat): char
    requires d < 10
  {
    ('0' as int + d) as char
  }

  /** As written, trapOutput with R0 = 0x41 writes the two characters "65",
      not the one character 'A' that the word encodes. */
  lemma RunePrintsDecimal()
    ensures Decimal(0x41) == ['6', '5']
    ensures Decimal(0x41) != [0x41 as char]
  {
    assert Decimal(6) == ['6'];
  }

  /** Conversely, a run of nonzero words at i, i+1, ... followed by a zero
      word is exactly what the scan prints. */
  lemma {:induction false} ScanFindsTerminator(s: VmState, i: Word, text: seq<Word>)
    requires s.Valid()
    requires forall k {:trigger text[k]} :: 0 <= k < |text| ==> text[k] != 0 && s.ReadMem(Offset(i, k)) == Ok(text[k])
    requires s.ReadMem(Offset(i, |text|)) == Ok(0)
    ensures ScanString(s, i) == Scan(text, Running)
    decreases |text|
  {
    assert Offset(i, 0) == i;
    if |text| > 0 {
      ScanNext(s, i, text[0]);
      ReadsFromNext(s, i, text);
      ScanFindsTerminator(s, i + 1, text[1..]);
      assert text == [text[0]] + text[1..];
    }
  }

  /** The cells read from i + 1 on are the cells read from i on, less the first. */
  lemma ReadsFromNext(s: VmState, i: Word, text: seq<Word>)
    requires s.Valid() && |text| > 0
    requires forall k {:trigger text[k]} :: 0 <= k < |text| ==> text[k] != 0 && s.ReadMem(Offset(i, k)) == Ok(text[k])
    requires s.ReadMem(Offset(i, |text|)) == Ok(0)
    ensures forall k :: 0 <= k < |text| - 1 ==> text[1..][k] != 0 && s.ReadMem(Offset(i + 1, k)) == Ok(text[1..][k])
    ensures s.ReadMem(Offset(i + 1, |text| - 1)) == Ok(0)
  {
    forall k | 0 <= k < |text| - 1
      ensures text[1..][k] != 0 && s.ReadMem(Offset(i + 1, k)) == Ok(text[1..][k])
    {
      OffsetSucc(i, k);
    }
    OffsetSucc(i, |text| - 1);
  }

  lemma AppendAssoc(a: seq<Word>, w: Word, b: seq<Word>)
    ensures a + ([w] + b) == (a + [w]) + b
  {
  }

  // ---------------------------------------------------------------------
  // The routines as the program runs them.

  /** trapGetChar. */
  method TrapGetChar(vm: LC3VM, io: Console) returns (status: Status, io': Console)
    requires vm.Valid()
    modifies vm.registers
    ensures IoEffect(status, vm.Abs(), io') == ReadChar(old(vm.Abs()), io)
  {
    if |io.input| == 0 {
      return Fatal(InputExhausted), io;
    }
    var n := LineLength(io.input);
    vm.WriteReg(R_R0, io.input[0] as Word);
    status, io' := Running, io.(input := io.input[n..]);
  }

  /** trapInput: the same as trapGetChar. */
  method TrapInput(vm: LC3VM, io: Console) returns (status: Status, io': Console)
    requires vm.Valid()
    modifies vm.registers
    ensures IoEffect(status, vm.Abs(), io') == ReadChar(old(vm.Abs()), io)
  {
    status, io' := TrapGetChar(vm, io);
  }

  /** trapOutput. */
  method TrapOutput(vm: LC3VM, io: Console) returns (io': Console)
    requires vm.Valid()
    ensures IoEffect(Running, vm.Abs(), io') == PrintChar(vm.Abs(), io)
  {
    var c := vm.ReadReg(R_R0);
    io' := io.(output := io.output + [c]);
  }

  /** trapPutString: prints the words from R0 up to the first zero word. */
  method TrapPutString(vm: LC3VM, io: Console) returns (status: Status, io': Console)
    requires vm.Valid()
    ensures IoEffect(status, vm.Abs(), io') == PrintString(vm.Abs(), io)
  {
    var start := vm.ReadReg(R_R0);
    var text;
    text, status := PrintLoop(vm, start);
    io' := io.(output := io.output + text);
  }

  /** The loop of trapPutString, which reads each cell twice, once for the
      test and once for the print, as the program does. */
  method PrintLoop(vm: LC3VM, start: Word) returns (text: seq<Word>, status: Status)
    requires vm.Valid()
    ensures Scan(text, status) == ScanString(vm.Abs(), start)
  {
    ghost var s := vm.Abs();
    var i := start;
    text := [];
    while true
      invariant vm.Abs() == s
      invariant ScanString(s, start).text == text + ScanString(s, i).text
      invariant ScanString(s, start).status == ScanString(s, i).status
      decreases |ScanString(s, i).text|
    {
      var c := vm.ReadMem(i);
      if c.Err? || c.value == 0 {
        ScanStops(s, i);
        return text, if c.Err? then Fatal(c.fault) else Running;
      }
      var w := vm.ReadMem(i);
      ScanNext(s, i, w.value);
      AppendAssoc(text, w.value, ScanString(s, i + 1).text);
      text := text + [w.value];
      i := i + 1;
    }
  }

  /** trapPutStringP: the same loop as trapPutString. */
  method TrapPutStringP(vm: LC3VM, io: Console) returns (status: Status, io': Console)
    requires vm.Valid()
    ensures IoEffect(status, vm.Abs(), io') == PrintString(vm.Abs(), io)
  {
    status, io' := TrapPutString(vm, io);
  }

  /** trapHalt. */
  method TrapHalt(vm: LC3VM, io: Console) returns (status: Status, io': Console)
    requires vm.Valid()
    ensures IoEffect(status, vm.Abs(), io') == RunTrap(Halt, vm.Abs(), io)
  {
    status, io' := Halted, io;
  }

  /** Looks up and runs routine t, as a call through the traps table does. */
  method CallTrap(vm: LC3VM, t: Trap, io: Console) returns (status: Status, io': Console)
    requires vm.Valid()
    modifies vm.registers
    ensures IoEffect(status, vm.Abs(), io') == RunTrap(t, old(vm.Abs()), io)
  {
    match t
    case GetChar => status, io' := TrapGetChar(vm, io);
    case Output => io' := TrapOutput(vm, io); status := Running;
    case PutString => status, io' := TrapPutString(vm, io);
    case Input => status, io' := TrapInput(vm, io);
    case PutStringP => status, io' := TrapPutStringP(vm, io);
    case Halt => status, io' := TrapHalt(vm, io);
  }
}
