/** The state of the LC-3 virtual machine: a register file of ten words
    (R0-R7, PC, COND) and a flat word memory, with the accessors every
    instruction goes through. `VmState` is the state as a value and gives the
    meaning of each accessor; the class `LC3VM` holds the same state in two
    arrays that the accessors update in place. */
module Machine {
  import opened Constants
  import opened Helpers

  /** Every way the machine can stop abnormally; each is a run-time panic. */
  datatype Fault =
    | DeviceNotImplemented(address: Word)  // a read of the keyboard status register
    | AddressOutOfRange(address: Word)     // memory has no cell 0xFFFF
    | BadOpcode(opcode: Word)              // the two opcodes bound to opNotImplemented
    | NoOpcodeHandler(opcode: Word)        // the dispatch table has no entry
    | NoTrapRoutine(vector: Word)          // the trap table has no entry
    | InputExhausted                       // a console read that returned no byte

  /** After a step the machine goes on, has halted, or has stopped on a fault. */
  datatype Status = Running | Halted | Fatal(fault: Fault)

  datatype Result<T> = Ok(value: T) | Err(fault: Fault)

  /** How an instruction that does not use the console ends, and the state it leaves. */
  datatype Effect = Effect(status: Status, state: VmState)

  /** The value of COND after a register write of `result`. The comparison
      is unsigned, so the F_NEG branch is never taken. */
  function FlagFor(result: Word): Word {
    if result == 0 then F_ZRO
    else if result > 0 then F_POS
    else F_NEG
  }

  /** The machine state as a value. */
  datatype VmState = VmState(registers: seq<Word>, memory: seq<Word>) {

    /** Ten registers and MAX_UINT16 memory cells, addresses 0..0xFFFE. */
    predicate Valid() {
      |registers| == NUM_REGISTERS && |memory| == MAX_UINT16
    }

    /** readMem: the keyboard status register is not implemented, and the
        address 0xFFFF lies past the end of memory. */
    function ReadMem(location: Word): Result<Word>
      requires Valid()
    {
      if location == M_KBSR then Err(DeviceNotImplemented(location))
      else if location as int < |memory| then Ok(memory[location])
      else Err(AddressOutOfRange(location))
    }

    /** writeMem: a plain store, with no device check. */
    function WriteMem(location: Word, value: Word): (r: Result<VmState>)
      requires Valid()
      ensures r.Ok? ==> r.value.Valid()
    {
      if location as int < |memory| then Ok(this.(memory := memory[location := value]))
      else Err(AddressOutOfRange(location))
    }

    function ReadReg(location: Word): Word
      requires Valid() && location < 10
    {
      registers[location]
    }

    /** updateFlags: stores the flag for `result` into COND. */
    function UpdateFlags(result: Word): (r: VmState)
      requires Valid()
      ensures r.Valid()
    {
      this.(registers := registers[R_COND := FlagFor(result)])
    }

    /** writeReg: the register write, then the flag update. */
    function WriteReg(location: Word, value: Word): (r: VmState)
      requires Valid() && location < 10
      ensures r.Valid()
    {
      this.(registers := registers[location := value]).UpdateFlags(value)
    }

    function GetPC(): Word
      requires Valid()
    {
      registers[R_PC]
    }

    function SetPC(value: Word): (r: VmState)
      requires Valid()
      ensures r.Valid()
    {
      this.(registers := registers[R_PC := value])
    }

    function IncPC(): (r: VmState)
      requires Valid()
      ensures r.Valid()
    {
      SetPC(WrapAdd(registers[R_PC], 1))
    }

    function OffsetPC(offset: Word): (r: VmState)
      requires Valid()
      ensures r.Valid()
    {
      SetPC(WrapAdd(registers[R_PC], offset))
    }

    /** The three flag tests pass the flag masks 1, 2 and 4 to isBitSet as bit
        indices, so they test bits 1, 2 and 4 of COND. */
    predicate IsPosSet()
      requires Valid()
    {
      IsBitSet(ReadReg(R_COND), F_POS)
    }

    predicate IsNegSet()
      requires Valid()
    {
      IsBitSet(ReadReg(R_COND), F_NEG)
    }

    predicate IsZroSet()
      requires Valid()
    {
      IsBitSet(ReadReg(R_COND), F_ZRO)
    }
  }

  /** The state NewLC3VM builds: PC = 0x3000, every other register and every
      memory cell zero. */
  function NewState(): (s: VmState)
    ensures s.Valid()
    ensures forall r :: 0 <= r < NUM_REGISTERS ==>
              s.registers[r] == if r == R_PC as int then 0x3000 else 0
    ensures forall a :: 0 <= a < MAX_UINT16 ==> s.memory[a] == 0
  {
    VmState(seq(NUM_REGISTERS, r => if r == R_PC as int then 0x3000 else 0),
            seq(MAX_UINT16, a => 0))
  }

  /** A state whose COND holds one of the values a register write can leave
      there, or the initial 0. */
  predicate CondReachable(s: VmState)
    requires s.Valid()
  {
    s.registers[R_COND] in {0, F_POS, F_ZRO}
  }

  // ---------------------------------------------------------------------
  // Properties of the accessors.

  /** The flag is F_ZRO exactly for zero and F_POS for everything else: the
      F_NEG branch is unreachable, even for results with bit 15 set. */
  lemma FlagForCases(result: Word)
    ensures FlagFor(result) == F_ZRO <==> result == 0
    ensures FlagFor(result) == F_POS <==> result != 0
    ensures FlagFor(result) != F_NEG
  {
  }

  /** readMem returns the cell exactly at the addresses that have a plain
      cell; the keyboard status register and 0xFFFF are fatal. */
  lemma ReadMemCases(s: VmState, location: Word)
    requires s.Valid()
    ensures s.ReadMem(location).Ok? <==> location != M_KBSR && location != 0xFFFF
    ensures s.ReadMem(location).Ok? ==> s.ReadMem(location).value == s.memory[location]
    ensures location == M_KBSR ==> s.ReadMem(location) == Err(DeviceNotImplemented(M_KBSR))
    ensures location == 0xFFFF ==> s.ReadMem(location) == Err(AddressOutOfRange(0xFFFF))
  {
  }

  /** A read that succeeds was neither of the keyboard status register nor
      of 0xFFFF. */
  lemma ReadOkAddress(s: VmState, location: Word)
    requires s.Valid() && s.ReadMem(location).Ok?
    ensures location != M_KBSR && location != 0xFFFF
  {
  }

  /** writeMem changes cell `location` and nothing else, at every address but
      0xFFFF, the keyboard status register included; the written value reads back. */
  lemma WriteMemCases(s: VmState, location: Word, value: Word)
    requires s.Valid()
    ensures s.WriteMem(location, value).Ok? <==> location != 0xFFFF
    ensures location != 0xFFFF ==>
      var t := s.WriteMem(location, value).value;
      && t.Valid()
      && t.registers == s.registers
      && t.memory[location] == value
      && (forall a :: 0 <= a < MAX_UINT16 && a != location as int ==> t.memory[a] == s.memory[a])
      && (location != M_KBSR ==> t.ReadMem(location) == Ok(value))
  {
  }

  /** writeReg sets register `location` to `value` and COND to F_ZRO or F_POS
      by whether `value` is zero (never F_NEG, even with bit 15 set); nothing
      else changes. A write to COND itself is overwritten by the flag. */
  lemma WriteRegEffect(s: VmState, location: Word, value: Word)
    requires s.Valid() && location < 10
    ensures var t := s.WriteReg(location, value);
      && t.Valid()
      && t.memory == s.memory
      && (location != R_COND ==> t.registers[location] == value)
      && t.registers[R_COND] == (if value == 0 then F_ZRO else F_POS)
      && (forall r :: 0 <= r < NUM_REGISTERS && r != location as int && r != R_COND as int ==>
            t.registers[r] == s.registers[r])
      && CondReachable(t)
  {
  }

  /** A call writeReg(location, value). */
  datatype RegWrite = RegWrite(location: Word, value: Word)

  /** The n-th nested writeReg call that writeReg(location, value) makes as
      the program is written, where updateFlags writes COND through writeReg:
      writeReg always calls updateFlags, and every branch of updateFlags calls
      writeReg(R_COND, flag) again. Call 0 is the outer one. */
  function NestedWriteReg(location: Word, value: Word, n: nat): (c: RegWrite)
    ensures n > 0 ==> c.location == R_COND
  {
    if n == 0 then RegWrite(location, value)
    else RegWrite(R_COND, FlagFor(NestedWriteReg(location, value, n - 1).value))
  }

  /** So written, writeReg never returns: from the second nested call on,
      every call is writeReg(R_COND, F_POS), and it makes that same call again.
      The model's WriteReg stores the flag into COND instead. */
  lemma {:induction false} WriteRegRecursesForever(location: Word, value: Word, n: nat)
    requires n >= 2
    ensures NestedWriteReg(location, value, n) == RegWrite(R_COND, F_POS)
    ensures NestedWriteReg(location, value, n + 1) == NestedWriteReg(location, value, n)
  {
    if n == 2 {
      FlagForCases(value);
      FlagForCases(FlagFor(value));
    } else {
      WriteRegRecursesForever(location, value, n - 1);
    }
  }

  /** setPC changes PC alone; COND is among what it leaves alone. */
  lemma SetPCTouchesOnlyPC(s: VmState, value: Word)
    requires s.Valid()
    ensures s.SetPC(value).Valid() && s.SetPC(value).GetPC() == value
    ensures s.SetPC(value).memory == s.memory
    ensures forall r :: 0 <= r < NUM_REGISTERS && r != R_PC as int ==>
              s.SetPC(value).registers[r] == s.registers[r]
  {
  }

  /** incPC advances PC by one, wrapping 0xFFFF round to 0, and changes nothing else. */
  lemma IncPCTouchesOnlyPC(s: VmState)
    requires s.Valid()
    ensures s.IncPC().Valid() && s.IncPC().GetPC() == WrapAdd(s.GetPC(), 1)
    ensures s.GetPC() == 0xFFFF ==> s.IncPC().GetPC() == 0
    ensures s.IncPC().memory == s.memory
    ensures forall r :: 0 <= r < NUM_REGISTERS && r != R_PC as int ==>
              s.IncPC().registers[r] == s.registers[r]
  {
  }

  /** offsetPC adds its offset to PC modulo 2^16 and changes nothing else. */
  lemma OffsetPCTouchesOnlyPC(s: VmState, offset: Word)
    requires s.Valid()
    ensures s.OffsetPC(offset).Valid()
    ensures s.OffsetPC(offset).GetPC() == WrapAdd(s.GetPC(), offset)
    ensures s.OffsetPC(offset).memory == s.memory
    ensures forall r :: 0 <= r < NUM_REGISTERS && r != R_PC as int ==>
              s.OffsetPC(offset).registers[r] == s.registers[r]
  {
  }

  /** The flag tests read bits 1, 2 and 4 of COND. */
  lemma FlagTestsReadBits(s: VmState)
    requires s.Valid()
    ensures s.IsPosSet() <==> s.registers[R_COND] & 2 != 0
    ensures s.IsZroSet() <==> s.registers[R_COND] & 4 != 0
    ensures s.IsNegSet() <==> s.registers[R_COND] & 16 != 0
  {
    IsBitSetMeansBit(s.registers[R_COND], F_POS);
    IsBitSetMeansBit(s.registers[R_COND], F_ZRO);
    IsBitSetMeansBit(s.registers[R_COND], F_NEG);
  }

  /** Over the values COND can hold, isPosSet holds exactly when the last write
      was zero, and isZroSet and isNegSet never hold. */
  lemma FlagTestsOnReachableCond(s: VmState)
    requires s.Valid() && CondReachable(s)
    ensures s.IsPosSet() <==> s.registers[R_COND] == F_ZRO
    ensures !s.IsZroSet()
    ensures !s.IsNegSet()
  {
    FlagTestsReadBits(s);
  }

  /** The machine as the program holds it: two arrays updated in place. */
  class LC3VM {
    const registers: array<Word>
    const memory: array<Word>

    ghost predicate Valid() {
      registers.Length == NUM_REGISTERS && memory.Length == MAX_UINT16 && registers != memory
    }

    /** The state the arrays hold. */
    ghost function Abs(): (s: VmState)
      reads registers, memory
      requires Valid()
      ensures s.Valid()
    {
      VmState(registers[..], memory[..])
    }

    /** NewLC3VM: ten zero registers with PC = 0x3000, and MAX_UINT16 zero cells. */
    constructor ()
      ensures Valid() && fresh(registers) && fresh(memory)
      ensures Abs() == NewState()
    {
      registers := new Word[10](_ => 0);
      memory := new Word[MAX_UINT16](_ => 0);
      new;
      SetPC(0x3000);
    }

    method ReadMem(location: Word) returns (r: Result<Word>)
      requires Valid()
      ensures r == Abs().ReadMem(location)
    {
      if location == M_KBSR {
        return Err(DeviceNotImplemented(location));
      }
      if location as int < memory.Length {
        r := Ok(memory[location]);
      } else {
        r := Err(AddressOutOfRange(location));
      }
    }

    method WriteMem(location: Word, value: Word) returns (r: Result<()>)
      requires Valid()
      modifies memory
      ensures old(Abs()).WriteMem(location, value) == (if r.Ok? then Ok(Abs()) else Err(r.fault))
      ensures r.Err? ==> unchanged(memory)
    {
      if location as int < memory.Length {
        memory[location] := value;
        assert memory[..] == old(memory[..])[location := value];
        assert registers[..] == old(registers[..]);
        r := Ok(());
      } else {
        r := Err(AddressOutOfRange(location));
      }
    }

    method ReadReg(location: Word) returns (v: Word)
      requires Valid() && location < 10
      ensures v == Abs().ReadReg(location)
    {
      v := registers[location];
    }

    method WriteReg(location: Word, value: Word)
      requires Valid() && location < 10
      modifies registers
      ensures Abs() == old(Abs()).WriteReg(location, value)
    {
      registers[location] := value;
      UpdateFlags(value);
    }

    /** The flag is stored directly into COND: storing it through writeReg, as
        the program does, would update the flags again without end. */
    method UpdateFlags(result: Word)
      requires Valid()
      modifies registers
      ensures Abs() == old(Abs()).UpdateFlags(result)
    {
      registers[R_COND] := FlagFor(result);
    }

    method GetPC() returns (pc: Word)
      requires Valid()
      ensures pc == Abs().GetPC()
    {
      pc := registers[R_PC];
    }

    method SetPC(value: Word)
      requires Valid()
      modifies registers
      ensures Abs() == old(Abs()).SetPC(value)
    {
      registers[R_PC] := value;
    }

    method IncPC()
      requires Valid()
      modifies registers
      ensures Abs() == old(Abs()).IncPC()
    {
      registers[R_PC] := WrapAdd(registers[R_PC], 1);
    }

    method OffsetPC(offset: Word)
      requires Valid()
      modifies registers
      ensures Abs() == old(Abs()).OffsetPC(offset)
    {
      var pc := registers[R_PC];
      registers[R_PC] := WrapAdd(pc, offset);
      assert registers[..] == old(registers[..])[R_PC := WrapAdd(pc, offset)];
    }

    method IsPosSet() returns (b: bool)
      requires Valid()
      ensures b == Abs().IsPosSet()
    {
      var cond := ReadReg(R_COND);
      b := IsBitSet(cond, F_POS);
    }

    method IsNegSet() returns (b: bool)
      requires Valid()
      ensures b == Abs().IsNegSet()
    {
      var cond := ReadReg(R_COND);
      b := IsBitSet(cond, F_NEG);
    }

    method IsZroSet() returns (b: bool)
      requires Valid()
      ensures b == Abs().IsZroSet()
    {
      var cond := ReadReg(R_COND);
      b := IsBitSet(cond, F_ZRO);
    }
  }
}
