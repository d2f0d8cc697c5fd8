/** The instruction handlers and the dispatch table that maps an opcode to
    its handler. Every handler first advances PC by one, then decodes its
    fields with getBitRange and works through the machine's accessors.
    `AddStep`, `LoadStep`, ... give the meaning of each handler as a function
    of the state; `OpAdd`, `OpLoad`, ... run it on the machine in place. */
module Ops {
  import opened Constants
  import opened Helpers
  import opened Machine
  import opened Traps

  /** The handlers the program defines. */
  datatype Handler =
    | Branch | Add | Load | Store | JumpSubroutine | And | LoadBaseOffset
    | StoreBaseOffset | NotImplemented | Not | LoadIndirect | Jump
    | LoadEffectiveAddress | SystemCall | StoreIndirect

  /** The ops table: opcodes 0..14. RTI and the reserved opcode run
      opNotImplemented, opcode 15 has no entry, and opStoreIndirect is in no entry. */
  const OPS: map<int, Handler> :=
    map[O_BR as int := Branch, O_ADD as int := Add, O_LD as int := Load,
        O_ST as int := Store, O_JSR as int := JumpSubroutine, O_AND as int := And,
        O_LDR as int := LoadBaseOffset, O_STR as int := StoreBaseOffset,
        O_RTI as int := NotImplemented, O_NOT as int := Not, O_LDI as int := LoadIndirect,
        O_JMP as int := Jump, O_RES as int := NotImplemented,
        O_LEA as int := LoadEffectiveAddress, O_TRAP as int := SystemCall]

  // ---------------------------------------------------------------------
  // The handlers as functions on the state.

  /** The second operand of ADD and AND: the 5-bit immediate field in
      immediate mode (bit 5 set), otherwise the register in bits 2..0. */
  function SecondOperand(t: VmState, instr: Word): Word
    requires t.Valid()
  {
    if IsBitSet(instr, 5) then GetBitRange(instr, 0, 5, true)
    else t.ReadReg(GetBitRange(instr, 0, 3, false))
  }

  /** opAdd. */
  function AddStep(s: VmState, instr: Word): (r: VmState)
    requires s.Valid()
    ensures r.Valid()
  {
    var t := s.IncPC();
    var v1 := t.ReadReg(GetBitRange(instr, 6, 3, false));
    t.WriteReg(GetBitRange(instr, 9, 3, false), WrapAdd(v1, SecondOperand(t, instr)))
  }

  /** opAnd. */
  function AndStep(s: VmState, instr: Word): (r: VmState)
    requires s.Valid()
    ensures r.Valid()
  {
    var t := s.IncPC();
    var v1 := t.ReadReg(GetBitRange(instr, 6, 3, false));
    t.WriteReg(GetBitRange(instr, 9, 3, false), BitAnd(v1, SecondOperand(t, instr)))
  }

  /** opBranch: jumps to PC + offset9 when a condition bit of the
      instruction is set and its flag test passes. */
  function BranchStep(s: VmState, instr: Word): (r: VmState)
    requires s.Valid()
    ensures r.Valid()
  {
    var t := s.IncPC();
    var dest := WrapAdd(t.GetPC(), GetBitRange(instr, 0, 9, true));
    var n := IsBitSet(instr, 11) && t.IsNegSet();
    var z := IsBitSet(instr, 10) && t.IsZroSet();
    var p := IsBitSet(instr, 9) && t.IsPosSet();
    if n || z || p then t.SetPC(dest) else t
  }

  /** opJump: PC becomes the base register. */
  function JumpStep(s: VmState, instr: Word): (r: VmState)
    requires s.Valid()
    ensures r.Valid()
  {
    var t := s.IncPC();
    t.SetPC(t.ReadReg(GetBitRange(instr, 6, 3, false)))
  }

  /** opJumpSubroutine: the return address goes to memory cell R_R7 (= 7),
      then PC becomes PC + offset11 or the base register. */
  function JumpSubroutineStep(s: VmState, instr: Word): (r: Effect)
    requires s.Valid()
    ensures r.state.Valid()
  {
    var t := s.IncPC();
    match t.WriteMem(R_R7, t.GetPC())
    case Err(f) => Effect(Fatal(f), t)
    case Ok(u) =>
      var dest := if IsBitSet(instr, 11) then WrapAdd(GetBitRange(instr, 0, 11, true), u.GetPC())
                  else u.ReadReg(GetBitRange(instr, 6, 3, false));
      Effect(Running, u.SetPC(dest))
  }

  /** The tail every load shares: read the cell at `a` and write it to
      register `d`, on a state whose PC has already advanced. A failed read
      is fatal and leaves that state as it is. */
  function LoadInto(t: VmState, d: Word, a: Word): (r: Effect)
    requires t.Valid() && d < 10
    ensures r.state.Valid()
  {
    match t.ReadMem(a)
    case Err(f) => Effect(Fatal(f), t)
    case Ok(v) => Effect(Running, t.WriteReg(d, v))
  }

  /** The tail every store shares: write `v` to the cell at `a`. A failed
      write is fatal and leaves the state as it is. */
  function StoreTo(t: VmState, a: Word, v: Word): (r: Effect)
    requires t.Valid()
    ensures r.state.Valid()
  {
    match t.WriteMem(a, v)
    case Err(f) => Effect(Fatal(f), t)
    case Ok(u) => Effect(Running, u)
  }

  /** opLoad: the destination register gets the cell at PC + offset9. */
  function LoadStep(s: VmState, instr: Word): (r: Effect)
    requires s.Valid()
    ensures r.state.Valid()
  {
    var t := s.IncPC();
    LoadInto(t, GetBitRange(instr, 9, 3, false), WrapAdd(t.GetPC(), GetBitRange(instr, 0, 9, true)))
  }

  /** opLoadIndirect: the cell at PC + offset9 holds the address to load from. */
  function LoadIndirectStep(s: VmState, instr: Word): (r: Effect)
    requires s.Valid()
    ensures r.state.Valid()
  {
    var t := s.IncPC();
    match t.ReadMem(WrapAdd(t.GetPC(), GetBitRange(instr, 0, 9, true)))
    case Err(f) => Effect(Fatal(f), t)
    case Ok(source) => LoadInto(t, GetBitRange(instr, 9, 3, false), source)
  }

  /** opLoadBaseOffset: loads the cell at base register + offset6. */
  function LoadBaseOffsetStep(s: VmState, instr: Word): (r: Effect)
    requires s.Valid()
    ensures r.state.Valid()
  {
    var t := s.IncPC();
    var base := t.ReadReg(GetBitRange(instr, 6, 3, false));
    LoadInto(t, GetBitRange(instr, 9, 3, false), WrapAdd(base, GetBitRange(instr, 0, 6, true)))
  }

  /** opLoadEffectiveAddress: the destination register gets PC + offset9. */
  function LoadEffectiveAddressStep(s: VmState, instr: Word): (r: VmState)
    requires s.Valid()
    ensures r.Valid()
  {
    var t := s.IncPC();
    t.WriteReg(GetBitRange(instr, 9, 3, false), WrapAdd(t.GetPC(), GetBitRange(instr, 0, 9, true)))
  }

  /** opNot: the destination register gets the complement of the source. */
  function NotStep(s: VmState, instr: Word): (r: VmState)
    requires s.Valid()
    ensures r.Valid()
  {
    var t := s.IncPC();
    t.WriteReg(GetBitRange(instr, 9, 3, false), !t.ReadReg(GetBitRange(instr, 6, 3, false)))
  }

  /** opStore: the source register goes to the cell at PC + offset9. */
  function StoreStep(s: VmState, instr: Word): (r: Effect)
    requires s.Valid()
    ensures r.state.Valid()
  {
    var t := s.IncPC();
    StoreTo(t, WrapAdd(t.GetPC(), GetBitRange(instr, 0, 9, true)), t.ReadReg(GetBitRange(instr, 9, 3, false)))
  }

  /** opStoreIndirect: the cell at PC + offset9 holds the address to store to. */
  function StoreIndirectStep(s: VmState, instr: Word): (r: Effect)
    requires s.Valid()
    ensures r.state.Valid()
  {
    var t := s.IncPC();
    match t.ReadMem(WrapAdd(t.GetPC(), GetBitRange(instr, 0, 9, true)))
    case Err(f) => Effect(Fatal(f), t)
    case Ok(dest) => StoreTo(t, dest, t.ReadReg(GetBitRange(instr, 9, 3, false)))
  }

  /** opStoreBaseOffset: stores to base register + offset6. */
  function StoreBaseOffsetStep(s: VmState, instr: Word): (r: Effect)
    requires s.Valid()
    ensures r.state.Valid()
  {
    var t := s.IncPC();
    var dest := WrapAdd(t.ReadReg(GetBitRange(instr, 6, 3, false)), GetBitRange(instr, 0, 6, true));
    StoreTo(t, dest, t.ReadReg(GetBitRange(instr, 9, 3, false)))
  }

  /** opSystemCall: the return address goes to R7 through writeReg, then the
      routine for the 8-bit trap vector runs; a vector outside the traps table
      is fatal. */
  function SystemCallStep(s: VmState, io: Console, instr: Word): (r: IoEffect)
    requires s.Valid()
    ensures r.state.Valid()
  {
    var t := s.IncPC();
    var u := t.WriteReg(R_R7, t.GetPC());
    var vector := GetBitRange(instr, 0, 8, false);
    if vector as int in TRAPS then RunTrap(TRAPS[vector as int], u, io)
    else IoEffect(Fatal(NoTrapRoutine(vector)), u, io)
  }

  /** opNotImplemented: fatal, before PC moves. */
  function NotImplementedStep(s: VmState, instr: Word): (r: Effect)
    requires s.Valid()
    ensures r.state.Valid()
  {
    Effect(Fatal(BadOpcode(instr >> 12)), s)
  }

  /** An effect that leaves the console alone. */
  function WithConsole(e: Effect, io: Console): IoEffect {
    IoEffect(e.status, e.state, io)
  }

  /** Runs handler h on `instr`. */
  function Execute(h: Handler, s: VmState, io: Console, instr: Word): (r: IoEffect)
    requires s.Valid()
    ensures r.state.Valid()
  {
    match h
    case Branch => IoEffect(Running, BranchStep(s, instr), io)
    case Add => IoEffect(Running, AddStep(s, instr), io)
    case Load => WithConsole(LoadStep(s, instr), io)
    case Store => WithConsole(StoreStep(s, instr), io)
    case JumpSubroutine => WithConsole(JumpSubroutineStep(s, instr), io)
    case And => IoEffect(Running, AndStep(s, instr), io)
    case LoadBaseOffset => WithConsole(LoadBaseOffsetStep(s, instr), io)
    case StoreBaseOffset => WithConsole(StoreBaseOffsetStep(s, instr), io)
    case NotImplemented => WithConsole(NotImplementedStep(s, instr), io)
    case Not => IoEffect(Running, NotStep(s, instr), io)
    case LoadIndirect => WithConsole(LoadIndirectStep(s, instr), io)
    case Jump => IoEffect(Running, JumpStep(s, instr), io)
    case LoadEffectiveAddress => IoEffect(Running, LoadEffectiveAddressStep(s, instr), io)
    case SystemCall => SystemCallStep(s, io, instr)
    case StoreIndirect => WithConsole(StoreIndirectStep(s, instr), io)
  }

  // ---------------------------------------------------------------------
  // The handlers as the program runs them, on the machine in place.

  /** The second operand of opAdd and opAnd, read from the machine. */
  method ReadSecondOperand(vm: LC3VM, instr: Word) returns (v: Word)
    requires vm.Valid()
    ensures v == SecondOperand(vm.Abs(), instr)
  {
    if IsBitSet(instr, 5) {
      v := GetBitRange(instr, 0, 5, true);
    } else {
      v := vm.ReadReg(GetBitRange(instr, 0, 3, false));
    }
  }

  method OpAdd(vm: LC3VM, instr: Word)
    requires vm.Valid()
    modifies vm.registers
    ensures vm.Abs() == AddStep(old(vm.Abs()), instr)
  {
    vm.IncPC();
    var dest := GetBitRange(instr, 9, 3, false);
    var v1 := vm.ReadReg(GetBitRange(instr, 6, 3, false));
    var v2 := ReadSecondOperand(vm, instr);
    vm.WriteReg(dest, WrapAdd(v1, v2));
  }

  method OpAnd(vm: LC3VM, instr: Word)
    requires vm.Valid()
    modifies vm.registers
    ensures vm.Abs() == AndStep(old(vm.Abs()), instr)
  {
    vm.IncPC();
    var dest := GetBitRange(instr, 9, 3, false);
    var v1 := vm.ReadReg(GetBitRange(instr, 6, 3, false));
    var v2 := ReadSecondOperand(vm, instr);
    vm.WriteReg(dest, BitAnd(v1, v2));
  }

  method OpBranch(vm: LC3VM, instr: Word)
    requires vm.Valid()
    modifies vm.registers
    ensures vm.Abs() == BranchStep(old(vm.Abs()), instr)
  {
    vm.IncPC();
    var offset := GetBitRange(instr, 0, 9, true);
    var pc := vm.GetPC();
    var dest := WrapAdd(pc, offset);
    var neg := vm.IsNegSet();
    var zro := vm.IsZroSet();
    var pos := vm.IsPosSet();
    var n := IsBitSet(instr, 11) && neg;
    var z := IsBitSet(instr, 10) && zro;
    var p := IsBitSet(instr, 9) && pos;
    if n || z || p {
      vm.SetPC(dest);
    }
  }

  method OpJump(vm: LC3VM, instr: Word)
    requires vm.Valid()
    modifies vm.registers
    ensures vm.Abs() == JumpStep(old(vm.Abs()), instr)
  {
    vm.IncPC();
    var dest := vm.ReadReg(GetBitRange(instr, 6, 3, false));
    vm.SetPC(dest);
  }

  method OpJumpSubroutine(vm: LC3VM, instr: Word) returns (status: Status)
    requires vm.Valid()
    modifies vm.registers, vm.memory
    ensures Effect(status, vm.Abs()) == JumpSubroutineStep(old(vm.Abs()), instr)
  {
    vm.IncPC();
    var pc := vm.GetPC();
    var w := vm.WriteMem(R_R7, pc);
    assert w.Ok?;  // cell 7 always exists
    var dest;
    if IsBitSet(instr, 11) {
      var offset := GetBitRange(instr, 0, 11, true);
      pc := vm.GetPC();
      dest := WrapAdd(offset, pc);
    } else {
      dest := vm.ReadReg(GetBitRange(instr, 6, 3, false));
    }
    vm.SetPC(dest);
    status := Running;
  }

  /** The tail every load shares, on the machine. */
  method LoadIntoReg(vm: LC3VM, d: Word, a: Word) returns (status: Status)
    requires vm.Valid() && d < 10
    modifies vm.registers
    ensures Effect(status, vm.Abs()) == LoadInto(old(vm.Abs()), d, a)
  {
    var v := vm.ReadMem(a);
    if v.Err? {
      return Fatal(v.fault);
    }
    vm.WriteReg(d, v.value);
    status := Running;
  }

  /** The tail every store shares, on the machine. */
  method StoreToMem(vm: LC3VM, a: Word, v: Word) returns (status: Status)
    requires vm.Valid()
    modifies vm.registers, vm.memory
    ensures Effect(status, vm.Abs()) == StoreTo(old(vm.Abs()), a, v)
  {
    ghost var s := vm.Abs();
    var w := vm.WriteMem(a, v);
    if w.Ok? {
      assert s.WriteMem(a, v) == Ok(vm.Abs());
      status := Running;
    } else {
      assert vm.Abs() == s;
      status := Fatal(w.fault);
    }
  }

  method OpLoad(vm: LC3VM, instr: Word) returns (status: Status)
    requires vm.Valid()
    modifies vm.registers
    ensures Effect(status, vm.Abs()) == LoadStep(old(vm.Abs()), instr)
  {
    vm.IncPC();
    var dest := GetBitRange(instr, 9, 3, false);
    var offset := GetBitRange(instr, 0, 9, true);
    var pc := vm.GetPC();
    status := LoadIntoReg(vm, dest, WrapAdd(pc, offset));
  }

  method OpLoadIndirect(vm: LC3VM, instr: Word) returns (status: Status)
    requires vm.Valid()
    modifies vm.registers
    ensures Effect(status, vm.Abs()) == LoadIndirectStep(old(vm.Abs()), instr)
  {
    vm.IncPC();
    var dest := GetBitRange(instr, 9, 3, false);
    var offset := GetBitRange(instr, 0, 9, true);
    var pc := vm.GetPC();
    var source := vm.ReadMem(WrapAdd(pc, offset));
    if source.Err? {
      return Fatal(source.fault);
    }
    status := LoadIntoReg(vm, dest, source.value);
  }

  method OpLoadBaseOffset(vm: LC3VM, instr: Word) returns (status: Status)
    requires vm.Valid()
    modifies vm.registers
    ensures Effect(status, vm.Abs()) == LoadBaseOffsetStep(old(vm.Abs()), instr)
  {
    vm.IncPC();
    var dest := GetBitRange(instr, 9, 3, false);
    var offset := GetBitRange(instr, 0, 6, true);
    var base := vm.ReadReg(GetBitRange(instr, 6, 3, false));
    status := LoadIntoReg(vm, dest, WrapAdd(base, offset));
  }

  method OpLoadEffectiveAddress(vm: LC3VM, instr: Word)
    requires vm.Valid()
    modifies vm.registers
    ensures vm.Abs() == LoadEffectiveAddressStep(old(vm.Abs()), instr)
  {
    vm.IncPC();
    var dest := GetBitRange(instr, 9, 3, false);
    var offset := GetBitRange(instr, 0, 9, true);
    var pc := vm.GetPC();
    vm.WriteReg(dest, WrapAdd(pc, offset));
  }

  method OpNot(vm: LC3VM, instr: Word)
    requires vm.Valid()
    modifies vm.registers
    ensures vm.Abs() == NotStep(old(vm.Abs()), instr)
  {
    vm.IncPC();
    var dest := GetBitRange(instr, 9, 3, false);
    var v := vm.ReadReg(GetBitRange(instr, 6, 3, false));
    vm.WriteReg(dest, !v);
  }

  method OpStore(vm: LC3VM, instr: Word) returns (status: Status)
    requires vm.Valid()
    modifies vm.registers, vm.memory
    ensures Effect(status, vm.Abs()) == StoreStep(old(vm.Abs()), instr)
  {
    vm.IncPC();
    var offset := GetBitRange(instr, 0, 9, true);
    var pc := vm.GetPC();
    var v := vm.ReadReg(GetBitRange(instr, 9, 3, false));
    status := StoreToMem(vm, WrapAdd(pc, offset), v);
  }

  method OpStoreIndirect(vm: LC3VM, instr: Word) returns (status: Status)
    requires vm.Valid()
    modifies vm.registers, vm.memory
    ensures Effect(status, vm.Abs()) == StoreIndirectStep(old(vm.Abs()), instr)
  {
    vm.IncPC();
    var offset := GetBitRange(instr, 0, 9, true);
    var pc := vm.GetPC();
    var dest := vm.ReadMem(WrapAdd(pc, offset));
    if dest.Err? {
      return Fatal(dest.fault);
    }
    var v := vm.ReadReg(GetBitRange(instr, 9, 3, false));
    status := StoreToMem(vm, dest.value, v);
  }

  method OpStoreBaseOffset(vm: LC3VM, instr: Word) returns (status: Status)
    requires vm.Valid()
    modifies vm.registers, vm.memory
    ensures Effect(status, vm.Abs()) == StoreBaseOffsetStep(old(vm.Abs()), instr)
  {
    vm.IncPC();
    var offset := GetBitRange(instr, 0, 6, true);
    var base := vm.ReadReg(GetBitRange(instr, 6, 3, false));
    var v := vm.ReadReg(GetBitRange(instr, 9, 3, false));
    status := StoreToMem(vm, WrapAdd(base, offset), v);
  }

  method OpSystemCall(vm: LC3VM, io: Console, instr: Word) returns (status: Status, io': Console)
    requires vm.Valid()
    modifies vm.registers
    ensures IoEffect(status, vm.Abs(), io') == SystemCallStep(old(vm.Abs()), io, instr)
  {
    vm.IncPC();
    var pc := vm.GetPC();
    vm.WriteReg(R_R7, pc);
    var vector := GetBitRange(instr, 0, 8, false);
    if vector as int !in TRAPS {
      return Fatal(NoTrapRoutine(vector)), io;
    }
    status, io' := CallTrap(vm, TRAPS[vector as int], io);
  }

  method OpNotImplemented(vm: LC3VM, instr: Word) returns (status: Status)
    requires vm.Valid()
    ensures Effect(status, vm.Abs()) == NotImplementedStep(vm.Abs(), instr)
  {
    status := Fatal(BadOpcode(instr >> 12));
  }

  // ---------------------------------------------------------------------
  // What each handler does, stated on the raw register file and memory with
  // the instruction fields decoded by plain masks.

  /** Bits 11..9: the destination register (the source register of a store). */
  function DR(instr: Word): Word { (instr >> 9) & 7 }

  /** Bits 8..6: the first source or base register. */
  function SR1(instr: Word): Word { (instr >> 6) & 7 }

  /** The low `n` bits of an instruction, as an unsigned number. */
  function Low(instr: Word, n: Word): Word
    requires n < 16
  {
    instr & ((1 << n) - 1)
  }

  /** The PC an instruction sees once it has been fetched. */
  function NextPC(s: VmState): Word
    requires s.Valid()
  {
    WrapAdd(s.registers[R_PC], 1)
  }

  /** `t` is `s` with PC advanced, register `d` set to `v` and COND set to
      the flag for `v`; memory is unchanged. */
  ghost predicate RegisterWritten(s: VmState, t: VmState, d: Word, v: Word)
    requires s.Valid() && d < 8
  {
    && t.Valid()
    && t.memory == s.memory
    && t.registers == s.registers[R_PC := NextPC(s)][d := v][R_COND := FlagFor(v)]
  }

  /** The register fields getBitRange decodes are bits 11..9, 8..6 and 2..0. */
  lemma RegisterFieldsByMask(instr: Word)
    ensures GetBitRange(instr, 9, 3, false) == DR(instr) < 8
    ensures GetBitRange(instr, 6, 3, false) == SR1(instr) < 8
    ensures GetBitRange(instr, 0, 3, false) == Low(instr, 3)
  {
    RegisterFields(instr);
  }

  /** The immediate and offset fields come back as the low bits, unsigned,
      although sign extension is asked for. */
  lemma ImmediateFieldsByMask(instr: Word)
    ensures GetBitRange(instr, 0, 5, true) == Low(instr, 5)
    ensures GetBitRange(instr, 0, 6, true) == Low(instr, 6)
    ensures GetBitRange(instr, 0, 8, false) == Low(instr, 8)
    ensures GetBitRange(instr, 0, 9, true) == Low(instr, 9)
    ensures GetBitRange(instr, 0, 11, true) == Low(instr, 11)
  {
    LowFieldIsMask(instr, 5);
    LowFieldIsMask(instr, 6);
    LowFieldIsMask(instr, 8);
    LowFieldIsMask(instr, 9);
    LowFieldIsMask(instr, 11);
  }

  /** Incrementing PC and then writing register `d` leaves the state
      RegisterWritten describes. */
  lemma IncThenWrite(s: VmState, d: Word, v: Word)
    requires s.Valid() && d < 8
    ensures RegisterWritten(s, s.IncPC().WriteReg(d, v), d, v)
  {
  }

  /** The second operand of ADD and AND: with bit 5 set, the low five bits
      as an unsigned number; otherwise the register in bits 2..0. */
  lemma SecondOperandByMask(s: VmState, instr: Word)
    requires s.Valid()
    ensures SecondOperand(s.IncPC(), instr) ==
      if instr & 0x20 != 0 then Low(instr, 5) else s.registers[Low(instr, 3)]
  {
    RegisterFieldsByMask(instr);
    ImmediateFieldsByMask(instr);
    IsBitSetMeansBit(instr, 5);
  }

  /** ADD: DR gets SR1 plus the second operand, wrapping modulo 2^16. */
  lemma AddSemantics(s: VmState, instr: Word)
    requires s.Valid()
    ensures RegisterWritten(s, AddStep(s, instr), DR(instr),
      WrapAdd(s.registers[SR1(instr)],
              if instr & 0x20 != 0 then Low(instr, 5) else s.registers[Low(instr, 3)]))
  {
    RegisterFieldsByMask(instr);
    ImmediateFieldsByMask(instr);
    SecondOperandByMask(s, instr);
    IncThenWrite(s, DR(instr), WrapAdd(s.registers[SR1(instr)], SecondOperand(s.IncPC(), instr)));
  }

  /** ADD R0, R0, #-1 adds 31: the immediate is not sign-extended. */
  lemma AddImmediateIsUnsigned(s: VmState)
    requires s.Valid()
    ensures AddStep(s, 0x103F).registers[R_R0] == WrapAdd(s.registers[R_R0], 31)
    ensures AddStep(s, 0x103F).registers[R_R0] != WrapAdd(s.registers[R_R0], 0xFFFF)
  {
    AddSemantics(s, 0x103F);
  }

  /** AND: DR gets the bitwise AND of SR1 and the second operand. */
  lemma AndSemantics(s: VmState, instr: Word)
    requires s.Valid()
    ensures RegisterWritten(s, AndStep(s, instr), DR(instr),
      BitAnd(s.registers[SR1(instr)],
             if instr & 0x20 != 0 then Low(instr, 5) else s.registers[Low(instr, 3)]))
  {
    RegisterFieldsByMask(instr);
    SecondOperandByMask(s, instr);
    var v := BitAnd(s.registers[SR1(instr)], SecondOperand(s.IncPC(), instr));
    assert AndStep(s, instr) == s.IncPC().WriteReg(DR(instr), v);
    IncThenWrite(s, DR(instr), v);
  }

  /** NOT: DR gets the bitwise complement of SR1. */
  lemma NotSemantics(s: VmState, instr: Word)
    requires s.Valid()
    ensures RegisterWritten(s, NotStep(s, instr), DR(instr), !s.registers[SR1(instr)])
  {
    RegisterFieldsByMask(instr);
    ImmediateFieldsByMask(instr);
    IncThenWrite(s, DR(instr), !s.registers[SR1(instr)]);
  }

  /** LEA: DR gets the incremented PC plus the low nine bits, unsigned. */
  lemma LoadEffectiveAddressSemantics(s: VmState, instr: Word)
    requires s.Valid()
    ensures RegisterWritten(s, LoadEffectiveAddressStep(s, instr), DR(instr),
                            WrapAdd(NextPC(s), Low(instr, 9)))
  {
    RegisterFieldsByMask(instr);
    ImmediateFieldsByMask(instr);
    IncThenWrite(s, DR(instr), WrapAdd(NextPC(s), Low(instr, 9)));
  }

  /** JMP: PC becomes the base register; nothing else changes. */
  lemma JumpSemantics(s: VmState, instr: Word)
    requires s.Valid()
    ensures JumpStep(s, instr).memory == s.memory
    ensures JumpStep(s, instr).registers == s.registers[R_PC := s.registers[SR1(instr)]]
  {
    RegisterFieldsByMask(instr);
  }

  /** BR: the branch is taken exactly when bit 11 is set and COND has bit 4,
      bit 10 is set and COND has bit 2, or bit 9 is set and COND has bit 1;
      a taken branch adds the low nine bits, unsigned, to the incremented PC. */
  lemma BranchSemantics(s: VmState, instr: Word)
    requires s.Valid()
    ensures var c := s.registers[R_COND];
      var taken := (instr & 0x800 != 0 && c & 16 != 0) || (instr & 0x400 != 0 && c & 4 != 0)
                   || (instr & 0x200 != 0 && c & 2 != 0);
      && BranchStep(s, instr).memory == s.memory
      && BranchStep(s, instr).registers ==
           s.registers[R_PC := if taken then WrapAdd(NextPC(s), Low(instr, 9)) else NextPC(s)]
  {
    ImmediateFieldsByMask(instr);
    FlagTestsReadBits(s.IncPC());
    IsBitSetMeansBit(instr, 9);
    IsBitSetMeansBit(instr, 10);
    IsBitSetMeansBit(instr, 11);
  }

  /** On a COND a register write can leave (0, F_POS or F_ZRO), BRn and BRz
      never branch and BRp branches exactly when the last value written was zero. */
  lemma BranchOnReachableCond(s: VmState, instr: Word)
    requires s.Valid() && CondReachable(s)
    ensures BranchStep(s, instr).registers == s.registers[R_PC :=
      if instr & 0x200 != 0 && s.registers[R_COND] == F_ZRO
      then WrapAdd(NextPC(s), Low(instr, 9)) else NextPC(s)]
  {
    BranchSemantics(s, instr);
  }

  /** BRnzp is not unconditional: after a nonzero result it falls through. */
  lemma BranchAlwaysFallsThroughOnPositive(s: VmState)
    requires s.Valid() && s.registers[R_COND] == F_POS
    ensures BranchStep(s, 0x0E05).GetPC() == NextPC(s)
  {
    BranchOnReachableCond(s, 0x0E05);
  }

  /** A BR with bits 11..9 all clear never branches, whatever COND holds. */
  lemma BranchWithoutConditionBitsFallsThrough(s: VmState, instr: Word)
    requires s.Valid() && instr & 0xE00 == 0
    ensures BranchStep(s, instr).memory == s.memory
    ensures BranchStep(s, instr).registers == s.registers[R_PC := NextPC(s)]
  {
    BranchSemantics(s, instr);
  }

  /** JSR: the return address goes to memory cell 7, R7 keeps its value,
      and PC becomes the incremented PC plus the low eleven bits (bit 11 set)
      or the base register. */
  lemma JumpSubroutineSemantics(s: VmState, instr: Word)
    requires s.Valid()
    ensures var r := JumpSubroutineStep(s, instr);
      && r.status == Running
      && r.state.memory == s.memory[R_R7 := NextPC(s)]
      && r.state.registers == s.registers[R_PC :=
           if instr & 0x800 != 0 then WrapAdd(Low(instr, 11), NextPC(s)) else s.registers[SR1(instr)]]
      && r.state.registers[R_R7] == s.registers[R_R7]
  {
    RegisterFieldsByMask(instr);
    ImmediateFieldsByMask(instr);
    IsBitSetMeansBit(instr, 11);
  }

  /** The addresses that have a memory cell: all but 0xFFFF. */
  predicate HasCell(a: Word) {
    a as int < MAX_UINT16
  }

  /** The addresses readMem serves: those with a cell, except the keyboard
      status register. */
  predicate Readable(a: Word) {
    a != M_KBSR && HasCell(a)
  }

  /** The fault a read of an address that is not Readable raises. */
  function ReadFault(a: Word): Fault {
    if a == M_KBSR then DeviceNotImplemented(a) else AddressOutOfRange(a)
  }

  /** Reading after incrementing PC reads the same memory. */
  lemma ReadAfterInc(s: VmState, a: Word)
    requires s.Valid()
    ensures s.IncPC().ReadMem(a) == (if Readable(a) then Ok(s.memory[a]) else Err(ReadFault(a)))
  {
    ReadMemCases(s.IncPC(), a);
  }

  /** A write after incrementing PC to an address below 0xFFFF changes that
      cell; the registers keep the incremented PC. */
  lemma WriteAfterInc(s: VmState, a: Word, v: Word)
    requires s.Valid() && HasCell(a)
    ensures s.IncPC().WriteMem(a, v) ==
      Ok(VmState(s.registers[R_PC := NextPC(s)], s.memory[a := v]))
  {
  }

  /** ... and at 0xFFFF it is fatal. */
  lemma WriteFaultAfterInc(s: VmState, a: Word, v: Word)
    requires s.Valid() && !HasCell(a)
    ensures s.IncPC().WriteMem(a, v) == Err(AddressOutOfRange(a))
  {
  }

  /** A load from a readable address: DR gets the cell and COND its flag. */
  lemma LoadIntoReads(s: VmState, d: Word, a: Word)
    requires s.Valid() && d < 8 && Readable(a)
    ensures LoadInto(s.IncPC(), d, a).status == Running
    ensures RegisterWritten(s, LoadInto(s.IncPC(), d, a).state, d, s.memory[a])
  {
    ReadAfterInc(s, a);
    IncThenWrite(s, d, s.memory[a]);
  }

  /** A load from the keyboard status register or 0xFFFF is fatal, with PC
      advanced and nothing else changed. */
  lemma LoadIntoFaults(s: VmState, d: Word, a: Word)
    requires s.Valid() && d < 8 && !Readable(a)
    ensures LoadInto(s.IncPC(), d, a) == Effect(Fatal(ReadFault(a)), s.IncPC())
  {
    ReadAfterInc(s, a);
  }

  /** A store to an address with a cell: the cell takes `v`, and among the
      registers only PC has changed. */
  lemma StoreToWrites(s: VmState, a: Word, v: Word)
    requires s.Valid() && HasCell(a)
    ensures StoreTo(s.IncPC(), a, v) ==
      Effect(Running, VmState(s.registers[R_PC := NextPC(s)], s.memory[a := v]))
  {
    WriteAfterInc(s, a, v);
  }

  /** A store to 0xFFFF is fatal, with PC advanced and nothing else changed. */
  lemma StoreToFaults(s: VmState, a: Word, v: Word)
    requires s.Valid() && !HasCell(a)
    ensures StoreTo(s.IncPC(), a, v) == Effect(Fatal(AddressOutOfRange(a)), s.IncPC())
  {
    WriteFaultAfterInc(s, a, v);
  }

  /** LD and ST address the incremented PC plus the low nine bits, unsigned. */
  function LoadAddress(s: VmState, instr: Word): Word
    requires s.Valid()
  {
    WrapAdd(NextPC(s), Low(instr, 9))
  }

  /** LDR and STR address the base register plus the low six bits, unsigned. */
  function BaseOffsetAddress(s: VmState, instr: Word): Word
    requires s.Valid()
  {
    WrapAdd(s.registers[SR1(instr)], Low(instr, 6))
  }

  /** LD loads DR from LoadAddress. */
  lemma LoadDecodes(s: VmState, instr: Word)
    requires s.Valid()
    ensures DR(instr) < 8
    ensures LoadStep(s, instr) == LoadInto(s.IncPC(), DR(instr), LoadAddress(s, instr))
  {
    RegisterFieldsByMask(instr);
    LowFieldIsMask(instr, 9);
  }

  /** LDR loads DR from BaseOffsetAddress. */
  lemma LoadBaseOffsetDecodes(s: VmState, instr: Word)
    requires s.Valid()
    ensures DR(instr) < 8
    ensures LoadBaseOffsetStep(s, instr) == LoadInto(s.IncPC(), DR(instr), BaseOffsetAddress(s, instr))
  {
    RegisterFieldsByMask(instr);
    LowFieldIsMask(instr, 6);
  }

  /** LDI reads an address from the cell at LoadAddress, then loads DR from it. */
  lemma LoadIndirectDecodes(s: VmState, instr: Word)
    requires s.Valid()
    ensures DR(instr) < 8
    ensures var p := LoadAddress(s, instr);
      LoadIndirectStep(s, instr) ==
        if Readable(p) then LoadInto(s.IncPC(), DR(instr), s.memory[p])
        else Effect(Fatal(ReadFault(p)), s.IncPC())
  {
    RegisterFieldsByMask(instr);
    LowFieldIsMask(instr, 9);
    ReadAfterInc(s, LoadAddress(s, instr));
  }

  /** ST stores DR to LoadAddress. */
  lemma StoreDecodes(s: VmState, instr: Word)
    requires s.Valid()
    ensures StoreStep(s, instr) == StoreTo(s.IncPC(), LoadAddress(s, instr), s.registers[DR(instr)])
  {
    RegisterFieldsByMask(instr);
    LowFieldIsMask(instr, 9);
  }

  /** STR stores DR to BaseOffsetAddress. */
  lemma StoreBaseOffsetDecodes(s: VmState, instr: Word)
    requires s.Valid()
    ensures StoreBaseOffsetStep(s, instr) ==
      StoreTo(s.IncPC(), BaseOffsetAddress(s, instr), s.registers[DR(instr)])
  {
    RegisterFieldsByMask(instr);
    LowFieldIsMask(instr, 6);
  }

  /** STI reads an address from the cell at LoadAddress, then stores DR to it. */
  lemma StoreIndirectDecodes(s: VmState, instr: Word)
    requires s.Valid()
    ensures var p := LoadAddress(s, instr);
      StoreIndirectStep(s, instr) ==
        if Readable(p) then StoreTo(s.IncPC(), s.memory[p], s.registers[DR(instr)])
        else Effect(Fatal(ReadFault(p)), s.IncPC())
  {
    RegisterFieldsByMask(instr);
    LowFieldIsMask(instr, 9);
    ReadAfterInc(s, LoadAddress(s, instr));
  }

  /** The register fields name R0..R7. */
  lemma RegisterFieldsBelowEight(instr: Word)
    ensures DR(instr) < 8 && SR1(instr) < 8
  {
  }

  /** An LDR whose address holds `v` loads `v`, unless the address is the
      keyboard status register. */
  lemma LoadBaseOffsetReads(u: VmState, ld: Word, v: Word)
    requires u.Valid() && HasCell(BaseOffsetAddress(u, ld))
    requires u.memory[BaseOffsetAddress(u, ld)] == v
    ensures BaseOffsetAddress(u, ld) != M_KBSR ==>
      && LoadBaseOffsetStep(u, ld).status == Running
      && LoadBaseOffsetStep(u, ld).state.registers[DR(ld)] == v
    ensures BaseOffsetAddress(u, ld) == M_KBSR ==>
      LoadBaseOffsetStep(u, ld).status == Fatal(DeviceNotImplemented(M_KBSR))
  {
    var a := BaseOffsetAddress(u, ld);
    LoadBaseOffsetDecodes(u, ld);
    if a != M_KBSR {
      LoadIntoReads(u, DR(ld), a);
    } else {
      LoadIntoFaults(u, DR(ld), a);
    }
  }

  /** An STR to an address with a cell stores DR there and advances PC. */
  lemma StoreBaseOffsetWrites(s: VmState, st: Word)
    requires s.Valid() && HasCell(BaseOffsetAddress(s, st))
    ensures var a := BaseOffsetAddress(s, st);
      StoreBaseOffsetStep(s, st) ==
        Effect(Running, VmState(s.registers[R_PC := NextPC(s)], s.memory[a := s.registers[DR(st)]]))
  {
    StoreBaseOffsetDecodes(s, st);
    StoreToWrites(s, BaseOffsetAddress(s, st), s.registers[DR(st)]);
  }

  /** STR then LDR with the same base register and offset reads back the
      stored register, except at the keyboard status register, which a store
      reaches but a load does not. */
  lemma StoreThenLoadBaseOffset(s: VmState, st: Word, ld: Word)
    requires s.Valid()
    requires SR1(st) == SR1(ld) && Low(st, 6) == Low(ld, 6)
    requires HasCell(BaseOffsetAddress(s, st))
    ensures var u := StoreBaseOffsetStep(s, st).state;
      && u.Valid()
      && (BaseOffsetAddress(s, st) != M_KBSR ==>
            && LoadBaseOffsetStep(u, ld).status == Running
            && LoadBaseOffsetStep(u, ld).state.registers[DR(ld)] == s.registers[DR(st)])
      && (BaseOffsetAddress(s, st) == M_KBSR ==>
            LoadBaseOffsetStep(u, ld).status == Fatal(DeviceNotImplemented(M_KBSR)))
  {
    var a := BaseOffsetAddress(s, st);
    var v := s.registers[DR(st)];
    StoreBaseOffsetWrites(s, st);
    var u := StoreBaseOffsetStep(s, st).state;
    RegisterFieldsBelowEight(ld);
    assert u.registers[SR1(ld)] == s.registers[SR1(st)];
    assert BaseOffsetAddress(u, ld) == a;
    LoadBaseOffsetReads(u, ld, v);
  }

  /** TRAP: R7 gets the incremented PC through writeReg, so COND takes that
      value's flag; then the routine for the low eight bits runs on that state,
      and a vector outside 0x20..0x25 is fatal. */
  lemma SystemCallSemantics(s: VmState, io: Console, instr: Word)
    requires s.Valid()
    ensures var u := s.IncPC().WriteReg(R_R7, NextPC(s));
      && RegisterWritten(s, u, R_R7, NextPC(s))
      && SystemCallStep(s, io, instr) ==
           if 0x20 <= Low(instr, 8) <= 0x25 then RunTrap(TRAPS[Low(instr, 8) as int], u, io)
           else IoEffect(Fatal(NoTrapRoutine(Low(instr, 8))), u, io)
  {
    LowFieldIsMask(instr, 8);
    IncThenWrite(s, R_R7, NextPC(s));
    TrapTableDomain(Low(instr, 8));
  }

  /** TRAP halts exactly for vector 0x25. */
  lemma SystemCallHaltsOnlyOnHalt(s: VmState, io: Console, instr: Word)
    requires s.Valid()
    ensures SystemCallStep(s, io, instr).status == Halted <==> Low(instr, 8) == T_HALT
  {
    SystemCallSemantics(s, io, instr);
    var v := Low(instr, 8);
    if 0x20 <= v <= 0x25 {
      TrapTableDomain(v);
      OnlyHaltHalts(TRAPS[v as int], s.IncPC().WriteReg(R_R7, NextPC(s)), io);
    }
  }

  /** The ops table has an entry for opcodes 0..14 and none for 15. RTI and
      the reserved opcode are bound to opNotImplemented, and no entry runs
      opStoreIndirect. */
  lemma OpsTableDomain(op: Word)
    ensures op as int in OPS <==> op < 15
    ensures op as int in OPS ==> (OPS[op as int] == NotImplemented <==> op == O_RTI || op == O_RES)
    ensures op as int in OPS ==> OPS[op as int] != StoreIndirect
    ensures op as int in OPS ==> (OPS[op as int] == SystemCall <==> op == O_TRAP)
  {
  }

  /** Of all the handlers, only TRAP with vector 0x25 halts. */
  lemma ExecuteHaltsOnlyOnHalt(h: Handler, s: VmState, io: Console, instr: Word)
    requires s.Valid()
    ensures Execute(h, s, io, instr).status == Halted <==> h == SystemCall && Low(instr, 8) == T_HALT
  {
    match h
    case SystemCall => SystemCallHaltsOnlyOnHalt(s, io, instr);
    case Load => LoadDecodes(s, instr);
    case LoadBaseOffset => LoadBaseOffsetDecodes(s, instr);
    case LoadIndirect => LoadIndirectDecodes(s, instr);
    case Store => StoreDecodes(s, instr);
    case StoreBaseOffset => StoreBaseOffsetDecodes(s, instr);
    case StoreIndirect => StoreIndirectDecodes(s, instr);
    case _ =>
  }
}
