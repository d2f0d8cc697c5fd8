/** The fetch-and-dispatch loop. Each pass reads the word at PC, takes its
    top four bits as the opcode and calls the handler the ops table binds to
    it; the program's loop never ends by itself, and the only ways out are
    the panics, trapHalt among them. `Step` and `Run` give its meaning as
    functions of the state; `StepMachine` and `RunMachine` run it in place. */
module Exec {
  import opened Constants
  import opened Helpers
  import opened Machine
  import opened Traps
  import opened Ops

  /** The top four bits of an instruction. */
  function Opcode(instr: Word): (op: Word)
    ensures op < 16
  {
    instr >> 12
  }

  /** One pass of the loop. A fetch the memory refuses, or an opcode with no
      entry in the ops table, is fatal before anything changes. */
  function Step(s: VmState, io: Console): (r: IoEffect)
    requires s.Valid()
    ensures r.state.Valid()
  {
    match s.ReadMem(s.GetPC())
    case Err(f) => IoEffect(Fatal(f), s, io)
    case Ok(instr) =>
      var op := Opcode(instr);
      if op as int in OPS then Execute(OPS[op as int], s, io, instr)
      else IoEffect(Fatal(NoOpcodeHandler(op)), s, io)
  }

  /** One pass of the loop as a map on effects: a Running effect on a
      well-formed state takes a step; a stopped one stays where it is. */
  function Next(e: IoEffect): (r: IoEffect)
    ensures e.state.Valid() ==> r.state.Valid()
  {
    if e.status == Running && e.state.Valid() then Step(e.state, e.console) else e
  }

  /** `fuel` applications of `next`. */
  function Iterate(next: IoEffect -> IoEffect, e: IoEffect, fuel: nat): IoEffect
    decreases fuel
  {
    if fuel == 0 then e else Iterate(next, next(e), fuel - 1)
  }

  /** At most `fuel` passes of the loop from `e`: the run stops at the first
      status that is not Running, and a run still Running when the fuel is
      spent is cut off there. */
  function Run(e: IoEffect, fuel: nat): IoEffect {
    Iterate(Next, e, fuel)
  }

  // ---------------------------------------------------------------------
  // The loop as the program runs it, on the machine in place.

  /** Calls handler h, as a call through the ops table does. */
  method Dispatch(vm: LC3VM, h: Handler, io: Console, instr: Word) returns (status: Status, io': Console)
    requires vm.Valid()
    modifies vm.registers, vm.memory
    ensures IoEffect(status, vm.Abs(), io') == Execute(h, old(vm.Abs()), io, instr)
  {
    io' := io;
    status := Running;
    match h
    case Branch => OpBranch(vm, instr);
    case Add => OpAdd(vm, instr);
    case Load => status := OpLoad(vm, instr);
    case Store => status := OpStore(vm, instr);
    case JumpSubroutine => status := OpJumpSubroutine(vm, instr);
    case And => OpAnd(vm, instr);
    case LoadBaseOffset => status := OpLoadBaseOffset(vm, instr);
    case StoreBaseOffset => status := OpStoreBaseOffset(vm, instr);
    case NotImplemented => status := OpNotImplemented(vm, instr);
    case Not => OpNot(vm, instr);
    case LoadIndirect => status := OpLoadIndirect(vm, instr);
    case Jump => OpJump(vm, instr);
    case LoadEffectiveAddress => OpLoadEffectiveAddress(vm, instr);
    case SystemCall => status, io' := OpSystemCall(vm, io, instr);
    case StoreIndirect => status := OpStoreIndirect(vm, instr);
  }

  /** One pass of the loop on the machine. */
  method StepMachine(vm: LC3VM, io: Console) returns (status: Status, io': Console)
    requires vm.Valid()
    modifies vm.registers, vm.memory
    ensures IoEffect(status, vm.Abs(), io') == Step(old(vm.Abs()), io)
  {
    var pc := vm.GetPC();
    var instr := vm.ReadMem(pc);
    if instr.Err? {
      return Fatal(instr.fault), io;
    }
    var op := Opcode(instr.value);
    if op as int !in OPS {
      return Fatal(NoOpcodeHandler(op)), io;
    }
    status, io' := Dispatch(vm, OPS[op as int], io, instr.value);
  }

  /** The loop, for at most `fuel` passes: it goes on while every pass
      leaves the machine Running. */
  method RunMachine(vm: LC3VM, io: Console, fuel: nat) returns (status: Status, io': Console)
    requires vm.Valid()
    modifies vm.registers, vm.memory
    ensures IoEffect(status, vm.Abs(), io') == Run(IoEffect(Running, old(vm.Abs()), io), fuel)
  {
    status, io' := Running, io;
    var n := 0;
    while n < fuel && status == Running
      invariant vm.Valid()
      invariant n <= fuel
      invariant Run(IoEffect(Running, old(vm.Abs()), io), fuel) == Run(IoEffect(status, vm.Abs(), io'), fuel - n)
      decreases fuel - n
    {
      RunTakesAStep(IoEffect(status, vm.Abs(), io'), fuel - n);
      status, io' := StepMachine(vm, io');
      n := n + 1;
    }
    if status != Running {
      RunStopsForGood(IoEffect(status, vm.Abs(), io'), fuel - n);
    }
  }

  // ---------------------------------------------------------------------
  // Properties of the loop.

  /** m + n applications are m applications followed by n. */
  lemma {:induction false} IterateSplits(next: IoEffect -> IoEffect, e: IoEffect, m: nat, n: nat)
    ensures Iterate(next, e, m + n) == Iterate(next, Iterate(next, e, m), n)
    decreases m
  {
    if m > 0 {
      IterateSplits(next, next(e), m - 1, n);
      assert m + n - 1 == (m - 1) + n;
    }
  }

  /** Iterating a map that fixes `e` leaves `e` where it is. */
  lemma {:induction false} IterateFixedPoint(next: IoEffect -> IoEffect, e: IoEffect, fuel: nat)
    requires next(e) == e
    ensures Iterate(next, e, fuel) == e
    decreases fuel
  {
    if fuel > 0 {
      IterateFixedPoint(next, e, fuel - 1);
    }
  }

  /** A run of m + n passes is a run of m passes followed by a run of n
      passes from where it left off. */
  lemma RunSplits(e: IoEffect, m: nat, n: nat)
    ensures Run(e, m + n) == Run(Run(e, m), n)
  {
    IterateSplits(Next, e, m, n);
  }

  /** Once a run has stopped, it stays stopped with nothing changed,
      however much fuel is left. */
  lemma RunStopsForGood(e: IoEffect, fuel: nat)
    requires e.status != Running
    ensures Run(e, fuel) == e
  {
    IterateFixedPoint(Next, e, fuel);
  }

  /** A run that has not yet stopped takes one Step and goes on. */
  lemma RunTakesAStep(e: IoEffect, fuel: nat)
    requires e.state.Valid() && e.status == Running && fuel > 0
    ensures Run(e, fuel) == Run(Step(e.state, e.console), fuel - 1)
  {
  }

  /** The fetch: at the keyboard status register or at 0xFFFF the loop
      stops before anything changes; otherwise the instruction is the cell
      at PC, and an instruction with opcode 15 has no handler. */
  lemma StepFetches(s: VmState, io: Console)
    requires s.Valid()
    ensures var pc := s.registers[R_PC];
      && (!Readable(pc) ==> Step(s, io) == IoEffect(Fatal(ReadFault(pc)), s, io))
      && (Readable(pc) && s.memory[pc] >> 12 == 15 ==>
            Step(s, io) == IoEffect(Fatal(NoOpcodeHandler(15)), s, io))
      && (Readable(pc) && s.memory[pc] >> 12 != 15 ==>
            Step(s, io) == Execute(OPS[(s.memory[pc] >> 12) as int], s, io, s.memory[pc]))
  {
    var pc := s.registers[R_PC];
    ReadMemCases(s, pc);
    if Readable(pc) {
      OpsTableDomain(Opcode(s.memory[pc]));
    }
  }

  /** RTI (opcode 8) and the reserved opcode 12 stop the loop with
      BadOpcode before PC moves. */
  lemma NotImplementedIsFatal(s: VmState, io: Console)
    requires s.Valid() && Readable(s.registers[R_PC])
    requires var op := s.memory[s.registers[R_PC]] >> 12; op == O_RTI || op == O_RES
    ensures Step(s, io) == IoEffect(Fatal(BadOpcode(s.memory[s.registers[R_PC]] >> 12)), s, io)
  {
    StepFetches(s, io);
    OpsTableDomain(s.memory[s.registers[R_PC]] >> 12);
  }

  /** 0xE025 halts: opcode 14 is bound to opSystemCall, so the word the
      LC-3 assembles as LEA R0, #37 runs trapHalt, with R7 set to the
      incremented PC. */
  lemma OpcodeFourteenHalts(s: VmState, io: Console)
    requires s.Valid() && Readable(s.registers[R_PC]) && s.memory[s.registers[R_PC]] == 0xE025
    ensures Step(s, io).status == Halted
    ensures Step(s, io).state.registers[R_R7] == NextPC(s)
    ensures Step(s, io).console == io
  {
    StepFetches(s, io);
    OpsTableDomain(14);
    SystemCallSemantics(s, io, 0xE025);
    SystemCallHaltsOnlyOnHalt(s, io, 0xE025);
    TrapTableDomain(0x25);
  }

  /** 0xF025, the LC-3's HALT, does not halt: opcode 15 has no entry in the
      ops table, so the loop stops on NoOpcodeHandler with the state as it was. */
  lemma HaltWordHasNoHandler(s: VmState, io: Console)
    requires s.Valid() && Readable(s.registers[R_PC]) && s.memory[s.registers[R_PC]] == 0xF025
    ensures Step(s, io) == IoEffect(Fatal(NoOpcodeHandler(15)), s, io)
  {
    StepFetches(s, io);
  }

  /** trapHalt is the only way a pass of the loop halts: a pass halts exactly
      when the word at PC can be fetched, its opcode is 14 (TRAP in the ops
      table) and its trap vector is 0x25. */
  lemma StepHaltsOnlyOnTrapHalt(s: VmState, io: Console)
    requires s.Valid()
    ensures var pc := s.registers[R_PC];
      Step(s, io).status == Halted <==>
        Readable(pc) && s.memory[pc] >> 12 == O_TRAP && Low(s.memory[pc], 8) == T_HALT
  {
    StepFetches(s, io);
    var pc := s.registers[R_PC];
    if Readable(pc) && s.memory[pc] >> 12 != 15 {
      var instr := s.memory[pc];
      OpsTableDomain(instr >> 12);
      ExecuteHaltsOnlyOnHalt(OPS[(instr >> 12) as int], s, io, instr);
    }
  }

  // ---------------------------------------------------------------------
  // COND only ever holds 0, F_POS or F_ZRO.

  lemma IncPCKeepsCond(s: VmState)
    requires s.Valid() && CondReachable(s)
    ensures CondReachable(s.IncPC())
  {
    IncPCTouchesOnlyPC(s);
  }

  lemma LoadIntoKeepsCond(t: VmState, d: Word, a: Word)
    requires t.Valid() && d < 10 && CondReachable(t)
    ensures CondReachable(LoadInto(t, d, a).state)
  {
    match t.ReadMem(a)
    case Err(_) =>
    case Ok(v) => WriteRegEffect(t, d, v);
  }

  lemma StoreToKeepsCond(t: VmState, a: Word, v: Word)
    requires t.Valid() && CondReachable(t)
    ensures CondReachable(StoreTo(t, a, v).state)
  {
    WriteMemCases(t, a, v);
  }

  lemma TrapKeepsCond(tr: Trap, s: VmState, io: Console)
    requires s.Valid() && CondReachable(s)
    ensures RunTrap(tr, s, io).state.Valid() && CondReachable(RunTrap(tr, s, io).state)
  {
    if tr in {GetChar, Input} && |io.input| > 0 {
      WriteRegEffect(s, R_R0, io.input[0] as Word);
    }
  }

  lemma LoadsKeepCond(s: VmState, instr: Word)
    requires s.Valid() && CondReachable(s)
    ensures CondReachable(LoadStep(s, instr).state)
    ensures CondReachable(LoadBaseOffsetStep(s, instr).state)
    ensures CondReachable(LoadIndirectStep(s, instr).state)
  {
    IncPCKeepsCond(s);
    var t := s.IncPC();
    LoadDecodes(s, instr);
    LoadIntoKeepsCond(t, DR(instr), LoadAddress(s, instr));
    LoadBaseOffsetDecodes(s, instr);
    LoadIntoKeepsCond(t, DR(instr), BaseOffsetAddress(s, instr));
    LoadIndirectDecodes(s, instr);
    var p := LoadAddress(s, instr);
    if Readable(p) {
      LoadIntoKeepsCond(t, DR(instr), s.memory[p]);
    }
  }

  lemma StoresKeepCond(s: VmState, instr: Word)
    requires s.Valid() && CondReachable(s)
    ensures CondReachable(StoreStep(s, instr).state)
    ensures CondReachable(StoreBaseOffsetStep(s, instr).state)
    ensures CondReachable(StoreIndirectStep(s, instr).state)
  {
    IncPCKeepsCond(s);
    var t := s.IncPC();
    StoreDecodes(s, instr);
    StoreToKeepsCond(t, LoadAddress(s, instr), s.registers[DR(instr)]);
    StoreBaseOffsetDecodes(s, instr);
    StoreToKeepsCond(t, BaseOffsetAddress(s, instr), s.registers[DR(instr)]);
    StoreIndirectDecodes(s, instr);
    var p := LoadAddress(s, instr);
    if Readable(p) {
      StoreToKeepsCond(t, s.memory[p], s.registers[DR(instr)]);
    }
  }

  lemma RegisterOpsKeepCond(s: VmState, instr: Word)
    requires s.Valid() && CondReachable(s)
    ensures CondReachable(AddStep(s, instr))
    ensures CondReachable(AndStep(s, instr))
    ensures CondReachable(NotStep(s, instr))
    ensures CondReachable(LoadEffectiveAddressStep(s, instr))
  {
    var t := s.IncPC();
    var d := GetBitRange(instr, 9, 3, false);
    var v1 := t.ReadReg(GetBitRange(instr, 6, 3, false));
    WriteRegEffect(t, d, WrapAdd(v1, SecondOperand(t, instr)));
    WriteRegEffect(t, d, BitAnd(v1, SecondOperand(t, instr)));
    WriteRegEffect(t, d, !v1);
    WriteRegEffect(t, d, WrapAdd(t.GetPC(), GetBitRange(instr, 0, 9, true)));
  }

  lemma JumpsKeepCond(s: VmState, instr: Word)
    requires s.Valid() && CondReachable(s)
    ensures CondReachable(BranchStep(s, instr))
    ensures CondReachable(JumpStep(s, instr))
    ensures CondReachable(JumpSubroutineStep(s, instr).state)
  {
    BranchSemantics(s, instr);
    JumpSemantics(s, instr);
    JumpSubroutineSemantics(s, instr);
  }

  lemma SystemCallKeepsCond(s: VmState, io: Console, instr: Word)
    requires s.Valid() && CondReachable(s)
    ensures CondReachable(SystemCallStep(s, io, instr).state)
  {
    SystemCallSemantics(s, io, instr);
    var u := s.IncPC().WriteReg(R_R7, NextPC(s));
    WriteRegEffect(s.IncPC(), R_R7, NextPC(s));
    if 0x20 <= Low(instr, 8) <= 0x25 {
      TrapKeepsCond(TRAPS[Low(instr, 8) as int], u, io);
    }
  }

  /** Every handler leaves COND at 0, F_POS or F_ZRO if it found it there. */
  lemma ExecuteKeepsCond(h: Handler, s: VmState, io: Console, instr: Word)
    requires s.Valid() && CondReachable(s)
    ensures CondReachable(Execute(h, s, io, instr).state)
  {
    match h
    case Branch => JumpsKeepCond(s, instr);
    case Jump => JumpsKeepCond(s, instr);
    case JumpSubroutine => JumpsKeepCond(s, instr);
    case Add => RegisterOpsKeepCond(s, instr);
    case And => RegisterOpsKeepCond(s, instr);
    case Not => RegisterOpsKeepCond(s, instr);
    case LoadEffectiveAddress => RegisterOpsKeepCond(s, instr);
    case Load => LoadsKeepCond(s, instr);
    case LoadBaseOffset => LoadsKeepCond(s, instr);
    case LoadIndirect => LoadsKeepCond(s, instr);
    case Store => StoresKeepCond(s, instr);
    case StoreBaseOffset => StoresKeepCond(s, instr);
    case StoreIndirect => StoresKeepCond(s, instr);
    case NotImplemented =>
    case SystemCall => SystemCallKeepsCond(s, io, instr);
  }

  /** One pass of the loop keeps COND at 0, F_POS or F_ZRO. */
  lemma StepKeepsCond(s: VmState, io: Console)
    requires s.Valid() && CondReachable(s)
    ensures CondReachable(Step(s, io).state)
  {
    match s.ReadMem(s.GetPC())
    case Err(_) =>
    case Ok(instr) =>
      var op := Opcode(instr);
      if op as int in OPS {
        ExecuteKeepsCond(OPS[op as int], s, io, instr);
      }
  }

  /** However long it runs, the machine keeps a well-formed state whose COND
      holds 0, F_POS or F_ZRO. */
  lemma {:induction false} RunKeepsCond(e: IoEffect, fuel: nat)
    requires e.state.Valid() && CondReachable(e.state)
    ensures Run(e, fuel).state.Valid() && CondReachable(Run(e, fuel).state)
    decreases fuel
  {
    if fuel == 0 {
      assert Run(e, fuel) == e;
    } else if e.status != Running {
      RunStopsForGood(e, fuel);
    } else {
      RunTakesAStep(e, fuel);
      StepKeepsCond(e.state, e.console);
      RunKeepsCond(Step(e.state, e.console), fuel - 1);
    }
  }

  /** From the state NewLC3VM builds, COND never holds F_NEG and isNegSet
      never holds, so a BRn branch is never taken. */
  lemma NegativeFlagUnreachable(io: Console, fuel: nat)
    ensures var r := Run(IoEffect(Running, NewState(), io), fuel);
      && r.state.Valid()
      && r.state.registers[R_COND] != F_NEG
      && !r.state.IsNegSet()
  {
    var s := NewState();
    assert s.registers[R_COND] == 0;
    RunKeepsCond(IoEffect(Running, s, io), fuel);
    FlagTestsOnReachableCond(Run(IoEffect(Running, s, io), fuel).state);
  }
}
