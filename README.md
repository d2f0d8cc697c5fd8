# LC-3 virtual machine, modelled in Dafny

This project models the `machine` package of a Go implementation of the LC-3
virtual machine, and proves properties of that model:

- a register file of ten 16-bit words: R0–R7, PC and COND;
- a flat memory of 65535 words, one fewer than the 16-bit address space;
- the memory and register accessors;
- the fifteen opcode handlers and the `ops` table that dispatches on an
  instruction's top four bits;
- the trap service routines and the `traps` table;
- the fetch–decode–execute loop `Run`.

It models the code as written. Where the code differs from the LC-3
instruction set, the model keeps the code's behaviour and a lemma states the
difference:

- `signExtension` tests bit `n` of a field that `getBitRange` has already
  masked to `n` bits, so the bit is always clear. No immediate or offset is
  ever sign-extended: `ADD R0, R0, #-1` (0x103F) adds 31.
  See `Helpers.SignExtendFlagIsIgnored` and `Ops.AddImmediateIsUnsigned`.
- `updateFlags` compares an unsigned word with `> 0`, so COND only ever
  holds 0, F_POS or F_ZRO, never F_NEG.
  See `Machine.FlagForCases` and `Exec.NegativeFlagUnreachable`.
- `isPosSet`, `isZroSet` and `isNegSet` pass the flag masks 1, 2 and 4 as
  bit indices, so they test bits 1, 2 and 4 of COND. On the values COND can
  hold, only `isPosSet` can be true, and only after a zero result.
  See `Machine.FlagTestsOnReachableCond` and `Ops.BranchOnReachableCond`.
- JSR stores the return address into memory cell 7, not into R7.
  See `Ops.JumpSubroutineSemantics`.
- The output routines print each word as a decimal number, not as the
  character it encodes. See `Traps.RunePrintsDecimal`.
- The opcode constants have no STI, so JMP, RES, LEA and TRAP are numbered
  one below their LC-3 encodings.
  - Opcode 15 has no handler, so the LC-3 HALT word 0xF025 stops the loop
    with a missing-handler fault (`Exec.HaltWordHasNoHandler`).
  - 0xE025, which the LC-3 reads as LEA, halts instead
    (`Exec.OpcodeFourteenHalts`).
  - `opStoreIndirect` is in no table entry (`Ops.OpsTableDomain`).

Each Go panic becomes an explicit outcome, a `Status` of `Running`,
`Halted` or `Fatal(fault)`:

- trapHalt gives `Halted`;
- `opNotImplemented` gives `BadOpcode`;
- a read of the keyboard status register gives `DeviceNotImplemented`;
- an index at address 0xFFFF gives `AddressOutOfRange`;
- a call through a missing `ops` entry gives `NoOpcodeHandler`;
- a call through a missing `traps` entry gives `NoTrapRoutine`;
- taking the first byte of an empty input line gives `InputExhausted`.

The console is a value: the bytes of standard input not yet read, and the
words printed so far.

The modules follow the Go files:

| Module | File | Role |
|---|---|---|
| `Constants` | constants.dfy | constants.go |
| `Helpers` | helpers.dfy | helpers.go, the bit-field codec |
| `Machine` | machine.dfy | machine.go: accessors and `NewLC3VM` |
| `Traps` | traps.dfy | traps.go |
| `Ops` | ops.dfy | ops.go |
| `Exec` | run.dfy | `Run` from machine.go |

The state has two forms:

- The value `Machine.VmState` gives the meaning of every accessor, handler
  and routine as a function; for example, `Ops.AddStep` is opAdd.
- The class `Machine.LC3VM` holds the same state in two arrays. Its methods
  and the `Op…`/`Trap…` methods change those arrays in place. Each is proved
  to leave exactly the state its function gives.

## Model

| member | source | states |
|---|---|---|
| Constants.OpcodesAreConsecutive | machine/constants.go:18-34 | the fifteen opcode constants are 0..14 in order, and 15 is not an opcode |
| Constants.FlagsAreSingleBits | machine/constants.go:37-41 | F_POS, F_ZRO and F_NEG are the single-bit masks 1, 2 and 4, pairwise disjoint |
| Constants.RegistersInRange | machine/constants.go:4-15 | R_R0..R_R7 are 0..7, R_PC is 8 and R_COND is 9; there are NUM_REGISTERS of them |
| Constants.TrapVectorsFitEightBits | machine/constants.go:44-51 | the trap vectors are 0x20..0x25, all below 0x100 |
| Constants.AddressSpaceSizes | machine/constants.go:53-66 | MAX_UINT16 is 0xFFFF, one less than the number of 16-bit addresses; M_KBSR is 0xFE00, below it |
| Helpers.IsBitSet | machine/helpers.go:23-25 | isBitSet: shift right by n and test the low bit; Helpers.IsBitSetMeansBit gives its meaning |
| Helpers.SignExtension | machine/helpers.go:4-10 | signExtension as written, testing bit n; the SignExtension lemmas below give its meaning |
| Helpers.IsBitSetMeansBit | machine/helpers.go:23-25 | isBitSet(v, n) holds exactly when bit n of v is 1; it is false for every n of 16 or more |
| Helpers.GetBitRange | machine/helpers.go:13-20 | for n below 16, the field is below 2^n |
| Helpers.GetBitRangeIsLocal | machine/helpers.go:13-20 | two words that agree on bits lsb..lsb+n-1 give the same field |
| Helpers.FieldClearsBitN | machine/helpers.go:14 | the masked field never has bit n set |
| Helpers.SignExtensionKeepsLowBits | machine/helpers.go:4-10 | signExtension keeps every bit below n |
| Helpers.SignExtensionFillsHighBits | machine/helpers.go:4-10 | when bit n is set, signExtension sets every bit from n to 15 |
| Helpers.SignExtensionClearIsIdentity | machine/helpers.go:4-10 | when bit n is clear, signExtension returns its input |
| Helpers.SignExtendFlagIsIgnored | machine/helpers.go:3-20 | getBitRange gives the same result whether or not sign extension is asked for |
| Helpers.LowFieldIsMask | machine/helpers.go:13-20 | a field at bit 0 is v AND (2^n - 1), with or without sign extension |
| Helpers.RegisterFields | machine/helpers.go:13-20 | the 3-bit fields at bits 9, 6 and 0 are (v >> 9) & 7, (v >> 6) & 7 and v & 7 |
| Machine.FlagFor | machine/machine.go:37-45 | the flag updateFlags chooses, with its unsigned comparison; Machine.FlagForCases gives its cases |
| Machine.VmState.ReadMem | machine/machine.go:17-22 | readMem with its two panics as faults; Machine.ReadMemCases gives its cases |
| Machine.VmState.WriteMem | machine/machine.go:24-26 | a write that succeeds leaves a well-formed state |
| Machine.VmState.ReadReg | machine/machine.go:28-30 | readReg, for the ten registers |
| Machine.VmState.WriteReg | machine/machine.go:32-35 | writeReg with the flag update as a plain store; the state stays well formed (its effect is Machine.WriteRegEffect) |
| Machine.VmState.UpdateFlags | machine/machine.go:37-45 | updateFlags as a store into COND; the state stays well formed |
| Machine.VmState.GetPC | machine/machine.go:47-49 | getPC |
| Machine.VmState.SetPC | machine/machine.go:51-53 | setPC; the state stays well formed (its effect is Machine.SetPCTouchesOnlyPC) |
| Machine.VmState.IncPC | machine/machine.go:55-57 | incPC with 16-bit wrap-around; the state stays well formed (its effect is Machine.IncPCTouchesOnlyPC) |
| Machine.VmState.OffsetPC | machine/machine.go:59-61 | offsetPC with 16-bit wrap-around; the state stays well formed (its effect is Machine.OffsetPCTouchesOnlyPC) |
| Machine.VmState.IsPosSet | machine/machine.go:63-65 | isPosSet, testing bit F_POS = 1; Machine.FlagTestsReadBits gives its meaning |
| Machine.VmState.IsNegSet | machine/machine.go:67-69 | isNegSet, testing bit F_NEG = 4; Machine.FlagTestsReadBits gives its meaning |
| Machine.VmState.IsZroSet | machine/machine.go:71-73 | isZroSet, testing bit F_ZRO = 2; Machine.FlagTestsReadBits gives its meaning |
| Machine.NewState | machine/machine.go:88-97 | ten registers, all zero except PC = 0x3000, and 65535 zero cells |
| Machine.FlagForCases | machine/machine.go:37-45 | the flag is F_ZRO exactly for 0 and F_POS for every other word; F_NEG is never chosen |
| Machine.ReadMemCases | machine/machine.go:17-22 | a read succeeds exactly at addresses other than 0xFE00 and 0xFFFF and returns that cell; 0xFE00 faults as an unimplemented device and 0xFFFF as out of range |
| Machine.ReadOkAddress | machine/machine.go:17-22 | an address that reads successfully is neither 0xFE00 nor 0xFFFF |
| Machine.WriteMemCases | machine/machine.go:24-26 | a write succeeds exactly below 0xFFFF, including 0xFE00; it changes that one cell, keeps every register and every other cell, and the value reads back except at 0xFE00 |
| Machine.WriteRegEffect | machine/machine.go:32-45 | writeReg sets the register and sets COND to F_ZRO for 0, else F_POS; memory and every other register are unchanged, and COND stays in {0, F_POS, F_ZRO} |
| Machine.NestedWriteReg | machine/machine.go:32-45 | every nested call that writeReg makes through updateFlags, as written, is a write to COND |
| Machine.WriteRegRecursesForever | machine/machine.go:32-45 | as written, from the second nested call on every call is writeReg(R_COND, F_POS), and it makes that same call again |
| Machine.SetPCTouchesOnlyPC | machine/machine.go:51-53 | setPC sets PC and changes no other register and no memory |
| Machine.IncPCTouchesOnlyPC | machine/machine.go:55-57 | incPC adds 1 to PC modulo 2^16, so 0xFFFF wraps to 0, and changes nothing else |
| Machine.OffsetPCTouchesOnlyPC | machine/machine.go:59-61 | offsetPC adds its offset to PC modulo 2^16 and changes nothing else |
| Machine.FlagTestsReadBits | machine/machine.go:63-73 | isPosSet, isZroSet and isNegSet test bits 1, 2 and 4 of COND |
| Machine.FlagTestsOnReachableCond | machine/machine.go:63-73 | when COND is 0, F_POS or F_ZRO, isPosSet holds exactly when COND is F_ZRO, and isZroSet and isNegSet never hold |
| Machine.LC3VM.constructor | machine/machine.go:88-97 | NewLC3VM builds fresh arrays that hold the state NewState describes |
| Machine.LC3VM.ReadMem | machine/machine.go:17-22 | the array read returns what the value model's readMem returns, fault included |
| Machine.LC3VM.WriteMem | machine/machine.go:24-26 | the array write leaves the state the value model's writeMem gives, and on a fault memory is unchanged |
| Machine.LC3VM.ReadReg | machine/machine.go:28-30 | returns the register's value |
| Machine.LC3VM.WriteReg | machine/machine.go:32-35 | leaves the registers the value model's writeReg gives; memory is unchanged |
| Machine.LC3VM.UpdateFlags | machine/machine.go:37-45 | stores the flag for the result into COND, and nothing else |
| Machine.LC3VM.GetPC | machine/machine.go:47-49 | returns PC |
| Machine.LC3VM.SetPC | machine/machine.go:51-53 | leaves the state the value model's setPC gives |
| Machine.LC3VM.IncPC | machine/machine.go:55-57 | leaves the state the value model's incPC gives |
| Machine.LC3VM.OffsetPC | machine/machine.go:59-61 | leaves the state the value model's offsetPC gives |
| Machine.LC3VM.IsPosSet | machine/machine.go:63-65 | returns the value model's isPosSet |
| Machine.LC3VM.IsNegSet | machine/machine.go:67-69 | returns the value model's isNegSet |
| Machine.LC3VM.IsZroSet | machine/machine.go:71-73 | returns the value model's isZroSet |
| Traps.ReadChar | machine/traps.go:16-28 | trapGetChar and trapInput; the state stays well formed (its effect is Traps.ReadCharEffect) |
| Traps.PrintChar | machine/traps.go:30-32 | trapOutput; the state stays well formed (its effect is Traps.PrintCharEffect) |
| Traps.ScanString | machine/traps.go:10-11 | the loop of trapPutString as a recursive scan; Traps.ScanStringReads and Traps.ScanFindsTerminator characterise it |
| Traps.PrintString | machine/traps.go:9-14 | trapPutString and trapPutStringP; the state stays well formed and is unchanged |
| Traps.RunTrap | machine/traps.go:45-52 | runs the routine a table entry names; the state stays well formed |
| Traps.Decimal | machine/traps.go:31 | the text fmt.Print writes for a rune: one or more decimal digits |
| Traps.RunePrintsDecimal | machine/traps.go:31 | as written, R0 = 0x41 prints the two characters "65", not 'A' |
| Traps.LineLength | machine/traps.go:17-18 | a line read takes at most the whole input and at least one byte of non-empty input; it contains no newline before its last byte, which is a newline unless the input is exhausted |
| Traps.LineLengthSplitsAtNewline | machine/traps.go:17-18 | a line read from line + newline + rest takes exactly the line and its newline |
| Traps.ReadCharEffect | machine/traps.go:16-28 | with no input left the read is fatal and changes nothing; otherwise R0 gets the first byte, zero-extended, COND gets F_ZRO for a zero byte and F_POS otherwise, every other register and all memory are unchanged, nothing is printed, and the input loses exactly its first line: every byte through the first newline, or all of it when there is none |
| Traps.ReadCharLine | machine/traps.go:16-28 | reading from a line, a newline and more input leaves exactly the input after that newline; an empty line puts the newline byte into R0 |
| Traps.PrintCharEffect | machine/traps.go:30-32 | trapOutput appends R0 to the output and changes nothing else |
| Traps.ScanNext | machine/traps.go:10-11 | a nonzero word read at i is printed, and the scan goes on from i + 1, which does not wrap |
| Traps.ScanStops | machine/traps.go:10 | a scan whose first read faults stops with that fault, and one that reads zero prints nothing and goes on running |
| Traps.ScanStringReads | machine/traps.go:9-14 | the k-th printed word is the nonzero word read k cells after R0; the scan ends at a zero word or at a faulting read, whose fault it reports |
| Traps.ScanTextAt | machine/traps.go:10-11 | the k-th printed word is nonzero and is what readMem gives k cells after the start |
| Traps.ScanEndsAt | machine/traps.go:10 | the cell just after the printed words reads zero, or its read is the fault the scan stopped with |
| Traps.ScanFindsTerminator | machine/traps.go:9-14 | conversely, nonzero words at i, i+1, … followed by a zero word are exactly what the scan prints |
| Traps.ScanNeverHalts | machine/traps.go:9-14 | a string print never halts the machine |
| Traps.TrapTableDomain | machine/traps.go:45-52 | the traps table has an entry exactly for the vectors 0x20..0x25; each fits in eight bits, and only 0x25 maps to trapHalt |
| Traps.OnlyHaltHalts | machine/traps.go:40-42 | a routine halts exactly when it is trapHalt, which changes nothing |
| Traps.TrapGetChar | machine/traps.go:16-21 | the routine on the arrays leaves the state and console that the routine as a function gives |
| Traps.TrapInput | machine/traps.go:23-28 | the same as trapGetChar |
| Traps.TrapOutput | machine/traps.go:30-32 | appends R0 to the output, as the routine as a function does |
| Traps.PrintLoop | machine/traps.go:10-12 | the loop, which reads each cell twice, prints exactly the text the scan gives and stops as the scan does |
| Traps.TrapPutString | machine/traps.go:9-14 | prints the scan from R0, as the routine as a function does |
| Traps.TrapPutStringP | machine/traps.go:34-38 | the same as trapPutString: one output item per word |
| Traps.TrapHalt | machine/traps.go:40-42 | halts with the state and console unchanged |
| Traps.CallTrap | machine/traps.go:45-52 | a call through the table runs the routine as its function describes |
| Ops.AddStep | machine/ops.go:3-21 | opAdd as a function of the state; the state stays well formed (its effect is Ops.AddSemantics) |
| Ops.AndStep | machine/ops.go:23-42 | opAnd as a function of the state; the state stays well formed |
| Ops.BranchStep | machine/ops.go:44-62 | opBranch as a function of the state; the state stays well formed |
| Ops.JumpStep | machine/ops.go:64-76 | opJump as a function of the state; the state stays well formed |
| Ops.JumpSubroutineStep | machine/ops.go:78-96 | opJumpSubroutine as a function of the state; the state stays well formed |
| Ops.LoadInto | machine/ops.go:110 | the readMem-then-writeReg tail of every load keeps the state well formed |
| Ops.StoreTo | machine/ops.go:179 | the writeMem tail of every store keeps the state well formed |
| Ops.LoadStep | machine/ops.go:98-111 | opLoad as a function of the state; the state stays well formed |
| Ops.LoadIndirectStep | machine/ops.go:113-126 | opLoadIndirect as a function of the state; the state stays well formed |
| Ops.LoadBaseOffsetStep | machine/ops.go:128-140 | opLoadBaseOffset as a function of the state; the state stays well formed |
| Ops.LoadEffectiveAddressStep | machine/ops.go:142-153 | opLoadEffectiveAddress as a function of the state; the state stays well formed |
| Ops.NotStep | machine/ops.go:155-166 | opNot as a function of the state; the state stays well formed |
| Ops.StoreStep | machine/ops.go:168-180 | opStore as a function of the state; the state stays well formed |
| Ops.StoreIndirectStep | machine/ops.go:182-194 | opStoreIndirect as a function of the state; the state stays well formed |
| Ops.StoreBaseOffsetStep | machine/ops.go:196-209 | opStoreBaseOffset as a function of the state; the state stays well formed |
| Ops.SystemCallStep | machine/ops.go:211-226 | opSystemCall as a function of the state and console; the state stays well formed |
| Ops.NotImplementedStep | machine/ops.go:228-230 | opNotImplemented as a function of the state; the state stays well formed |
| Ops.Execute | machine/ops.go:233-249 | running any handler keeps the state well formed |
| Ops.ReadSecondOperand | machine/ops.go:12-16 | reads the second operand of ADD and AND: the immediate field with bit 5 set, else the register in bits 2..0 |
| Ops.OpAdd | machine/ops.go:3-21 | the handler on the arrays leaves the state opAdd's function gives |
| Ops.OpAnd | machine/ops.go:23-42 | the same for opAnd |
| Ops.OpBranch | machine/ops.go:44-62 | the same for opBranch |
| Ops.OpJump | machine/ops.go:64-76 | the same for opJump |
| Ops.OpJumpSubroutine | machine/ops.go:78-96 | the same for opJumpSubroutine, whose store to cell 7 never faults |
| Ops.LoadIntoReg | machine/ops.go:110 | the load tail on the arrays: the status and state LoadInto gives |
| Ops.StoreToMem | machine/ops.go:179 | the store tail on the arrays: the status and state StoreTo gives |
| Ops.OpLoad | machine/ops.go:98-111 | the handler on the arrays leaves the status and state opLoad's function gives |
| Ops.OpLoadIndirect | machine/ops.go:113-126 | the same for opLoadIndirect |
| Ops.OpLoadBaseOffset | machine/ops.go:128-140 | the same for opLoadBaseOffset |
| Ops.OpLoadEffectiveAddress | machine/ops.go:142-153 | the same for opLoadEffectiveAddress |
| Ops.OpNot | machine/ops.go:155-166 | the same for opNot |
| Ops.OpStore | machine/ops.go:168-180 | the same for opStore |
| Ops.OpStoreIndirect | machine/ops.go:182-194 | the same for opStoreIndirect |
| Ops.OpStoreBaseOffset | machine/ops.go:196-209 | the same for opStoreBaseOffset |
| Ops.OpSystemCall | machine/ops.go:211-226 | the same for opSystemCall, console included |
| Ops.OpNotImplemented | machine/ops.go:228-230 | fails with BadOpcode for the instruction's opcode and changes nothing |
| Ops.RegisterFieldsByMask | machine/ops.go:10-15 | the register fields the handlers decode are bits 11..9, 8..6 and 2..0, each below 8 |
| Ops.ImmediateFieldsByMask | machine/ops.go:13 | the imm5, offset6, trap-vector, offset9 and offset11 fields are the low 5, 6, 8, 9 and 11 bits, unsigned |
| Ops.IncThenWrite | machine/machine.go:32-57 | incPC followed by writeReg(d, v) advances PC, sets d to v and COND to v's flag, and keeps memory |
| Ops.SecondOperandByMask | machine/ops.go:12-16 | the second operand is the low five bits, unsigned, when bit 5 is set, else the register in bits 2..0 |
| Ops.AddSemantics | machine/ops.go:3-21 | ADD advances PC and sets DR to SR1 plus the second operand modulo 2^16 and COND to its flag; nothing else changes |
| Ops.AddImmediateIsUnsigned | machine/ops.go:13 | ADD R0, R0, #-1 (0x103F) adds 31, not -1 |
| Ops.AndSemantics | machine/ops.go:23-42 | AND advances PC and sets DR to SR1 AND the second operand and COND to its flag; nothing else changes |
| Ops.NotSemantics | machine/ops.go:155-166 | NOT advances PC and sets DR to the complement of SR1 and COND to its flag; nothing else changes |
| Ops.LoadEffectiveAddressSemantics | machine/ops.go:142-153 | LEA advances PC and sets DR to the new PC plus the unsigned low nine bits, and COND to its flag |
| Ops.JumpSemantics | machine/ops.go:64-76 | JMP sets PC to the base register and changes nothing else |
| Ops.BranchSemantics | machine/ops.go:44-62 | BR jumps exactly when (bit 11 and COND bit 4) or (bit 10 and COND bit 2) or (bit 9 and COND bit 1); a jump goes to the new PC plus the unsigned low nine bits, otherwise PC just advances; nothing else changes |
| Ops.BranchOnReachableCond | machine/ops.go:44-62 | when COND is 0, F_POS or F_ZRO, a branch is taken exactly when bit 9 is set and COND is F_ZRO |
| Ops.BranchAlwaysFallsThroughOnPositive | machine/ops.go:44-62 | BRnzp (0x0E05) falls through after a nonzero result |
| Ops.BranchWithoutConditionBitsFallsThrough | machine/ops.go:44-62 | a BR with bits 11..9 clear never jumps |
| Ops.JumpSubroutineSemantics | machine/ops.go:78-96 | JSR stores the new PC into memory cell 7, keeps R7 and sets PC to the unsigned low eleven bits plus the new PC (bit 11 set) or to the base register |
| Ops.ReadAfterInc | machine/machine.go:17-22 | after incPC, a read at a readable address returns its cell and any other read faults |
| Ops.WriteAfterInc | machine/machine.go:24-26 | after incPC, a write below 0xFFFF sets that cell, and the registers keep the advanced PC |
| Ops.WriteFaultAfterInc | machine/machine.go:24-26 | after incPC, a write to 0xFFFF faults |
| Ops.LoadIntoReads | machine/ops.go:110 | a load from a readable address advances PC, sets DR to the cell and COND to its flag |
| Ops.LoadIntoFaults | machine/ops.go:110 | a load from 0xFE00 or 0xFFFF faults with PC advanced and nothing else changed |
| Ops.StoreToWrites | machine/ops.go:179 | a store below 0xFFFF advances PC and sets exactly that cell |
| Ops.StoreToFaults | machine/ops.go:179 | a store to 0xFFFF faults with PC advanced and nothing else changed |
| Ops.LoadDecodes | machine/ops.go:98-111 | LD loads DR from the new PC plus the unsigned low nine bits |
| Ops.LoadBaseOffsetDecodes | machine/ops.go:128-140 | LDR loads DR from the base register plus the unsigned low six bits |
| Ops.LoadIndirectDecodes | machine/ops.go:113-126 | LDI reads an address at the new PC plus the low nine bits, then loads DR from it; a faulting read of that address stops with PC advanced |
| Ops.StoreDecodes | machine/ops.go:168-180 | ST stores DR at the new PC plus the unsigned low nine bits |
| Ops.StoreBaseOffsetDecodes | machine/ops.go:196-209 | STR stores DR at the base register plus the unsigned low six bits |
| Ops.StoreIndirectDecodes | machine/ops.go:182-194 | STI reads an address at the new PC plus the low nine bits, then stores DR there; a faulting read of that address stops with PC advanced |
| Ops.RegisterFieldsBelowEight | machine/ops.go:10-11 | the DR and SR1 fields name R0..R7 |
| Ops.LoadBaseOffsetReads | machine/ops.go:128-140 | an LDR from an address holding v loads v, unless the address is 0xFE00, where it faults |
| Ops.StoreBaseOffsetWrites | machine/ops.go:196-209 | an STR below 0xFFFF sets that cell to DR and advances PC |
| Ops.StoreThenLoadBaseOffset | machine/ops.go:128-140 | STR then LDR with the same base register and offset reads back the stored register; at 0xFE00 the store succeeds but the load faults |
| Ops.SystemCallSemantics | machine/ops.go:211-226 | TRAP sets R7 to the new PC through writeReg, so COND changes too, then runs the routine for the low eight bits; any vector outside 0x20..0x25 faults |
| Ops.SystemCallHaltsOnlyOnHalt | machine/ops.go:211-226 | TRAP halts exactly for vector 0x25 |
| Ops.OpsTableDomain | machine/ops.go:233-249 | the ops table has entries exactly for opcodes 0..14; 8 and 12 map to opNotImplemented, only 14 maps to opSystemCall, and no entry runs opStoreIndirect |
| Ops.ExecuteHaltsOnlyOnHalt | machine/ops.go:211-249 | a handler halts exactly when it is opSystemCall with trap vector 0x25 |
| Exec.Opcode | machine/machine.go:111 | the opcode is below 16 |
| Exec.Step | machine/machine.go:108-113 | one pass of the loop keeps the state well formed |
| Exec.Next | machine/machine.go:108-113 | a pass from a well-formed state leaves a well-formed state |
| Exec.Run | machine/machine.go:107-114 | the loop, cut off after `fuel` passes; Exec.RunKeepsCond and Exec.RunStopsForGood give its properties |
| Exec.Dispatch | machine/machine.go:112 | calling a handler through the table on the arrays leaves the status, state and console its function gives |
| Exec.StepMachine | machine/machine.go:108-113 | one pass on the arrays leaves the status, state and console Step gives |
| Exec.RunMachine | machine/machine.go:107-114 | the loop on the arrays, bounded by fuel, ends as Run does |
| Exec.IterateSplits | machine/machine.go:108 | m + n passes are m passes followed by n |
| Exec.IterateFixedPoint | machine/machine.go:108 | passes from a fixed point leave it unchanged |
| Exec.RunSplits | machine/machine.go:107-114 | a run of m + n passes is a run of m passes followed by n more |
| Exec.RunStopsForGood | machine/machine.go:107-114 | once a run has halted or faulted, more passes change nothing |
| Exec.RunTakesAStep | machine/machine.go:107-114 | a run that is still going takes one Step and goes on |
| Exec.StepFetches | machine/machine.go:108-113 | a fetch at 0xFE00 or 0xFFFF faults with nothing changed; otherwise the instruction is the cell at PC, opcode 15 has no handler, and any other opcode runs its table entry |
| Exec.NotImplementedIsFatal | machine/ops.go:228-249 | opcodes 8 and 12 stop the loop with BadOpcode before PC moves |
| Exec.OpcodeFourteenHalts | machine/ops.go:211-249 | the word 0xE025 halts, with R7 set to the new PC and the console unchanged |
| Exec.StepHaltsOnlyOnTrapHalt | machine/machine.go:108-113 | a pass of the loop halts exactly when the word at PC can be fetched, has opcode 14 and has trap vector 0x25 |
| Exec.HaltWordHasNoHandler | machine/machine.go:112 | the word 0xF025 stops the loop on a missing handler for opcode 15, with the state unchanged |
| Exec.IncPCKeepsCond | machine/machine.go:55-57 | incPC keeps COND in {0, F_POS, F_ZRO} |
| Exec.LoadIntoKeepsCond | machine/ops.go:110 | the load tail keeps COND in {0, F_POS, F_ZRO} |
| Exec.StoreToKeepsCond | machine/ops.go:179 | the store tail keeps COND in {0, F_POS, F_ZRO} |
| Exec.TrapKeepsCond | machine/traps.go:9-52 | every routine keeps COND in {0, F_POS, F_ZRO} |
| Exec.LoadsKeepCond | machine/ops.go:98-140 | LD, LDR and LDI keep COND in {0, F_POS, F_ZRO} |
| Exec.StoresKeepCond | machine/ops.go:168-209 | ST, STR and STI keep COND in {0, F_POS, F_ZRO} |
| Exec.RegisterOpsKeepCond | machine/ops.go:3-42 | ADD, AND, NOT and LEA keep COND in {0, F_POS, F_ZRO} |
| Exec.JumpsKeepCond | machine/ops.go:44-96 | BR, JMP and JSR keep COND in {0, F_POS, F_ZRO} |
| Exec.SystemCallKeepsCond | machine/ops.go:211-226 | TRAP keeps COND in {0, F_POS, F_ZRO} |
| Exec.ExecuteKeepsCond | machine/ops.go:233-249 | every handler keeps COND in {0, F_POS, F_ZRO} |
| Exec.StepKeepsCond | machine/machine.go:108-113 | one pass of the loop keeps COND in {0, F_POS, F_ZRO} |
| Exec.RunKeepsCond | machine/machine.go:107-114 | however long it runs, the machine keeps a well-formed state with COND in {0, F_POS, F_ZRO} |
| Exec.NegativeFlagUnreachable | machine/machine.go:37-45 | from the state NewLC3VM builds, COND never holds F_NEG and isNegSet never holds |

## Left out

- `LoadImage` (machine/machine.go:99-105) reads a program image from a file. The model takes the initial memory as a state parameter instead.
- `dumpRegisters` (machine/machine.go:75-86) only prints.
- lc3.go and main.go are not part of this model. lc3.go is an older copy of the machine; main.go is a terminal user interface.
- The `ops` and `traps` fields of the `LC3VM` struct are never used. The model has only the package-level tables.
- Standard input and output are not modelled. The console is a sequence of input bytes and a sequence of printed words.
- `fmt.Print(rune(…))` prints each word as its decimal number, with no separator between words. The console records the word itself, one output item per word. `Traps.Decimal` gives the digits written for one word (see Findings).
- Each read creates a new `bufio.Reader`, which may buffer input beyond the first line and then drop it. The model takes exactly one line per read.
- Exec.Run: `Run` has no exit except a panic. The model runs it for a given number of passes, its fuel, and a run still Running when the fuel is spent is cut off there.
- Go panic and stack mechanics are not modelled. Every panic is the `Fatal` or `Halted` status, keeping any change made before it.
- Machine.VmState.WriteReg: the inner write of `updateFlags` goes through `writeReg`, which calls `updateFlags` again, so as written it never returns. The model stores the flag into COND directly; the recursion is a finding below.

## Findings

| source | as written | input that shows it | evidently intended | confidence | as-written member | corrected member |
|---|---|---|---|---|---|---|
| machine/machine.go:32-45 | `writeReg` calls `updateFlags`, and every branch of `updateFlags` calls `writeReg(R_COND, …)`, which calls `updateFlags` again | any register write, e.g. `writeReg(R_R0, 0)`: then `writeReg(R_COND, F_ZRO)`, then `writeReg(R_COND, F_POS)` forever | `updateFlags` stores the flag into COND directly | high; not executed | Machine.WriteRegRecursesForever | Machine.WriteRegEffect |
| machine/traps.go:31 | `fmt.Print(rune(w))` prints a rune, which is a 32-bit integer, so each word comes out as its decimal number | R0 = 0x41 before trapOutput writes "65" | print the character the word encodes, 'A' | high; not executed | Traps.RunePrintsDecimal | Traps.PrintCharEffect |
