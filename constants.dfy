/** Register indices, opcode numbers, condition flags, trap vectors,
    memory-mapped device addresses and the sizes of the LC-3 virtual machine. */
module Constants {

  /** A machine word: every register, memory cell and instruction is 16 bits wide. */
  type Word = bv16

  // Register indices: eight general registers, the program counter and the
  // condition register.
  const R_R0: Word := 0
  const R_R1: Word := 1
  const R_R2: Word := 2
  const R_R3: Word := 3
  const R_R4: Word := 4
  const R_R5: Word := 5
  const R_R6: Word := 6
  const R_R7: Word := 7
  const R_PC: Word := 8
  const R_COND: Word := 9

  // Opcodes, numbered consecutively from 0. There is no STI constant, so
  // every opcode from O_JMP on sits one below its LC-3 encoding.
  const O_BR: Word := 0
  const O_ADD: Word := 1
  const O_LD: Word := 2
  const O_ST: Word := 3
  const O_JSR: Word := 4
  const O_AND: Word := 5
  const O_LDR: Word := 6
  const O_STR: Word := 7
  const O_RTI: Word := 8
  const O_NOT: Word := 9
  const O_LDI: Word := 10
  const O_JMP: Word := 11
  const O_RES: Word := 12
  const O_LEA: Word := 13
  const O_TRAP: Word := 14

  // Condition flags, one bit each.
  const F_POS: Word := 1
  const F_ZRO: Word := 2
  const F_NEG: Word := 4

  // Trap vectors.
  const T_GETC: Word := 0x20
  const T_OUT: Word := 0x21
  const T_PUTS: Word := 0x22
  const T_IN: Word := 0x23
  const T_PUTSP: Word := 0x24
  const T_HALT: Word := 0x25

  // Memory-mapped device registers.
  const M_KBSR: Word := 0xFE00
  const M_KBDR: Word := 0xFE02
  const M_DSR: Word := 0xFE04
  const M_DDR: Word := 0xFE06
  const M_MCR: Word := 0xFFFE

  const NUM_REGISTERS: nat := 10
  /** Also the number of memory cells the machine allocates. */
  const MAX_UINT16: nat := 0x1_0000 - 1

  /** The opcode constants in declaration order. */
  const OPCODES: seq<Word> :=
    [O_BR, O_ADD, O_LD, O_ST, O_JSR, O_AND, O_LDR, O_STR,
     O_RTI, O_NOT, O_LDI, O_JMP, O_RES, O_LEA, O_TRAP]

  /** The register constants in declaration order. */
  const REGISTERS: seq<Word> :=
    [R_R0, R_R1, R_R2, R_R3, R_R4, R_R5, R_R6, R_R7, R_PC, R_COND]

  /** The trap vectors in declaration order. */
  const TRAP_VECTORS: seq<Word> := [T_GETC, T_OUT, T_PUTS, T_IN, T_PUTSP, T_HALT]

  /** The k-th opcode constant is k: fifteen distinct values 0..14, so 15 has no name. */
  lemma OpcodesAreConsecutive()
    ensures OPCODES == [0, 1, 2, 3, 4, 5, 6, 7, 8, 9, 10, 11, 12, 13, 14]
    ensures 15 !in OPCODES
  {
  }

  /** The flags are three distinct single-bit masks. */
  lemma FlagsAreSingleBits()
    ensures F_POS == 1 << 0 && F_ZRO == 1 << 1 && F_NEG == 1 << 2
    ensures F_POS & F_ZRO == 0 && F_POS & F_NEG == 0 && F_ZRO & F_NEG == 0
  {
  }

  /** Register indices are 0..9 in order, every one a valid index of the register file. */
  lemma RegistersInRange()
    ensures |REGISTERS| == NUM_REGISTERS
    ensures REGISTERS == [0, 1, 2, 3, 4, 5, 6, 7, 8, 9]
  {
  }

  /** The trap vectors are 0x20..0x25, all of which fit in an 8-bit trap field. */
  lemma TrapVectorsFitEightBits()
    ensures TRAP_VECTORS == [0x20, 0x21, 0x22, 0x23, 0x24, 0x25]
    ensures forall v <- TRAP_VECTORS :: v < 0x100
  {
  }

  /** MAX_UINT16 is one less than the number of 16-bit addresses, so the address
      0xFFFF has no memory cell; the keyboard status register sits at 0xFE00. */
  lemma AddressSpaceSizes()
    ensures MAX_UINT16 == 0xFFFF
    ensures MAX_UINT16 + 1 == 0x1_0000
    ensures M_KBSR as int == 0xFE00 < MAX_UINT16
  {
  }
}
