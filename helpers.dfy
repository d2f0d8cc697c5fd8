/** The bit-field codec: shift-and-mask arithmetic on 16-bit words, as the
    machine uses it to decode instruction fields. Shift counts are themselves
    16-bit words, and a shift by 16 or more yields 0, as an unsigned shift does. */
module Helpers {
  import opened Constants

  /** Unsigned right shift; counts of 16 or more shift everything out. */
  function Shr(v: Word, n: Word): Word {
    if n < 16 then v >> n else 0
  }

  /** Left shift on a 16-bit word; counts of 16 or more shift everything out. */
  function Shl(v: Word, n: Word): Word {
    if n < 16 then v << n else 0
  }

  /** Addition of two 16-bit words, wrapping around modulo 2^16 as unsigned
      16-bit arithmetic does. */
  function WrapAdd(a: Word, b: Word): Word {
    a + b
  }

  /** Bitwise AND of two words. */
  function BitAnd(a: Word, b: Word): Word {
    a & b
  }

  /** Reference definition: bit i of v is 1 (bits are numbered 0..15 from the least significant). */
  predicate Bit(v: Word, i: Word) {
    i < 16 && v & (1 << i) != 0
  }

  /** isBitSet: bit n of v is 1. There is no bit 16 or above, so those are never set. */
  function IsBitSet(v: Word, n: Word): bool {
    Shr(v, n) & 1 == 1
  }

  /** MAX_UINT16 as a 16-bit word: all sixteen bits set. */
  const MAX_UINT16_WORD: Word := 0xFFFF

  /** signExtension as written: it tests bit n, not bit n-1, and when that bit is
      set it ORs ones into bit n and every bit above it. */
  function SignExtension(v: Word, n: Word): Word {
    if IsBitSet(v, n) then v | Shl(MAX_UINT16_WORD, n) else v
  }

  /** getBitRange: the n-bit field of v starting at bit lsb. The field is masked
      to n bits before the optional sign extension, which tests bit n and so finds
      it clear: the result is below 2^n whether or not sign extension is asked for. */
  function GetBitRange(v: Word, lsb: Word, n: Word, signExtend: bool): (r: Word)
    ensures n < 16 ==> r < 1 << n
  {
    var temp := Field(v, lsb, n);
    if signExtend then SignExtension(temp, n) else temp
  }

  /** The shift-and-mask step of getBitRange. */
  function Field(v: Word, lsb: Word, n: Word): Word {
    Shr(v, lsb) & (Shl(1, n) - 1)
  }

  /** isBitSet tests exactly bit n; there is no bit 16 or above, so those are never set. */
  lemma IsBitSetMeansBit(v: Word, n: Word)
    ensures IsBitSet(v, n) <==> Bit(v, n)
    ensures n >= 16 ==> !IsBitSet(v, n)
  {
  }

  /** getBitRange depends on bits lsb..lsb+n-1 of its word alone: two words
      that differ only outside those bits have the same field. */
  lemma GetBitRangeIsLocal(v: Word, w: Word, lsb: Word, n: Word)
    requires lsb < 16 && n < 16
    requires (v ^ w) & Shl(Shl(1, n) - 1, lsb) == 0
    ensures GetBitRange(v, lsb, n, false) == GetBitRange(w, lsb, n, false)
  {
  }

  /** signExtension keeps every bit below n ... */
  lemma SignExtensionKeepsLowBits(v: Word, n: Word, i: Word)
    requires i < n
    ensures Bit(SignExtension(v, n), i) <==> Bit(v, i)
  {
  }

  /** ... and sets every bit from n upward exactly when bit n is set. */
  lemma SignExtensionFillsHighBits(v: Word, n: Word, i: Word)
    requires n <= i < 16
    ensures Bit(v, n) ==> Bit(SignExtension(v, n), i)
  {
  }

  lemma SignExtensionClearIsIdentity(v: Word, n: Word)
    ensures !Bit(v, n) ==> SignExtension(v, n) == v
  {
  }

  /** Because the field is masked to n bits first and the extension then tests
      bit n, asking getBitRange to sign-extend never changes its result. */
  lemma SignExtendFlagIsIgnored(v: Word, lsb: Word, n: Word)
    ensures GetBitRange(v, lsb, n, true) == GetBitRange(v, lsb, n, false)
  {
    FieldClearsBitN(v, lsb, n);
  }

  /** The masked field never has bit n set. */
  lemma FieldClearsBitN(v: Word, lsb: Word, n: Word)
    ensures !IsBitSet(Field(v, lsb, n), n)
  {
  }

  /** A field at bit 0 is the low n bits of v, whether or not sign extension
      is asked for: a negative immediate or offset comes back as a large
      positive word. */
  lemma LowFieldIsMask(v: Word, n: Word)
    ensures GetBitRange(v, 0, n, true) == GetBitRange(v, 0, n, false) == v & (Shl(1, n) - 1)
  {
    SignExtendFlagIsIgnored(v, 0, n);
  }

  /** The three register fields: bits 11..9, 8..6 and 2..0. */
  lemma RegisterFields(instr: Word)
    ensures GetBitRange(instr, 9, 3, false) == (instr >> 9) & 0x7
    ensures GetBitRange(instr, 6, 3, false) == (instr >> 6) & 0x7
    ensures GetBitRange(instr, 0, 3, false) == instr & 0x7
  {
  }
}
