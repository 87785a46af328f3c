/**
 * The mask-driven flag engine `ModifyFlags` (emu8080/instruction_set.h).
 * It recomputes the flags selected by a mask from a 16-bit "wide result"
 * and, for the auxiliary carry, the sum of the bit-4 operands.
 */
module Flags {
  import opened Common

  /** The truncation `(uint8_t)result` of a wide result. */
  function Truncate(result: bv16): bv8 {
    (result & 0xFF) as bv8
  }

  /** The number of one bits among the n lowest bits of x, counted from bit 0 upwards. */
  function PopCountBelow(x: bv8, n: nat): (count: nat)
    requires n <= 8
    ensures count <= n
  {
    if n == 0 then 0
    else (if x & 1 == 1 then 1 else 0) + PopCountBelow(x >> 1, n - 1)
  }

  /** The number of one bits of x. */
  function PopCount(x: bv8): nat {
    PopCountBelow(x, 8)
  }

  /** The auxiliary-carry rule: bit 4 of the result differs from the parity of the sum of the operands' bit 4. */
  predicate AuxCarryRule(bit4Sum: bv8, result: bv16) {
    var bit4Result := (result & 0x10) >> 4;
    ((bit4Sum == 0 || bit4Sum == 2) && bit4Result == 1) || (bit4Sum == 1 && bit4Result == 0)
  }

  /** The flag `f` when `b` holds, otherwise no bit. */
  function FlagBit(b: bool, f: bv8): bv8 {
    if b then f else 0
  }

  /**
   * The value each flag takes from a wide result: EP when the low byte has
   * an even number of one bits (`!(parity % 2) << 4`), Z when the low byte
   * is 0, S from bit 7, AC by the auxiliary-carry rule and CY from bit 8.
   */
  function FlagValues(bit4Sum: bv8, result: bv16): bv8 {
    FlagBit(PopCount(Truncate(result)) % 2 == 0, EP)
      | FlagBit(Truncate(result) == 0, Z)
      | FlagBit(result & 0x80 != 0, S)
      | FlagBit(AuxCarryRule(bit4Sum, result), AC)
      | FlagBit(result & 0x100 != 0, CY)
  }

  /**
   * The status byte after `ModifyFlags(bit_4_sum, result, flags_to_modify)`
   * starting from `status`: each flag selected by the mask takes its value
   * from the wide result, every other bit keeps its value.  The source
   * performs the five updates one after the other, clearing a bit and
   * adding or or-ing the new one; Machine.ModifyFlags follows those steps
   * and is proved to produce this byte.
   */
  function ModifiedFlags(status: bv8, bit4Sum: bv8, result: bv16, mask: bv8): bv8 {
    var m := mask & ALL;
    (status & !m) | (FlagValues(bit4Sum, result) & m)
  }

  // The five guarded updates of the source, in the order it performs them.

  /** Parity: clear EP, then add it back when the low byte has an even number of one bits. */
  function UpdateParity(s: bv8, result: bv16): bv8 {
    (s & !EP) + FlagBit(PopCount(Truncate(result)) % 2 == 0, EP)
  }

  /** Zero: set Z when the low byte is 0, clear it otherwise. */
  function UpdateZero(s: bv8, result: bv16): bv8 {
    if Truncate(result) == 0 then s | Z else s & !Z
  }

  /** Sign: clear S, then add bit 7 of the result shifted down to bit 2. */
  function UpdateSign(s: bv8, result: bv16): bv8 {
    (s & !S) + ((result & 0x80) >> 5) as bv8
  }

  /** Auxiliary carry: set AC by the auxiliary-carry rule, clear it otherwise. */
  function UpdateAuxCarry(s: bv8, bit4Sum: bv8, result: bv16): bv8 {
    if AuxCarryRule(bit4Sum, result) then s | AC else s & !AC
  }

  /** Carry: clear CY, then add bit 8 of the result. */
  function UpdateCarry(s: bv8, result: bv16): bv8 {
    (s & !CY) + ((result & 0x100) >> 8) as bv8
  }

  /** The five updates performed one after the other, each under its mask bit. */
  function SequentialFlags(status: bv8, bit4Sum: bv8, result: bv16, mask: bv8): bv8 {
    var s1 := if mask & EP != 0 then UpdateParity(status, result) else status;
    var s2 := if mask & Z != 0 then UpdateZero(s1, result) else s1;
    var s3 := if mask & S != 0 then UpdateSign(s2, result) else s2;
    var s4 := if mask & AC != 0 then UpdateAuxCarry(s3, bit4Sum, result) else s3;
    if mask & CY != 0 then UpdateCarry(s4, result) else s4
  }

  /** UpdateParity writes EP only, to the value FlagValues gives it. */
  lemma UpdateParityLaw()
    ensures forall s: bv8, result: bv16 :: UpdateParity(s, result) == (s & !EP) | (FlagValues(0, result) & EP)
  {
    forall s: bv8, result: bv16
      ensures UpdateParity(s, result) == (s & !EP) | (FlagValues(0, result) & EP)
    {
      ParityBit(s, PopCount(Truncate(result)) % 2 == 0, FlagBit(Truncate(result) == 0, Z) | FlagBit(result & 0x80 != 0, S)
        | FlagBit(AuxCarryRule(0, result), AC) | FlagBit(result & 0x100 != 0, CY));
    }
  }

  /** Adding the EP bit to a byte with EP clear is or-ing it in, and the other flags leave EP alone. */
  lemma ParityBit(s: bv8, even: bool, others: bv8)
    requires others & EP == 0
    ensures (s & !EP) + FlagBit(even, EP) == (s & !EP) | ((FlagBit(even, EP) | others) & EP)
  {
  }

  /** UpdateZero writes Z only, to the value FlagValues gives it. */
  lemma UpdateZeroLaw()
    ensures forall s: bv8, result: bv16 :: UpdateZero(s, result) == (s & !Z) | (FlagValues(0, result) & Z)
  {
  }

  /** UpdateSign writes S only, to the value FlagValues gives it. */
  lemma UpdateSignLaw()
    ensures forall s: bv8, result: bv16 :: UpdateSign(s, result) == (s & !S) | (FlagValues(0, result) & S)
  {
  }

  /** UpdateAuxCarry writes AC only, to the value FlagValues gives it. */
  lemma UpdateAuxCarryLaw()
    ensures forall s: bv8, b: bv8, result: bv16 :: UpdateAuxCarry(s, b, result) == (s & !AC) | (FlagValues(b, result) & AC)
  {
  }

  /** UpdateCarry writes CY only, to the value FlagValues gives it. */
  lemma UpdateCarryLaw()
    ensures forall s: bv8, result: bv16 :: UpdateCarry(s, result) == (s & !CY) | (FlagValues(0, result) & CY)
  {
  }

  /** Each update writes exactly its own flag, to the value FlagValues gives it. */
  lemma UpdateLaws()
    ensures forall s: bv8, result: bv16 :: UpdateParity(s, result) == (s & !EP) | (FlagValues(0, result) & EP)
    ensures forall s: bv8, result: bv16 :: UpdateZero(s, result) == (s & !Z) | (FlagValues(0, result) & Z)
    ensures forall s: bv8, result: bv16 :: UpdateSign(s, result) == (s & !S) | (FlagValues(0, result) & S)
    ensures forall s: bv8, b: bv8, result: bv16 :: UpdateAuxCarry(s, b, result) == (s & !AC) | (FlagValues(b, result) & AC)
    ensures forall s: bv8, result: bv16 :: UpdateCarry(s, result) == (s & !CY) | (FlagValues(0, result) & CY)
  {
    UpdateParityLaw();
    UpdateZeroLaw();
    UpdateSignLaw();
    UpdateAuxCarryLaw();
    UpdateCarryLaw();
  }

  /** Performing the updates one after the other gives the masked flag byte. */
  lemma SequentialIsMasked(status: bv8, bit4Sum: bv8, result: bv16, mask: bv8)
    ensures SequentialFlags(status, bit4Sum, result, mask) == ModifiedFlags(status, bit4Sum, result, mask)
  {
    UpdateLaws();
  }

  /** Bits outside the mask, and the three unused high bits, keep their value. */
  lemma OnlyMaskedFlagsChange(status: bv8, bit4Sum: bv8, result: bv16, mask: bv8)
    ensures var s := ModifiedFlags(status, bit4Sum, result, mask);
      s & !(mask & ALL) == status & !(mask & ALL)
  {
  }

  /** Each masked flag takes the value the source promises. */
  lemma MaskedFlagValues(status: bv8, bit4Sum: bv8, result: bv16, mask: bv8)
    ensures var s := ModifiedFlags(status, bit4Sum, result, mask);
      && (mask & Z != 0 ==> (s & Z != 0 <==> Truncate(result) == 0))
      && (mask & S != 0 ==> (s & S != 0 <==> result & 0x80 != 0))
      && (mask & EP != 0 ==> (s & EP != 0 <==> PopCount(Truncate(result)) % 2 == 0))
      && (mask & AC != 0 ==> (s & AC != 0 <==> AuxCarryRule(bit4Sum, result)))
      && (mask & CY != 0 ==> (s & CY != 0 <==> result & 0x100 != 0))
  {
  }

  /** With the mask NONE the status byte is unchanged. */
  lemma NoneMaskChangesNothing(status: bv8, bit4Sum: bv8, result: bv16)
    ensures ModifiedFlags(status, bit4Sum, result, NONE) == status
  {
  }
}
