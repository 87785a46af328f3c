/**
 * What the instruction handlers of emu8080/instruction_set.h promise, and
 * the literal quirks they have, stated about the family functions of
 * Semantics and about whole steps of the dispatch.
 */
module Properties {
  import opened Common
  import opened State
  import opened Flags
  import opened InstructionSet
  import opened Dispatch
  import M = Semantics

  /** The registers other than A and the status byte keep their values. */
  predicate OthersKept(regs: Registers, regs': Registers) {
    forall r: RegIndex :: r != A && r != STATUS ==> regs'[r] == regs[r]
  }

  // ---------------------------------------------------------------- the 8-bit arithmetic

  /** The flag update touches the status byte only. */
  lemma FlagsKeepRegisters(regs: Registers, bit4Sum: bv8, result: bv16, mask: bv8)
    ensures forall r: RegIndex :: r != STATUS ==> M.WithFlags(regs, bit4Sum, result, mask)[r] == regs[r]
  {
  }

  /**
   * The carry, zero and sign flags a masked update leaves, read off the
   * wide result, for every argument at once (so that the facts are
   * instantiated on the very terms a handler builds).
   */
  lemma FlagLaws()
    ensures forall status: bv8, bit4Sum: bv8, result: bv16, mask: bv8 ::
      var s := ModifiedFlags(status, bit4Sum, result, mask);
      && (mask & CY != 0 ==> (s & CY != 0 <==> result & 0x100 != 0))
      && (mask & Z != 0 ==> (s & Z != 0 <==> Truncate(result) == 0))
      && (mask & S != 0 ==> (s & S != 0 <==> Truncate(result) & 0x80 != 0))
  {
    forall status: bv8, bit4Sum: bv8, result: bv16, mask: bv8
      ensures var s := ModifiedFlags(status, bit4Sum, result, mask);
        && (mask & CY != 0 ==> (s & CY != 0 <==> result & 0x100 != 0))
        && (mask & Z != 0 ==> (s & Z != 0 <==> Truncate(result) == 0))
        && (mask & S != 0 ==> (s & S != 0 <==> Truncate(result) & 0x80 != 0))
    {
      MaskedFlagValues(status, bit4Sum, result, mask);
    }
  }

  /** The 16-bit sum of two bytes: its low byte is the 8-bit sum, and bit 8 is set exactly when v > 255 - a. */
  lemma SumLaws()
    ensures forall a: bv8, v: bv8 ::
      && Truncate(M.WideSum(a, v)) == a + v
      && (M.WideSum(a, v) & 0x100 != 0 <==> v > 0xFF - a)
  {
  }

  /** The 16-bit difference of two bytes: its low byte is the 8-bit difference, and bit 8 is set exactly when it borrows. */
  lemma DifferenceLaws()
    ensures forall a: bv8, v: bv8 ::
      && Truncate(M.WideDifference(a, v)) == a - v
      && (M.WideDifference(a, v) & 0x100 != 0 <==> a < v)
  {
  }

  /** The flags ADD and ADC take from A + v under the mask ALL, for every status byte and operands. */
  lemma SumFlagLaws()
    ensures forall status: bv8, a: bv8, v: bv8 ::
      var s := ModifiedFlags(status, M.Bit4Sum(a, v), M.WideSum(a, v), ALL);
      && (s & CY != 0 <==> v > 0xFF - a)
      && (s & Z != 0 <==> a + v == 0)
      && (s & S != 0 <==> (a + v) & 0x80 != 0)
  {
    forall status: bv8, a: bv8, v: bv8
      ensures var s := ModifiedFlags(status, M.Bit4Sum(a, v), M.WideSum(a, v), ALL);
        && (s & CY != 0 <==> v > 0xFF - a)
        && (s & Z != 0 <==> a + v == 0)
        && (s & S != 0 <==> (a + v) & 0x80 != 0)
    {
      MaskedFlagValues(status, M.Bit4Sum(a, v), M.WideSum(a, v), ALL);
      SumLaws();
    }
  }

  /** The flags SUB and SBB take from A - v under the mask ALL. */
  lemma DifferenceFlagLaws()
    ensures forall status: bv8, a: bv8, v: bv8 ::
      var s := ModifiedFlags(status, M.Bit4Sum(a, v), M.WideDifference(a, v), ALL);
      && (s & CY != 0 <==> a < v)
      && (s & Z != 0 <==> a == v)
      && (s & S != 0 <==> (a - v) & 0x80 != 0)
  {
    forall status: bv8, a: bv8, v: bv8
      ensures var s := ModifiedFlags(status, M.Bit4Sum(a, v), M.WideDifference(a, v), ALL);
        && (s & CY != 0 <==> a < v)
        && (s & Z != 0 <==> a == v)
        && (s & S != 0 <==> (a - v) & 0x80 != 0)
    {
      MaskedFlagValues(status, M.Bit4Sum(a, v), M.WideDifference(a, v), ALL);
      DifferenceLaws();
    }
  }

  /**
   * ADD/ADI: A becomes A + v in 8-bit arithmetic (mod 256); CY is set iff
   * A + v > 255 (v > 255 - A); Z and S describe the new A; no other
   * register changes.
   */
  lemma AddResult(regs: Registers, v: bv8)
    ensures var r := M.AddValue(regs, v, ALL);
      && r[A] == regs[A] + v
      && (FlagSet(r, CY) <==> v > 0xFF - regs[A])
      && (FlagSet(r, Z) <==> r[A] == 0)
      && (FlagSet(r, S) <==> r[A] & 0x80 != 0)
      && OthersKept(regs, r)
  {
    SumFlagLaws();
  }

  /** SUB/SUI: A becomes A - v in 8-bit arithmetic; CY is set iff A < v; Z and S describe the new A. */
  lemma SubResult(regs: Registers, v: bv8)
    ensures var r := M.SubValue(regs, v, ALL);
      && r[A] == regs[A] - v
      && (FlagSet(r, CY) <==> regs[A] < v)
      && (FlagSet(r, Z) <==> r[A] == 0)
      && (FlagSet(r, S) <==> r[A] & 0x80 != 0)
      && OthersKept(regs, r)
  {
    DifferenceFlagLaws();
  }

  /** The incoming carry as the byte 0 or 1. */
  function CarryIn(regs: Registers): (n: bv8)
    ensures n == 0 || n == 1
    ensures n == 1 <==> FlagSet(regs, CY)
  {
    regs[STATUS] & CY
  }

  /** ADC/ACI fold the incoming carry into the operand. */
  lemma AdcAccumulator(regs: Registers, v: bv8, mask: bv8)
    ensures M.AdcValue(regs, v, mask)[A] == regs[A] + (v + CarryIn(regs))
  {
    var summed := regs[A := regs[A] + (v + CarryIn(regs))];
    FlagsKeepRegisters(summed, M.Bit4Sum(regs[A], v), M.WideSum(regs[A], v), mask);
  }

  /** SBB/SBI fold the incoming borrow into the operand. */
  lemma SbbAccumulator(regs: Registers, v: bv8, mask: bv8)
    ensures M.SbbValue(regs, v, mask)[A] == regs[A] - (v + CarryIn(regs))
  {
    var borrowed := regs[A := regs[A] - (v + CarryIn(regs))];
    FlagsKeepRegisters(borrowed, M.Bit4Sum(regs[A], v), M.WideDifference(regs[A], v), mask);
  }

  /**
   * ADC/ACI: the carry is added into A, but CY, Z and S are those of
   * A + v without it: with the carry set, A = 0xFF and v = 0, A becomes 0
   * while Z and CY are cleared.
   */
  lemma AdcResult(regs: Registers, v: bv8)
    ensures var r := M.AdcValue(regs, v, ALL);
      && r[A] == regs[A] + (v + CarryIn(regs))
      && (FlagSet(r, CY) <==> v > 0xFF - regs[A])
      && (FlagSet(r, Z) <==> regs[A] + v == 0)
      && OthersKept(regs, r)
  {
    AdcAccumulator(regs, v, ALL);
    SumFlagLaws();
  }

  /** SBB/SBI: the borrow is subtracted from A, but CY and Z are those of A - v without it. */
  lemma SbbResult(regs: Registers, v: bv8)
    ensures var r := M.SbbValue(regs, v, ALL);
      && r[A] == regs[A] - (v + CarryIn(regs))
      && (FlagSet(r, CY) <==> regs[A] < v)
      && (FlagSet(r, Z) <==> regs[A] == v)
      && OthersKept(regs, r)
  {
    SbbAccumulator(regs, v, ALL);
    DifferenceFlagLaws();
  }

  /** With the carry clear, ADC is ADD. */
  lemma CarryClearAdcIsAdd(regs: Registers, v: bv8, mask: bv8)
    requires !FlagSet(regs, CY)
    ensures M.AdcValue(regs, v, mask) == M.AddValue(regs, v, mask)
  {
    assert CarryIn(regs) == 0;
    assert v + CarryIn(regs) == v;
  }

  /** With the carry clear, SBB is SUB. */
  lemma CarryClearSbbIsSub(regs: Registers, v: bv8, mask: bv8)
    requires !FlagSet(regs, CY)
    ensures M.SbbValue(regs, v, mask) == M.SubValue(regs, v, mask)
  {
    assert CarryIn(regs) == 0;
    assert v + CarryIn(regs) == v;
  }

  /**
   * CMP/CPI leave A and every register but the status byte alone; Z and CY
   * end up as their old values or-ed with A == v and A < v, because they
   * are restored after the flag update and then only ever set.
   */
  lemma CompareResult(regs: Registers, v: bv8, mask: bv8)
    ensures var r := M.Compare(regs, v, mask);
      && r[A] == regs[A]
      && (FlagSet(r, Z) <==> FlagSet(regs, Z) || regs[A] == v)
      && (FlagSet(r, CY) <==> FlagSet(regs, CY) || regs[A] < v)
      && (forall i: RegIndex :: i != STATUS ==> r[i] == regs[i])
  {
  }
}
