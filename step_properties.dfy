/**
 * The remaining literal quirks of emu8080/instruction_set.h, stated about
 * the family functions of Semantics and about whole dispatched steps:
 * RAL's carry, DAA's empty flag mask, DAD's carry from bit 8, the flags
 * the logical handlers clear, the NULL destination of opcode 0x77 and the
 * unofficial opcodes that run `Nop`.
 */
module StepProperties {
  import opened Common
  import opened State
  import opened Flags
  import opened InstructionSet
  import opened Dispatch
  import opened Properties
  import M = Semantics

  // ---------------------------------------------------------------- RAL

  /** Adding a byte to a byte whose bit 0 is clear leaves bit 0 of the sum equal to bit 0 of the addend. */
  lemma LowBitOfSum(s: bv8, a: bv8)
    ensures ((s & !CY) + a) & CY == a & 1
  {
  }

  /**
   * RAL: A is shifted left with the old carry entering bit 0, and the new
   * status byte is the old one with CY cleared plus all of A, so the new
   * carry is bit 0 of A rather than bit 7.
   */
  lemma RalCarry(regs: Registers)
    ensures var r := M.Ral(regs);
      && r[A] == (regs[A] << 1) + (regs[STATUS] & CY)
      && r[STATUS] == (regs[STATUS] & !CY) + regs[A]
      && (FlagSet(r, CY) <==> regs[A] & 1 == 1)
      && (forall i: RegIndex :: i != A && i != STATUS ==> r[i] == regs[i])
  {
    LowBitOfSum(regs[STATUS], regs[A]);
  }

  /** With A = 0x80 and a clear status byte, RAL leaves CY clear and sets the Sign flag instead. */
  lemma RalLosesBit7(regs: Registers)
    requires regs[A] == 0x80 && regs[STATUS] == 0
    ensures !FlagSet(M.Ral(regs), CY)
    ensures FlagSet(M.Ral(regs), 0x80)
    ensures M.Ral(regs)[A] == 0
  {
  }

  // ---------------------------------------------------------------- DAA

  /** Entry 0x27 is DAA, with the flag mask NONE. */
  lemma DaaEntry()
    ensures HandlerOf(0x27) == IncDec(Daa) && DescriptorOf(0x27).flags == NONE
  {
  }

  /** DAA under the mask NONE adjusts A only. */
  lemma DaaUnderNone(d: Descriptor, c: Cpu)
    requires d.flags == NONE
    ensures ExecuteIncDec(Daa, d, c).Next?
    ensures var r := ExecuteIncDec(Daa, d, c).cpu;
      && (forall i: RegIndex :: i != A ==> r.regs[i] == c.regs[i])
      && r == c.(regs := r.regs)
  {
    var a0 := c.regs[A];
    var low := (a0 & 0x0F) > 9 || c.regs[STATUS] & AC != 0;
    var a1 := if low then a0 + 0x06 else a0;
    var result1: bv16 := if low then a0 as bv16 + 0x06 else a0 as bv16;
    var high := (a1 & 0xF0) >> 4 > 9 || c.regs[STATUS] & CY != 0;
    var result2: bv16 := if high then a1 as bv16 + 0x60 else result1;
    NoneMaskChangesNothing(c.regs[STATUS], M.Bit4(a0), result2);
  }

  /** DAA's descriptor passes the mask NONE, so a DAA step leaves the status byte as it was; only A is adjusted. */
  lemma DaaKeepsFlags(c: Cpu)
    requires c.ir == 0x27
    ensures Step(c).Next?
    ensures Step(c).cpu.regs[STATUS] == c.regs[STATUS]
    ensures forall i: RegIndex :: i != A ==> Step(c).cpu.regs[i] == c.regs[i]
    ensures Step(c).cpu == c.(regs := Step(c).cpu.regs)
  {
    DaaEntry();
    DaaUnderNone(DescriptorOf(0x27), c);
  }

  // ---------------------------------------------------------------- DAD

  /** Bit 8 of a word's 16-bit pattern is bit 0 of its high byte. */
  lemma BitEight(hi: bv8, lo: bv8)
    ensures ((hi as bv16 << 8) | lo as bv16) & 0x100 != 0 <==> hi & 1 == 1
  {
  }

  /** BitEight for every word. */
  lemma BitEightLaw()
    ensures forall w: word :: WordBits(w) & 0x100 != 0 <==> HighByte(w) & 1 == 1
  {
    forall w: word
      ensures WordBits(w) & 0x100 != 0 <==> HighByte(w) & 1 == 1
    {
      BitEight(HighByte(w), LowByte(w));
    }
  }

  /**
   * DAD: HL becomes HL + the addend modulo 2^16, and CY is bit 8 of that
   * truncated sum, that is bit 0 of the new H, not the carry out of bit 15.
   */
  lemma DadCarry(regs: Registers, addend: word)
    ensures var r := M.Dad(regs, addend, CARRY);
      && PairValue(r, H_PAIR) == Wrap16(PairValue(regs, H_PAIR) + addend)
      && (FlagSet(r, CY) <==> r[H] & 1 == 1)
  {
    var result := Wrap16(PairValue(regs, H_PAIR) + addend);
    PairRoundTrip(regs, H_PAIR, result);
    FlagLaws();
    BitEightLaw();
  }

  /** HL = 0xFFFF plus 1 overflows 16 bits, yet DAD leaves CY clear. */
  lemma DadMissesOverflow(regs: Registers)
    requires PairValue(regs, H_PAIR) == 0xFFFF
    ensures !FlagSet(M.Dad(regs, 1, CARRY), CY)
    ensures PairValue(M.Dad(regs, 1, CARRY), H_PAIR) == 0
  {
    DadCarry(regs, 1);
    WordLaws();
  }

  // ---------------------------------------------------------------- the logical handlers

  /** A logical handler stores `A op v` in A and clears the requested flags after the flag engine. */
  lemma LogicalClears(regs: Registers, op: M.LogicOp, v: bv8, mask: bv8, cleared: bv8)
    ensures var r := M.Logical(regs, op, v, mask, cleared);
      && r[A] == M.Apply(op, regs[A], v)
      && r[STATUS] & cleared == 0
      && OthersKept(regs, r)
  {
  }

  /** Entry 0xA0 is ANA B under the mask ALL; entry 0xE6 is ANI under the mask ALL. */
  lemma AndEntries()
    ensures HandlerOf(0xA0) == Logic(AnaRegister) && DescriptorOf(0xA0).register1 == Some(B) && DescriptorOf(0xA0).flags == ALL
    ensures HandlerOf(0xE6) == Logic(Ani) && DescriptorOf(0xE6).flags == ALL
  {
  }

  /** ANA with A = v = 0x10 under the mask ALL: CY is cleared but AC is set. */
  lemma AnaAuxCarry(regs: Registers)
    requires regs[A] == 0x10
    ensures var r := M.Logical(regs, M.And, 0x10, ALL, CY);
      !FlagSet(r, CY) && FlagSet(r, AC) && r[A] == 0x10
  {
    MaskedFlagValues(regs[STATUS], M.Bit4Sum(0x10, 0x10), 0x10, ALL);
  }

  /**
   * ANA B (0xA0) clears CY only: AC keeps the value the flag engine gives
   * it, which is set for A = B = 0x10.
   */
  lemma AnaKeepsAuxCarry(c: Cpu)
    requires c.ir == 0xA0 && c.regs[A] == 0x10 && c.regs[B] == 0x10
    ensures Step(c).Next?
    ensures !Flag(Step(c).cpu, CY)
    ensures Flag(Step(c).cpu, AC)
    ensures Step(c).cpu.regs[A] == 0x10
  {
    AndEntries();
    AnaAuxCarry(c.regs);
  }

  /** ANI (0xE6) clears both CY and AC, and moves pc past its operand. */
  lemma AniClearsCarries(c: Cpu)
    requires c.ir == 0xE6 && InMemory(c.pc)
    ensures Step(c).Next?
    ensures !Flag(Step(c).cpu, CY) && !Flag(Step(c).cpu, AC)
    ensures Step(c).cpu.regs[A] == c.regs[A] & c.mem[c.pc]
    ensures Step(c).cpu.pc == Wrap16(c.pc + 1)
  {
    AndEntries();
    LogicalClears(c.regs, M.And, c.mem[c.pc], ALL, CY | AC);
  }

  /** Every XRA, XRI, ORA and ORI clears both CY and AC. */
  lemma XorOrClear(op: LogicHandler, d: Descriptor, c: Cpu)
    requires !op.AnaRegister? && !op.AnaMemory?
    requires ExecuteLogic(op, d, c).Next?
    ensures !Flag(ExecuteLogic(op, d, c).cpu, CY) && !Flag(ExecuteLogic(op, d, c).cpu, AC)
  {
  }

  /** Rows 0xA8 to 0xB7 of the dispatch table are XRA and ORA, whose register forms name a source register. */
  lemma XorOrEntries(op: bv8)
    requires 0xA8 <= op <= 0xB7
    ensures HandlerOf(op).Logic?
    ensures HandlerOf(op).logic.XraRegister? || HandlerOf(op).logic.XraMemory? || HandlerOf(op).logic.OraRegister? || HandlerOf(op).logic.OraMemory?
    ensures HandlerOf(op).logic.XraRegister? || HandlerOf(op).logic.OraRegister? ==> DescriptorOf(op).register1.Some?
  {
  }

  /** XRA and ORA (0xA8 to 0xB7) clear both CY and AC. */
  lemma XorOrClearCarries(c: Cpu)
    requires 0xA8 <= c.ir <= 0xB7 && c.ir != 0xAE && c.ir != 0xB6
    ensures Step(c).Next?
    ensures !Flag(Step(c).cpu, CY) && !Flag(Step(c).cpu, AC)
  {
    XorOrEntries(c.ir);
    XorOrClear(HandlerOf(c.ir).logic, DescriptorOf(c.ir), c);
  }

  // ---------------------------------------------------------------- dispatch quirks

  /** Opcode 0x77 (MOV M,A) runs the register-to-register move with a NULL destination. */
  lemma MovMemoryAUndefined(c: Cpu)
    requires c.ir == 0x77
    ensures HandlerOf(c.ir) == Transfer(MovRegister)
    ensures DescriptorOf(c.ir).register2.None?
    ensures Step(c) == Undefined
  {
  }

  /** The twelve unofficial opcodes are dispatched to `Nop`. */
  lemma UnofficialEntries(op: bv8)
    requires op in {0x08, 0x10, 0x18, 0x20, 0x28, 0x30, 0x38, 0xCB, 0xD9, 0xDD, 0xED, 0xFD}
    ensures HandlerOf(op) == Control(Nop)
  {
  }

  /** The unofficial opcodes leave the state unchanged. */
  lemma UnofficialOpcodesAreNop(c: Cpu)
    requires c.ir in {0x08, 0x10, 0x18, 0x20, 0x28, 0x30, 0x38, 0xCB, 0xD9, 0xDD, 0xED, 0xFD}
    ensures Step(c) == Next(c)
  {
    UnofficialEntries(c.ir);
  }

  /** The forms of ADD, ADC, SUB and SBB that take an immediate operand. */
  predicate ImmediateForm(op: AddSubHandler) {
    op.Adi? || op.Sui? || op.Aci? || op.Sbi?
  }

  /** Only the immediate forms move pc, by one byte. */
  lemma AddSubPc(op: AddSubHandler, d: Descriptor, c: Cpu)
    requires ExecuteAddSub(op, d, c).Next?
    ensures ExecuteAddSub(op, d, c).cpu.pc == if ImmediateForm(op) then Wrap16(c.pc + 1) else c.pc
  {
  }

  /** Rows 8 and 9 of the dispatch table are the register and memory forms of ADD, ADC, SUB and SBB. */
  lemma ArithmeticEntries(op: bv8)
    requires 0x80 <= op < 0xA0
    ensures HandlerOf(op).AddSub? && !ImmediateForm(HandlerOf(op).addSub)
  {
  }

  /** The register and memory forms of ADD, ADC, SUB and SBB leave pc alone. */
  lemma ArithmeticKeepsPc(c: Cpu)
    requires 0x80 <= c.ir < 0xA0
    requires Step(c).Next?
    ensures Step(c).cpu.pc == c.pc
  {
    ArithmeticEntries(c.ir);
    AddSubPc(HandlerOf(c.ir).addSub, DescriptorOf(c.ir), c);
  }

  /** ADI, ACI, SUI and SBI sit at 0xC6, 0xCE, 0xD6 and 0xDE. */
  lemma ImmediateEntries(op: bv8)
    requires op in {0xC6, 0xCE, 0xD6, 0xDE}
    ensures HandlerOf(op).AddSub? && ImmediateForm(HandlerOf(op).addSub)
  {
  }

  /** ADI, ACI, SUI and SBI move pc past their one operand byte. */
  lemma ImmediateAdvancesPc(c: Cpu)
    requires c.ir in {0xC6, 0xCE, 0xD6, 0xDE} && InMemory(c.pc)
    ensures Step(c).Next?
    ensures Step(c).cpu.pc == Wrap16(c.pc + 1)
  {
    ImmediateEntries(c.ir);
    AddSubPc(HandlerOf(c.ir).addSub, DescriptorOf(c.ir), c);
  }
}
