/**
 * The opcodes the assembler's table (asm8080/instruction_set.h) gives the
 * "sbb" mnemonics, set against the emulator's descriptor table
 * (emu8080/instruction_set.h), which follows the 8080's encoding
 * SBB r = 0x98 + r for the operands B, C, D, E, H, L, M, A = 0..7.  The
 * assembler's entries for "sbb c" .. "sbb m" are one too high.
 */
module SbbOpcodes {
  import M = Mnemonics
  import I = InstructionSet

  /** The opcode of SBB with the operand named by the lower-case letter r, in the 8080's encoding. */
  function SbbOpcode(r: char): int
  {
    0x98 + (if r == 'b' then 0 else if r == 'c' then 1 else if r == 'd' then 2 else if r == 'e' then 3
            else if r == 'h' then 4 else if r == 'l' then 5 else if r == 'm' then 6 else 7)
  }

  /** The emulator executes opcodes 0x98..0x9b as SBB B, SBB C, SBB D and SBB E. */
  lemma EmulatorSbbLow()
    ensures I.DescriptorOf(0x98).name == "SBB B" && SbbOpcode('b') == 0x98
    ensures I.DescriptorOf(0x99).name == "SBB C" && SbbOpcode('c') == 0x99
    ensures I.DescriptorOf(0x9a).name == "SBB D" && SbbOpcode('d') == 0x9a
    ensures I.DescriptorOf(0x9b).name == "SBB E" && SbbOpcode('e') == 0x9b
  {
  }

  /** The emulator executes opcodes 0x9c..0x9f as SBB H, SBB L, SBB M and SBB A. */
  lemma EmulatorSbbHigh()
    ensures I.DescriptorOf(0x9c).name == "SBB H" && SbbOpcode('h') == 0x9c
    ensures I.DescriptorOf(0x9d).name == "SBB L" && SbbOpcode('l') == 0x9d
    ensures I.DescriptorOf(0x9e).name == "SBB M" && SbbOpcode('m') == 0x9e
    ensures I.DescriptorOf(0x9f).name == "SBB A" && SbbOpcode('a') == 0x9f
  {
  }

  /** Table slot i holds "sbb " followed by an operand letter. */
  predicate IsSbb(e: M.Instruction)
  {
    |e.mnemonic| == 5 && e.mnemonic[..4] == "sbb "
  }

  /**
   * As written, "sbb a" and "sbb b" carry the 8080's opcodes, but each of
   * "sbb c" .. "sbb m" carries the opcode of the next operand ("sbb c"
   * assembles to 0x9a, which the emulator runs as SBB D), and "sbb m"
   * shares 0x9f with "sbb a".
   */
  lemma SbbAsWritten()
    ensures forall i :: 0xd1 <= i <= 0xd8 ==> M.Slot(i).Some? && IsSbb(M.Slot(i).value)
    ensures forall i :: 0xd1 <= i <= 0xd2 ==> M.Slot(i).value.opcode == SbbOpcode(M.Slot(i).value.mnemonic[4])
    ensures forall i :: 0xd3 <= i <= 0xd8 ==> M.Slot(i).value.opcode == SbbOpcode(M.Slot(i).value.mnemonic[4]) + 1
    ensures M.Slot(0xd3).value.mnemonic == "sbb c" && M.Slot(0xd3).value.opcode == 0x9a
    ensures M.Slot(0xd1).value.opcode == M.Slot(0xd8).value.opcode
  {
    forall i | 0xd1 <= i <= 0xd8
      ensures M.Slot(i).Some? && IsSbb(M.Slot(i).value)
      ensures M.Slot(i).value.opcode == SbbOpcode(M.Slot(i).value.mnemonic[4]) + (if i <= 0xd2 then 0 else 1)
    {
      assert M.Slot(i) == M.Some(M.SlotsD0(i));
    }
  }

  /** Slot i of the table with the opcodes of "sbb c" .. "sbb m" lowered by one. */
  function CorrectedSlot(i: nat): (r: M.Option<M.Instruction>)
    requires i < M.ARRAY_SIZE
  {
    if 0xd3 <= i <= 0xd8 then
      var e := M.Slot(i).value;
      M.Some(e.(opcode := e.opcode - 1))
    else M.Slot(i)
  }

  /**
   * In the corrected table every "sbb" mnemonic carries the 8080's opcode
   * for its operand, the eight opcodes are 0x98..0x9f once each, and no
   * mnemonic moves, so the search finds the same slots.
   */
  lemma SbbCorrected()
    ensures forall i :: 0xd1 <= i <= 0xd8 ==>
      CorrectedSlot(i).Some? && IsSbb(CorrectedSlot(i).value) &&
      CorrectedSlot(i).value.opcode == SbbOpcode(CorrectedSlot(i).value.mnemonic[4])
    ensures forall i, j :: 0xd1 <= i < j <= 0xd8 ==> CorrectedSlot(i).value.opcode != CorrectedSlot(j).value.opcode
    ensures forall i :: 0xd1 <= i <= 0xd8 ==> 0x98 <= CorrectedSlot(i).value.opcode <= 0x9f
    ensures forall i :: 0 <= i < M.ARRAY_SIZE ==>
      CorrectedSlot(i).Some? == M.Slot(i).Some? &&
      (CorrectedSlot(i).Some? ==> CorrectedSlot(i).value.mnemonic == M.Slot(i).value.mnemonic)
  {
    SbbAsWritten();
    forall i | 0xd1 <= i <= 0xd8
      ensures CorrectedSlot(i).value.opcode == 0x98 + (if i == 0xd1 then 7 else i - 0xd2)
    {
      assert M.Slot(i) == M.Some(M.SlotsD0(i));
    }
  }
}
