/**
 * What the branch, stack and exchange handlers of emu8080/instruction_set.h
 * promise, with their literal quirks: only the low byte of a pushed word
 * reaches memory, POP and XTHL read one byte zero-extended, RST acts only
 * when the Sign flag is set, and the PSW round trip loses the carry.
 */
module StackProperties {
  import opened Common
  import opened State
  import M = Semantics

  // ---------------------------------------------------------------- jumps, calls and returns

  /**
   * Jcc: when taken, pc becomes the little-endian word at memory[pc];
   * otherwise pc moves past the two operand bytes.  Nothing else changes.
   */
  lemma ConditionalJump(c: Cpu, taken: bool)
    requires InMemory(c.pc + 1)
    ensures var r := M.JumpIf(c, taken);
      && r.pc == (if taken then c.mem[c.pc + 1] as int * 256 + c.mem[c.pc] as int else (c.pc + 2) % 0x1_0000)
      && r == c.(pc := r.pc)
  {
  }

  /** Ccc not taken leaves the whole state alone, pc and sp included (pc stays on the operand). */
  lemma CallNotTaken(c: Cpu)
    requires InMemory(c.pc + 1)
    ensures M.CallIf(c, false) == c
  {
  }

  /** Rcc not taken changes nothing. */
  lemma ReturnNotTaken(c: Cpu)
    requires InMemory(c.sp + 1)
    ensures M.ReturnIf(c, false) == c
  {
  }

  /**
   * CALL: sp drops by 2, pc becomes the operand, and memory[sp - 2]
   * receives the low byte of pc + 2 while memory[sp - 1] keeps its old
   * value: the high byte of the return address is never stored.
   */
  lemma CallStoresLowByte(c: Cpu)
    requires InMemory(c.pc + 1) && InMemory(Wrap16(c.sp - 2))
    ensures var r := M.Call(c);
      && r.sp == Wrap16(c.sp - 2)
      && r.pc == Operand16(c)
      && r.mem[r.sp] as int == (c.pc + 2) % 0x1_0000 % 256
      && (forall i :: 0 <= i < ADDRESSED_SPACE_SIZE && i != r.sp ==> r.mem[i] == c.mem[i])
      && r.regs == c.regs
  {
    ByteValue((c.pc + 2) % 0x1_0000 % 256);
  }

  /** RET followed by nothing else: pc is the word on top of the stack and sp rises by 2. */
  lemma ReturnPops(c: Cpu)
    requires InMemory(c.sp + 1)
    ensures var r := M.Ret(c);
      r.pc == c.mem[c.sp + 1] as int * 256 + c.mem[c.sp] as int && r.sp == (c.sp + 2) % 0x1_0000
  {
  }

  /** The restart address of opcode 0xC7 + 8k is 8k. */
  lemma RestartAddresses(k: bv8)
    requires k < 8
    ensures M.RestartAddress(0xC7 + 8 * k) == 8 * k as int
  {
  }

  /**
   * RST acts only when the Sign flag is set: then it pushes the low byte
   * of pc and jumps to the restart address; otherwise the state is unchanged.
   */
  lemma RestartOnlyOnSign(c: Cpu)
    requires Flag(c, S) ==> InMemory(Wrap16(c.sp - 2))
    ensures !Flag(c, S) ==> M.Rst(c) == c
    ensures Flag(c, S) ==>
      var r := M.Rst(c);
      && r.pc == M.RestartAddress(c.ir)
      && r.sp == Wrap16(c.sp - 2)
      && r.mem[r.sp] as int == c.pc % 256
      && r.regs == c.regs
  {
    ByteValue(c.pc % 256);
  }

  // ---------------------------------------------------------------- PUSH and POP

  /** PUSH rp: sp drops by 2 and only memory[sp - 2] changes, to the low byte of the pair. */
  lemma PushStoresLowByte(c: Cpu, rp: PairRef)
    requires InMemory(Wrap16(c.sp - 2))
    ensures var r := M.PushRp(c, rp);
      && r.sp == Wrap16(c.sp - 2)
      && r.mem[r.sp] as int == ReadPair(c, rp) % 256
      && (forall i :: 0 <= i < ADDRESSED_SPACE_SIZE && i != r.sp ==> r.mem[i] == c.mem[i])
      && r.regs == c.regs && r.pc == c.pc
  {
    ByteValue(ReadPair(c, rp) % 256);
  }

  /** POP rp: the pair receives memory[sp] zero-extended and sp rises by 2. */
  lemma PopLoadsOneByte(c: Cpu, p: PairOffset)
    requires InMemory(c.sp)
    ensures var r := M.PopRp(c, RegisterPair(p));
      && PairValue(r.regs, p) == c.mem[c.sp] as int
      && r.regs[p] == c.mem[c.sp] && r.regs[p + 1] == 0
      && r.sp == (c.sp + 2) % 0x1_0000
      && r.mem == c.mem
  {
    PairOfByte(c.regs, p, c.mem[c.sp]);
  }

  /**
   * `PUSH B; POP D`: D becomes 0, E becomes C, sp is restored, and B, C,
   * H, L, A and the status byte keep their values.
   */
  lemma {:induction false} PushPopPair(c: Cpu)
    requires 2 <= c.sp
    ensures
      var c1 := M.PushRp(c, RegisterPair(B_PAIR));
      InMemory(c1.sp) &&
      var c2 := M.PopRp(c1, RegisterPair(D_PAIR));
      && c2.regs[E] == c.regs[C] && c2.regs[D] == 0
      && c2.sp == c.sp
      && (forall i: RegIndex :: i != E && i != D ==> c2.regs[i] == c.regs[i])
  {
    var c1 := M.PushRp(c, RegisterPair(B_PAIR));
    assert c1.sp == c.sp - 2;
    PushStoresLowByte(c, RegisterPair(B_PAIR));
    PopLoadsOneByte(c1, D_PAIR);
    var pair := PairValue(c.regs, B_PAIR);
    WordBytes(c.regs[B], c.regs[C], pair);
    ByteValue(pair % 256);
    ByteInjective(c1.mem[c1.sp], c.regs[C]);
  }

  /** The status byte read back after a PSW push: AC, S, Z and P survive, CY and the unused bits are lost. */
  lemma StatusThroughPsw(s: bv8)
    ensures M.PoppedStatus(M.PushedStatus(s)) == s & 0x1E
  {
  }

  /**
   * `PUSH PSW; POP PSW` restores A and sp, and leaves the status byte
   * with only its AC, S, Z and P bits: the carry is not preserved.
   */
  lemma PswRoundTrip(c: Cpu)
    requires 2 <= c.sp
    ensures
      var c1 := M.PushPsw(c);
      InMemory(c1.sp + 1) &&
      var c2 := M.PopPsw(c1);
      && c2.regs[A] == c.regs[A]
      && c2.regs[STATUS] == c.regs[STATUS] & 0x1E
      && c2.sp == c.sp
      && (forall i: RegIndex :: i != A && i != STATUS ==> c2.regs[i] == c.regs[i])
  {
    StatusThroughPsw(c.regs[STATUS]);
  }

  // ---------------------------------------------------------------- exchanges

  /** XCHG swaps HL and DE; exchanging twice gives back the register file. */
  lemma ExchangeSwaps(regs: Registers)
    ensures PairValue(M.Xchg(regs), H_PAIR) == PairValue(regs, D_PAIR)
    ensures PairValue(M.Xchg(regs), D_PAIR) == PairValue(regs, H_PAIR)
    ensures M.Xchg(M.Xchg(regs)) == regs
  {
    var regs1 := WithPair(regs, H_PAIR, PairValue(regs, D_PAIR));
    PairRoundTrip(regs, H_PAIR, PairValue(regs, D_PAIR));
    PairRoundTrip(regs1, D_PAIR, PairValue(regs, H_PAIR));
    WordBytes(regs[D], regs[E], PairValue(regs, D_PAIR));
    WordBytes(regs[H], regs[L], PairValue(regs, H_PAIR));
    var x := M.Xchg(regs);
    PairRoundTrip(WithPair(x, H_PAIR, PairValue(x, D_PAIR)), D_PAIR, PairValue(x, H_PAIR));
    PairRoundTrip(x, H_PAIR, PairValue(x, D_PAIR));
    WordBytes(x[D], x[E], PairValue(x, D_PAIR));
    WordBytes(x[H], x[L], PairValue(x, H_PAIR));
  }

  /**
   * XTHL: HL receives memory[sp] zero-extended (so H becomes 0), and
   * memory[sp], memory[sp + 1] receive L and H.
   */
  lemma ExchangeTopQuirk(c: Cpu)
    requires InMemory(c.sp + 1)
    ensures var r := M.Xthl(c);
      && HL(r) == c.mem[c.sp] as int
      && r.regs[H] == 0 && r.regs[L] == c.mem[c.sp]
      && r.mem[c.sp] == c.regs[L] && r.mem[c.sp + 1] == c.regs[H]
      && r.sp == c.sp
  {
    PairOfByte(c.regs, H_PAIR, c.mem[c.sp]);
  }

  /** INX then DCX on the same pair gives back the state. */
  lemma IncrementDecrementPair(c: Cpu, rp: PairRef)
    ensures M.Dcx(M.Inx(c, rp), rp) == c
  {
    if rp.RegisterPair? {
      PairIncrementDecrement(c.regs, rp.offset);
    }
  }
}
