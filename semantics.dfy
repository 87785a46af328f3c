/**
 * What each instruction-emulating function of emu8080/instruction_set.h
 * does to the machine state, as functions on `Cpu` values, or on the
 * register file alone for the handlers that touch nothing else.  Each function
 * follows its C handler statement by statement, with the C types' wrap-around
 * (uint8_t arithmetic is bv8 arithmetic, uint16_t values are ints reduced
 * by `Wrap16`).  Memory is
 * indexed with the handler's own int expressions (`pc + 1`, `sp - 1`,
 * `address + 1`); each function requires those indices to lie inside the
 * 0xffff-byte memory, and Dispatch checks them. */
module Semantics {
  import opened Common
  import opened State
  import opened Flags
  import opened InstructionSet

  /** `(x & MASK4) >> 4`: bit 4 of x. */
  function Bit4(x: bv8): bv8 {
    (x & 0x10) >> 4
  }

  /** The `bit_4_sum` handed to the flag engine by the two-operand handlers. */
  function Bit4Sum(x: bv8, y: bv8): bv8 {
    Bit4(x) + Bit4(y)
  }

  /** The 16-bit sum `(uint16_t)x + y` a two-operand handler hands to the flag engine. */
  function WideSum(x: bv8, y: bv8): bv16 {
    x as bv16 + y as bv16
  }

  /** The 16-bit difference `(uint16_t)x - y`: bit 8 and up are set when it borrows. */
  function WideDifference(x: bv8, y: bv8): bv16 {
    x as bv16 - y as bv16
  }

  /** The register file after `ModifyFlags(bit4Sum, result, mask)`. */
  function WithFlags(regs: Registers, bit4Sum: bv8, result: bv16, mask: bv8): Registers
  {
    regs[STATUS := ModifiedFlags(regs[STATUS], bit4Sum, result, mask)]
  }

  /** `memory[pc]`, the one-byte immediate operand. */
  function Immediate(c: Cpu): bv8
    requires InMemory(c.pc)
  {
    c.mem[c.pc]
  }

  // ---------------------------------------------------------------- data transfer

  function MovRegister(regs: Registers, src: RegIndex, dst: RegIndex): Registers
  {
    regs[dst := regs[src]]
  }

  function MovToMemory(c: Cpu, src: RegIndex): Cpu
    requires InMemory(HL(c))
  {
    c.(mem := c.mem[HL(c) := c.regs[src]])
  }

  function MovFromMemory(c: Cpu, dst: RegIndex): Cpu
    requires InMemory(HL(c))
  {
    c.(regs := c.regs[dst := c.mem[HL(c)]])
  }

  /** MVI: to the register, or to memory[HL] when the descriptor has none. */
  function Mvi(c: Cpu, dst: Option<RegIndex>): Cpu
    requires InMemory(c.pc) && (dst.None? ==> InMemory(HL(c)))
  {
    match dst
    case Some(r) => c.(regs := c.regs[r := c.mem[c.pc]], pc := Wrap16(c.pc + 1))
    case None => c.(mem := c.mem[HL(c) := c.mem[c.pc]], pc := Wrap16(c.pc + 1))
  }

  function Lxi(c: Cpu, rp: PairRef): Cpu
    requires InMemory(c.pc + 1)
  {
    WritePair(c.(pc := Wrap16(c.pc + 2)), rp, Operand16(c))
  }

  function Lda(c: Cpu): Cpu
    requires InMemory(c.pc + 1) && InMemory(Operand16(c))
  {
    c.(regs := c.regs[A := c.mem[Operand16(c)]], pc := Wrap16(c.pc + 2))
  }

  function Sta(c: Cpu): Cpu
    requires InMemory(c.pc + 1) && InMemory(Operand16(c))
  {
    c.(mem := c.mem[Operand16(c) := c.regs[A]], pc := Wrap16(c.pc + 2))
  }

  function Lhld(c: Cpu): Cpu
    requires InMemory(c.pc + 1) && InMemory(Operand16(c) + 1)
  {
    var address := Operand16(c);
    c.(regs := c.regs[L := c.mem[address]][H := c.mem[address + 1]], pc := Wrap16(c.pc + 2))
  }

  function Shld(c: Cpu): Cpu
    requires InMemory(c.pc + 1) && InMemory(Operand16(c) + 1)
  {
    var address := Operand16(c);
    var mem1 := c.mem[address := c.regs[L]];
    c.(mem := mem1[address + 1 := c.regs[H]], pc := Wrap16(c.pc + 2))
  }

  function Ldax(c: Cpu, rp: PairRef): Cpu
    requires InMemory(ReadPair(c, rp))
  {
    c.(regs := c.regs[A := c.mem[ReadPair(c, rp)]])
  }

  function Stax(c: Cpu, rp: PairRef): Cpu
    requires InMemory(ReadPair(c, rp))
  {
    c.(mem := c.mem[ReadPair(c, rp) := c.regs[A]])
  }

  function Xchg(regs: Registers): Registers
  {
    var hl := PairValue(regs, H_PAIR);
    var regs1 := WithPair(regs, H_PAIR, PairValue(regs, D_PAIR));
    WithPair(regs1, D_PAIR, hl)
  }

  // ---------------------------------------------------------------- arithmetic

  /** ADD/ADI: A += v; flags from the 16-bit sum. */
  function AddValue(regs: Registers, v: bv8, mask: bv8): Registers
  {
    var a := regs[A];
    WithFlags(regs[A := a + v], Bit4Sum(a, v), WideSum(a, v), mask)
  }

  /** SUB/SUI: A -= v; flags from the 16-bit difference. */
  function SubValue(regs: Registers, v: bv8, mask: bv8): Registers
  {
    var a := regs[A];
    WithFlags(regs[A := a - v], Bit4Sum(a, v), WideDifference(a, v), mask)
  }

  /** ADC/ACI: A += v + CY; flags from A + v without the carry. */
  function AdcValue(regs: Registers, v: bv8, mask: bv8): Registers
  {
    var a := regs[A];
    var carry := regs[STATUS] & CY;
    WithFlags(regs[A := a + (v + carry)], Bit4Sum(a, v), WideSum(a, v), mask)
  }

  /** SBB/SBI: A -= v + CY; flags from A - v without the borrow. */
  function SbbValue(regs: Registers, v: bv8, mask: bv8): Registers
  {
    var a := regs[A];
    var carry := regs[STATUS] & CY;
    WithFlags(regs[A := a - (v + carry)], Bit4Sum(a, v), WideDifference(a, v), mask)
  }

  function InrRegister(regs: Registers, reg: RegIndex, mask: bv8): Registers
  {
    var bit4 := Bit4(regs[reg]);
    var regs1 := regs[reg := regs[reg] + 1];
    WithFlags(regs1, bit4, regs1[reg] as bv16, mask)
  }

  function DcrRegister(regs: Registers, reg: RegIndex, mask: bv8): Registers
  {
    var bit4 := Bit4(regs[reg]);
    var regs1 := regs[reg := regs[reg] - 1];
    WithFlags(regs1, bit4, regs1[reg] as bv16, mask)
  }

  function InrMemory(c: Cpu, mask: bv8): Cpu
    requires InMemory(HL(c))
  {
    var address := HL(c);
    var v := c.mem[address] + 1;
    c.(mem := c.mem[address := v], regs := WithFlags(c.regs, Bit4(c.mem[address]), v as bv16, mask))
  }

  function DcrMemory(c: Cpu, mask: bv8): Cpu
    requires InMemory(HL(c))
  {
    var address := HL(c);
    var v := c.mem[address] - 1;
    c.(mem := c.mem[address := v], regs := WithFlags(c.regs, Bit4(c.mem[address]), v as bv16, mask))
  }

  function Inx(c: Cpu, rp: PairRef): Cpu
  {
    WritePair(c, rp, Wrap16(ReadPair(c, rp) + 1))
  }

  function Dcx(c: Cpu, rp: PairRef): Cpu
  {
    WritePair(c, rp, Wrap16(ReadPair(c, rp) - 1))
  }

  /** DAD: HL += the value of the pair; the flags see the already truncated 16-bit sum. */
  function Dad(regs: Registers, addend: word, mask: bv8): Registers
  {
    var result := Wrap16(PairValue(regs, H_PAIR) + addend);
    WithFlags(WithPair(regs, H_PAIR, result), 0, WordBits(result), mask)
  }

  function Daa(regs: Registers, mask: bv8): Registers
  {
    var a0 := regs[A];
    var status := regs[STATUS];
    var low := (a0 & 0x0F) > 9 || status & AC != 0;
    var a1 := if low then a0 + 0x06 else a0;
    var result1: bv16 := if low then a0 as bv16 + 0x06 else a0 as bv16;
    var high := (a1 & 0xF0) >> 4 > 9 || status & CY != 0;
    var a2 := if high then a1 + 0x60 else a1;
    var result2: bv16 := if high then a1 as bv16 + 0x60 else result1;
    WithFlags(regs[A := a2], Bit4(a0), result2, mask)
  }

  // ---------------------------------------------------------------- logic

  datatype LogicOp = And | Xor | Or

  function Apply(op: LogicOp, x: bv8, y: bv8): bv8 {
    match op
    case And => x & y
    case Xor => x ^ y
    case Or => x | y
  }

  /** The register file with a new status byte. */
  function WithStatus(regs: Registers, status: bv8): Registers
  {
    regs[STATUS := status]
  }

  /** `status & ~cleared`. */
  function Cleared(status: bv8, cleared: bv8): bv8 {
    status & !cleared
  }

  /** `status | flag`. */
  function Raised(status: bv8, flag: bv8): bv8 {
    status | flag
  }

  /** `(status & ~(Z + CY)) + (saved & (Z + CY))`: Z and CY put back to their values in `saved`. */
  function ZeroCarryRestored(status: bv8, saved: bv8): bv8 {
    (status & !(Z + CY)) + (saved & (Z + CY))
  }

  /** ANA/ANI/XRA/XRI/ORA/ORI: A := A op v, the flag engine, then `status &= ~cleared`. */
  function Logical(regs: Registers, op: LogicOp, v: bv8, mask: bv8, cleared: bv8): Registers
  {
    var a := regs[A];
    var r := Apply(op, a, v);
    var regs1 := WithFlags(regs[A := r], Bit4Sum(a, v), r as bv16, mask);
    WithStatus(regs1, Cleared(regs1[STATUS], cleared))
  }

  /**
   * What CMP/CPI do to the status byte after the flag engine has run:
   * Z and CY put back to their `saved` values, then set when A == v and
   * when A < v.
   */
  function ComparedStatus(flags: bv8, saved: bv8, a: bv8, v: bv8): bv8 {
    var s2 := ZeroCarryRestored(flags, saved);
    var s3 := if a == v then Raised(s2, Z) else s2;
    if a < v then Raised(s3, CY) else s3
  }

  /** CMP/CPI: the flag engine on A - v, then Z and CY restored and set when A == v and A < v. */
  function Compare(regs: Registers, v: bv8, mask: bv8): Registers
  {
    var a := regs[A];
    var saved := regs[STATUS];
    var flags := ModifiedFlags(saved, Bit4Sum(a, v), WideDifference(a, v), mask);
    WithStatus(regs, ComparedStatus(flags, saved, a, v))
  }

  /** The register file with a new accumulator and a new status byte, as the rotations leave it. */
  function WithAccumulatorStatus(regs: Registers, a: bv8, status: bv8): Registers
  {
    regs[A := a][STATUS := status]
  }

  /** `(a << 1) + bit`: A shifted left with `bit` entering at bit 0. */
  function ShiftedLeft(a: bv8, bit: bv8): bv8 {
    (a << 1) + bit
  }

  /** `(a >> 1) + (bit << 7)`: A shifted right with `bit` entering at bit 7. */
  function ShiftedRight(a: bv8, bit: bv8): bv8 {
    (a >> 1) + (bit << 7)
  }

  /** `(status & ~CY) + carry`: the status byte with its carry bit replaced by `carry`. */
  function WithCarry(status: bv8, carry: bv8): bv8 {
    (status & !CY) + carry
  }

  function Rlc(regs: Registers): Registers
  {
    var a := regs[A];
    var bit7 := (a & 0x80) >> 7;
    WithAccumulatorStatus(regs, ShiftedLeft(a, bit7), WithCarry(regs[STATUS], bit7))
  }

  function Rrc(regs: Registers): Registers
  {
    var a := regs[A];
    var bit0 := a & 0x01;
    WithAccumulatorStatus(regs, ShiftedRight(a, bit0), WithCarry(regs[STATUS], bit0))
  }

  /** RAL: the "new carry" `(a * 0x80) >> 7` is evaluated in int, so it is A itself. */
  function Ral(regs: Registers): Registers
  {
    var a := regs[A];
    var status := regs[STATUS];
    var newCarry := a;
    WithAccumulatorStatus(regs, ShiftedLeft(a, status & CY), WithCarry(status, newCarry))
  }

  function Rar(regs: Registers): Registers
  {
    var a := regs[A];
    var status := regs[STATUS];
    var newCarry := a & 0x01;
    WithAccumulatorStatus(regs, ShiftedRight(a, status & CY), WithCarry(status, newCarry))
  }

  function Cma(regs: Registers): Registers
  {
    regs[A := !regs[A]]
  }

  function Cmc(regs: Registers): Registers
  {
    regs[STATUS := regs[STATUS] ^ 0x01]
  }

  function Stc(regs: Registers): Registers
  {
    regs[STATUS := regs[STATUS] | 0x01]
  }

  // ---------------------------------------------------------------- branch

  function Jmp(c: Cpu): Cpu
    requires InMemory(c.pc + 1)
  {
    c.(pc := Operand16(c))
  }

  /** Jcc: the operand when taken, otherwise pc + 2. */
  function JumpIf(c: Cpu, taken: bool): Cpu
    requires InMemory(c.pc + 1)
  {
    if taken then c.(pc := Operand16(c)) else c.(pc := Wrap16(c.pc + 2))
  }

  /** CALL: only the low byte of the return address reaches memory[sp]. */
  function Call(c: Cpu): Cpu
    requires InMemory(c.pc + 1) && InMemory(Wrap16(c.sp - 2))
  {
    var returnAddress := Wrap16(c.pc + 2);
    var sp := Wrap16(c.sp - 2);
    c.(pc := Operand16(c), sp := sp, mem := c.mem[sp := LowByte(returnAddress)])
  }

  /** Ccc: a CALL when taken; otherwise nothing changes, pc included. */
  function CallIf(c: Cpu, taken: bool): Cpu
    requires InMemory(c.pc + 1) && (taken ==> InMemory(Wrap16(c.sp - 2)))
  {
    if taken then Call(c) else c
  }

  function Ret(c: Cpu): Cpu
    requires InMemory(c.sp + 1)
  {
    c.(pc := StackWord(c), sp := Wrap16(c.sp + 2))
  }

  /** Rcc: a RET when taken; otherwise nothing changes. */
  function ReturnIf(c: Cpu, taken: bool): Cpu
    requires InMemory(c.sp + 1)
  {
    if taken then Ret(c) else c
  }

  /** The restart address `((IR & 0x38) >> 3) * 8`. */
  function RestartAddress(ir: bv8): word {
    ((ir & 0x38) >> 3) as int * 8
  }

  /** RST: acts only when the Sign flag is set, pushing the low byte of pc. */
  function Rst(c: Cpu): Cpu
    requires (Flag(c, S) ==> InMemory(Wrap16(c.sp - 2)))
  {
    if Flag(c, S) then
      var sp := Wrap16(c.sp - 2);
      c.(sp := sp, mem := c.mem[sp := LowByte(c.pc)], pc := RestartAddress(c.ir))
    else c
  }

  function Pchl(c: Cpu): Cpu
  {
    c.(pc := HL(c))
  }

  // ---------------------------------------------------------------- stack, I/O, machine control

  /** PUSH rp: only the low byte of the pair reaches memory[sp - 2]. */
  function PushRp(c: Cpu, rp: PairRef): Cpu
    requires InMemory(Wrap16(c.sp - 2))
  {
    var sp := Wrap16(c.sp - 2);
    c.(sp := sp, mem := c.mem[sp := LowByte(ReadPair(c, rp))])
  }

  /** The status byte rearranged into the 8080 PSW layout (S, Z, AC, P at bits 7, 6, 4, 2). */
  function PushedStatus(s: bv8): bv8 {
    ((s & 0x10) >> 2) + ((s & 0x08) << 3) + ((s & 0x04) << 5) + ((s & 0x02) << 3)
  }

  /** The PSW byte rearranged back into the status layout. */
  function PoppedStatus(p: bv8): bv8 {
    ((p & 0x80) >> 5) + ((p & 0x40) >> 3) + ((p & 0x10) >> 3) + ((p & 0x04) << 2)
  }

  function PushPsw(c: Cpu): Cpu
    requires c.sp >= 2
  {
    var sp := c.sp;
    var mem1 := c.mem[sp - 1 := c.regs[A]];
    c.(mem := mem1[sp - 2 := PushedStatus(c.regs[STATUS])], sp := sp - 2)
  }

  /** POP rp: the pair receives the single byte memory[sp], zero-extended. */
  function PopRp(c: Cpu, rp: PairRef): Cpu
    requires InMemory(c.sp)
  {
    var c1 := WritePair(c, rp, Word(0, c.mem[c.sp]));
    c1.(sp := Wrap16(c1.sp + 2))
  }

  function PopPsw(c: Cpu): Cpu
    requires InMemory(c.sp + 1)
  {
    var popped := c.mem[c.sp];
    c.(regs := c.regs[STATUS := PoppedStatus(popped)][A := c.mem[c.sp + 1]], sp := Wrap16(c.sp + 2))
  }

  /** XTHL: HL receives memory[sp] zero-extended; memory[sp], memory[sp+1] receive L, H. */
  function Xthl(c: Cpu): Cpu
    requires InMemory(c.sp + 1)
  {
    var h := c.regs[H];
    var l := c.regs[L];
    var sp := c.sp;
    var mem1 := c.mem[sp := l];
    c.(regs := WithPair(c.regs, H_PAIR, Word(0, c.mem[sp])), mem := mem1[sp + 1 := h])
  }

  function Sphl(c: Cpu): Cpu
  {
    c.(sp := HL(c))
  }

  function In(c: Cpu): Cpu
    requires InMemory(c.pc)
  {
    var port := c.mem[c.pc];
    c.(pc := Wrap16(c.pc + 1), regs := c.regs[A := c.io[port]])
  }

  function Out(c: Cpu): Cpu
    requires InMemory(c.pc)
  {
    var port := c.mem[c.pc];
    c.(pc := Wrap16(c.pc + 1), io := c.io[port := c.regs[A]])
  }

  function Ei(c: Cpu): Cpu {
    c.(interruptEnable := c.interruptEnable | 0x01)
  }

  function Di(c: Cpu): Cpu {
    c.(interruptEnable := c.interruptEnable & !0x01)
  }

  function Hlt(c: Cpu): Cpu {
    c.(haltEnable := c.haltEnable | 0x01)
  }
}
