/**
 * The emulated machine state of emu8080/emulator.c as a value: the
 * register file (C, B, E, D, L, H, A, STATUS), pc, sp, the 0xffff-byte
 * address space, the 256 I/O ports, the instruction register and the
 * interrupt and halt signals.  The register pairs are the register file
 * read as little-endian 16-bit words: b_pair is B * 256 + C, and so on up
 * to psw, which is STATUS * 256 + A.
 */
module State {
  import opened Common

  /** `register_file[10]`, of which the first eight cells are kept (Z and W, the two spare cells, are never used). */
  type Registers = s: seq<bv8> | |s| == 8 witness [0, 0, 0, 0, 0, 0, 0, 0]

  /** The `ADDRESSED_SPACE_SIZE` bytes of `memory`. */
  type Memory = s: seq<bv8> | |s| == ADDRESSED_SPACE_SIZE witness seq(ADDRESSED_SPACE_SIZE, _ => 0)

  /** The 256 bytes of `io`. */
  type Ports = s: seq<bv8> | |s| == PORTS witness seq(PORTS, _ => 0)

  /** The emulator's global state. */
  datatype Cpu = Cpu(
    regs: Registers,
    pc: word,
    sp: word,
    mem: Memory,
    io: Ports,
    ir: bv8,
    interruptEnable: bv8,
    haltEnable: bv8,
    interruptRequest: bv8,
    interruptVector: InterruptDevice,
    time: u32)

  /** An index of the emulated memory. */
  predicate InMemory(i: int) {
    0 <= i < ADDRESSED_SPACE_SIZE
  }

  /** The pair at `p` seen through a `uint16_t*` on a little-endian host. */
  function PairValue(regs: Registers, p: PairOffset): word
  {
    Word(regs[p + 1], regs[p])
  }

  /** The register file after storing `v` through the pair pointer at `p`. */
  function WithPair(regs: Registers, p: PairOffset, v: word): Registers
  {
    regs[p := LowByte(v)][p + 1 := HighByte(v)]
  }

  /** Reading a pair back gives the value stored; the other cells keep theirs. */
  lemma PairRoundTrip(regs: Registers, p: PairOffset, v: word)
    ensures PairValue(WithPair(regs, p, v), p) == v
    ensures forall i :: 0 <= i < 8 && i != p && i != p + 1 ==> WithPair(regs, p, v)[i] == regs[i]
  {
    WordBytes(HighByte(v), LowByte(v), v);
  }

  /** Storing a pair's own value changes nothing. */
  lemma PairRestore(regs: Registers, p: PairOffset)
    ensures WithPair(regs, p, PairValue(regs, p)) == regs
  {
    WordLaws();
  }

  /** A second store through the same pair overrides the first. */
  lemma PairOverwrite(regs: Registers, p: PairOffset, v: word, w: word)
    ensures WithPair(WithPair(regs, p, v), p, w) == WithPair(regs, p, w)
  {
  }

  /** Storing a zero-extended byte through a pair: the low cell gets the byte, the high cell 0. */
  lemma PairOfByte(regs: Registers, p: PairOffset, b: bv8)
    ensures var r := WithPair(regs, p, Word(0, b));
      && r[p] == b && r[p + 1] == 0
      && PairValue(r, p) == b as int
      && (forall i :: 0 <= i < 8 && i != p && i != p + 1 ==> r[i] == regs[i])
  {
    WordLaws();
  }

  /** The three pair laws for every register file, pair and value at once. */
  lemma PairLaws()
    ensures forall regs: Registers, p: PairOffset, v: word :: PairValue(WithPair(regs, p, v), p) == v
    ensures forall regs: Registers, p: PairOffset :: WithPair(regs, p, PairValue(regs, p)) == regs
    ensures forall regs: Registers, p: PairOffset, v: word, w: word ::
      WithPair(WithPair(regs, p, v), p, w) == WithPair(regs, p, w)
  {
    forall regs: Registers, p: PairOffset, v: word
      ensures PairValue(WithPair(regs, p, v), p) == v
    {
      PairRoundTrip(regs, p, v);
    }
    forall regs: Registers, p: PairOffset
      ensures WithPair(regs, p, PairValue(regs, p)) == regs
    {
      PairRestore(regs, p);
    }
    forall regs: Registers, p: PairOffset, v: word, w: word
      ensures WithPair(WithPair(regs, p, v), p, w) == WithPair(regs, p, w)
    {
      PairOverwrite(regs, p, v, w);
    }
  }

  /** Incrementing a pair and then decrementing it gives back the register file. */
  lemma PairIncrementDecrement(regs: Registers, p: PairOffset)
    ensures var up := WithPair(regs, p, Wrap16(PairValue(regs, p) + 1));
      WithPair(up, p, Wrap16(PairValue(up, p) - 1)) == regs
  {
    PairLaws();
    WrapIncrementDecrement(PairValue(regs, p));
  }

  /** What a descriptor's `register_pair` points at: a pair of the register file or `sp`. */
  datatype PairRef = RegisterPair(offset: PairOffset) | StackPointer

  function ReadPair(c: Cpu, rp: PairRef): word
  {
    match rp
    case RegisterPair(p) => PairValue(c.regs, p)
    case StackPointer => c.sp
  }

  function WritePair(c: Cpu, rp: PairRef, v: word): Cpu
  {
    match rp
    case RegisterPair(p) => c.(regs := WithPair(c.regs, p, v))
    case StackPointer => c.(sp := v)
  }

  /** h_pair[0]. */
  function HL(c: Cpu): word
  {
    PairValue(c.regs, H_PAIR)
  }

  /** The flag bits of `status[0]` selected by `f` are set. */
  predicate FlagSet(regs: Registers, f: bv8)
  {
    regs[STATUS] & f != 0
  }

  predicate Flag(c: Cpu, f: bv8)
  {
    FlagSet(c.regs, f)
  }

  /** The little-endian address operand `memory[pc+1] << 8 | memory[pc]`. */
  function Operand16(c: Cpu): word
    requires InMemory(c.pc + 1)
  {
    Word(c.mem[c.pc + 1], c.mem[c.pc])
  }

  /** The little-endian word on top of the stack, `memory[sp+1] << 8 | memory[sp]`. */
  function StackWord(c: Cpu): word
    requires InMemory(c.sp + 1)
  {
    Word(c.mem[c.sp + 1], c.mem[c.sp])
  }
}
