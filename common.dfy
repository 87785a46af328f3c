/**
 * Layout constants of the emulator (emu8080/common.h): flag bits of the
 * status register, register-file indices, register-pair offsets, the size
 * of the address space, the memory-mapped device registers and their
 * control bits, and the two device enumerations.
 */
module Common {

  type byte = bv8
  /** A `uint16_t` such as pc, sp or a register pair. */
  type word = x: int | 0 <= x < 0x1_0000
  /** An unsigned 32-bit value such as the `time` counter. */
  type u32 = x: int | 0 <= x < 0x1_0000_0000

  // Flag bits of the status register.
  const CY: bv8 := 0x01
  const AC: bv8 := 0x02
  const S: bv8 := 0x04
  const Z: bv8 := 0x08
  const EP: bv8 := 0x10

  /** The single flag bits, lowest first. */
  const FlagBits: seq<bv8> := [CY, AC, S, Z, EP]

  // Register-file indices.
  type RegIndex = i: int | 0 <= i < 8
  const C: RegIndex := 0
  const B: RegIndex := 1
  const E: RegIndex := 2
  const D: RegIndex := 3
  const L: RegIndex := 4
  const H: RegIndex := 5
  const A: RegIndex := 6
  const STATUS: RegIndex := 7

  // Offsets of the 16-bit register pairs in the register file.
  type PairOffset = p: int | p in {0, 2, 4, 6} witness 0
  const B_PAIR: PairOffset := 0
  const D_PAIR: PairOffset := 2
  const H_PAIR: PairOffset := 4
  const PSW: PairOffset := 6

  const HARD_DISK_SIZE: nat := 0xffff
  const ADDRESSED_SPACE_SIZE: nat := 0xffff
  const MEMORY_SIZE: nat := 0x3000
  const PORTS: nat := 256

  // Flag masks passed to the flag engine.
  const ALL: bv8 := 0x1F
  const NONE: bv8 := 0x00
  const ALL_EXCEPT_CARRY: bv8 := 0x1E
  const CARRY: bv8 := 0x01

  // Memory-mapped registers of the non-volatile storage and the keyboard.
  const NV_MEM_CTRL_REG: nat := 0x3ffc
  const NV_MEM_DATA_REG: nat := 0x3ffd
  const NV_MEM_ADDR_LOW_REG: nat := 0x3ffe
  const NV_MEM_ADDR_HIGH_REG: nat := 0x3fff
  const KB_CTRL_REG: nat := 0x3ff9
  const KB_DATA_REG: nat := 0x3ffa

  // Bits of a device control register.
  const INTERRUPT_ENABLE: bv8 := 0x01
  const RDY: bv8 := 0x02
  const READ_REQUEST: bv8 := 0x04
  const WRITE_REQUEST: bv8 := 0x08
  const DONE: bv8 := 0x10

  const CLOCK_RATE: nat := 2500000

  /** The largest value of a C `int`, used as "no deadline". */
  const INT_MAX: nat := 0x7FFF_FFFF

  /** The devices that can request an interrupt. */
  datatype InterruptDevice = NoInterrupt | StorageWrite | StorageRead | Keyboard | Display

  /** The value of each enumerator. */
  function DeviceCode(v: InterruptDevice): (code: bv8)
    ensures (code == 0) == (v == NoInterrupt)
  {
    match v
    case NoInterrupt => 0
    case StorageWrite => 0xd7
    case StorageRead => 0xdf
    case Keyboard => 0xe7
    case Display => 0xef
  }

  /** The states of a device state machine. */
  datatype IoState = Ready | Reading | Writing | Interrupt | OpComplete

  /** The value of each enumerator; READY is 0. */
  function StateCode(s: IoState): (code: int)
    ensures 0 <= code < 5
    ensures (code == 0) == (s == Ready)
  {
    match s
    case Ready => 0
    case Reading => 1
    case Writing => 2
    case Interrupt => 3
    case OpComplete => 4
  }

  /** The conversion of an int to `uint16_t`: the value modulo 2^16. */
  function Wrap16(x: int): word {
    x % 0x1_0000
  }

  /** The conversion of an int to `uint32_t`: the value modulo 2^32. */
  function Wrap32(x: int): u32 {
    x % 0x1_0000_0000
  }

  /** Adding one and then subtracting one modulo 2^16 gives back the word. */
  lemma WrapIncrementDecrement(v: word)
    ensures Wrap16(Wrap16(v + 1) - 1) == v
  {
    if v < 0xFFFF {
      assert Wrap16(v + 1) == v + 1;
    } else {
      assert Wrap16(v + 1) == 0;
    }
  }

  /**
   * The byte whose value is n, for 0 <= n < 256, built by counting up from
   * zero; `ByteValue` proves that it is the byte `(uint8_t)n`.
   */
  function ByteOf(n: nat): bv8
    requires n < 256
  {
    if n == 0 then 0 else ByteOf(n - 1) + 1
  }

  lemma SuccessorValue(b: bv8)
    requires b < 255
    ensures (b + 1) as int == b as int + 1
  {
  }

  /** ByteOf(n) has the value n. */
  lemma {:induction false} ByteValue(n: nat)
    requires n < 256
    ensures ByteOf(n) as int == n
  {
    if n > 0 {
      ByteValue(n - 1);
      SuccessorValue(ByteOf(n - 1));
    }
  }

  /** Two bytes with the same value are equal. */
  lemma ByteInjective(x: bv8, y: bv8)
    requires x as int == y as int
    ensures x == y
  {
  }

  /** ByteOf inverts the byte-to-int conversion. */
  lemma ByteOfValue(b: bv8)
    ensures ByteOf(b as int) == b
  {
    ByteValue(b as int);
    ByteInjective(ByteOf(b as int), b);
  }

  /** The truncation `(uint8_t)w`. */
  function LowByte(w: word): bv8 {
    ByteOf(w % 256)
  }

  /** The high byte `w >> 8`. */
  function HighByte(w: word): bv8 {
    ByteOf(w / 256)
  }

  /** The little-endian word with the given high and low bytes: `(hi << 8) + lo`. */
  function Word(hi: bv8, lo: bv8): word {
    hi as int * 256 + lo as int
  }

  /** A word splits into its two bytes and back. */
  lemma WordBytes(hi: bv8, lo: bv8, w: word)
    ensures HighByte(Word(hi, lo)) == hi && LowByte(Word(hi, lo)) == lo
    ensures Word(HighByte(w), LowByte(w)) == w
  {
    var x := Word(hi, lo);
    assert x / 256 == hi as int && x % 256 == lo as int;
    ByteOfValue(hi);
    ByteOfValue(lo);
    ByteValue(w / 256);
    ByteValue(w % 256);
  }

  /** WordBytes for every argument at once. */
  lemma WordLaws()
    ensures forall hi: bv8, lo: bv8 :: HighByte(Word(hi, lo)) == hi && LowByte(Word(hi, lo)) == lo
    ensures forall w: word :: Word(HighByte(w), LowByte(w)) == w
  {
    forall hi: bv8, lo: bv8
      ensures HighByte(Word(hi, lo)) == hi && LowByte(Word(hi, lo)) == lo
    {
      WordBytes(hi, lo, 0);
    }
    forall w: word
      ensures Word(HighByte(w), LowByte(w)) == w
    {
      WordBytes(0, 0, w);
    }
  }

  /** `(uint16_t)w` as the 16-bit vector the flag engine reads. */
  function WordBits(w: word): bv16 {
    (HighByte(w) as bv16 << 8) | LowByte(w) as bv16
  }

  /** `x` has exactly one bit set. */
  predicate SingleBit(x: bv8) {
    x != 0 && x & (x - 1) == 0
  }

  /** The five flags are distinct single bits; ALL is their union and
      ALL_EXCEPT_CARRY is ALL without CY. */
  lemma FlagLayout()
    ensures forall i :: 0 <= i < |FlagBits| ==> SingleBit(FlagBits[i])
    ensures forall i, j :: 0 <= i < j < |FlagBits| ==> FlagBits[i] & FlagBits[j] == 0
    ensures ALL == CY | AC | S | Z | EP
    ensures ALL_EXCEPT_CARRY == ALL & !CY
    ensures CARRY == CY
  {
  }

  /** The control-register bits, in the order they are defined. */
  const ControlBits: seq<bv8> := [INTERRUPT_ENABLE, RDY, READ_REQUEST, WRITE_REQUEST, DONE]

  /** The control-register bits are distinct single bits. */
  lemma ControlLayout()
    ensures forall i :: 0 <= i < |ControlBits| ==> SingleBit(ControlBits[i])
    ensures forall i, j :: 0 <= i < j < |ControlBits| ==> ControlBits[i] & ControlBits[j] == 0
  {
  }

  /** The memory-mapped addresses, in the order they are defined. */
  const MappedRegisters: seq<nat> := [KB_CTRL_REG, KB_DATA_REG, NV_MEM_CTRL_REG, NV_MEM_DATA_REG, NV_MEM_ADDR_LOW_REG, NV_MEM_ADDR_HIGH_REG]

  /** The keyboard and storage registers are distinct cells of the 0xffff-byte address space. */
  lemma MappedRegistersInMemory()
    ensures forall i :: 0 <= i < |MappedRegisters| ==> MappedRegisters[i] < ADDRESSED_SPACE_SIZE
    ensures forall i, j :: 0 <= i < j < |MappedRegisters| ==> MappedRegisters[i] != MappedRegisters[j]
  {
  }

  /** The enumerators of io_state have distinct values, and so do those of interrupt_device. */
  lemma CodesInjective(s: IoState, t: IoState, v: InterruptDevice, w: InterruptDevice)
    ensures StateCode(s) == StateCode(t) ==> s == t
    ensures DeviceCode(v) == DeviceCode(w) ==> v == w
  {
  }
}
