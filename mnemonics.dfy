/**
 * The assembler's mnemonic table and its lookup `BinarySearch`
 * (asm8080/instruction_set.h).  The table has ARRAY_SIZE = 256 slots of
 * which the first 244 are initialised, in ascending `strcmp` order; the
 * other 12 are zero-initialised and their mnemonic is NULL.  The search
 * halves a `double` step, which here is an exact `real`: every value it
 * takes is a short dyadic fraction, which a double holds exactly.
 */
module Mnemonics {
  import opened AsmCommon

  datatype Option<T> = None | Some(value: T)

  const ARRAY_SIZE: nat := 256

  /** `instruction`: mnemonic, opcode, number of operand bytes and operand type. */
  datatype Instruction = Instruction(mnemonic: string, opcode: uint8, operandBytes: uint8, operandType: OperandType)

  /** The number of initialised slots of `instruction_set`; the other 12 have a NULL mnemonic. */
  const INITIALISED: nat := 244

  /**
   * Slot i of `instruction_set`, copied literally (including the opcodes
   * of "sbb c" .. "sbb m"), or `None` for a NULL mnemonic.
   */
  function Slot(i: nat): Option<Instruction>
    requires i < ARRAY_SIZE
  {
    if i < 0x10 then Some(Slots00(i))
    else if i < 0x20 then Some(Slots10(i))
    else if i < 0x30 then Some(Slots20(i))
    else if i < 0x40 then Some(Slots30(i))
    else if i < 0x50 then Some(Slots40(i))
    else if i < 0x60 then Some(Slots50(i))
    else if i < 0x70 then Some(Slots60(i))
    else if i < 0x80 then Some(Slots70(i))
    else if i < 0x90 then Some(Slots80(i))
    else if i < 0xa0 then Some(Slots90(i))
    else if i < 0xb0 then Some(SlotsA0(i))
    else if i < 0xc0 then Some(SlotsB0(i))
    else if i < 0xd0 then Some(SlotsC0(i))
    else if i < 0xe0 then Some(SlotsD0(i))
    else if i < 0xf0 then Some(SlotsE0(i))
    else if i < 0xf4 then Some(SlotsF0(i))
    else None
  }

  function Slots00(i: nat): Instruction
    requires 0x00 <= i < 0x10
  {
    match i
    case 0x00 => Instruction("aci", 0xce, 1, D8)
    case 0x01 => Instruction("adc a", 0x8f, 0, NONE)
    case 0x02 => Instruction("adc b", 0x88, 0, NONE)
    case 0x03 => Instruction("adc c", 0x89, 0, NONE)
    case 0x04 => Instruction("adc d", 0x8a, 0, NONE)
    case 0x05 => Instruction("adc e", 0x8b, 0, NONE)
    case 0x06 => Instruction("adc h", 0x8c, 0, NONE)
    case 0x07 => Instruction("adc l", 0x8d, 0, NONE)
    case 0x08 => Instruction("adc m", 0x8e, 0, NONE)
    case 0x09 => Instruction("add a", 0x87, 0, NONE)
    case 0x0a => Instruction("add b", 0x80, 0, NONE)
    case 0x0b => Instruction("add c", 0x81, 0, NONE)
    case 0x0c => Instruction("add d", 0x82, 0, NONE)
    case 0x0d => Instruction("add e", 0x83, 0, NONE)
    case 0x0e => Instruction("add h", 0x84, 0, NONE)
    case _    => Instruction("add l", 0x85, 0, NONE)
  }

  function Slots10(i: nat): Instruction
    requires 0x10 <= i < 0x20
  {
    match i
    case 0x10 => Instruction("add m", 0x86, 0, NONE)
    case 0x11 => Instruction("adi", 0xc6, 1, D8)
    case 0x12 => Instruction("ana a", 0xa7, 0, NONE)
    case 0x13 => Instruction("ana b", 0xa0, 0, NONE)
    case 0x14 => Instruction("ana c", 0xa1, 0, NONE)
    case 0x15 => Instruction("ana d", 0xa2, 0, NONE)
    case 0x16 => Instruction("ana e", 0xa3, 0, NONE)
    case 0x17 => Instruction("ana h", 0xa4, 0, NONE)
    case 0x18 => Instruction("ana l", 0xa5, 0, NONE)
    case 0x19 => Instruction("ana m", 0xa6, 0, NONE)
    case 0x1a => Instruction("ani", 0xe6, 1, D8)
    case 0x1b => Instruction("call", 0xcd, 2, ADDR)
    case 0x1c => Instruction("cc", 0xdc, 2, ADDR)
    case 0x1d => Instruction("cm", 0xfc, 2, ADDR)
    case 0x1e => Instruction("cma", 0x2f, 0, NONE)
    case _    => Instruction("cmc", 0x3f, 0, NONE)
  }

  function Slots20(i: nat): Instruction
    requires 0x20 <= i < 0x30
  {
    match i
    case 0x20 => Instruction("cmp a", 0xbf, 0, NONE)
    case 0x21 => Instruction("cmp b", 0xb8, 0, NONE)
    case 0x22 => Instruction("cmp c", 0xb9, 0, NONE)
    case 0x23 => Instruction("cmp d", 0xba, 0, NONE)
    case 0x24 => Instruction("cmp e", 0xbb, 0, NONE)
    case 0x25 => Instruction("cmp h", 0xbc, 0, NONE)
    case 0x26 => Instruction("cmp l", 0xbd, 0, NONE)
    case 0x27 => Instruction("cmp m", 0xbe, 0, NONE)
    case 0x28 => Instruction("cnc", 0xd4, 2, ADDR)
    case 0x29 => Instruction("cnz", 0xc4, 2, ADDR)
    case 0x2a => Instruction("cp", 0xf4, 2, ADDR)
    case 0x2b => Instruction("cpe", 0xec, 2, ADDR)
    case 0x2c => Instruction("cpi", 0xfe, 1, D8)
    case 0x2d => Instruction("cpo", 0xe4, 2, ADDR)
    case 0x2e => Instruction("cz", 0xcc, 2, ADDR)
    case _    => Instruction("daa", 0x27, 0, NONE)
  }

  function Slots30(i: nat): Instruction
    requires 0x30 <= i < 0x40
  {
    match i
    case 0x30 => Instruction("dad b", 0x09, 0, NONE)
    case 0x31 => Instruction("dad d", 0x19, 0, NONE)
    case 0x32 => Instruction("dad h", 0x29, 0, NONE)
    case 0x33 => Instruction("dad sp", 0x39, 0, NONE)
    case 0x34 => Instruction("dcr a", 0x3d, 0, NONE)
    case 0x35 => Instruction("dcr b", 0x05, 0, NONE)
    case 0x36 => Instruction("dcr c", 0x0d, 0, NONE)
    case 0x37 => Instruction("dcr d", 0x15, 0, NONE)
    case 0x38 => Instruction("dcr e", 0x1d, 0, NONE)
    case 0x39 => Instruction("dcr h", 0x25, 0, NONE)
    case 0x3a => Instruction("dcr l", 0x2d, 0, NONE)
    case 0x3b => Instruction("dcr m", 0x35, 0, NONE)
    case 0x3c => Instruction("dcx b", 0x0b, 0, NONE)
    case 0x3d => Instruction("dcx d", 0x1b, 0, NONE)
    case 0x3e => Instruction("dcx h", 0x2b, 0, NONE)
    case _    => Instruction("dcx sp", 0x3b, 0, NONE)
  }

  function Slots40(i: nat): Instruction
    requires 0x40 <= i < 0x50
  {
    match i
    case 0x40 => Instruction("di", 0xf3, 0, NONE)
    case 0x41 => Instruction("ei", 0xfb, 0, NONE)
    case 0x42 => Instruction("hlt", 0x76, 0, NONE)
    case 0x43 => Instruction("in", 0xdb, 1, D8)
    case 0x44 => Instruction("inr a", 0x3c, 0, NONE)
    case 0x45 => Instruction("inr b", 0x04, 0, NONE)
    case 0x46 => Instruction("inr c", 0x0c, 0, NONE)
    case 0x47 => Instruction("inr d", 0x14, 0, NONE)
    case 0x48 => Instruction("inr e", 0x1c, 0, NONE)
    case 0x49 => Instruction("inr h", 0x24, 0, NONE)
    case 0x4a => Instruction("inr l", 0x2c, 0, NONE)
    case 0x4b => Instruction("inr m", 0x34, 0, NONE)
    case 0x4c => Instruction("inx b", 0x03, 0, NONE)
    case 0x4d => Instruction("inx d", 0x13, 0, NONE)
    case 0x4e => Instruction("inx h", 0x23, 0, NONE)
    case _    => Instruction("inx sp", 0x33, 0, NONE)
  }

  function Slots50(i: nat): Instruction
    requires 0x50 <= i < 0x60
  {
    match i
    case 0x50 => Instruction("jc", 0xda, 2, ADDR)
    case 0x51 => Instruction("jm", 0xfa, 2, ADDR)
    case 0x52 => Instruction("jmp", 0xc3, 2, ADDR)
    case 0x53 => Instruction("jnc", 0xd2, 2, ADDR)
    case 0x54 => Instruction("jnz", 0xc2, 2, ADDR)
    case 0x55 => Instruction("jp", 0xf2, 2, ADDR)
    case 0x56 => Instruction("jpe", 0xea, 2, ADDR)
    case 0x57 => Instruction("jpo", 0xe2, 2, ADDR)
    case 0x58 => Instruction("jz", 0xca, 2, ADDR)
    case 0x59 => Instruction("lda", 0x3a, 2, ADDR)
    case 0x5a => Instruction("ldax b", 0x0a, 0, NONE)
    case 0x5b => Instruction("ldax d", 0x1a, 0, NONE)
    case 0x5c => Instruction("lhld", 0x2a, 2, ADDR)
    case 0x5d => Instruction("lxi b", 0x01, 2, D16)
    case 0x5e => Instruction("lxi d", 0x11, 2, D16)
    case _    => Instruction("lxi h", 0x21, 2, D16)
  }

  function Slots60(i: nat): Instruction
    requires 0x60 <= i < 0x70
  {
    match i
    case 0x60 => Instruction("lxi sp", 0x31, 2, D16)
    case 0x61 => Instruction("mov a,a", 0x7f, 0, NONE)
    case 0x62 => Instruction("mov a,b", 0x78, 0, NONE)
    case 0x63 => Instruction("mov a,c", 0x79, 0, NONE)
    case 0x64 => Instruction("mov a,d", 0x7a, 0, NONE)
    case 0x65 => Instruction("mov a,e", 0x7b, 0, NONE)
    case 0x66 => Instruction("mov a,h", 0x7c, 0, NONE)
    case 0x67 => Instruction("mov a,l", 0x7d, 0, NONE)
    case 0x68 => Instruction("mov a,m", 0x7e, 0, NONE)
    case 0x69 => Instruction("mov b,a", 0x47, 0, NONE)
    case 0x6a => Instruction("mov b,b", 0x40, 0, NONE)
    case 0x6b => Instruction("mov b,c", 0x41, 0, NONE)
    case 0x6c => Instruction("mov b,d", 0x42, 0, NONE)
    case 0x6d => Instruction("mov b,e", 0x43, 0, NONE)
    case 0x6e => Instruction("mov b,h", 0x44, 0, NONE)
    case _    => Instruction("mov b,l", 0x45, 0, NONE)
  }

  function Slots70(i: nat): Instruction
    requires 0x70 <= i < 0x80
  {
    match i
    case 0x70 => Instruction("mov b,m", 0x46, 0, NONE)
    case 0x71 => Instruction("mov c,a", 0x4f, 0, NONE)
    case 0x72 => Instruction("mov c,b", 0x48, 0, NONE)
    case 0x73 => Instruction("mov c,c", 0x49, 0, NONE)
    case 0x74 => Instruction("mov c,d", 0x4a, 0, NONE)
    case 0x75 => Instruction("mov c,e", 0x4b, 0, NONE)
    case 0x76 => Instruction("mov c,h", 0x4c, 0, NONE)
    case 0x77 => Instruction("mov c,l", 0x4d, 0, NONE)
    case 0x78 => Instruction("mov c,m", 0x4e, 0, NONE)
    case 0x79 => Instruction("mov d,a", 0x57, 0, NONE)
    case 0x7a => Instruction("mov d,b", 0x50, 0, NONE)
    case 0x7b => Instruction("mov d,c", 0x51, 0, NONE)
    case 0x7c => Instruction("mov d,d", 0x52, 0, NONE)
    case 0x7d => Instruction("mov d,e", 0x53, 0, NONE)
    case 0x7e => Instruction("mov d,h", 0x54, 0, NONE)
    case _    => Instruction("mov d,l", 0x55, 0, NONE)
  }

  function Slots80(i: nat): Instruction
    requires 0x80 <= i < 0x90
  {
    match i
    case 0x80 => Instruction("mov d,m", 0x56, 0, NONE)
    case 0x81 => Instruction("mov e,a", 0x5f, 0, NONE)
    case 0x82 => Instruction("mov e,b", 0x58, 0, NONE)
    case 0x83 => Instruction("mov e,c", 0x59, 0, NONE)
    case 0x84 => Instruction("mov e,d", 0x5a, 0, NONE)
    case 0x85 => Instruction("mov e,e", 0x5b, 0, NONE)
    case 0x86 => Instruction("mov e,h", 0x5c, 0, NONE)
    case 0x87 => Instruction("mov e,l", 0x5d, 0, NONE)
    case 0x88 => Instruction("mov e,m", 0x5e, 0, NONE)
    case 0x89 => Instruction("mov h,a", 0x67, 0, NONE)
    case 0x8a => Instruction("mov h,b", 0x60, 0, NONE)
    case 0x8b => Instruction("mov h,c", 0x61, 0, NONE)
    case 0x8c => Instruction("mov h,d", 0x62, 0, NONE)
    case 0x8d => Instruction("mov h,e", 0x63, 0, NONE)
    case 0x8e => Instruction("mov h,h", 0x64, 0, NONE)
    case _    => Instruction("mov h,l", 0x65, 0, NONE)
  }

  function Slots90(i: nat): Instruction
    requires 0x90 <= i < 0xa0
  {
    match i
    case 0x90 => Instruction("mov h,m", 0x66, 0, NONE)
    case 0x91 => Instruction("mov l,a", 0x6f, 0, NONE)
    case 0x92 => Instruction("mov l,b", 0x68, 0, NONE)
    case 0x93 => Instruction("mov l,c", 0x69, 0, NONE)
    case 0x94 => Instruction("mov l,d", 0x6a, 0, NONE)
    case 0x95 => Instruction("mov l,e", 0x6b, 0, NONE)
    case 0x96 => Instruction("mov l,h", 0x6c, 0, NONE)
    case 0x97 => Instruction("mov l,l", 0x6d, 0, NONE)
    case 0x98 => Instruction("mov l,m", 0x6e, 0, NONE)
    case 0x99 => Instruction("mov m,a", 0x77, 0, NONE)
    case 0x9a => Instruction("mov m,b", 0x70, 0, NONE)
    case 0x9b => Instruction("mov m,c", 0x71, 0, NONE)
    case 0x9c => Instruction("mov m,d", 0x72, 0, NONE)
    case 0x9d => Instruction("mov m,e", 0x73, 0, NONE)
    case 0x9e => Instruction("mov m,h", 0x74, 0, NONE)
    case _    => Instruction("mov m,l", 0x75, 0, NONE)
  }

  function SlotsA0(i: nat): Instruction
    requires 0xa0 <= i < 0xb0
  {
    match i
    case 0xa0 => Instruction("mvi a", 0x3e, 1, D8)
    case 0xa1 => Instruction("mvi b", 0x06, 1, D8)
    case 0xa2 => Instruction("mvi c", 0x0e, 1, D8)
    case 0xa3 => Instruction("mvi d", 0x16, 1, D8)
    case 0xa4 => Instruction("mvi e", 0x1e, 1, D8)
    case 0xa5 => Instruction("mvi h", 0x26, 1, D8)
    case 0xa6 => Instruction("mvi l", 0x2e, 1, D8)
    case 0xa7 => Instruction("mvi m", 0x36, 1, D8)
    case 0xa8 => Instruction("nop", 0x00, 0, NONE)
    case 0xa9 => Instruction("ora a", 0xb7, 0, NONE)
    case 0xaa => Instruction("ora b", 0xb0, 0, NONE)
    case 0xab => Instruction("ora c", 0xb1, 0, NONE)
    case 0xac => Instruction("ora d", 0xb2, 0, NONE)
    case 0xad => Instruction("ora e", 0xb3, 0, NONE)
    case 0xae => Instruction("ora h", 0xb4, 0, NONE)
    case _    => Instruction("ora l", 0xb5, 0, NONE)
  }

  function SlotsB0(i: nat): Instruction
    requires 0xb0 <= i < 0xc0
  {
    match i
    case 0xb0 => Instruction("ora m", 0xb6, 0, NONE)
    case 0xb1 => Instruction("ori", 0xf6, 1, D8)
    case 0xb2 => Instruction("out", 0xd3, 1, D8)
    case 0xb3 => Instruction("pchl", 0xe9, 0, NONE)
    case 0xb4 => Instruction("pop b", 0xc1, 0, NONE)
    case 0xb5 => Instruction("pop d", 0xd1, 0, NONE)
    case 0xb6 => Instruction("pop h", 0xe1, 0, NONE)
    case 0xb7 => Instruction("pop psw", 0xf1, 0, NONE)
    case 0xb8 => Instruction("push b", 0xc5, 0, NONE)
    case 0xb9 => Instruction("push d", 0xd5, 0, NONE)
    case 0xba => Instruction("push h", 0xe5, 0, NONE)
    case 0xbb => Instruction("push psw", 0xf5, 0, NONE)
    case 0xbc => Instruction("ral", 0x17, 0, NONE)
    case 0xbd => Instruction("rar", 0x1f, 0, NONE)
    case 0xbe => Instruction("rc", 0xd8, 0, NONE)
    case _    => Instruction("ret", 0xc9, 0, NONE)
  }

  function SlotsC0(i: nat): Instruction
    requires 0xc0 <= i < 0xd0
  {
    match i
    case 0xc0 => Instruction("rlc", 0x07, 0, NONE)
    case 0xc1 => Instruction("rm", 0xf8, 0, NONE)
    case 0xc2 => Instruction("rnc", 0xd0, 0, NONE)
    case 0xc3 => Instruction("rnz", 0xc0, 0, NONE)
    case 0xc4 => Instruction("rp", 0xf0, 0, NONE)
    case 0xc5 => Instruction("rpe", 0xe8, 0, NONE)
    case 0xc6 => Instruction("rpo", 0xe0, 0, NONE)
    case 0xc7 => Instruction("rrc", 0x0f, 0, NONE)
    case 0xc8 => Instruction("rst 0", 0xc7, 0, NONE)
    case 0xc9 => Instruction("rst 1", 0xcf, 0, NONE)
    case 0xca => Instruction("rst 2", 0xd7, 0, NONE)
    case 0xcb => Instruction("rst 3", 0xdf, 0, NONE)
    case 0xcc => Instruction("rst 4", 0xe7, 0, NONE)
    case 0xcd => Instruction("rst 5", 0xef, 0, NONE)
    case 0xce => Instruction("rst 6", 0xf7, 0, NONE)
    case _    => Instruction("rst 7", 0xff, 0, NONE)
  }

  function SlotsD0(i: nat): Instruction
    requires 0xd0 <= i < 0xe0
  {
    match i
    case 0xd0 => Instruction("rz", 0xc8, 0, NONE)
    case 0xd1 => Instruction("sbb a", 0x9f, 0, NONE)
    case 0xd2 => Instruction("sbb b", 0x98, 0, NONE)
    case 0xd3 => Instruction("sbb c", 0x9a, 0, NONE)
    case 0xd4 => Instruction("sbb d", 0x9b, 0, NONE)
    case 0xd5 => Instruction("sbb e", 0x9c, 0, NONE)
    case 0xd6 => Instruction("sbb h", 0x9d, 0, NONE)
    case 0xd7 => Instruction("sbb l", 0x9e, 0, NONE)
    case 0xd8 => Instruction("sbb m", 0x9f, 0, NONE)
    case 0xd9 => Instruction("sbi", 0xde, 1, D8)
    case 0xda => Instruction("shld", 0x22, 2, ADDR)
    case 0xdb => Instruction("sphl", 0xf9, 0, NONE)
    case 0xdc => Instruction("sta", 0x32, 2, ADDR)
    case 0xdd => Instruction("stax b", 0x02, 0, NONE)
    case 0xde => Instruction("stax d", 0x12, 0, NONE)
    case _    => Instruction("stc", 0x37, 0, NONE)
  }

  function SlotsE0(i: nat): Instruction
    requires 0xe0 <= i < 0xf0
  {
    match i
    case 0xe0 => Instruction("sub a", 0x97, 0, NONE)
    case 0xe1 => Instruction("sub b", 0x90, 0, NONE)
    case 0xe2 => Instruction("sub c", 0x91, 0, NONE)
    case 0xe3 => Instruction("sub d", 0x92, 0, NONE)
    case 0xe4 => Instruction("sub e", 0x93, 0, NONE)
    case 0xe5 => Instruction("sub h", 0x94, 0, NONE)
    case 0xe6 => Instruction("sub l", 0x95, 0, NONE)
    case 0xe7 => Instruction("sub m", 0x96, 0, NONE)
    case 0xe8 => Instruction("sui", 0xd6, 1, D8)
    case 0xe9 => Instruction("xchg", 0xeb, 0, NONE)
    case 0xea => Instruction("xra a", 0xaf, 0, NONE)
    case 0xeb => Instruction("xra b", 0xa8, 0, NONE)
    case 0xec => Instruction("xra c", 0xa9, 0, NONE)
    case 0xed => Instruction("xra d", 0xaa, 0, NONE)
    case 0xee => Instruction("xra e", 0xab, 0, NONE)
    case _    => Instruction("xra h", 0xac, 0, NONE)
  }

  function SlotsF0(i: nat): Instruction
    requires 0xf0 <= i < 0xf4
  {
    match i
    case 0xf0 => Instruction("xra l", 0xad, 0, NONE)
    case 0xf1 => Instruction("xra m", 0xae, 0, NONE)
    case 0xf2 => Instruction("xri", 0xee, 1, D8)
    case _    => Instruction("xthl", 0xe3, 0, NONE)
  }

  /** The value returned when no mnemonic matches: the unused opcode 0x20. */
  const NoInstructionFound: Instruction := Instruction("no instruction found", 0x20, 0, NONE)

  /** `rounded_shift_value` after k probes: 128, then halved plus one half each time. */
  function Shift(k: nat): real
  {
    if k == 0 then 128.0 else Shift(k - 1) / 2.0 + 0.5
  }

  function Pow2(k: nat): (p: nat)
    ensures p >= 1
  {
    if k == 0 then 1 else 2 * Pow2(k - 1)
  }

  /** The step approaches 1 from above: after k probes it is 1 + 127 / 2^k. */
  lemma {:induction false} ShiftClosedForm(k: nat)
    ensures Shift(k) == 1.0 + 127.0 / (Pow2(k) as real)
  {
    if k > 0 {
      ShiftClosedForm(k - 1);
      var p := Pow2(k - 1) as real;
      assert Pow2(k) as real == 2.0 * p;
      calc {
        Shift(k);
        (1.0 + 127.0 / p) / 2.0 + 0.5;
        1.0 + 127.0 / (2.0 * p);
      }
    }
  }

  lemma {:induction false} Pow2Monotone(i: nat, j: nat)
    requires i <= j
    ensures Pow2(i) <= Pow2(j)
    decreases j
  {
    if i < j {
      Pow2Monotone(i, j - 1);
    }
  }

  /** The loop test `rounded_shift_value / 2.0 >= 0.55` holds for the first 11 probes only. */
  lemma ProbeLimit(k: nat)
    ensures (Shift(k) / 2.0 >= 0.55) == (k <= 10)
  {
    ShiftClosedForm(k);
    assert Pow2(10) == 1024 && Pow2(11) == 2048;
    var p := Pow2(k) as real;
    if k >= 11 {
      Pow2Monotone(11, k);
      assert 127.0 / p <= 127.0 / 2048.0;
    } else {
      Pow2Monotone(k, 10);
      assert 127.0 / p >= 127.0 / 1024.0;
    }
  }

  /** The conversion of a double to int: truncation toward zero. */
  function Truncate(x: real): int
  {
    if x >= 0.0 then x.Floor else -((-x).Floor)
  }

  /** What `BinarySearch` returns, with the line as it leaves it; `Undefined` when it reads a NULL mnemonic. */
  datatype SearchOutcome = Returned(instruction: Instruction, line: string) | Undefined

  /** `strncmp(line, mnemonic, strlen(mnemonic))`, the `result` the search steers by. */
  function Compare(line: string, mnemonic: string): int
  {
    Strncmp(line, mnemonic, |mnemonic|)
  }

  /** The mnemonic matches the start of the line and is not followed by a lower-case letter. */
  predicate Accepts(line: string, mnemonic: string)
  {
    Compare(line, mnemonic) == 0
    && (|line| <= |mnemonic| || line[|mnemonic|] < 'a' || line[|mnemonic|] > 'z')
  }

  /** `search_index` after the probe in which `rounded_shift_value` becomes Shift(k + 1). */
  function NextIndex(index: int, k: nat, result: int): int
  {
    var shift := Shift(k + 1);
    if result < 0 then Truncate(index as real - shift) else Truncate(index as real + shift)
  }

  /** The loop test. */
  predicate Probing(index: int, k: nat)
  {
    0 <= index <= ARRAY_SIZE - 1 && Shift(k) / 2.0 >= 0.55
  }

  /** The search loop from `search_index` = index after k probes. */
  function SearchFrom(line: string, index: int, k: nat): SearchOutcome
    requires k <= 11
    decreases 11 - k
  {
    if !Probing(index, k) then Returned(NoInstructionFound, line)
    else
      match Slot(index)
      case None => Undefined
      case Some(entry) =>
        var m := entry.mnemonic;
        if Accepts(line, m) then Returned(entry, Blanked(line, |m|))
        else
          ProbeLimit(k);
          SearchFrom(line, NextIndex(index, k, Compare(line, m)), k + 1)
  }

  /** One probe of the search loop, from the outside. */
  lemma ProbeUnfolds(line: string, index: int, k: nat)
    requires k <= 11 && Probing(index, k)
    ensures k <= 10 && 0 <= index < ARRAY_SIZE
    ensures Slot(index).None? ==> SearchFrom(line, index, k) == Undefined
    ensures Slot(index).Some? && Accepts(line, Slot(index).value.mnemonic) ==>
      SearchFrom(line, index, k) == Returned(Slot(index).value, Blanked(line, |Slot(index).value.mnemonic|))
    ensures Slot(index).Some? && !Accepts(line, Slot(index).value.mnemonic) ==>
      SearchFrom(line, index, k) == SearchFrom(line, NextIndex(index, k, Compare(line, Slot(index).value.mnemonic)), k + 1)
  {
    ProbeLimit(k);
  }

  /** `BinarySearch(line)`. */
  function Search(line: string): SearchOutcome
  {
    SearchFrom(line, ARRAY_SIZE / 2, 0)
  }

  // ---------------------------------------------------------------- properties

  /** Every probed `search_index` lies in [0, 255], and the loop makes at most 11 probes. */
  lemma ProbeBounds(index: int, k: nat)
    requires Probing(index, k)
    ensures 0 <= index < ARRAY_SIZE && k <= 10
  {
    ProbeLimit(k);
  }

  /**
   * What the search can return: the no-match value with the line
   * untouched, or a table entry that accepts the line, with exactly the
   * first strlen(mnemonic) characters of the line turned into spaces.
   */
  lemma {:induction false} SearchFromResult(line: string, index: int, k: nat)
    requires k <= 11
    ensures var r := SearchFrom(line, index, k);
      || r.Undefined?
      || r == Returned(NoInstructionFound, line)
      || (exists i :: 0 <= i < INITIALISED && Slot(i) == Some(r.instruction)
           && Accepts(line, r.instruction.mnemonic)
           && r.line == Blanked(line, |r.instruction.mnemonic|))
    decreases 11 - k
  {
    if Probing(index, k) && Slot(index).Some? && !Accepts(line, Slot(index).value.mnemonic) {
      ProbeLimit(k);
      SearchFromResult(line, NextIndex(index, k, Compare(line, Slot(index).value.mnemonic)), k + 1);
    }
  }

  /**
   * For a C string mnemonic, acceptance is what the comments of the source
   * promise: the mnemonic is a prefix of the line, and the line ends there
   * or goes on with a character that is not a lower-case letter (so "jm"
   * is not taken for the start of "jmp").
   */
  lemma AcceptsPrefix(line: string, m: string)
    requires NoNul(m)
    ensures Accepts(line, m) ==
      (|m| <= |line| && line[..|m|] == m && (|line| == |m| || !('a' <= line[|m|] <= 'z')))
  {
    StrncmpPrefix(line, m);
  }

  /**
   * `BinarySearch` returns `no_instruction_found` and leaves the line
   * alone, or returns an initialised entry whose mnemonic starts the line
   * (not followed by a lower-case letter) and blanks exactly that prefix;
   * or it reads a NULL mnemonic.
   */
  lemma SearchResult(line: string)
    ensures var r := Search(line);
      || r.Undefined?
      || r == Returned(NoInstructionFound, line)
      || (exists i :: 0 <= i < INITIALISED && Slot(i) == Some(r.instruction)
           && var m := r.instruction.mnemonic;
           && |m| <= |line| && line[..|m|] == m && (|line| == |m| || !('a' <= line[|m|] <= 'z'))
           && r.line == seq(|m|, _ => ' ') + line[|m|..])
  {
    SearchFromResult(line, ARRAY_SIZE / 2, 0);
    var r := Search(line);
    if r.Returned? && r != Returned(NoInstructionFound, line) {
      var i :| 0 <= i < INITIALISED && Slot(i) == Some(r.instruction)
           && Accepts(line, r.instruction.mnemonic)
           && r.line == Blanked(line, |r.instruction.mnemonic|);
      MnemonicIsCString(i);
      AcceptsPrefix(line, r.instruction.mnemonic);
      BlankedLaws(line, |r.instruction.mnemonic|);
    }
  }

  /**
   * The search as evidently intended: a NULL slot lies past the last
   * initialised entry, so it is taken as greater than any line and the
   * search steers left, as for a negative `result`.
   */
  function FixedSearchFrom(line: string, index: int, k: nat): SearchOutcome
    requires k <= 11
    decreases 11 - k
  {
    if !Probing(index, k) then Returned(NoInstructionFound, line)
    else
      match Slot(index)
      case None =>
        ProbeLimit(k);
        FixedSearchFrom(line, NextIndex(index, k, -1), k + 1)
      case Some(entry) =>
        var m := entry.mnemonic;
        if Accepts(line, m) then Returned(entry, Blanked(line, |m|))
        else
          ProbeLimit(k);
          FixedSearchFrom(line, NextIndex(index, k, Compare(line, m)), k + 1)
  }

  /** The corrected `BinarySearch(line)`. */
  function FixedSearch(line: string): SearchOutcome
  {
    FixedSearchFrom(line, ARRAY_SIZE / 2, 0)
  }

  /** One probe of the corrected search, from the outside. */
  lemma FixedProbeUnfolds(line: string, index: int, k: nat)
    requires k <= 11 && Probing(index, k)
    ensures k <= 10 && 0 <= index < ARRAY_SIZE
    ensures Slot(index).None? ==>
      FixedSearchFrom(line, index, k) == FixedSearchFrom(line, NextIndex(index, k, -1), k + 1)
    ensures Slot(index).Some? && Accepts(line, Slot(index).value.mnemonic) ==>
      FixedSearchFrom(line, index, k) == Returned(Slot(index).value, Blanked(line, |Slot(index).value.mnemonic|))
    ensures Slot(index).Some? && !Accepts(line, Slot(index).value.mnemonic) ==>
      FixedSearchFrom(line, index, k) == FixedSearchFrom(line, NextIndex(index, k, Compare(line, Slot(index).value.mnemonic)), k + 1)
  {
    ProbeLimit(k);
  }

  /**
   * The corrected search always returns: the no-match value with the line
   * untouched, or an initialised entry that accepts the line, with its
   * mnemonic blanked.
   */
  lemma {:induction false} FixedSearchFromResult(line: string, index: int, k: nat)
    requires k <= 11
    ensures var r := FixedSearchFrom(line, index, k);
      || r == Returned(NoInstructionFound, line)
      || (r.Returned? &&
          exists i :: 0 <= i < INITIALISED && Slot(i) == Some(r.instruction)
            && Accepts(line, r.instruction.mnemonic)
            && r.line == Blanked(line, |r.instruction.mnemonic|))
    decreases 11 - k
  {
    if Probing(index, k) {
      ProbeLimit(k);
      if Slot(index).None? {
        FixedSearchFromResult(line, NextIndex(index, k, -1), k + 1);
      } else if !Accepts(line, Slot(index).value.mnemonic) {
        FixedSearchFromResult(line, NextIndex(index, k, Compare(line, Slot(index).value.mnemonic)), k + 1);
      }
    }
  }

  /** Wherever the search as written is defined, the corrected one returns the same. */
  lemma {:induction false} FixedAgrees(line: string, index: int, k: nat)
    requires k <= 11
    ensures SearchFrom(line, index, k).Returned? ==> FixedSearchFrom(line, index, k) == SearchFrom(line, index, k)
    decreases 11 - k
  {
    if Probing(index, k) && Slot(index).Some? && !Accepts(line, Slot(index).value.mnemonic) {
      ProbeLimit(k);
      FixedAgrees(line, NextIndex(index, k, Compare(line, Slot(index).value.mnemonic)), k + 1);
    }
  }

  /** For "xthl" both searches steer right past "mov d,m", "rlc" and "sub a" to slot 240. */
  lemma XthlSteersRight(line: string)
    requires line == "xthl"
    ensures SearchFrom(line, 128, 0) == SearchFrom(line, 240, 3)
    ensures FixedSearchFrom(line, 128, 0) == FixedSearchFrom(line, 240, 3)
  {
    XthlFirstProbes(line);
    XthlThirdProbe(line);
  }

  lemma XthlFirstProbes(line: string)
    requires line == "xthl"
    ensures SearchFrom(line, 128, 0) == SearchFrom(line, 224, 2)
    ensures FixedSearchFrom(line, 128, 0) == FixedSearchFrom(line, 224, 2)
  {
    ProbeUnfolds(line, 128, 0);
    FixedProbeUnfolds(line, 128, 0);
    assert Slot(128) == Some(Instruction("mov d,m", 0x56, 0, NONE));
    assert Strncmp(line, "mov d,m", 7) == 1;
    assert Compare(line, "mov d,m") == 1;
    assert Shift(1) == 64.5;
    assert NextIndex(128, 0, 1) == 192;
    ProbeUnfolds(line, 192, 1);
    FixedProbeUnfolds(line, 192, 1);
    assert Slot(192) == Some(Instruction("rlc", 0x07, 0, NONE));
    assert Strncmp(line, "rlc", 3) == 1;
    assert Compare(line, "rlc") == 1;
    assert Shift(2) == 32.75;
    assert NextIndex(192, 1, 1) == 224;
  }

  lemma XthlThirdProbe(line: string)
    requires line == "xthl"
    ensures SearchFrom(line, 224, 2) == SearchFrom(line, 240, 3)
    ensures FixedSearchFrom(line, 224, 2) == FixedSearchFrom(line, 240, 3)
  {
    ProbeUnfolds(line, 224, 2);
    FixedProbeUnfolds(line, 224, 2);
    assert Slot(224) == Some(Instruction("sub a", 0x97, 0, NONE));
    assert Strncmp(line, "sub a", 5) == 1;
    assert Compare(line, "sub a") == 1;
    assert Shift(3) == 16.875;
    assert NextIndex(224, 2, 1) == 240;
  }

  /** From "xra l" at slot 240 the search as written steers right to slot 248 and reads its NULL mnemonic. */
  lemma XthlReadsNull(line: string)
    requires line == "xthl"
    ensures SearchFrom(line, 240, 3) == Undefined
  {
    ProbeUnfolds(line, 240, 3);
    assert Slot(240) == Some(Instruction("xra l", 0xad, 0, NONE));
    assert Strncmp(line, "xra l", 5) == 1;
    assert Compare(line, "xra l") == 1;
    assert Shift(4) == 8.9375;
    assert NextIndex(240, 3, 1) == 248;
    ProbeUnfolds(line, 248, 4);
  }

  /** From slot 240 the corrected search steers right to the NULL slot 248, then back left to "xthl" at slot 243. */
  lemma XthlFixedEnd(line: string)
    requires line == "xthl"
    ensures FixedSearchFrom(line, 240, 3) == Returned(Instruction("xthl", 0xe3, 0, NONE), "    ")
  {
    FixedProbeUnfolds(line, 240, 3);
    assert Slot(240) == Some(Instruction("xra l", 0xad, 0, NONE));
    assert Strncmp(line, "xra l", 5) == 1;
    assert Compare(line, "xra l") == 1;
    assert Shift(4) == 8.9375;
    assert NextIndex(240, 3, 1) == 248;
    FixedProbeUnfolds(line, 248, 4);
    assert Slot(248).None?;
    assert Shift(5) == 4.96875;
    assert NextIndex(248, 4, -1) == 243;
    FixedProbeUnfolds(line, 243, 5);
    assert Slot(243) == Some(Instruction("xthl", 0xe3, 0, NONE));
    assert Strncmp(line, "xthl", 4) == 0;
    assert Blanked(line, 4) == "    ";
  }

  /** The search as written reads the NULL mnemonic of slot 248 when the line starts with "xthl". */
  lemma NullSlotProbed()
    ensures Search("xthl") == Undefined
  {
    XthlSteersRight("xthl");
    XthlReadsNull("xthl");
  }

  /** The corrected search finds "xthl", the last entry. */
  lemma FixedFindsXthl()
    ensures FixedSearch("xthl") == Returned(Instruction("xthl", 0xe3, 0, NONE), "    ")
  {
    XthlSteersRight("xthl");
    XthlFixedEnd("xthl");
  }

  // ---------------------------------------------------------------- the C function

  /** The end of a probe that did not return: the step is halved and rounded, and the index moves by it. */
  method Reposition(searchIndex: int, roundedShiftValue: real, ghost k: nat, result: int) returns (nextIndex: int, nextShift: real)
    requires roundedShiftValue == Shift(k)
    ensures nextShift == Shift(k + 1) && nextIndex == NextIndex(searchIndex, k, result)
  {
    nextShift := roundedShiftValue / 2.0 + 0.5;
    if result < 0 {
      nextIndex := Truncate(searchIndex as real - nextShift);
    } else {
      nextIndex := Truncate(searchIndex as real + nextShift);
    }
  }

  /**
   * One pass of the search loop's body at `search_index` = index after k
   * probes: it returns (`done`) what the search returns from there, or it
   * leaves the line alone and moves to the next probe.
   */
  method Probe(line: array<char>, index: int, shift: real, ghost k: nat)
    returns (done: bool, instruction: Instruction, defined: bool, nextIndex: int, nextShift: real)
    requires k <= 11 && shift == Shift(k) && Probing(index, k) && NoNul(line[..])
    modifies line
    ensures done ==> defined == SearchFrom(old(line[..]), index, k).Returned?
    ensures done && defined ==> SearchFrom(old(line[..]), index, k) == Returned(instruction, line[..])
    ensures !(done && defined) ==> line[..] == old(line[..])
    ensures !done ==> k <= 10 && nextShift == Shift(k + 1)
    ensures !done ==> SearchFrom(old(line[..]), index, k) == SearchFrom(line[..], nextIndex, k + 1)
  {
    ghost var text := line[..];
    ProbeUnfolds(text, index, k);
    var slot := Slot(index);
    if slot.None? {
      return true, NoInstructionFound, false, index, shift;
    }
    var mnemonic := slot.value.mnemonic;
    var mnemonicLength := |mnemonic|;
    var result := Strncmp(line[..], mnemonic, mnemonicLength);
    if result == 0 {
      MnemonicIsCString(index);
      AcceptsPrefix(text, mnemonic);
      if line.Length > mnemonicLength {
        if line[mnemonicLength] < 'a' || line[mnemonicLength] > 'z' {
          ClearPrefix(line, mnemonicLength);
          return true, slot.value, true, index, shift;
        }
      } else {
        ClearPrefix(line, mnemonicLength);
        return true, slot.value, true, index, shift;
      }
    }
    nextIndex, nextShift := Reposition(index, shift, k, result);
    return false, NoInstructionFound, true, nextIndex, nextShift;
  }

  /**
   * `BinarySearch(line)` on the characters of the C string `line`: the
   * result and the new line are those of `Search`; `defined` is false when
   * the search reads a NULL mnemonic, where the C code takes `strlen(NULL)`.
   */
  method BinarySearch(line: array<char>) returns (instruction: Instruction, defined: bool)
    requires NoNul(line[..])
    modifies line
    ensures defined == Search(old(line[..])).Returned?
    ensures defined ==> Search(old(line[..])) == Returned(instruction, line[..])
    ensures !defined ==> line[..] == old(line[..])
  {
    ghost var text := line[..];
    var searchIndex: int := ARRAY_SIZE / 2;
    var roundedShiftValue: real := (ARRAY_SIZE / 2) as real;
    ghost var k: nat := 0;
    while 0 <= searchIndex <= ARRAY_SIZE - 1 && roundedShiftValue / 2.0 >= 0.55
      invariant k <= 11 && roundedShiftValue == Shift(k)
      invariant line[..] == text
      invariant Search(text) == SearchFrom(text, searchIndex, k)
      decreases 11 - k
    {
      var done;
      done, instruction, defined, searchIndex, roundedShiftValue := Probe(line, searchIndex, roundedShiftValue, k);
      if done {
        return;
      }
      k := k + 1;
    }
    return NoInstructionFound, true;
  }

  /** Every initialised mnemonic is a C string: it holds no NUL. */
  lemma MnemonicIsCString(i: nat)
    requires i < INITIALISED
    ensures NoNul(Slot(i).value.mnemonic)
  {
    if i < 0x10 {
      Slots00NoNul(i);
    } else if i < 0x20 {
      Slots10NoNul(i);
    } else if i < 0x30 {
      Slots20NoNul(i);
    } else if i < 0x40 {
      Slots30NoNul(i);
    } else if i < 0x50 {
      Slots40NoNul(i);
    } else if i < 0x60 {
      Slots50NoNul(i);
    } else if i < 0x70 {
      Slots60NoNul(i);
    } else if i < 0x80 {
      Slots70NoNul(i);
    } else if i < 0x90 {
      Slots80NoNul(i);
    } else if i < 0xa0 {
      Slots90NoNul(i);
    } else if i < 0xb0 {
      SlotsA0NoNul(i);
    } else if i < 0xc0 {
      SlotsB0NoNul(i);
    } else if i < 0xd0 {
      SlotsC0NoNul(i);
    } else if i < 0xe0 {
      SlotsD0NoNul(i);
    } else if i < 0xf0 {
      SlotsE0NoNul(i);
    } else {
      SlotsF0NoNul(i);
    }
  }

  lemma Slots00NoNul(i: nat)
    requires 0x00 <= i < 0x10
    ensures NoNul(Slots00(i).mnemonic)
  {
  }

  lemma Slots10NoNul(i: nat)
    requires 0x10 <= i < 0x20
    ensures NoNul(Slots10(i).mnemonic)
  {
  }

  lemma Slots20NoNul(i: nat)
    requires 0x20 <= i < 0x30
    ensures NoNul(Slots20(i).mnemonic)
  {
  }

  lemma Slots30NoNul(i: nat)
    requires 0x30 <= i < 0x40
    ensures NoNul(Slots30(i).mnemonic)
  {
  }

  lemma Slots40NoNul(i: nat)
    requires 0x40 <= i < 0x50
    ensures NoNul(Slots40(i).mnemonic)
  {
  }

  lemma Slots50NoNul(i: nat)
    requires 0x50 <= i < 0x60
    ensures NoNul(Slots50(i).mnemonic)
  {
  }

  lemma Slots60NoNul(i: nat)
    requires 0x60 <= i < 0x70
    ensures NoNul(Slots60(i).mnemonic)
  {
  }

  lemma Slots70NoNul(i: nat)
    requires 0x70 <= i < 0x80
    ensures NoNul(Slots70(i).mnemonic)
  {
  }

  lemma Slots80NoNul(i: nat)
    requires 0x80 <= i < 0x90
    ensures NoNul(Slots80(i).mnemonic)
  {
  }

  lemma Slots90NoNul(i: nat)
    requires 0x90 <= i < 0xa0
    ensures NoNul(Slots90(i).mnemonic)
  {
  }

  lemma SlotsA0NoNul(i: nat)
    requires 0xa0 <= i < 0xb0
    ensures NoNul(SlotsA0(i).mnemonic)
  {
  }

  lemma SlotsB0NoNul(i: nat)
    requires 0xb0 <= i < 0xc0
    ensures NoNul(SlotsB0(i).mnemonic)
  {
  }

  lemma SlotsC0NoNul(i: nat)
    requires 0xc0 <= i < 0xd0
    ensures NoNul(SlotsC0(i).mnemonic)
  {
  }

  lemma SlotsD0NoNul(i: nat)
    requires 0xd0 <= i < 0xe0
    ensures NoNul(SlotsD0(i).mnemonic)
  {
  }

  lemma SlotsE0NoNul(i: nat)
    requires 0xe0 <= i < 0xf0
    ensures NoNul(SlotsE0(i).mnemonic)
  {
  }

  lemma SlotsF0NoNul(i: nat)
    requires 0xf0 <= i < 0xf4
    ensures NoNul(SlotsF0(i).mnemonic)
  {
  }

  /**
   * The initialised entries are in ascending `strcmp` order, which the
   * direction of each probe relies on; the slots after them are NULL.
   */
  lemma TableSorted(i: nat)
    requires i < ARRAY_SIZE
    ensures i + 1 < INITIALISED ==> Strcmp(Slot(i).value.mnemonic, Slot(i + 1).value.mnemonic) == -1
    ensures Slot(i).None? == (i >= INITIALISED)
  {
    if i + 1 >= INITIALISED {
    } else if i < 0x0f {
      Slots00Sorted(i);
    } else if i == 0x0f {
      Slots00To10Sorted();
    } else if i < 0x1f {
      Slots10Sorted(i);
    } else if i == 0x1f {
      Slots10To20Sorted();
    } else if i < 0x2f {
      Slots20Sorted(i);
    } else if i == 0x2f {
      Slots20To30Sorted();
    } else if i < 0x3f {
      Slots30Sorted(i);
    } else if i == 0x3f {
      Slots30To40Sorted();
    } else if i < 0x4f {
      Slots40Sorted(i);
    } else if i == 0x4f {
      Slots40To50Sorted();
    } else if i < 0x5f {
      Slots50Sorted(i);
    } else if i == 0x5f {
      Slots50To60Sorted();
    } else if i < 0x6f {
      Slots60Sorted(i);
    } else if i == 0x6f {
      Slots60To70Sorted();
    } else if i < 0x7f {
      Slots70Sorted(i);
    } else if i == 0x7f {
      Slots70To80Sorted();
    } else if i < 0x8f {
      Slots80Sorted(i);
    } else if i == 0x8f {
      Slots80To90Sorted();
    } else if i < 0x9f {
      Slots90Sorted(i);
    } else if i == 0x9f {
      Slots90ToA0Sorted();
    } else if i < 0xaf {
      SlotsA0Sorted(i);
    } else if i == 0xaf {
      SlotsA0ToB0Sorted();
    } else if i < 0xbf {
      SlotsB0Sorted(i);
    } else if i == 0xbf {
      SlotsB0ToC0Sorted();
    } else if i < 0xcf {
      SlotsC0Sorted(i);
    } else if i == 0xcf {
      SlotsC0ToD0Sorted();
    } else if i < 0xdf {
      SlotsD0Sorted(i);
    } else if i == 0xdf {
      SlotsD0ToE0Sorted();
    } else if i < 0xef {
      SlotsE0Sorted(i);
    } else if i == 0xef {
      SlotsE0ToF0Sorted();
    } else if i < 0xf3 {
      SlotsF0Sorted(i);
    }
  }

  lemma Slots00To10Sorted()
    ensures Strcmp(Slots00(0x0f).mnemonic, Slots10(0x10).mnemonic) == -1
  {
  }

  lemma Slots10To20Sorted()
    ensures Strcmp(Slots10(0x1f).mnemonic, Slots20(0x20).mnemonic) == -1
  {
  }

  lemma Slots20To30Sorted()
    ensures Strcmp(Slots20(0x2f).mnemonic, Slots30(0x30).mnemonic) == -1
  {
  }

  lemma Slots30To40Sorted()
    ensures Strcmp(Slots30(0x3f).mnemonic, Slots40(0x40).mnemonic) == -1
  {
  }

  lemma Slots40To50Sorted()
    ensures Strcmp(Slots40(0x4f).mnemonic, Slots50(0x50).mnemonic) == -1
  {
  }

  lemma Slots50To60Sorted()
    ensures Strcmp(Slots50(0x5f).mnemonic, Slots60(0x60).mnemonic) == -1
  {
  }

  lemma Slots60To70Sorted()
    ensures Strcmp(Slots60(0x6f).mnemonic, Slots70(0x70).mnemonic) == -1
  {
  }

  lemma Slots70To80Sorted()
    ensures Strcmp(Slots70(0x7f).mnemonic, Slots80(0x80).mnemonic) == -1
  {
  }

  lemma Slots80To90Sorted()
    ensures Strcmp(Slots80(0x8f).mnemonic, Slots90(0x90).mnemonic) == -1
  {
  }

  lemma Slots90ToA0Sorted()
    ensures Strcmp(Slots90(0x9f).mnemonic, SlotsA0(0xa0).mnemonic) == -1
  {
  }

  lemma SlotsA0ToB0Sorted()
    ensures Strcmp(SlotsA0(0xaf).mnemonic, SlotsB0(0xb0).mnemonic) == -1
  {
  }

  lemma SlotsB0ToC0Sorted()
    ensures Strcmp(SlotsB0(0xbf).mnemonic, SlotsC0(0xc0).mnemonic) == -1
  {
  }

  lemma SlotsC0ToD0Sorted()
    ensures Strcmp(SlotsC0(0xcf).mnemonic, SlotsD0(0xd0).mnemonic) == -1
  {
  }

  lemma SlotsD0ToE0Sorted()
    ensures Strcmp(SlotsD0(0xdf).mnemonic, SlotsE0(0xe0).mnemonic) == -1
  {
  }

  lemma SlotsE0ToF0Sorted()
    ensures Strcmp(SlotsE0(0xef).mnemonic, SlotsF0(0xf0).mnemonic) == -1
  {
  }

  lemma Slots00Sorted(i: nat)
    requires 0x00 <= i < 0x0f
    ensures Strcmp(Slots00(i).mnemonic, Slots00(i + 1).mnemonic) == -1
  {
  }

  lemma Slots10Sorted(i: nat)
    requires 0x10 <= i < 0x1f
    ensures Strcmp(Slots10(i).mnemonic, Slots10(i + 1).mnemonic) == -1
  {
  }

  lemma Slots20Sorted(i: nat)
    requires 0x20 <= i < 0x2f
    ensures Strcmp(Slots20(i).mnemonic, Slots20(i + 1).mnemonic) == -1
  {
  }

  lemma Slots30Sorted(i: nat)
    requires 0x30 <= i < 0x3f
    ensures Strcmp(Slots30(i).mnemonic, Slots30(i + 1).mnemonic) == -1
  {
  }

  lemma Slots40Sorted(i: nat)
    requires 0x40 <= i < 0x4f
    ensures Strcmp(Slots40(i).mnemonic, Slots40(i + 1).mnemonic) == -1
  {
  }

  lemma Slots50Sorted(i: nat)
    requires 0x50 <= i < 0x5f
    ensures Strcmp(Slots50(i).mnemonic, Slots50(i + 1).mnemonic) == -1
  {
  }

  lemma Slots60Sorted(i: nat)
    requires 0x60 <= i < 0x6f
    ensures Strcmp(Slots60(i).mnemonic, Slots60(i + 1).mnemonic) == -1
  {
  }

  lemma Slots70Sorted(i: nat)
    requires 0x70 <= i < 0x7f
    ensures Strcmp(Slots70(i).mnemonic, Slots70(i + 1).mnemonic) == -1
  {
  }

  lemma Slots80Sorted(i: nat)
    requires 0x80 <= i < 0x8f
    ensures Strcmp(Slots80(i).mnemonic, Slots80(i + 1).mnemonic) == -1
  {
  }

  lemma Slots90Sorted(i: nat)
    requires 0x90 <= i < 0x9f
    ensures Strcmp(Slots90(i).mnemonic, Slots90(i + 1).mnemonic) == -1
  {
  }

  lemma SlotsA0Sorted(i: nat)
    requires 0xa0 <= i < 0xaf
    ensures Strcmp(SlotsA0(i).mnemonic, SlotsA0(i + 1).mnemonic) == -1
  {
  }

  lemma SlotsB0Sorted(i: nat)
    requires 0xb0 <= i < 0xbf
    ensures Strcmp(SlotsB0(i).mnemonic, SlotsB0(i + 1).mnemonic) == -1
  {
  }

  lemma SlotsC0Sorted(i: nat)
    requires 0xc0 <= i < 0xcf
    ensures Strcmp(SlotsC0(i).mnemonic, SlotsC0(i + 1).mnemonic) == -1
  {
  }

  lemma SlotsD0Sorted(i: nat)
    requires 0xd0 <= i < 0xdf
    ensures Strcmp(SlotsD0(i).mnemonic, SlotsD0(i + 1).mnemonic) == -1
  {
  }

  lemma SlotsE0Sorted(i: nat)
    requires 0xe0 <= i < 0xef
    ensures Strcmp(SlotsE0(i).mnemonic, SlotsE0(i + 1).mnemonic) == -1
  {
  }

  lemma SlotsF0Sorted(i: nat)
    requires 0xf0 <= i < 0xf3
    ensures Strcmp(SlotsF0(i).mnemonic, SlotsF0(i + 1).mnemonic) == -1
  {
  }
}
