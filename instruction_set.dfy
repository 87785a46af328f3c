/**
 * The two 256-entry tables of emu8080/instruction_set.h: the descriptors
 * `instruction_set_data` (operand registers, register pair, name, size in
 * bytes, the flag mask handed to the flag engine and the duration in
 * cycles) and the dispatch table `instruction_set` of handler functions,
 * both indexed by opcode.
 */
module InstructionSet {
  import opened Common
  import opened State

  datatype Option<T> = None | Some(value: T)

  /** One entry of `instruction_set_data`: `register_1` is the source
      register, `register_2` the destination register. */
  datatype Descriptor = Descriptor(
    register1: Option<RegIndex>,
    register2: Option<RegIndex>,
    registerPair: Option<PairRef>,
    name: string,
    size: nat,
    flags: bv8,
    duration: nat)

  /** The instruction-emulating functions, grouped by kind. */
  datatype Handler =
      Transfer(transfer: TransferHandler)
    | AddSub(addSub: AddSubHandler)
    | IncDec(incDec: IncDecHandler)
    | Logic(logic: LogicHandler)
    | CompareRotate(compareRotate: CompareRotateHandler)
    | Jump(jump: JumpHandler)
    | CallRestart(callRestart: CallHandler)
    | Return(ret: ReturnHandler)
    | Control(control: ControlHandler)

  /** The data transfer handlers. */
  datatype TransferHandler = MovRegister | MovToMemory | MovFromMemory | Mvi | Lxi | Lda | Sta | Lhld | Shld | Ldax | Stax | Xchg

  /** The add and subtract handlers. */
  datatype AddSubHandler = AddRegister | AddMemory | Adi | SubRegister | SubMemory | Sui | AdcRegister | AdcMemory | Aci | SbbRegister | SbbMemory | Sbi

  /** The increment, decrement, DAD and DAA handlers. */
  datatype IncDecHandler = InrRegister | DcrRegister | InrMemory | DcrMemory | Inx | Dcx | Dad | Daa

  /** The AND, XOR and OR handlers. */
  datatype LogicHandler = AnaRegister | AnaMemory | Ani | XraRegister | XraMemory | Xri | OraRegister | OraMemory | Ori

  /** The compare, rotate and carry handlers. */
  datatype CompareRotateHandler = CmpRegister | CmpMemory | Cpi | Rlc | Rrc | Ral | Rar | Cma | Cmc | Stc

  /** The jump handlers. */
  datatype JumpHandler = Jmp | Jnz | Jz | Jnc | Jc | Jpo | Jpe | Jp | Jm | Pchl

  /** The call and restart handlers. */
  datatype CallHandler = Call | Cnz | Cz | Cnc | Cc | Cpo | Cpe | Cp | Cm | Rst

  /** The return handlers. */
  datatype ReturnHandler = Ret | Rnz | Rz | Rnc | Rc | Rpo | Rpe | Rp | Rm

  /** The stack, I/O and machine control handlers. */
  datatype ControlHandler = PushRp | PushPsw | PopRp | PopPsw | Xthl | Sphl | In | Out | Ei | Di | Hlt | Nop

  /** `instruction_set_data[op]`, looked up by high nibble and then low nibble. */
  function DescriptorOf(op: bv8): Descriptor {
    var low := op & 0x0F;
    match op >> 4
    case 0x0 => DescriptorRow0(low)
    case 0x1 => DescriptorRow1(low)
    case 0x2 => DescriptorRow2(low)
    case 0x3 => DescriptorRow3(low)
    case 0x4 => DescriptorRow4(low)
    case 0x5 => DescriptorRow5(low)
    case 0x6 => DescriptorRow6(low)
    case 0x7 => DescriptorRow7(low)
    case 0x8 => DescriptorRow8(low)
    case 0x9 => DescriptorRow9(low)
    case 0xA => DescriptorRowA(low)
    case 0xB => DescriptorRowB(low)
    case 0xC => DescriptorRowC(low)
    case 0xD => DescriptorRowD(low)
    case 0xE => DescriptorRowE(low)
    case _   => DescriptorRowF(low)
  }

  /** Entries 0x00 to 0x0F, by low nibble. */
  function DescriptorRow0(low: bv8): Descriptor {
    match low
    case 0x0 => Descriptor(None, None, None, "NOP", 1, NONE, 4)
    case 0x1 => Descriptor(None, None, Some(RegisterPair(B_PAIR)), "LXI B, D16", 3, NONE, 10)
    case 0x2 => Descriptor(None, None, Some(RegisterPair(B_PAIR)), "STAX B", 1, NONE, 7)
    case 0x3 => Descriptor(None, None, Some(RegisterPair(B_PAIR)), "INX B", 1, NONE, 5)
    case 0x4 => Descriptor(Some(B), None, None, "INR B", 1, ALL_EXCEPT_CARRY, 5)
    case 0x5 => Descriptor(Some(B), None, None, "DCR B", 1, ALL_EXCEPT_CARRY, 5)
    case 0x6 => Descriptor(None, Some(B), None, "MVI B, D8", 2, NONE, 7)
    case 0x7 => Descriptor(None, None, None, "RLC", 1, CARRY, 4)
    case 0x8 => Descriptor(None, None, None, "NOP", 1, NONE, 4)
    case 0x9 => Descriptor(None, None, Some(RegisterPair(B_PAIR)), "DAD B", 1, CARRY, 10)
    case 0xA => Descriptor(None, None, Some(RegisterPair(B_PAIR)), "LDAX B", 1, NONE, 7)
    case 0xB => Descriptor(None, None, Some(RegisterPair(B_PAIR)), "DCX B", 1, NONE, 5)
    case 0xC => Descriptor(Some(C), None, None, "INR C", 1, ALL_EXCEPT_CARRY, 5)
    case 0xD => Descriptor(Some(C), None, None, "DCR C", 1, ALL_EXCEPT_CARRY, 5)
    case 0xE => Descriptor(None, Some(C), None, "MVI C, D8", 2, NONE, 7)
    case _   => Descriptor(None, None, None, "RRC", 1, CARRY, 4)
  }

  /** Entries 0x10 to 0x1F, by low nibble. */
  function DescriptorRow1(low: bv8): Descriptor {
    match low
    case 0x0 => Descriptor(None, None, None, "NOP", 1, NONE, 4)
    case 0x1 => Descriptor(None, None, Some(RegisterPair(D_PAIR)), "LXI D, D16", 3, NONE, 10)
    case 0x2 => Descriptor(None, None, Some(RegisterPair(D_PAIR)), "STAX D", 1, NONE, 7)
    case 0x3 => Descriptor(None, None, Some(RegisterPair(D_PAIR)), "INX D", 1, NONE, 5)
    case 0x4 => Descriptor(Some(D), None, None, "INR D", 1, ALL_EXCEPT_CARRY, 5)
    case 0x5 => Descriptor(Some(D), None, None, "DCR D", 1, ALL_EXCEPT_CARRY, 5)
    case 0x6 => Descriptor(None, Some(D), None, "MVI D, D8", 2, NONE, 7)
    case 0x7 => Descriptor(None, None, None, "RAL", 1, CARRY, 4)
    case 0x8 => Descriptor(None, None, None, "NOP", 1, NONE, 4)
    case 0x9 => Descriptor(None, None, Some(RegisterPair(D_PAIR)), "DAD D", 1, CARRY, 10)
    case 0xA => Descriptor(None, None, Some(RegisterPair(D_PAIR)), "LDAX D", 1, NONE, 7)
    case 0xB => Descriptor(None, None, Some(RegisterPair(D_PAIR)), "DCX D", 1, NONE, 5)
    case 0xC => Descriptor(Some(E), None, None, "INR E", 1, ALL_EXCEPT_CARRY, 5)
    case 0xD => Descriptor(Some(E), None, None, "DCR E", 1, ALL_EXCEPT_CARRY, 5)
    case 0xE => Descriptor(None, Some(E), None, "MVI E, D8", 2, NONE, 7)
    case _   => Descriptor(None, None, None, "RAR", 1, CARRY, 4)
  }

  /** Entries 0x20 to 0x2F, by low nibble. */
  function DescriptorRow2(low: bv8): Descriptor {
    match low
    case 0x0 => Descriptor(None, None, None, "NOP", 1, NONE, 4)
    case 0x1 => Descriptor(None, None, Some(RegisterPair(H_PAIR)), "LXI H, D16", 3, NONE, 10)
    case 0x2 => Descriptor(None, None, None, "SHLD ADR", 3, NONE, 16)
    case 0x3 => Descriptor(None, None, Some(RegisterPair(H_PAIR)), "INX H", 1, NONE, 5)
    case 0x4 => Descriptor(Some(H), None, None, "INR H", 1, ALL_EXCEPT_CARRY, 5)
    case 0x5 => Descriptor(Some(H), None, None, "DCR H", 1, ALL_EXCEPT_CARRY, 5)
    case 0x6 => Descriptor(None, Some(H), None, "MVI H, D8", 2, NONE, 7)
    case 0x7 => Descriptor(None, None, None, "DAA", 1, NONE, 4)
    case 0x8 => Descriptor(None, None, None, "NOP", 1, NONE, 4)
    case 0x9 => Descriptor(None, None, Some(RegisterPair(H_PAIR)), "DAD H", 1, CARRY, 10)
    case 0xA => Descriptor(None, None, Some(RegisterPair(H_PAIR)), "LHLD ADR", 3, NONE, 16)
    case 0xB => Descriptor(None, None, Some(RegisterPair(H_PAIR)), "DCX H", 1, NONE, 5)
    case 0xC => Descriptor(Some(L), None, None, "INR L", 1, ALL_EXCEPT_CARRY, 5)
    case 0xD => Descriptor(Some(L), None, None, "DCR L", 1, ALL_EXCEPT_CARRY, 5)
    case 0xE => Descriptor(None, Some(L), None, "MVI L, D8", 2, NONE, 7)
    case _   => Descriptor(None, None, None, "CMA", 1, NONE, 4)
  }

  /** Entries 0x30 to 0x3F, by low nibble. */
  function DescriptorRow3(low: bv8): Descriptor {
    match low
    case 0x0 => Descriptor(None, None, None, "NOP", 1, NONE, 4)
    case 0x1 => Descriptor(None, None, Some(StackPointer), "LXI SP, D16", 3, NONE, 10)
    case 0x2 => Descriptor(None, None, None, "STA ADR", 3, NONE, 13)
    case 0x3 => Descriptor(None, None, Some(StackPointer), "INX SP", 1, NONE, 5)
    case 0x4 => Descriptor(None, None, None, "INR M", 1, ALL_EXCEPT_CARRY, 10)
    case 0x5 => Descriptor(None, None, None, "DCR M", 1, ALL_EXCEPT_CARRY, 10)
    case 0x6 => Descriptor(None, None, None, "MVI M, D8", 2, NONE, 10)
    case 0x7 => Descriptor(None, None, None, "STC", 1, CARRY, 4)
    case 0x8 => Descriptor(None, None, None, "NOP", 1, NONE, 4)
    case 0x9 => Descriptor(None, None, Some(StackPointer), "DAD SP", 1, CARRY, 10)
    case 0xA => Descriptor(None, None, None, "LDA ADR", 3, NONE, 13)
    case 0xB => Descriptor(None, None, Some(StackPointer), "DCX SP", 1, NONE, 5)
    case 0xC => Descriptor(Some(A), None, None, "INR A", 1, ALL_EXCEPT_CARRY, 5)
    case 0xD => Descriptor(Some(A), None, None, "DCR A", 1, ALL_EXCEPT_CARRY, 5)
    case 0xE => Descriptor(None, Some(A), None, "MVI A, D8", 2, NONE, 7)
    case _   => Descriptor(None, None, None, "CMC", 1, CARRY, 4)
  }

  /** Entries 0x40 to 0x4F, by low nibble. */
  function DescriptorRow4(low: bv8): Descriptor {
    match low
    case 0x0 => Descriptor(Some(B), Some(B), None, "MOV B, B", 1, NONE, 5)
    case 0x1 => Descriptor(Some(C), Some(B), None, "MOV B, C", 1, NONE, 5)
    case 0x2 => Descriptor(Some(D), Some(B), None, "MOV B, D", 1, NONE, 5)
    case 0x3 => Descriptor(Some(E), Some(B), None, "MOV B, E", 1, NONE, 5)
    case 0x4 => Descriptor(Some(H), Some(B), None, "MOV B, H", 1, NONE, 5)
    case 0x5 => Descriptor(Some(L), Some(B), None, "MOV B, L", 1, NONE, 5)
    case 0x6 => Descriptor(None, Some(B), None, "MOV B, M", 1, NONE, 7)
    case 0x7 => Descriptor(Some(A), Some(B), None, "MOV B, A", 1, NONE, 5)
    case 0x8 => Descriptor(Some(B), Some(C), None, "MOV C, B", 1, NONE, 5)
    case 0x9 => Descriptor(Some(C), Some(C), None, "MOV C, C", 1, NONE, 5)
    case 0xA => Descriptor(Some(D), Some(C), None, "MOV C, D", 1, NONE, 5)
    case 0xB => Descriptor(Some(E), Some(C), None, "MOV C, E", 1, NONE, 5)
    case 0xC => Descriptor(Some(H), Some(C), None, "MOV C, H", 1, NONE, 5)
    case 0xD => Descriptor(Some(L), Some(C), None, "MOV C, L", 1, NONE, 5)
    case 0xE => Descriptor(None, Some(C), None, "MOV C, M", 1, NONE, 7)
    case _   => Descriptor(Some(A), Some(C), None, "MOV C, A", 1, NONE, 5)
  }

  /** Entries 0x50 to 0x5F, by low nibble. */
  function DescriptorRow5(low: bv8): Descriptor {
    match low
    case 0x0 => Descriptor(Some(B), Some(D), None, "MOV D, B", 1, NONE, 5)
    case 0x1 => Descriptor(Some(C), Some(D), None, "MOV D, C", 1, NONE, 5)
    case 0x2 => Descriptor(Some(D), Some(D), None, "MOV D, D", 1, NONE, 5)
    case 0x3 => Descriptor(Some(E), Some(D), None, "MOV D, E", 1, NONE, 5)
    case 0x4 => Descriptor(Some(H), Some(D), None, "MOV D, H", 1, NONE, 5)
    case 0x5 => Descriptor(Some(L), Some(D), None, "MOV D, L", 1, NONE, 5)
    case 0x6 => Descriptor(None, Some(D), None, "MOV D, M", 1, NONE, 7)
    case 0x7 => Descriptor(Some(A), Some(D), None, "MOV D, A", 1, NONE, 5)
    case 0x8 => Descriptor(Some(B), Some(E), None, "MOV E, B", 1, NONE, 5)
    case 0x9 => Descriptor(Some(C), Some(E), None, "MOV E, C", 1, NONE, 5)
    case 0xA => Descriptor(Some(D), Some(E), None, "MOV E, D", 1, NONE, 5)
    case 0xB => Descriptor(Some(E), Some(E), None, "MOV E, E", 1, NONE, 5)
    case 0xC => Descriptor(Some(H), Some(E), None, "MOV E, H", 1, NONE, 5)
    case 0xD => Descriptor(Some(L), Some(E), None, "MOV E, L", 1, NONE, 5)
    case 0xE => Descriptor(None, Some(E), None, "MOV E, M", 1, NONE, 7)
    case _   => Descriptor(Some(A), Some(E), None, "MOV E, A", 1, NONE, 5)
  }

  /** Entries 0x60 to 0x6F, by low nibble. */
  function DescriptorRow6(low: bv8): Descriptor {
    match low
    case 0x0 => Descriptor(Some(B), Some(H), None, "MOV H, B", 1, NONE, 5)
    case 0x1 => Descriptor(Some(C), Some(H), None, "MOV H, C", 1, NONE, 5)
    case 0x2 => Descriptor(Some(D), Some(H), None, "MOV H, D", 1, NONE, 5)
    case 0x3 => Descriptor(Some(E), Some(H), None, "MOV H, E", 1, NONE, 5)
    case 0x4 => Descriptor(Some(H), Some(H), None, "MOV H, H", 1, NONE, 5)
    case 0x5 => Descriptor(Some(L), Some(H), None, "MOV H, L", 1, NONE, 5)
    case 0x6 => Descriptor(None, Some(H), None, "MOV H, M", 1, NONE, 7)
    case 0x7 => Descriptor(Some(A), Some(H), None, "MOV H, A", 1, NONE, 5)
    case 0x8 => Descriptor(Some(B), Some(L), None, "MOV L, B", 1, NONE, 5)
    case 0x9 => Descriptor(Some(C), Some(L), None, "MOV L, C", 1, NONE, 5)
    case 0xA => Descriptor(Some(D), Some(L), None, "MOV L, D", 1, NONE, 5)
    case 0xB => Descriptor(Some(E), Some(L), None, "MOV L, E", 1, NONE, 5)
    case 0xC => Descriptor(Some(H), Some(L), None, "MOV L, H", 1, NONE, 5)
    case 0xD => Descriptor(Some(L), Some(L), None, "MOV L, L", 1, NONE, 5)
    case 0xE => Descriptor(None, Some(L), None, "MOV L, M", 1, NONE, 7)
    case _   => Descriptor(Some(A), Some(L), None, "MOV L, A", 1, NONE, 5)
  }

  /** Entries 0x70 to 0x7F, by low nibble. */
  function DescriptorRow7(low: bv8): Descriptor {
    match low
    case 0x0 => Descriptor(Some(B), None, None, "MOV M, B", 1, NONE, 7)
    case 0x1 => Descriptor(Some(C), None, None, "MOV M, C", 1, NONE, 7)
    case 0x2 => Descriptor(Some(D), None, None, "MOV M, D", 1, NONE, 7)
    case 0x3 => Descriptor(Some(E), None, None, "MOV M, E", 1, NONE, 7)
    case 0x4 => Descriptor(Some(H), None, None, "MOV M, H", 1, NONE, 7)
    case 0x5 => Descriptor(Some(L), None, None, "MOV M, L", 1, NONE, 7)
    case 0x6 => Descriptor(None, None, None, "HLT", 1, NONE, 7)
    case 0x7 => Descriptor(Some(A), None, None, "MOV M, A", 1, NONE, 7)
    case 0x8 => Descriptor(Some(B), Some(A), None, "MOV A, B", 1, NONE, 5)
    case 0x9 => Descriptor(Some(C), Some(A), None, "MOV A, C", 1, NONE, 5)
    case 0xA => Descriptor(Some(D), Some(A), None, "MOV A, D", 1, NONE, 5)
    case 0xB => Descriptor(Some(E), Some(A), None, "MOV A, E", 1, NONE, 5)
    case 0xC => Descriptor(Some(H), Some(A), None, "MOV A, H", 1, NONE, 5)
    case 0xD => Descriptor(Some(L), Some(A), None, "MOV A, L", 1, NONE, 5)
    case 0xE => Descriptor(None, Some(A), None, "MOV A, M", 1, NONE, 7)
    case _   => Descriptor(Some(A), Some(A), None, "MOV A, A", 1, NONE, 5)
  }

  /** Entries 0x80 to 0x8F, by low nibble. */
  function DescriptorRow8(low: bv8): Descriptor {
    match low
    case 0x0 => Descriptor(Some(B), None, None, "ADD B", 1, ALL, 4)
    case 0x1 => Descriptor(Some(C), None, None, "ADD C", 1, ALL, 4)
    case 0x2 => Descriptor(Some(D), None, None, "ADD D", 1, ALL, 4)
    case 0x3 => Descriptor(Some(E), None, None, "ADD E", 1, ALL, 4)
    case 0x4 => Descriptor(Some(H), None, None, "ADD H", 1, ALL, 4)
    case 0x5 => Descriptor(Some(L), None, None, "ADD L", 1, ALL, 4)
    case 0x6 => Descriptor(None, None, None, "ADD M", 1, ALL, 7)
    case 0x7 => Descriptor(Some(A), None, None, "ADD A", 1, ALL, 4)
    case 0x8 => Descriptor(Some(B), None, None, "ADC B", 1, ALL, 4)
    case 0x9 => Descriptor(Some(C), None, None, "ADC C", 1, ALL, 4)
    case 0xA => Descriptor(Some(D), None, None, "ADC D", 1, ALL, 4)
    case 0xB => Descriptor(Some(E), None, None, "ADC E", 1, ALL, 4)
    case 0xC => Descriptor(Some(H), None, None, "ADC H", 1, ALL, 4)
    case 0xD => Descriptor(Some(L), None, None, "ADC L", 1, ALL, 4)
    case 0xE => Descriptor(None, None, None, "ADC M", 1, ALL, 7)
    case _   => Descriptor(Some(A), None, None, "ADC A", 1, ALL, 4)
  }

  /** Entries 0x90 to 0x9F, by low nibble. */
  function DescriptorRow9(low: bv8): Descriptor {
    match low
    case 0x0 => Descriptor(Some(B), None, None, "SUB B", 1, ALL, 4)
    case 0x1 => Descriptor(Some(C), None, None, "SUB C", 1, ALL, 4)
    case 0x2 => Descriptor(Some(D), None, None, "SUB D", 1, ALL, 4)
    case 0x3 => Descriptor(Some(E), None, None, "SUB E", 1, ALL, 4)
    case 0x4 => Descriptor(Some(H), None, None, "SUB H", 1, ALL, 4)
    case 0x5 => Descriptor(Some(L), None, None, "SUB L", 1, ALL, 4)
    case 0x6 => Descriptor(None, None, None, "SUB M", 1, ALL, 7)
    case 0x7 => Descriptor(Some(A), None, None, "SUB A", 1, ALL, 4)
    case 0x8 => Descriptor(Some(B), None, None, "SBB B", 1, ALL, 4)
    case 0x9 => Descriptor(Some(C), None, None, "SBB C", 1, ALL, 4)
    case 0xA => Descriptor(Some(D), None, None, "SBB D", 1, ALL, 4)
    case 0xB => Descriptor(Some(E), None, None, "SBB E", 1, ALL, 4)
    case 0xC => Descriptor(Some(H), None, None, "SBB H", 1, ALL, 4)
    case 0xD => Descriptor(Some(L), None, None, "SBB L", 1, ALL, 4)
    case 0xE => Descriptor(None, None, None, "SBB M", 1, ALL, 7)
    case _   => Descriptor(Some(A), None, None, "SBB A", 1, ALL, 4)
  }

  /** Entries 0xA0 to 0xAF, by low nibble. */
  function DescriptorRowA(low: bv8): Descriptor {
    match low
    case 0x0 => Descriptor(Some(B), None, None, "ANA B", 1, ALL, 4)
    case 0x1 => Descriptor(Some(C), None, None, "ANA C", 1, ALL, 4)
    case 0x2 => Descriptor(Some(D), None, None, "ANA D", 1, ALL, 4)
    case 0x3 => Descriptor(Some(E), None, None, "ANA E", 1, ALL, 4)
    case 0x4 => Descriptor(Some(H), None, None, "ANA H", 1, ALL, 4)
    case 0x5 => Descriptor(Some(L), None, None, "ANA L", 1, ALL, 4)
    case 0x6 => Descriptor(None, None, None, "ANA M", 1, ALL, 7)
    case 0x7 => Descriptor(Some(A), None, None, "ANA A", 1, ALL, 4)
    case 0x8 => Descriptor(Some(B), None, None, "XRA B", 1, ALL, 4)
    case 0x9 => Descriptor(Some(C), None, None, "XRA C", 1, ALL, 4)
    case 0xA => Descriptor(Some(D), None, None, "XRA D", 1, ALL, 4)
    case 0xB => Descriptor(Some(E), None, None, "XRA E", 1, ALL, 4)
    case 0xC => Descriptor(Some(H), None, None, "XRA H", 1, ALL, 4)
    case 0xD => Descriptor(Some(L), None, None, "XRA L", 1, ALL, 4)
    case 0xE => Descriptor(None, None, None, "XRA M", 1, ALL, 7)
    case _   => Descriptor(Some(A), None, None, "XRA A", 1, ALL, 4)
  }

  /** Entries 0xB0 to 0xBF, by low nibble. */
  function DescriptorRowB(low: bv8): Descriptor {
    match low
    case 0x0 => Descriptor(Some(B), None, None, "ORA B", 1, ALL, 4)
    case 0x1 => Descriptor(Some(C), None, None, "ORA C", 1, ALL, 4)
    case 0x2 => Descriptor(Some(D), None, None, "ORA D", 1, ALL, 4)
    case 0x3 => Descriptor(Some(E), None, None, "ORA E", 1, ALL, 4)
    case 0x4 => Descriptor(Some(H), None, None, "ORA H", 1, ALL, 4)
    case 0x5 => Descriptor(Some(L), None, None, "ORA L", 1, ALL, 4)
    case 0x6 => Descriptor(None, None, None, "ORA M", 1, ALL, 7)
    case 0x7 => Descriptor(Some(A), None, None, "ORA A", 1, ALL, 4)
    case 0x8 => Descriptor(Some(B), None, None, "CMP B", 1, ALL, 4)
    case 0x9 => Descriptor(Some(C), None, None, "CMP C", 1, ALL, 4)
    case 0xA => Descriptor(Some(D), None, None, "CMP D", 1, ALL, 4)
    case 0xB => Descriptor(Some(E), None, None, "CMP E", 1, ALL, 4)
    case 0xC => Descriptor(Some(H), None, None, "CMP H", 1, ALL, 4)
    case 0xD => Descriptor(Some(L), None, None, "CMP L", 1, ALL, 4)
    case 0xE => Descriptor(None, None, None, "CMP M", 1, ALL, 7)
    case _   => Descriptor(Some(A), None, None, "CMP A", 1, ALL, 4)
  }

  /** Entries 0xC0 to 0xCF, by low nibble. */
  function DescriptorRowC(low: bv8): Descriptor {
    match low
    case 0x0 => Descriptor(None, None, None, "RNZ", 1, NONE, 0xFF)
    case 0x1 => Descriptor(None, None, Some(RegisterPair(B_PAIR)), "POP B", 1, NONE, 10)
    case 0x2 => Descriptor(None, None, None, "JNZ ADR", 3, NONE, 10)
    case 0x3 => Descriptor(None, None, None, "JMP ADR", 3, NONE, 10)
    case 0x4 => Descriptor(None, None, None, "CNZ ADR", 3, NONE, 0xFF)
    case 0x5 => Descriptor(None, None, Some(RegisterPair(B_PAIR)), "PUSH B", 1, NONE, 11)
    case 0x6 => Descriptor(None, None, None, "ADI D8", 2, ALL, 7)
    case 0x7 => Descriptor(None, None, None, "RST 0", 1, NONE, 11)
    case 0x8 => Descriptor(None, None, None, "RZ", 1, NONE, 0xFF)
    case 0x9 => Descriptor(None, None, None, "RET", 1, NONE, 10)
    case 0xA => Descriptor(None, None, None, "JZ ADR", 3, NONE, 10)
    case 0xB => Descriptor(None, None, None, "NOP", 1, NONE, 4)
    case 0xC => Descriptor(None, None, None, "CZ ADR", 3, NONE, 0xFF)
    case 0xD => Descriptor(None, None, None, "CALL ADR", 3, NONE, 17)
    case 0xE => Descriptor(None, None, None, "ACI D8", 2, ALL, 7)
    case _   => Descriptor(None, None, None, "RST 1", 1, NONE, 11)
  }

  /** Entries 0xD0 to 0xDF, by low nibble. */
  function DescriptorRowD(low: bv8): Descriptor {
    match low
    case 0x0 => Descriptor(None, None, None, "RNC", 1, NONE, 0xFF)
    case 0x1 => Descriptor(None, None, Some(RegisterPair(D_PAIR)), "POP D", 1, NONE, 10)
    case 0x2 => Descriptor(None, None, None, "JNC ADR", 3, NONE, 10)
    case 0x3 => Descriptor(None, None, None, "OUT D8", 2, NONE, 10)
    case 0x4 => Descriptor(None, None, None, "CNC ADR", 3, NONE, 0xFF)
    case 0x5 => Descriptor(None, None, Some(RegisterPair(D_PAIR)), "PUSH D", 1, NONE, 11)
    case 0x6 => Descriptor(None, None, None, "SUI D8", 2, ALL, 7)
    case 0x7 => Descriptor(None, None, None, "RST 2", 1, NONE, 11)
    case 0x8 => Descriptor(None, None, None, "RC", 1, NONE, 0xFF)
    case 0x9 => Descriptor(None, None, None, "NOP", 1, NONE, 4)
    case 0xA => Descriptor(None, None, None, "JC ADR", 3, NONE, 10)
    case 0xB => Descriptor(None, None, None, "IN D8", 2, NONE, 10)
    case 0xC => Descriptor(None, None, None, "CC ADR", 3, NONE, 0xFF)
    case 0xD => Descriptor(None, None, None, "NOP", 1, NONE, 4)
    case 0xE => Descriptor(None, None, None, "SBI D8", 2, ALL, 7)
    case _   => Descriptor(None, None, None, "RST 3", 1, NONE, 11)
  }

  /** Entries 0xE0 to 0xEF, by low nibble. */
  function DescriptorRowE(low: bv8): Descriptor {
    match low
    case 0x0 => Descriptor(None, None, None, "RPO", 1, NONE, 0xFF)
    case 0x1 => Descriptor(None, None, Some(RegisterPair(H_PAIR)), "POP H", 1, NONE, 10)
    case 0x2 => Descriptor(None, None, None, "JPO ADR", 3, NONE, 10)
    case 0x3 => Descriptor(None, None, None, "XTHL", 1, NONE, 18)
    case 0x4 => Descriptor(None, None, None, "CPO ADR", 3, NONE, 0xFF)
    case 0x5 => Descriptor(None, None, Some(RegisterPair(H_PAIR)), "PUSH H", 1, NONE, 11)
    case 0x6 => Descriptor(None, None, None, "ANI D8", 2, ALL, 7)
    case 0x7 => Descriptor(None, None, None, "RST 4", 1, NONE, 11)
    case 0x8 => Descriptor(None, None, None, "RPE", 1, NONE, 0xFF)
    case 0x9 => Descriptor(None, None, None, "PCHL", 1, NONE, 5)
    case 0xA => Descriptor(None, None, None, "JPE ADR", 3, NONE, 10)
    case 0xB => Descriptor(None, None, None, "XCHG", 1, NONE, 4)
    case 0xC => Descriptor(None, None, None, "CPE ADR", 3, NONE, 0xFF)
    case 0xD => Descriptor(None, None, None, "NOP", 1, NONE, 4)
    case 0xE => Descriptor(None, None, None, "XRI D8", 2, ALL, 7)
    case _   => Descriptor(None, None, None, "RST 5", 1, NONE, 11)
  }

  /** Entries 0xF0 to 0xFF, by low nibble. */
  function DescriptorRowF(low: bv8): Descriptor {
    match low
    case 0x0 => Descriptor(None, None, None, "RP", 1, NONE, 0xFF)
    case 0x1 => Descriptor(None, None, Some(RegisterPair(PSW)), "POP PSW", 1, NONE, 10)
    case 0x2 => Descriptor(None, None, None, "JP ADR", 3, NONE, 10)
    case 0x3 => Descriptor(None, None, None, "DI", 1, NONE, 4)
    case 0x4 => Descriptor(None, None, None, "CP ADR", 3, NONE, 0xFF)
    case 0x5 => Descriptor(None, None, Some(RegisterPair(PSW)), "PUSH PSW", 1, NONE, 11)
    case 0x6 => Descriptor(None, None, None, "ORI D8", 2, ALL, 7)
    case 0x7 => Descriptor(None, None, None, "RST 6", 1, NONE, 11)
    case 0x8 => Descriptor(None, None, None, "RM", 1, NONE, 0xFF)
    case 0x9 => Descriptor(None, None, None, "SPHL", 1, NONE, 5)
    case 0xA => Descriptor(None, None, None, "JM ADR", 3, NONE, 10)
    case 0xB => Descriptor(None, None, None, "EI", 1, NONE, 4)
    case 0xC => Descriptor(None, None, None, "CM ADR", 3, NONE, 0xFF)
    case 0xD => Descriptor(None, None, None, "NOP", 1, NONE, 4)
    case 0xE => Descriptor(None, None, None, "CPI D8", 2, ALL, 7)
    case _   => Descriptor(None, None, None, "RST 7", 1, NONE, 11)
  }

  /** `instruction_set[op]`, looked up by high nibble and then low nibble. */
  function HandlerOf(op: bv8): Handler {
    var low := op & 0x0F;
    match op >> 4
    case 0x0 => HandlerRow0(low)
    case 0x1 => HandlerRow1(low)
    case 0x2 => HandlerRow2(low)
    case 0x3 => HandlerRow3(low)
    case 0x4 => HandlerRow4(low)
    case 0x5 => HandlerRow5(low)
    case 0x6 => HandlerRow6(low)
    case 0x7 => HandlerRow7(low)
    case 0x8 => HandlerRow8(low)
    case 0x9 => HandlerRow9(low)
    case 0xA => HandlerRowA(low)
    case 0xB => HandlerRowB(low)
    case 0xC => HandlerRowC(low)
    case 0xD => HandlerRowD(low)
    case 0xE => HandlerRowE(low)
    case _   => HandlerRowF(low)
  }

  /** Entries 0x00 to 0x0F, by low nibble. */
  function HandlerRow0(low: bv8): Handler {
    match low
    case 0x0 => Control(Nop)
    case 0x1 => Transfer(Lxi)
    case 0x2 => Transfer(Stax)
    case 0x3 => IncDec(Inx)
    case 0x4 => IncDec(InrRegister)
    case 0x5 => IncDec(DcrRegister)
    case 0x6 => Transfer(Mvi)
    case 0x7 => CompareRotate(Rlc)
    case 0x8 => Control(Nop)
    case 0x9 => IncDec(Dad)
    case 0xA => Transfer(Ldax)
    case 0xB => IncDec(Dcx)
    case 0xC => IncDec(InrRegister)
    case 0xD => IncDec(DcrRegister)
    case 0xE => Transfer(Mvi)
    case _   => CompareRotate(Rrc)
  }

  /** Entries 0x10 to 0x1F, by low nibble. */
  function HandlerRow1(low: bv8): Handler {
    match low
    case 0x0 => Control(Nop)
    case 0x1 => Transfer(Lxi)
    case 0x2 => Transfer(Stax)
    case 0x3 => IncDec(Inx)
    case 0x4 => IncDec(InrRegister)
    case 0x5 => IncDec(DcrRegister)
    case 0x6 => Transfer(Mvi)
    case 0x7 => CompareRotate(Ral)
    case 0x8 => Control(Nop)
    case 0x9 => IncDec(Dad)
    case 0xA => Transfer(Ldax)
    case 0xB => IncDec(Dcx)
    case 0xC => IncDec(InrRegister)
    case 0xD => IncDec(DcrRegister)
    case 0xE => Transfer(Mvi)
    case _   => CompareRotate(Rar)
  }

  /** Entries 0x20 to 0x2F, by low nibble. */
  function HandlerRow2(low: bv8): Handler {
    match low
    case 0x0 => Control(Nop)
    case 0x1 => Transfer(Lxi)
    case 0x2 => Transfer(Shld)
    case 0x3 => IncDec(Inx)
    case 0x4 => IncDec(InrRegister)
    case 0x5 => IncDec(DcrRegister)
    case 0x6 => Transfer(Mvi)
    case 0x7 => IncDec(Daa)
    case 0x8 => Control(Nop)
    case 0x9 => IncDec(Dad)
    case 0xA => Transfer(Lhld)
    case 0xB => IncDec(Dcx)
    case 0xC => IncDec(InrRegister)
    case 0xD => IncDec(DcrRegister)
    case 0xE => Transfer(Mvi)
    case _   => CompareRotate(Cma)
  }

  /** Entries 0x30 to 0x3F, by low nibble. */
  function HandlerRow3(low: bv8): Handler {
    match low
    case 0x0 => Control(Nop)
    case 0x1 => Transfer(Lxi)
    case 0x2 => Transfer(Sta)
    case 0x3 => IncDec(Inx)
    case 0x4 => IncDec(InrMemory)
    case 0x5 => IncDec(DcrMemory)
    case 0x6 => Transfer(Mvi)
    case 0x7 => CompareRotate(Stc)
    case 0x8 => Control(Nop)
    case 0x9 => IncDec(Dad)
    case 0xA => Transfer(Lda)
    case 0xB => IncDec(Dcx)
    case 0xC => IncDec(InrRegister)
    case 0xD => IncDec(DcrRegister)
    case 0xE => Transfer(Mvi)
    case _   => CompareRotate(Cmc)
  }

  /** Entries 0x40 to 0x4F, by low nibble. */
  function HandlerRow4(low: bv8): Handler {
    match low
    case 0x0 => Transfer(MovRegister)
    case 0x1 => Transfer(MovRegister)
    case 0x2 => Transfer(MovRegister)
    case 0x3 => Transfer(MovRegister)
    case 0x4 => Transfer(MovRegister)
    case 0x5 => Transfer(MovRegister)
    case 0x6 => Transfer(MovFromMemory)
    case 0x7 => Transfer(MovRegister)
    case 0x8 => Transfer(MovRegister)
    case 0x9 => Transfer(MovRegister)
    case 0xA => Transfer(MovRegister)
    case 0xB => Transfer(MovRegister)
    case 0xC => Transfer(MovRegister)
    case 0xD => Transfer(MovRegister)
    case 0xE => Transfer(MovFromMemory)
    case _   => Transfer(MovRegister)
  }

  /** Entries 0x50 to 0x5F, by low nibble. */
  function HandlerRow5(low: bv8): Handler {
    match low
    case 0x0 => Transfer(MovRegister)
    case 0x1 => Transfer(MovRegister)
    case 0x2 => Transfer(MovRegister)
    case 0x3 => Transfer(MovRegister)
    case 0x4 => Transfer(MovRegister)
    case 0x5 => Transfer(MovRegister)
    case 0x6 => Transfer(MovFromMemory)
    case 0x7 => Transfer(MovRegister)
    case 0x8 => Transfer(MovRegister)
    case 0x9 => Transfer(MovRegister)
    case 0xA => Transfer(MovRegister)
    case 0xB => Transfer(MovRegister)
    case 0xC => Transfer(MovRegister)
    case 0xD => Transfer(MovRegister)
    case 0xE => Transfer(MovFromMemory)
    case _   => Transfer(MovRegister)
  }

  /** Entries 0x60 to 0x6F, by low nibble. */
  function HandlerRow6(low: bv8): Handler {
    match low
    case 0x0 => Transfer(MovRegister)
    case 0x1 => Transfer(MovRegister)
    case 0x2 => Transfer(MovRegister)
    case 0x3 => Transfer(MovRegister)
    case 0x4 => Transfer(MovRegister)
    case 0x5 => Transfer(MovRegister)
    case 0x6 => Transfer(MovFromMemory)
    case 0x7 => Transfer(MovRegister)
    case 0x8 => Transfer(MovRegister)
    case 0x9 => Transfer(MovRegister)
    case 0xA => Transfer(MovRegister)
    case 0xB => Transfer(MovRegister)
    case 0xC => Transfer(MovRegister)
    case 0xD => Transfer(MovRegister)
    case 0xE => Transfer(MovFromMemory)
    case _   => Transfer(MovRegister)
  }

  /** Entries 0x70 to 0x7F, by low nibble. */
  function HandlerRow7(low: bv8): Handler {
    match low
    case 0x0 => Transfer(MovToMemory)
    case 0x1 => Transfer(MovToMemory)
    case 0x2 => Transfer(MovToMemory)
    case 0x3 => Transfer(MovToMemory)
    case 0x4 => Transfer(MovToMemory)
    case 0x5 => Transfer(MovToMemory)
    case 0x6 => Control(Hlt)
    case 0x7 => Transfer(MovRegister)
    case 0x8 => Transfer(MovRegister)
    case 0x9 => Transfer(MovRegister)
    case 0xA => Transfer(MovRegister)
    case 0xB => Transfer(MovRegister)
    case 0xC => Transfer(MovRegister)
    case 0xD => Transfer(MovRegister)
    case 0xE => Transfer(MovFromMemory)
    case _   => Transfer(MovRegister)
  }

  /** Entries 0x80 to 0x8F, by low nibble. */
  function HandlerRow8(low: bv8): Handler {
    match low
    case 0x0 => AddSub(AddRegister)
    case 0x1 => AddSub(AddRegister)
    case 0x2 => AddSub(AddRegister)
    case 0x3 => AddSub(AddRegister)
    case 0x4 => AddSub(AddRegister)
    case 0x5 => AddSub(AddRegister)
    case 0x6 => AddSub(AddMemory)
    case 0x7 => AddSub(AddRegister)
    case 0x8 => AddSub(AdcRegister)
    case 0x9 => AddSub(AdcRegister)
    case 0xA => AddSub(AdcRegister)
    case 0xB => AddSub(AdcRegister)
    case 0xC => AddSub(AdcRegister)
    case 0xD => AddSub(AdcRegister)
    case 0xE => AddSub(AdcMemory)
    case _   => AddSub(AdcRegister)
  }

  /** Entries 0x90 to 0x9F, by low nibble. */
  function HandlerRow9(low: bv8): Handler {
    match low
    case 0x0 => AddSub(SubRegister)
    case 0x1 => AddSub(SubRegister)
    case 0x2 => AddSub(SubRegister)
    case 0x3 => AddSub(SubRegister)
    case 0x4 => AddSub(SubRegister)
    case 0x5 => AddSub(SubRegister)
    case 0x6 => AddSub(SubMemory)
    case 0x7 => AddSub(SubRegister)
    case 0x8 => AddSub(SbbRegister)
    case 0x9 => AddSub(SbbRegister)
    case 0xA => AddSub(SbbRegister)
    case 0xB => AddSub(SbbRegister)
    case 0xC => AddSub(SbbRegister)
    case 0xD => AddSub(SbbRegister)
    case 0xE => AddSub(SbbMemory)
    case _   => AddSub(SbbRegister)
  }

  /** Entries 0xA0 to 0xAF, by low nibble. */
  function HandlerRowA(low: bv8): Handler {
    match low
    case 0x0 => Logic(AnaRegister)
    case 0x1 => Logic(AnaRegister)
    case 0x2 => Logic(AnaRegister)
    case 0x3 => Logic(AnaRegister)
    case 0x4 => Logic(AnaRegister)
    case 0x5 => Logic(AnaRegister)
    case 0x6 => Logic(AnaMemory)
    case 0x7 => Logic(AnaRegister)
    case 0x8 => Logic(XraRegister)
    case 0x9 => Logic(XraRegister)
    case 0xA => Logic(XraRegister)
    case 0xB => Logic(XraRegister)
    case 0xC => Logic(XraRegister)
    case 0xD => Logic(XraRegister)
    case 0xE => Logic(XraMemory)
    case _   => Logic(XraRegister)
  }

  /** Entries 0xB0 to 0xBF, by low nibble. */
  function HandlerRowB(low: bv8): Handler {
    match low
    case 0x0 => Logic(OraRegister)
    case 0x1 => Logic(OraRegister)
    case 0x2 => Logic(OraRegister)
    case 0x3 => Logic(OraRegister)
    case 0x4 => Logic(OraRegister)
    case 0x5 => Logic(OraRegister)
    case 0x6 => Logic(OraMemory)
    case 0x7 => Logic(OraRegister)
    case 0x8 => CompareRotate(CmpRegister)
    case 0x9 => CompareRotate(CmpRegister)
    case 0xA => CompareRotate(CmpRegister)
    case 0xB => CompareRotate(CmpRegister)
    case 0xC => CompareRotate(CmpRegister)
    case 0xD => CompareRotate(CmpRegister)
    case 0xE => CompareRotate(CmpMemory)
    case _   => CompareRotate(CmpRegister)
  }

  /** Entries 0xC0 to 0xCF, by low nibble. */
  function HandlerRowC(low: bv8): Handler {
    match low
    case 0x0 => Return(Rnz)
    case 0x1 => Control(PopRp)
    case 0x2 => Jump(Jnz)
    case 0x3 => Jump(Jmp)
    case 0x4 => CallRestart(Cnz)
    case 0x5 => Control(PushRp)
    case 0x6 => AddSub(Adi)
    case 0x7 => CallRestart(Rst)
    case 0x8 => Return(Rz)
    case 0x9 => Return(Ret)
    case 0xA => Jump(Jz)
    case 0xB => Control(Nop)
    case 0xC => CallRestart(Cz)
    case 0xD => CallRestart(Call)
    case 0xE => AddSub(Aci)
    case _   => CallRestart(Rst)
  }

  /** Entries 0xD0 to 0xDF, by low nibble. */
  function HandlerRowD(low: bv8): Handler {
    match low
    case 0x0 => Return(Rnc)
    case 0x1 => Control(PopRp)
    case 0x2 => Jump(Jnc)
    case 0x3 => Control(Out)
    case 0x4 => CallRestart(Cnc)
    case 0x5 => Control(PushRp)
    case 0x6 => AddSub(Sui)
    case 0x7 => CallRestart(Rst)
    case 0x8 => Return(Rc)
    case 0x9 => Control(Nop)
    case 0xA => Jump(Jc)
    case 0xB => Control(In)
    case 0xC => CallRestart(Cc)
    case 0xD => Control(Nop)
    case 0xE => AddSub(Sbi)
    case _   => CallRestart(Rst)
  }

  /** Entries 0xE0 to 0xEF, by low nibble. */
  function HandlerRowE(low: bv8): Handler {
    match low
    case 0x0 => Return(Rpo)
    case 0x1 => Control(PopRp)
    case 0x2 => Jump(Jpo)
    case 0x3 => Control(Xthl)
    case 0x4 => CallRestart(Cpo)
    case 0x5 => Control(PushRp)
    case 0x6 => Logic(Ani)
    case 0x7 => CallRestart(Rst)
    case 0x8 => Return(Rpe)
    case 0x9 => Jump(Pchl)
    case 0xA => Jump(Jpe)
    case 0xB => Transfer(Xchg)
    case 0xC => CallRestart(Cpe)
    case 0xD => Control(Nop)
    case 0xE => Logic(Xri)
    case _   => CallRestart(Rst)
  }

  /** Entries 0xF0 to 0xFF, by low nibble. */
  function HandlerRowF(low: bv8): Handler {
    match low
    case 0x0 => Return(Rp)
    case 0x1 => Control(PopPsw)
    case 0x2 => Jump(Jp)
    case 0x3 => Control(Di)
    case 0x4 => CallRestart(Cp)
    case 0x5 => Control(PushPsw)
    case 0x6 => Logic(Ori)
    case 0x7 => CallRestart(Rst)
    case 0x8 => Return(Rm)
    case 0x9 => Control(Sphl)
    case 0xA => Jump(Jm)
    case 0xB => Control(Ei)
    case 0xC => CallRestart(Cm)
    case 0xD => Control(Nop)
    case 0xE => CompareRotate(Cpi)
    case _   => CallRestart(Rst)
  }
}
