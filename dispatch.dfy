/**
 * The dispatch of emu8080/instruction_set.h: `instruction_set[IR]` called
 * with `&instruction_set_data[IR]`.  A handler whose memory accesses would
 * leave the 0xffff-byte memory, or that would dereference a NULL register
 * field of its descriptor, is undefined behaviour in C and gives `Undefined`.
 */
module Dispatch {
  import opened Common
  import opened State
  import opened InstructionSet
  import M = Semantics

  /** The result of running one handler. */
  datatype Outcome = Next(cpu: Cpu) | Undefined

  /** `h(&d)` on state c. */
  function Execute(h: Handler, d: Descriptor, c: Cpu): Outcome
  {
    match h
    case Transfer(op) => ExecuteTransfer(op, d, c)
    case AddSub(op) => ExecuteAddSub(op, d, c)
    case IncDec(op) => ExecuteIncDec(op, d, c)
    case Logic(op) => ExecuteLogic(op, d, c)
    case CompareRotate(op) => ExecuteCompareRotate(op, d, c)
    case Jump(op) => ExecuteJump(op, d, c)
    case CallRestart(op) => ExecuteCallRestart(op, d, c)
    case Return(op) => ExecuteReturn(op, d, c)
    case Control(op) => ExecuteControl(op, d, c)
  }

  /** `Execute` for the data transfer. */
  function ExecuteTransfer(op: TransferHandler, d: Descriptor, c: Cpu): Outcome
  {
    var pc := c.pc;
    var hl := HL(c);
    match op
    case MovRegister =>
      if d.register1.Some? && d.register2.Some? then Next(c.(regs := M.MovRegister(c.regs, d.register1.value, d.register2.value))) else Undefined
    case MovToMemory =>
      if d.register1.Some? && InMemory(hl) then Next(M.MovToMemory(c, d.register1.value)) else Undefined
    case MovFromMemory =>
      if d.register2.Some? && InMemory(hl) then Next(M.MovFromMemory(c, d.register2.value)) else Undefined
    case Mvi =>
      if InMemory(pc) && (d.register2.None? ==> InMemory(hl)) then Next(M.Mvi(c, d.register2)) else Undefined
    case Lxi =>
      if d.registerPair.Some? && InMemory(pc + 1) then Next(M.Lxi(c, d.registerPair.value)) else Undefined
    case Lda =>
      if InMemory(pc + 1) && InMemory(Operand16(c)) then Next(M.Lda(c)) else Undefined
    case Sta =>
      if InMemory(pc + 1) && InMemory(Operand16(c)) then Next(M.Sta(c)) else Undefined
    case Lhld =>
      if InMemory(pc + 1) && InMemory(Operand16(c) + 1) then Next(M.Lhld(c)) else Undefined
    case Shld =>
      if InMemory(pc + 1) && InMemory(Operand16(c) + 1) then Next(M.Shld(c)) else Undefined
    case Ldax =>
      if d.registerPair.Some? && InMemory(ReadPair(c, d.registerPair.value)) then Next(M.Ldax(c, d.registerPair.value)) else Undefined
    case Stax =>
      if d.registerPair.Some? && InMemory(ReadPair(c, d.registerPair.value)) then Next(M.Stax(c, d.registerPair.value)) else Undefined
    case Xchg => Next(c.(regs := M.Xchg(c.regs)))
  }

  /** `Execute` for the add and subtract. */
  function ExecuteAddSub(op: AddSubHandler, d: Descriptor, c: Cpu): Outcome
  {
    var pc := c.pc;
    var hl := HL(c);
    match op
    case AddRegister => if d.register1.Some? then Next(c.(regs := M.AddValue(c.regs, c.regs[d.register1.value], d.flags))) else Undefined
    case AddMemory => if InMemory(hl) then Next(c.(regs := M.AddValue(c.regs, c.mem[hl], d.flags))) else Undefined
    case Adi => if InMemory(pc) then Next(c.(regs := M.AddValue(c.regs, M.Immediate(c), d.flags), pc := Wrap16(c.pc + 1))) else Undefined
    case SubRegister => if d.register1.Some? then Next(c.(regs := M.SubValue(c.regs, c.regs[d.register1.value], d.flags))) else Undefined
    case SubMemory => if InMemory(hl) then Next(c.(regs := M.SubValue(c.regs, c.mem[hl], d.flags))) else Undefined
    case Sui => if InMemory(pc) then Next(c.(regs := M.SubValue(c.regs, M.Immediate(c), d.flags), pc := Wrap16(c.pc + 1))) else Undefined
    case AdcRegister => if d.register1.Some? then Next(c.(regs := M.AdcValue(c.regs, c.regs[d.register1.value], d.flags))) else Undefined
    case AdcMemory => if InMemory(hl) then Next(c.(regs := M.AdcValue(c.regs, c.mem[hl], d.flags))) else Undefined
    case Aci => if InMemory(pc) then Next(c.(regs := M.AdcValue(c.regs, M.Immediate(c), d.flags), pc := Wrap16(c.pc + 1))) else Undefined
    case SbbRegister => if d.register1.Some? then Next(c.(regs := M.SbbValue(c.regs, c.regs[d.register1.value], d.flags))) else Undefined
    case SbbMemory => if InMemory(hl) then Next(c.(regs := M.SbbValue(c.regs, c.mem[hl], d.flags))) else Undefined
    case Sbi => if InMemory(pc) then Next(c.(regs := M.SbbValue(c.regs, M.Immediate(c), d.flags), pc := Wrap16(c.pc + 1))) else Undefined
  }

  /** `Execute` for the increment, decrement, DAD and DAA. */
  function ExecuteIncDec(op: IncDecHandler, d: Descriptor, c: Cpu): Outcome
  {
    var hl := HL(c);
    match op
    case InrRegister => if d.register1.Some? then Next(c.(regs := M.InrRegister(c.regs, d.register1.value, d.flags))) else Undefined
    case DcrRegister => if d.register1.Some? then Next(c.(regs := M.DcrRegister(c.regs, d.register1.value, d.flags))) else Undefined
    case InrMemory => if InMemory(hl) then Next(M.InrMemory(c, d.flags)) else Undefined
    case DcrMemory => if InMemory(hl) then Next(M.DcrMemory(c, d.flags)) else Undefined
    case Inx => if d.registerPair.Some? then Next(M.Inx(c, d.registerPair.value)) else Undefined
    case Dcx => if d.registerPair.Some? then Next(M.Dcx(c, d.registerPair.value)) else Undefined
    case Dad => if d.registerPair.Some? then Next(c.(regs := M.Dad(c.regs, ReadPair(c, d.registerPair.value), d.flags))) else Undefined
    case Daa => Next(c.(regs := M.Daa(c.regs, d.flags)))
  }

  /** `Execute` for the AND, XOR and OR: ANA clears CY only, the others CY and AC. */
  function ExecuteLogic(op: LogicHandler, d: Descriptor, c: Cpu): Outcome
  {
    var pc := c.pc;
    var hl := HL(c);
    match op
    case AnaRegister => if d.register1.Some? then Next(c.(regs := M.Logical(c.regs, M.And, c.regs[d.register1.value], d.flags, CY))) else Undefined
    case AnaMemory => if InMemory(hl) then Next(c.(regs := M.Logical(c.regs, M.And, c.mem[hl], d.flags, CY))) else Undefined
    case Ani => if InMemory(pc) then Next(c.(regs := M.Logical(c.regs, M.And, M.Immediate(c), d.flags, CY | AC), pc := Wrap16(c.pc + 1))) else Undefined
    case XraRegister => if d.register1.Some? then Next(c.(regs := M.Logical(c.regs, M.Xor, c.regs[d.register1.value], d.flags, CY | AC))) else Undefined
    case XraMemory => if InMemory(hl) then Next(c.(regs := M.Logical(c.regs, M.Xor, c.mem[hl], d.flags, CY | AC))) else Undefined
    case Xri => if InMemory(pc) then Next(c.(regs := M.Logical(c.regs, M.Xor, M.Immediate(c), d.flags, CY | AC), pc := Wrap16(c.pc + 1))) else Undefined
    case OraRegister => if d.register1.Some? then Next(c.(regs := M.Logical(c.regs, M.Or, c.regs[d.register1.value], d.flags, CY | AC))) else Undefined
    case OraMemory => if InMemory(hl) then Next(c.(regs := M.Logical(c.regs, M.Or, c.mem[hl], d.flags, CY | AC))) else Undefined
    case Ori => if InMemory(pc) then Next(c.(regs := M.Logical(c.regs, M.Or, M.Immediate(c), d.flags, CY | AC), pc := Wrap16(c.pc + 1))) else Undefined
  }

  /** `Execute` for the compare, rotate and carry. */
  function ExecuteCompareRotate(op: CompareRotateHandler, d: Descriptor, c: Cpu): Outcome
  {
    var pc := c.pc;
    var hl := HL(c);
    match op
    case CmpRegister => if d.register1.Some? then Next(c.(regs := M.Compare(c.regs, c.regs[d.register1.value], d.flags))) else Undefined
    case CmpMemory => if InMemory(hl) then Next(c.(regs := M.Compare(c.regs, c.mem[hl], d.flags))) else Undefined
    case Cpi => if InMemory(pc) then Next(c.(regs := M.Compare(c.regs, M.Immediate(c), d.flags), pc := Wrap16(c.pc + 1))) else Undefined
    case Rlc => Next(c.(regs := M.Rlc(c.regs)))
    case Rrc => Next(c.(regs := M.Rrc(c.regs)))
    case Ral => Next(c.(regs := M.Ral(c.regs)))
    case Rar => Next(c.(regs := M.Rar(c.regs)))
    case Cma => Next(c.(regs := M.Cma(c.regs)))
    case Cmc => Next(c.(regs := M.Cmc(c.regs)))
    case Stc => Next(c.(regs := M.Stc(c.regs)))
  }

  /** The condition tested by a conditional jump, call or return. */
  datatype Condition = NotZero | Zero | NoCarry | Carry | ParityOdd | ParityEven | Plus | Minus

  function Holds(cond: Condition, c: Cpu): bool
  {
    match cond
    case NotZero => !Flag(c, Z)
    case Zero => Flag(c, Z)
    case NoCarry => !Flag(c, CY)
    case Carry => Flag(c, CY)
    case ParityOdd => !Flag(c, EP)
    case ParityEven => Flag(c, EP)
    case Plus => !Flag(c, S)
    case Minus => Flag(c, S)
  }

  /** `Execute` for the jumps. */
  function ExecuteJump(op: JumpHandler, d: Descriptor, c: Cpu): Outcome
  {
    if op.Pchl? then Next(M.Pchl(c))
    else if !InMemory(c.pc + 1) then Undefined
    else
      match op
      case Jmp => Next(M.Jmp(c))
      case Jnz => Next(M.JumpIf(c, Holds(NotZero, c)))
      case Jz => Next(M.JumpIf(c, Holds(Zero, c)))
      case Jnc => Next(M.JumpIf(c, Holds(NoCarry, c)))
      case Jc => Next(M.JumpIf(c, Holds(Carry, c)))
      case Jpo => Next(M.JumpIf(c, Holds(ParityOdd, c)))
      case Jpe => Next(M.JumpIf(c, Holds(ParityEven, c)))
      case Jp => Next(M.JumpIf(c, Holds(Plus, c)))
      case Jm => Next(M.JumpIf(c, Holds(Minus, c)))
      case Pchl => Next(M.Pchl(c))
  }

  /** CALL or Ccc: defined when the operand is inside memory and, if taken, the push slot too. */
  function CallWhen(c: Cpu, taken: bool): Outcome
  {
    if InMemory(c.pc + 1) && (taken ==> InMemory(Wrap16(c.sp - 2))) then Next(M.CallIf(c, taken)) else Undefined
  }

  /** RST: defined when the push slot is inside memory or the restart is not taken. */
  function RestartWhen(c: Cpu): Outcome
  {
    if Flag(c, S) ==> InMemory(Wrap16(c.sp - 2)) then Next(M.Rst(c)) else Undefined
  }

  /** `Execute` for the calls and restarts. */
  function ExecuteCallRestart(op: CallHandler, d: Descriptor, c: Cpu): Outcome
  {
    match op
    case Call => CallWhen(c, true)
    case Cnz => CallWhen(c, Holds(NotZero, c))
    case Cz => CallWhen(c, Holds(Zero, c))
    case Cnc => CallWhen(c, Holds(NoCarry, c))
    case Cc => CallWhen(c, Holds(Carry, c))
    case Cpo => CallWhen(c, Holds(ParityOdd, c))
    case Cpe => CallWhen(c, Holds(ParityEven, c))
    case Cp => CallWhen(c, Holds(Plus, c))
    case Cm => CallWhen(c, Holds(Minus, c))
    case Rst => RestartWhen(c)
  }

  /** `Execute` for the returns. */
  function ExecuteReturn(op: ReturnHandler, d: Descriptor, c: Cpu): Outcome
  {
    if !InMemory(c.sp + 1) then Undefined
    else
      match op
      case Ret => Next(M.Ret(c))
      case Rnz => Next(M.ReturnIf(c, Holds(NotZero, c)))
      case Rz => Next(M.ReturnIf(c, Holds(Zero, c)))
      case Rnc => Next(M.ReturnIf(c, Holds(NoCarry, c)))
      case Rc => Next(M.ReturnIf(c, Holds(Carry, c)))
      case Rpo => Next(M.ReturnIf(c, Holds(ParityOdd, c)))
      case Rpe => Next(M.ReturnIf(c, Holds(ParityEven, c)))
      case Rp => Next(M.ReturnIf(c, Holds(Plus, c)))
      case Rm => Next(M.ReturnIf(c, Holds(Minus, c)))
  }

  /** `Execute` for the stack, I/O and machine control. */
  function ExecuteControl(op: ControlHandler, d: Descriptor, c: Cpu): Outcome
  {
    var pc := c.pc;
    var sp := c.sp;
    match op
    case PushRp => if d.registerPair.Some? && InMemory(Wrap16(c.sp - 2)) then Next(M.PushRp(c, d.registerPair.value)) else Undefined
    case PushPsw => if sp >= 2 then Next(M.PushPsw(c)) else Undefined
    case PopRp => if d.registerPair.Some? && InMemory(sp) then Next(M.PopRp(c, d.registerPair.value)) else Undefined
    case PopPsw => if InMemory(sp + 1) then Next(M.PopPsw(c)) else Undefined
    case Xthl => if InMemory(sp + 1) then Next(M.Xthl(c)) else Undefined
    case Sphl => Next(M.Sphl(c))
    case In => if InMemory(pc) then Next(M.In(c)) else Undefined
    case Out => if InMemory(pc) then Next(M.Out(c)) else Undefined
    case Ei => Next(M.Ei(c))
    case Di => Next(M.Di(c))
    case Hlt => Next(M.Hlt(c))
    case Nop => Next(c)
  }

  /** `instruction_set[IR](&instruction_set_data[IR])`. */
  function Step(c: Cpu): Outcome
  {
    Execute(HandlerOf(c.ir), DescriptorOf(c.ir), c)
  }
}
