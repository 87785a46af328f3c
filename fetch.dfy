/**
 * The fetch of emu8080/emulator.c (`InterruptCheckAndInstructionFetch`)
 * and the machine state `main` sets up before its loop, as functions on
 * the state value.  An accepted interrupt replaces the fetched opcode with
 * a fixed RST opcode and leaves pc alone; otherwise IR receives memory[pc]
 * and pc advances by one.
 */
module Fetch {
  import opened Common
  import opened State
  import opened InstructionSet
  import D = Dispatch
  import M = Semantics

  /** The RST opcode the fetch substitutes for an interrupt from device v; none for NO_INTERRUPT. */
  function VectorOpcode(v: InterruptDevice): Option<bv8>
  {
    match v
    case StorageRead => Some(0xd7)
    case StorageWrite => Some(0xdf)
    case Keyboard => Some(0xe7)
    case Display => Some(0xef)
    case NoInterrupt => None
  }

  /** `instruction_register = memory[pc]; pc++`, undefined when pc is 0xFFFF, past the end of memory. */
  function NormalFetch(c: Cpu): D.Outcome
  {
    if InMemory(c.pc) then D.Next(c.(ir := c.mem[c.pc], pc := Wrap16(c.pc + 1))) else D.Undefined
  }

  /** `InterruptCheckAndInstructionFetch`. */
  function Fetch(c: Cpu): D.Outcome
  {
    if c.interruptRequest != 0 && c.interruptEnable != 0 then
      var accepted := c.(interruptRequest := 0);
      match VectorOpcode(c.interruptVector)
      case Some(op) => D.Next(accepted.(ir := op))
      case None => NormalFetch(accepted)
    else
      NormalFetch(c)
  }

  /**
   * The state `main` sets up before its loop: the program image and the
   * port contents (read by `GetProgram`, or whatever the allocator left),
   * the storage control register set to RDY (0x02), and every other global
   * zero, with the interrupt vector NO_INTERRUPT.
   */
  function Boot(image: Memory, ports: Ports): Cpu
  {
    Cpu([0, 0, 0, 0, 0, 0, 0, 0], 0, 0, image[NV_MEM_CTRL_REG := RDY], ports, 0, 0, 0, 0, NoInterrupt, 0)
  }

  // ---------------------------------------------------------------- properties

  /**
   * A pending request with interrupts enabled and a device vector is
   * accepted: the request is cleared, IR receives the vector's RST opcode,
   * and pc, interrupt_enable and everything else are unchanged.
   */
  lemma InterruptAccepted(c: Cpu)
    requires c.interruptRequest != 0 && c.interruptEnable != 0 && c.interruptVector != NoInterrupt
    ensures VectorOpcode(c.interruptVector).Some?
    ensures var r := Fetch(c);
      && r.Next?
      && r.cpu == c.(interruptRequest := 0, ir := VectorOpcode(c.interruptVector).value)
      && r.cpu.pc == c.pc && r.cpu.interruptEnable == c.interruptEnable
  {
  }

  /** The substituted opcodes: STORAGE_READ gives 0xd7, STORAGE_WRITE 0xdf, KEYBOARD 0xe7, DISPLAY 0xef. */
  lemma VectorOpcodes()
    ensures VectorOpcode(StorageRead) == Some(0xd7)
    ensures VectorOpcode(StorageWrite) == Some(0xdf)
    ensures VectorOpcode(Keyboard) == Some(0xe7)
    ensures VectorOpcode(Display) == Some(0xef)
    ensures VectorOpcode(NoInterrupt) == None
  {
  }

  /**
   * Each substituted opcode is an RST whose restart address is 8 times the
   * restart number: 0xd7 is RST 2 (address 16), 0xdf RST 3 (24), 0xe7 RST 4
   * (32) and 0xef RST 5 (40).
   */
  lemma VectorsAreRestarts(v: InterruptDevice)
    requires v != NoInterrupt
    ensures VectorOpcode(v).Some?
    ensures HandlerOf(VectorOpcode(v).value) == CallRestart(Rst)
    ensures M.RestartAddress(VectorOpcode(v).value) ==
      match v
      case StorageRead => 16
      case StorageWrite => 24
      case Keyboard => 32
      case _ => 40
  {
  }

  /**
   * The enumerator values of STORAGE_READ and STORAGE_WRITE are crossed
   * with the opcodes the fetch substitutes for them: each storage vector's
   * code is the other's opcode, while KEYBOARD and DISPLAY agree.
   */
  lemma StorageVectorsCrossed()
    ensures VectorOpcode(StorageRead) == Some(DeviceCode(StorageWrite))
    ensures VectorOpcode(StorageWrite) == Some(DeviceCode(StorageRead))
    ensures forall v :: v != NoInterrupt ==>
      (VectorOpcode(v) == Some(DeviceCode(v)) <==> v == Keyboard || v == Display)
  {
  }

  /** The normal fetch: IR receives memory[pc], pc advances by one modulo 2^16, nothing else changes. */
  lemma FetchFromMemory(c: Cpu)
    requires !(c.interruptRequest != 0 && c.interruptEnable != 0) && InMemory(c.pc)
    ensures var r := Fetch(c);
      && r.Next?
      && r.cpu.ir == c.mem[c.pc]
      && r.cpu.pc == (c.pc + 1) % 0x1_0000
      && r.cpu == c.(ir := r.cpu.ir, pc := r.cpu.pc)
  {
  }

  /** With interrupts disabled a pending request stays pending and the fetch is the normal one. */
  lemma MaskedRequestStaysPending(c: Cpu)
    requires c.interruptEnable == 0
    ensures Fetch(c) == NormalFetch(c)
    ensures Fetch(c).Next? ==> Fetch(c).cpu.interruptRequest == c.interruptRequest
  {
  }

  /** A pending request with vector NO_INTERRUPT is cleared and the fetch goes on from memory. */
  lemma EmptyVectorFallsThrough(c: Cpu)
    requires c.interruptRequest != 0 && c.interruptEnable != 0 && c.interruptVector == NoInterrupt
    ensures Fetch(c) == NormalFetch(c.(interruptRequest := 0))
  {
  }

  /** The fetch never changes interrupt_enable, the registers, sp, memory, the ports or time. */
  lemma FetchKeeps(c: Cpu)
    ensures var r := Fetch(c);
      r.Next? ==>
        && r.cpu.interruptEnable == c.interruptEnable
        && r.cpu.regs == c.regs && r.cpu.sp == c.sp && r.cpu.mem == c.mem && r.cpu.io == c.io
        && r.cpu.time == c.time && r.cpu.haltEnable == c.haltEnable
  {
  }

  /** The fetch is undefined only when it reads memory at pc 0xFFFF. */
  lemma FetchUndefined(c: Cpu)
    ensures Fetch(c).Undefined? <==>
      c.pc == 0xFFFF && !(c.interruptRequest != 0 && c.interruptEnable != 0 && c.interruptVector != NoInterrupt)
  {
  }

  /** The booted machine: pc, time and the halt and interrupt signals are 0, and storage reports RDY. */
  lemma BootState(image: Memory, ports: Ports)
    ensures var c := Boot(image, ports);
      && c.pc == 0 && c.time == 0 && c.haltEnable == 0 && c.interruptRequest == 0
      && c.regs[STATUS] == 0 && c.interruptVector == NoInterrupt
      && c.mem[NV_MEM_CTRL_REG] == RDY
      && (forall i :: 0 <= i < ADDRESSED_SPACE_SIZE && i != NV_MEM_CTRL_REG ==> c.mem[i] == image[i])
  {
  }
}
