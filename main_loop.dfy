/**
 * The loop of `main` in emu8080/emulator.c: while halt_enable is 0, fetch
 * (`InterruptCheckAndInstructionFetch`), execute
 * (`instruction_set[IR](&instruction_set_data[IR])`) and run the storage
 * state machine (`NonVolatileMemoryOperation`).  Nothing in the loop calls
 * `AddTime`, so `time` keeps the 0 that `main` gives it, and a storage
 * transfer, due 62500 cycles after its request, never completes.
 */
module MainLoop {
  import opened Common
  import opened State
  import opened InstructionSet
  import D = Dispatch
  import F = Fetch
  import SD = Storage
  import E = Emulator
  import M = Semantics

  /** The machine and the storage device after one iteration, or `Undefined` when one of its steps is. */
  datatype Outcome = Next(cpu: Cpu, device: SD.Device) | Undefined

  /** One iteration of the loop body. */
  function Cycle(c: Cpu, dev: SD.Device): Outcome
  {
    match F.Fetch(c)
    case Undefined => Undefined
    case Next(fetched) =>
      match D.Step(fetched)
      case Undefined => Undefined
      case Next(executed) =>
        match SD.Operation(dev, executed)
        case Undefined => Undefined
        case Next(dev', c') => Next(c', dev')
  }

  /** Where the loop stands after at most `fuel` iterations: stopped, or fallen into undefined behaviour. */
  datatype RunOutcome = Stopped(cpu: Cpu, device: SD.Device) | Faulted

  /** `while (!halt_enable) { ... }`, cut off after `fuel` iterations. */
  function Run(c: Cpu, dev: SD.Device, fuel: nat): RunOutcome
    decreases fuel
  {
    if c.haltEnable != 0 || fuel == 0 then Stopped(c, dev)
    else
      match Cycle(c, dev)
      case Undefined => Faulted
      case Next(c', dev') => Run(c', dev', fuel - 1)
  }

  /** One iteration of the loop: the machine state moves as `Cycle` says. */
  method Iterate(m: E.Machine, storage: SD.StorageDevice) returns (defined: bool)
    requires m.Valid() && storage.Valid() && storage.hardDisk != m.memory
    modifies m, m.regs, m.memory, m.io, storage, storage.hardDisk
    ensures m.Valid() && m.regs == old(m.regs) && m.memory == old(m.memory) && m.io == old(m.io)
    ensures storage.Valid() && storage.hardDisk == old(storage.hardDisk)
    ensures defined == Cycle(old(m.Snapshot()), old(storage.Value())).Next?
    ensures defined ==> Next(m.Snapshot(), storage.Value()) == Cycle(old(m.Snapshot()), old(storage.Value()))
  {
    defined := m.FetchInstruction();
    if !defined {
      return;
    }
    defined := m.Step();
    if !defined {
      return;
    }
    defined := storage.Operate(m);
  }

  /** A running machine with fuel left takes one cycle and continues. */
  lemma RunUnfolds(c: Cpu, dev: SD.Device, fuel: nat, c': Cpu, dev': SD.Device)
    requires c.haltEnable == 0 && fuel > 0 && Cycle(c, dev) == Next(c', dev')
    ensures Run(c, dev, fuel) == Run(c', dev', fuel - 1)
  {
  }

  /** A halted machine, or one out of fuel, stays where it is. */
  lemma RunStops(c: Cpu, dev: SD.Device, fuel: nat)
    requires c.haltEnable != 0 || fuel == 0
    ensures Run(c, dev, fuel) == Stopped(c, dev)
  {
  }

  /** A cycle that falls into undefined behaviour ends the run. */
  lemma RunFaults(c: Cpu, dev: SD.Device, fuel: nat)
    requires c.haltEnable == 0 && fuel > 0 && Cycle(c, dev).Undefined?
    ensures Run(c, dev, fuel) == Faulted
  {
  }

  /** One iteration of a running machine, as a step of `Run`: `r0` is what the remaining `fuel` iterations lead to. */
  method Advance(m: E.Machine, storage: SD.StorageDevice, ghost fuel: nat, ghost r0: RunOutcome) returns (defined: bool)
    requires m.Valid() && storage.Valid() && storage.hardDisk != m.memory
    requires m.haltEnable == 0 && fuel > 0 && Run(m.Snapshot(), storage.Value(), fuel) == r0
    modifies m, m.regs, m.memory, m.io, storage, storage.hardDisk
    ensures m.Valid() && m.regs == old(m.regs) && m.memory == old(m.memory) && m.io == old(m.io)
    ensures storage.Valid() && storage.hardDisk == old(storage.hardDisk)
    ensures defined ==> Run(m.Snapshot(), storage.Value(), fuel - 1) == r0
    ensures !defined ==> r0 == Faulted
  {
    ghost var c, dev := m.Snapshot(), storage.Value();
    defined := Iterate(m, storage);
    if defined {
      RunUnfolds(c, dev, fuel, m.Snapshot(), storage.Value());
    } else {
      RunFaults(c, dev, fuel);
    }
  }

  /**
   * The loop of `main` on machine m and storage device `storage`, for at
   * most `fuel` iterations.  It ends in the state `Run` describes, unless
   * an iteration fell into undefined behaviour (`faulted`).
   */
  method RunMachine(m: E.Machine, storage: SD.StorageDevice, fuel: nat) returns (faulted: bool)
    requires m.Valid() && storage.Valid() && storage.hardDisk != m.memory
    modifies m, m.regs, m.memory, m.io, storage, storage.hardDisk
    ensures m.Valid() && m.regs == old(m.regs) && m.memory == old(m.memory) && m.io == old(m.io)
    ensures storage.Valid() && storage.hardDisk == old(storage.hardDisk)
    ensures faulted == Run(old(m.Snapshot()), old(storage.Value()), fuel).Faulted?
    ensures !faulted ==> Stopped(m.Snapshot(), storage.Value()) == Run(old(m.Snapshot()), old(storage.Value()), fuel)
  {
    var left := fuel;
    ghost var r0 := Run(m.Snapshot(), storage.Value(), fuel);
    while m.haltEnable == 0 && left > 0
      invariant m.Valid() && m.regs == old(m.regs) && m.memory == old(m.memory) && m.io == old(m.io)
      invariant storage.Valid() && storage.hardDisk == old(storage.hardDisk)
      invariant Run(m.Snapshot(), storage.Value(), left) == r0
      decreases left
    {
      var ok := Advance(m, storage, left, r0);
      if !ok {
        return true;
      }
      left := left - 1;
    }
    RunStops(m.Snapshot(), storage.Value(), left);
    faulted := false;
  }

  // ---------------------------------------------------------------- properties

  /** A successful step that leaves `time` and the interrupt request and vector as they were. */
  predicate KeepsTime(c: Cpu, r: D.Outcome)
  {
    r.Next? ==> r.cpu.time == c.time && r.cpu.interruptRequest == c.interruptRequest && r.cpu.interruptVector == c.interruptVector
  }

  lemma TransferKeepsTime(op: TransferHandler, d: Descriptor, c: Cpu)
    ensures KeepsTime(c, D.ExecuteTransfer(op, d, c))
  {
  }

  lemma AddSubKeepsTime(op: AddSubHandler, d: Descriptor, c: Cpu)
    ensures KeepsTime(c, D.ExecuteAddSub(op, d, c))
  {
  }

  lemma IncDecKeepsTime(op: IncDecHandler, d: Descriptor, c: Cpu)
    ensures KeepsTime(c, D.ExecuteIncDec(op, d, c))
  {
  }

  lemma LogicKeepsTime(op: LogicHandler, d: Descriptor, c: Cpu)
    ensures KeepsTime(c, D.ExecuteLogic(op, d, c))
  {
  }

  lemma CompareRotateKeepsTime(op: CompareRotateHandler, d: Descriptor, c: Cpu)
    ensures KeepsTime(c, D.ExecuteCompareRotate(op, d, c))
  {
  }

  lemma JumpKeepsTime(op: JumpHandler, d: Descriptor, c: Cpu)
    ensures KeepsTime(c, D.ExecuteJump(op, d, c))
  {
  }

  lemma CallRestartKeepsTime(op: CallHandler, d: Descriptor, c: Cpu)
    ensures KeepsTime(c, D.ExecuteCallRestart(op, d, c))
  {
  }

  lemma ReturnKeepsTime(op: ReturnHandler, d: Descriptor, c: Cpu)
    ensures KeepsTime(c, D.ExecuteReturn(op, d, c))
  {
  }

  lemma ControlKeepsTime(op: ControlHandler, d: Descriptor, c: Cpu)
    ensures KeepsTime(c, D.ExecuteControl(op, d, c))
  {
  }

  /** No handler changes `time` (none of them calls `AddTime`) or raises an interrupt. */
  lemma StepKeepsTime(c: Cpu)
    ensures KeepsTime(c, D.Step(c))
  {
    var d := DescriptorOf(c.ir);
    match HandlerOf(c.ir)
    case Transfer(op) => TransferKeepsTime(op, d, c);
    case AddSub(op) => AddSubKeepsTime(op, d, c);
    case IncDec(op) => IncDecKeepsTime(op, d, c);
    case Logic(op) => LogicKeepsTime(op, d, c);
    case CompareRotate(op) => CompareRotateKeepsTime(op, d, c);
    case Jump(op) => JumpKeepsTime(op, d, c);
    case CallRestart(op) => CallRestartKeepsTime(op, d, c);
    case Return(op) => ReturnKeepsTime(op, d, c);
    case Control(op) => ControlKeepsTime(op, d, c);
  }

  /** Nor does the fetch or the storage operation, so a whole iteration keeps `time`. */
  lemma CycleKeepsTime(c: Cpu, dev: SD.Device)
    ensures Cycle(c, dev).Next? ==> Cycle(c, dev).cpu.time == c.time
  {
    F.FetchKeeps(c);
    if F.Fetch(c).Next? {
      StepKeepsTime(F.Fetch(c).cpu);
      if D.Step(F.Fetch(c).cpu).Next? {
        SD.OperationKeeps(dev, D.Step(F.Fetch(c).cpu).cpu);
      }
    }
  }

  /** The loop never changes `time`. */
  lemma {:induction false} RunKeepsTime(c: Cpu, dev: SD.Device, fuel: nat)
    ensures Run(c, dev, fuel).Stopped? ==> Run(c, dev, fuel).cpu.time == c.time
    decreases fuel
  {
    if c.haltEnable == 0 && fuel > 0 {
      match Cycle(c, dev)
      case Undefined =>
      case Next(c', dev') =>
        CycleKeepsTime(c, dev);
        RunKeepsTime(c', dev', fuel - 1);
    }
  }

  /** No interrupt is pending and no storage transfer is due. */
  predicate Quiet(c: Cpu, dev: SD.Device)
  {
    c.time == 0 && c.interruptRequest == 0 && SD.Pending(dev, 0)
  }

  /** A quiet iteration stays quiet and leaves the hard disk alone. */
  lemma CycleQuiet(c: Cpu, dev: SD.Device)
    requires Quiet(c, dev)
    ensures Cycle(c, dev).Next? ==> Quiet(Cycle(c, dev).cpu, Cycle(c, dev).device) && Cycle(c, dev).device.disk == dev.disk
  {
    if F.Fetch(c).Next? {
      var fetched := F.Fetch(c).cpu;
      assert fetched.time == 0 && fetched.interruptRequest == 0;
      StepKeepsTime(fetched);
      if D.Step(fetched).Next? {
        SD.StaysPending(dev, D.Step(fetched).cpu);
      }
    }
  }

  /** A quiet run stays quiet: the hard disk keeps its contents and no interrupt is ever accepted. */
  lemma {:induction false} RunQuiet(c: Cpu, dev: SD.Device, fuel: nat)
    requires Quiet(c, dev)
    ensures Run(c, dev, fuel).Stopped? ==> Quiet(Run(c, dev, fuel).cpu, Run(c, dev, fuel).device) && Run(c, dev, fuel).device.disk == dev.disk
    decreases fuel
  {
    if c.haltEnable == 0 && fuel > 0 {
      match Cycle(c, dev)
      case Undefined =>
      case Next(c', dev') =>
        CycleQuiet(c, dev);
        RunQuiet(c', dev', fuel - 1);
    }
  }

  /**
   * `main` starts with time 0 and no interrupt request, and nothing in the
   * loop advances time: however long the program runs, no storage transfer
   * completes, the hard disk image is never written, and no interrupt is
   * accepted.
   */
  lemma BootNeverTransfers(image: Memory, ports: Ports, disk: SD.Disk, fuel: nat)
    ensures var r := Run(F.Boot(image, ports), SD.Initial(disk), fuel);
      r.Stopped? ==>
        && r.device.disk == disk && r.cpu.time == 0 && r.cpu.interruptRequest == 0
        && (r.device.state == Ready || r.device.state == Reading || r.device.state == Writing)
  {
    RunQuiet(F.Boot(image, ports), SD.Initial(disk), fuel);
  }

  /** The loop ends as soon as halt_enable is nonzero: then it does not iterate at all. */
  lemma HaltedStops(c: Cpu, dev: SD.Device, fuel: nat)
    requires c.haltEnable != 0
    ensures Run(c, dev, fuel) == Stopped(c, dev)
  {
  }

  /**
   * A run that stops with halt_enable still 0 has used up its fuel: the
   * loop itself only stops on a halt.
   */
  lemma {:induction false} StopsOnlyOnHalt(c: Cpu, dev: SD.Device, fuel: nat)
    requires fuel > 0 && c.haltEnable == 0
    ensures Run(c, dev, fuel).Stopped? && Run(c, dev, fuel).cpu.haltEnable == 0 ==>
      Cycle(c, dev).Next? && Run(c, dev, fuel) == Run(Cycle(c, dev).cpu, Cycle(c, dev).device, fuel - 1)
  {
  }

  /**
   * Fetching HLT (0x76) with no interrupt accepted sets halt_enable, and the
   * loop stops right after that iteration.
   */
  lemma HltEndsRun(c: Cpu, dev: SD.Device, fuel: nat)
    requires c.haltEnable == 0 && fuel > 0
    requires !(c.interruptRequest != 0 && c.interruptEnable != 0)
    requires InMemory(c.pc) && c.mem[c.pc] == 0x76
    requires Cycle(c, dev).Next?
    ensures Cycle(c, dev).cpu.haltEnable != 0
    ensures Run(c, dev, fuel) == Stopped(Cycle(c, dev).cpu, Cycle(c, dev).device)
  {
    var fetched := F.Fetch(c).cpu;
    assert fetched.ir == 0x76;
    assert HandlerOf(0x76) == Control(Hlt);
    var executed := D.Step(fetched).cpu;
    assert executed.haltEnable != 0;
    SD.OperationKeeps(dev, executed);
  }

  /**
   * An accepted interrupt runs its RST through the ordinary handler, which
   * acts only when the Sign flag is set: with Sign clear the request is
   * cleared and nothing else happens, so the interrupt is lost and pc and
   * sp are unchanged.
   */
  lemma InterruptLostWithoutSign(c: Cpu)
    requires c.interruptRequest != 0 && c.interruptEnable != 0 && c.interruptVector != NoInterrupt
    requires !Flag(c, S)
    ensures F.Fetch(c).Next?
    ensures var fetched := F.Fetch(c).cpu;
      D.Step(fetched) == D.Next(fetched)
      && fetched == c.(interruptRequest := 0, ir := fetched.ir)
  {
    F.InterruptAccepted(c);
    F.VectorsAreRestarts(c.interruptVector);
  }

  /**
   * With Sign set the accepted interrupt is served: the low byte of pc is
   * pushed, sp drops by 2, and pc becomes 8 times the restart number.
   */
  lemma InterruptServedWithSign(c: Cpu)
    requires c.interruptRequest != 0 && c.interruptEnable != 0 && c.interruptVector != NoInterrupt
    requires Flag(c, S) && InMemory(Wrap16(c.sp - 2))
    ensures F.Fetch(c).Next?
    ensures var fetched := F.Fetch(c).cpu;
      var r := D.Step(fetched);
      && r.Next?
      && r.cpu.pc == M.RestartAddress(F.VectorOpcode(c.interruptVector).value)
      && r.cpu.sp == Wrap16(c.sp - 2)
      && r.cpu.mem == c.mem[Wrap16(c.sp - 2) := LowByte(c.pc)]
      && r.cpu.interruptRequest == 0
  {
    F.InterruptAccepted(c);
    F.VectorsAreRestarts(c.interruptVector);
  }
}
