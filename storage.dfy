/**
 * The non-volatile storage peripheral of emu8080/storage.h: the state
 * machine `NonVolatileMemoryOperation`, driven by the memory-mapped
 * control register (0x3ffc), data register (0x3ffd) and address registers
 * (0x3ffe low, 0x3fff high) and by `time`.  A read request copies the data
 * register into RAM at the address; a write request copies it onto the
 * hard disk.  The function-static `storage_state` and
 * `storage_op_completion_time` become fields of `StorageDevice`.
 */
module Storage {
  import opened Common
  import opened State
  import E = Emulator

  const STORAGE_ACCESS_RATE: nat := 40
  /** Clock cycles per access: CLOCK_RATE / STORAGE_ACCESS_RATE. */
  const STORAGE_ACCESS_PERIOD: nat := CLOCK_RATE / STORAGE_ACCESS_RATE

  /** The `HARD_DISK_SIZE` bytes of `hard_disk`. */
  type Disk = s: seq<bv8> | |s| == HARD_DISK_SIZE witness seq(HARD_DISK_SIZE, _ => 0)

  /** `storage_state`, `storage_op_completion_time` and the hard disk. */
  datatype Device = Device(state: IoState, completion: u32, disk: Disk)

  /** The device when the program starts: READY and no deadline. */
  function Initial(disk: Disk): Device
  {
    Device(Ready, INT_MAX, disk)
  }

  /** The result of one call; `Undefined` when the transfer address is 0xFFFF, past both arrays. */
  datatype Outcome = Next(device: Device, cpu: Cpu) | Undefined

  /**
   * `time + STORAGE_ACCESS_PERIOD`, computed in unsigned 32-bit arithmetic;
   * stored in the `int` static and converted back to unsigned by the
   * comparison with `time`, it is this value again.
   */
  function Deadline(time: u32): u32
  {
    Wrap32(time + STORAGE_ACCESS_PERIOD)
  }

  /** `(memory[NV_MEM_ADDR_HIGH] << 8) + memory[NV_MEM_ADDR_LOW]`. */
  function TransferAddress(c: Cpu): word
  {
    Word(c.mem[NV_MEM_ADDR_HIGH_REG], c.mem[NV_MEM_ADDR_LOW_REG])
  }

  /** The control register. */
  function Control(c: Cpu): bv8
  {
    c.mem[NV_MEM_CTRL_REG]
  }

  /** The state with the control register rewritten. */
  function WithControl(c: Cpu, ctrl: bv8): Cpu
  {
    c.(mem := c.mem[NV_MEM_CTRL_REG := ctrl])
  }

  /** Starting a transfer: the deadline is set, RDY is cleared and the device enters `next`. */
  function Start(dev: Device, c: Cpu, next: IoState): Outcome
  {
    Next(dev.(completion := Deadline(c.time), state := next), WithControl(c, Control(c) & !RDY))
  }

  /**
   * The end of a transfer: DONE is set and the deadline cleared; with
   * INTERRUPT_ENABLE set the device requests an interrupt from `vector` and
   * enters INTERRUPT, otherwise OP_COMPLETE.
   */
  function Finish(dev: Device, c: Cpu, vector: InterruptDevice): Outcome
  {
    var c1 := WithControl(c, Control(c) | DONE);
    var dev1 := dev.(completion := INT_MAX);
    if Control(c1) & INTERRUPT_ENABLE != 0 then
      Next(dev1.(state := Interrupt), c1.(interruptRequest := 1, interruptVector := vector))
    else
      Next(dev1.(state := OpComplete), c1)
  }

  /** Back to READY: RDY is set and both request bits are cleared. */
  function Release(dev: Device, c: Cpu): Outcome
  {
    Next(dev.(state := Ready), WithControl(c, (Control(c) | RDY) & !(WRITE_REQUEST | READ_REQUEST)))
  }

  /** One call of `NonVolatileMemoryOperation`. */
  function Operation(dev: Device, c: Cpu): Outcome
  {
    var ctrl := Control(c);
    match dev.state
    case Ready =>
      if ctrl & READ_REQUEST != 0 then Start(dev, c, Reading)
      else if ctrl & WRITE_REQUEST != 0 then Start(dev, c, Writing)
      else Next(dev, c)
    case Reading =>
      if c.time < dev.completion then Next(dev, c)
      else
        var address := TransferAddress(c);
        if !InMemory(address) then Undefined
        else Finish(dev, c.(mem := c.mem[address := c.mem[NV_MEM_DATA_REG]]), StorageRead)
    case Writing =>
      if c.time < dev.completion then Next(dev, c)
      else
        var address := TransferAddress(c);
        if address >= HARD_DISK_SIZE then Undefined
        else Finish(dev.(disk := dev.disk[address := c.mem[NV_MEM_DATA_REG]]), c, StorageWrite)
    case Interrupt =>
      if ctrl & DONE != 0 then
        Next(dev, c.(interruptRequest := 1, interruptVector := if ctrl & READ_REQUEST != 0 then StorageRead else StorageWrite))
      else
        Release(dev, c)
    case OpComplete =>
      if ctrl & DONE == 0 then Release(dev, c) else Next(dev, c)
  }

  // ---------------------------------------------------------------- properties

  /**
   * READY with READ_REQUEST set, whatever WRITE_REQUEST is: the deadline
   * becomes time + 62500, RDY is cleared and the device enters READING;
   * nothing else changes.
   */
  lemma ReadRequestStarts(dev: Device, c: Cpu)
    requires dev.state == Ready && Control(c) & READ_REQUEST != 0
    ensures var r := Operation(dev, c);
      && r.Next?
      && r.device == dev.(state := Reading, completion := (c.time + 62500) % 0x1_0000_0000)
      && Control(r.cpu) & RDY == 0
      && Control(r.cpu) | RDY == Control(c) | RDY
      && r.cpu == WithControl(c, Control(r.cpu))
  {
  }

  /** READY with only WRITE_REQUEST set: the same, entering WRITING. */
  lemma WriteRequestStarts(dev: Device, c: Cpu)
    requires dev.state == Ready && Control(c) & READ_REQUEST == 0 && Control(c) & WRITE_REQUEST != 0
    ensures var r := Operation(dev, c);
      && r.Next?
      && r.device == dev.(state := Writing, completion := (c.time + 62500) % 0x1_0000_0000)
      && Control(r.cpu) & RDY == 0
      && Control(r.cpu) | RDY == Control(c) | RDY
      && r.cpu == WithControl(c, Control(r.cpu))
  {
  }

  /** READY with neither request bit set changes nothing. */
  lemma ReadyIdle(dev: Device, c: Cpu)
    requires dev.state == Ready && Control(c) & (READ_REQUEST | WRITE_REQUEST) == 0
    ensures Operation(dev, c) == Next(dev, c)
  {
  }

  /** READING or WRITING before the deadline changes nothing. */
  lemma WaitsForDeadline(dev: Device, c: Cpu)
    requires (dev.state == Reading || dev.state == Writing) && c.time < dev.completion
    ensures Operation(dev, c) == Next(dev, c)
  {
  }

  /** The end of a transfer sets DONE, keeps every other control bit, and raises an interrupt exactly when INTERRUPT_ENABLE is set. */
  lemma FinishLaws(dev: Device, c: Cpu, vector: InterruptDevice)
    ensures var r := Finish(dev, c, vector);
      && r.Next?
      && r.cpu.mem == c.mem[NV_MEM_CTRL_REG := Control(c) | DONE]
      && Control(r.cpu) & DONE != 0
      && Control(r.cpu) & !DONE == Control(c) & !DONE
      && r.device == dev.(completion := INT_MAX, state := r.device.state)
      && (r.device.state == Interrupt <==> Control(c) & INTERRUPT_ENABLE != 0)
      && (r.device.state != Interrupt ==> r.device.state == OpComplete && r.cpu == c.(mem := r.cpu.mem))
      && (r.device.state == Interrupt ==>
            r.cpu == c.(mem := r.cpu.mem, interruptRequest := 1, interruptVector := vector))
  {
  }

  /**
   * READING at the deadline: RAM at the transfer address receives the data
   * register (the hard disk is not touched), DONE is set, the deadline is
   * reset to INT_MAX, and an interrupt from STORAGE_READ is requested
   * exactly when the control register, once written, has INTERRUPT_ENABLE.
   */
  lemma ReadCompletes(dev: Device, c: Cpu)
    requires dev.state == Reading && c.time >= dev.completion && InMemory(TransferAddress(c))
    ensures var address := TransferAddress(c);
      var written := c.mem[address := c.mem[NV_MEM_DATA_REG]];
      var r := Operation(dev, c);
      && r.Next?
      && r.cpu.mem == written[NV_MEM_CTRL_REG := written[NV_MEM_CTRL_REG] | DONE]
      && (address != NV_MEM_CTRL_REG ==> r.cpu.mem[address] == c.mem[NV_MEM_DATA_REG])
      && r.device.disk == dev.disk && r.device.completion == INT_MAX
      && (r.device.state == Interrupt <==> written[NV_MEM_CTRL_REG] & INTERRUPT_ENABLE != 0)
      && (r.device.state == Interrupt ==> r.cpu.interruptRequest == 1 && r.cpu.interruptVector == StorageRead)
      && (r.device.state != Interrupt ==> r.device.state == OpComplete && r.cpu == c.(mem := r.cpu.mem))
  {
    FinishLaws(dev, c.(mem := c.mem[TransferAddress(c) := c.mem[NV_MEM_DATA_REG]]), StorageRead);
  }

  /**
   * WRITING at the deadline: the hard disk at the transfer address receives
   * the data register and no other disk byte changes; in memory only DONE
   * is set; the interrupt, from STORAGE_WRITE, follows INTERRUPT_ENABLE.
   */
  lemma WriteCompletes(dev: Device, c: Cpu)
    requires dev.state == Writing && c.time >= dev.completion && TransferAddress(c) < HARD_DISK_SIZE
    ensures var address := TransferAddress(c);
      var r := Operation(dev, c);
      && r.Next?
      && r.device.disk[address] == c.mem[NV_MEM_DATA_REG]
      && (forall i :: 0 <= i < HARD_DISK_SIZE && i != address ==> r.device.disk[i] == dev.disk[i])
      && r.cpu.mem == c.mem[NV_MEM_CTRL_REG := Control(c) | DONE]
      && r.device.completion == INT_MAX
      && (r.device.state == Interrupt <==> Control(c) & INTERRUPT_ENABLE != 0)
      && (r.device.state == Interrupt ==> r.cpu.interruptRequest == 1 && r.cpu.interruptVector == StorageWrite)
      && (r.device.state != Interrupt ==> r.device.state == OpComplete)
  {
    FinishLaws(dev.(disk := dev.disk[TransferAddress(c) := c.mem[NV_MEM_DATA_REG]]), c, StorageWrite);
  }

  /** The control register after a release: RDY set, both request bits clear, every other bit kept. */
  lemma ReleaseLaws(dev: Device, c: Cpu)
    ensures var r := Release(dev, c);
      && r.Next? && r.device == dev.(state := Ready)
      && Control(r.cpu) & RDY != 0
      && Control(r.cpu) & (READ_REQUEST | WRITE_REQUEST) == 0
      && Control(r.cpu) & !(RDY | READ_REQUEST | WRITE_REQUEST) == Control(c) & !(RDY | READ_REQUEST | WRITE_REQUEST)
      && r.cpu == WithControl(c, Control(r.cpu))
  {
  }

  /**
   * INTERRUPT while DONE is set re-raises the request, from STORAGE_READ
   * when READ_REQUEST is set and from STORAGE_WRITE otherwise, and stays in
   * INTERRUPT; once DONE is clear it releases and returns to READY.
   */
  lemma InterruptState(dev: Device, c: Cpu)
    requires dev.state == Interrupt
    ensures Control(c) & DONE != 0 ==>
      Operation(dev, c) == Next(dev, c.(interruptRequest := 1,
        interruptVector := if Control(c) & READ_REQUEST != 0 then StorageRead else StorageWrite))
    ensures Control(c) & DONE == 0 ==> Operation(dev, c) == Release(dev, c)
  {
  }

  /** OP_COMPLETE waits while DONE is set and releases once it is clear. */
  lemma CompleteState(dev: Device, c: Cpu)
    requires dev.state == OpComplete
    ensures Control(c) & DONE != 0 ==> Operation(dev, c) == Next(dev, c)
    ensures Control(c) & DONE == 0 ==> Operation(dev, c) == Release(dev, c)
  {
  }

  /** The operation is undefined exactly when a transfer falls due with address 0xFFFF. */
  lemma UndefinedTransfer(dev: Device, c: Cpu)
    ensures Operation(dev, c).Undefined? <==>
      (dev.state == Reading || dev.state == Writing) && c.time >= dev.completion && TransferAddress(c) == 0xFFFF
  {
  }

  /** Only the control register, the transfer target, the interrupt signals and the device change. */
  lemma OperationKeeps(dev: Device, c: Cpu)
    ensures var r := Operation(dev, c);
      r.Next? ==>
        && r.cpu.regs == c.regs && r.cpu.pc == c.pc && r.cpu.sp == c.sp && r.cpu.io == c.io
        && r.cpu.ir == c.ir && r.cpu.time == c.time
        && r.cpu.interruptEnable == c.interruptEnable && r.cpu.haltEnable == c.haltEnable
  {
    match dev.state
    case Reading =>
      if c.time >= dev.completion && InMemory(TransferAddress(c)) {
        FinishLaws(dev, c.(mem := c.mem[TransferAddress(c) := c.mem[NV_MEM_DATA_REG]]), StorageRead);
      }
    case Writing =>
      if c.time >= dev.completion && TransferAddress(c) < HARD_DISK_SIZE {
        FinishLaws(dev.(disk := dev.disk[TransferAddress(c) := c.mem[NV_MEM_DATA_REG]]), c, StorageWrite);
      }
    case _ =>
  }

  /** No transfer is due at `time`: the device is READY, or its deadline lies ahead. */
  predicate Pending(dev: Device, time: u32)
  {
    dev.state == Ready || ((dev.state == Reading || dev.state == Writing) && time < dev.completion)
  }

  /**
   * While time stays put (and far enough from the 32-bit wrap), a pending
   * device stays pending: a request only sets a deadline ahead of time, the
   * disk is never written and no interrupt is raised.
   */
  lemma StaysPending(dev: Device, c: Cpu)
    requires Pending(dev, c.time) && c.time + STORAGE_ACCESS_PERIOD < 0x1_0000_0000
    ensures var r := Operation(dev, c);
      && r.Next? && Pending(r.device, c.time) && r.device.disk == dev.disk
      && r.cpu.interruptRequest == c.interruptRequest && r.cpu.interruptVector == c.interruptVector
  {
  }

  class StorageDevice {
    var state: IoState
    var completion: u32
    var hardDisk: array<bv8>

    predicate Valid()
      reads this
    {
      hardDisk.Length == HARD_DISK_SIZE
    }

    /** The device as a value. */
    function Value(): Device
      reads this, hardDisk
      requires Valid()
    {
      Device(state, completion, hardDisk[..])
    }

    /** The statics' initial values, and the hard disk as `LoadNonVolatileMemory` read it. */
    constructor (disk: Disk)
      ensures Valid() && fresh(hardDisk)
      ensures Value() == Initial(disk)
    {
      state := Ready;
      completion := INT_MAX;
      hardDisk := new bv8[HARD_DISK_SIZE](i => if 0 <= i < HARD_DISK_SIZE then disk[i] else 0);
      new;
      assert hardDisk[..] == disk;
    }

    /** `NonVolatileMemoryOperation` on machine m: the `switch` on `storage_state`. */
    method Operate(m: E.Machine) returns (defined: bool)
      requires Valid() && m.Valid() && hardDisk != m.memory
      modifies this, hardDisk, m, m.memory
      ensures Valid() && hardDisk == old(hardDisk)
      ensures m.Valid() && m.regs == old(m.regs) && m.memory == old(m.memory) && m.io == old(m.io)
      ensures defined == Operation(old(Value()), old(m.Snapshot())).Next?
      ensures defined ==> Value() == Operation(old(Value()), old(m.Snapshot())).device
      ensures defined ==> m.Snapshot() == Operation(old(Value()), old(m.Snapshot())).cpu
      ensures !defined ==> Value() == old(Value()) && m.Snapshot() == old(m.Snapshot())
    {
      match state
      case Ready => defined := OperateReady(m);
      case Reading => defined := OperateReading(m);
      case Writing => defined := OperateWriting(m);
      case Interrupt => defined := OperateInterrupt(m);
      case OpComplete => defined := OperateComplete(m);
    }

    /** READY: a read request, else a write request, starts a transfer. */
    method OperateReady(m: E.Machine) returns (defined: bool)
      requires Valid() && m.Valid() && hardDisk != m.memory && state == Ready
      modifies this, hardDisk, m, m.memory
      ensures Valid() && hardDisk == old(hardDisk)
      ensures m.Valid() && m.regs == old(m.regs) && m.memory == old(m.memory) && m.io == old(m.io)
      ensures defined == Operation(old(Value()), old(m.Snapshot())).Next?
      ensures defined ==> Value() == Operation(old(Value()), old(m.Snapshot())).device
      ensures defined ==> m.Snapshot() == Operation(old(Value()), old(m.Snapshot())).cpu
      ensures !defined ==> Value() == old(Value()) && m.Snapshot() == old(m.Snapshot())
    {
      defined := true;
      if m.memory[NV_MEM_CTRL_REG] & READ_REQUEST != 0 {
        BeginTransfer(m, Reading);
      } else if m.memory[NV_MEM_CTRL_REG] & WRITE_REQUEST != 0 {
        BeginTransfer(m, Writing);
      }
    }

    /** READING: at the deadline the data register is copied into RAM at the transfer address. */
    method OperateReading(m: E.Machine) returns (defined: bool)
      requires Valid() && m.Valid() && hardDisk != m.memory && state == Reading
      modifies this, hardDisk, m, m.memory
      ensures Valid() && hardDisk == old(hardDisk)
      ensures m.Valid() && m.regs == old(m.regs) && m.memory == old(m.memory) && m.io == old(m.io)
      ensures defined == Operation(old(Value()), old(m.Snapshot())).Next?
      ensures defined ==> Value() == Operation(old(Value()), old(m.Snapshot())).device
      ensures defined ==> m.Snapshot() == Operation(old(Value()), old(m.Snapshot())).cpu
      ensures !defined ==> Value() == old(Value()) && m.Snapshot() == old(m.Snapshot())
    {
      defined := true;
      if m.time >= completion {
        var address := Word(m.memory[NV_MEM_ADDR_HIGH_REG], m.memory[NV_MEM_ADDR_LOW_REG]);
        if !InMemory(address) {
          return false;
        }
        m.memory[address] := m.memory[NV_MEM_DATA_REG];
        EndTransfer(m, StorageRead);
      }
    }

    /** WRITING: at the deadline the data register is copied onto the hard disk at the transfer address. */
    method OperateWriting(m: E.Machine) returns (defined: bool)
      requires Valid() && m.Valid() && hardDisk != m.memory && state == Writing
      modifies this, hardDisk, m, m.memory
      ensures Valid() && hardDisk == old(hardDisk)
      ensures m.Valid() && m.regs == old(m.regs) && m.memory == old(m.memory) && m.io == old(m.io)
      ensures defined == Operation(old(Value()), old(m.Snapshot())).Next?
      ensures defined ==> Value() == Operation(old(Value()), old(m.Snapshot())).device
      ensures defined ==> m.Snapshot() == Operation(old(Value()), old(m.Snapshot())).cpu
      ensures !defined ==> Value() == old(Value()) && m.Snapshot() == old(m.Snapshot())
    {
      defined := true;
      if m.time >= completion {
        var address := Word(m.memory[NV_MEM_ADDR_HIGH_REG], m.memory[NV_MEM_ADDR_LOW_REG]);
        if address >= HARD_DISK_SIZE {
          return false;
        }
        hardDisk[address] := m.memory[NV_MEM_DATA_REG];
        EndTransfer(m, StorageWrite);
      }
    }

    /** INTERRUPT: re-raise the request while DONE is set, otherwise return to READY. */
    method OperateInterrupt(m: E.Machine) returns (defined: bool)
      requires Valid() && m.Valid() && hardDisk != m.memory && state == Interrupt
      modifies this, hardDisk, m, m.memory
      ensures Valid() && hardDisk == old(hardDisk)
      ensures m.Valid() && m.regs == old(m.regs) && m.memory == old(m.memory) && m.io == old(m.io)
      ensures defined == Operation(old(Value()), old(m.Snapshot())).Next?
      ensures defined ==> Value() == Operation(old(Value()), old(m.Snapshot())).device
      ensures defined ==> m.Snapshot() == Operation(old(Value()), old(m.Snapshot())).cpu
      ensures !defined ==> Value() == old(Value()) && m.Snapshot() == old(m.Snapshot())
    {
      defined := true;
      if m.memory[NV_MEM_CTRL_REG] & DONE != 0 {
        m.interruptRequest := 1;
        m.interruptVector := if m.memory[NV_MEM_CTRL_REG] & READ_REQUEST != 0 then StorageRead else StorageWrite;
      } else {
        ReturnToReady(m);
      }
    }

    /** OP_COMPLETE: return to READY once DONE is clear. */
    method OperateComplete(m: E.Machine) returns (defined: bool)
      requires Valid() && m.Valid() && hardDisk != m.memory && state == OpComplete
      modifies this, hardDisk, m, m.memory
      ensures Valid() && hardDisk == old(hardDisk)
      ensures m.Valid() && m.regs == old(m.regs) && m.memory == old(m.memory) && m.io == old(m.io)
      ensures defined == Operation(old(Value()), old(m.Snapshot())).Next?
      ensures defined ==> Value() == Operation(old(Value()), old(m.Snapshot())).device
      ensures defined ==> m.Snapshot() == Operation(old(Value()), old(m.Snapshot())).cpu
      ensures !defined ==> Value() == old(Value()) && m.Snapshot() == old(m.Snapshot())
    {
      defined := true;
      if m.memory[NV_MEM_CTRL_REG] & DONE == 0 {
        ReturnToReady(m);
      }
    }

    /** The READY-state output: set the deadline, clear RDY, enter `next`. */
    method BeginTransfer(m: E.Machine, next: IoState)
      requires Valid() && m.Valid() && hardDisk != m.memory
      modifies this, m.memory
      ensures Valid() && hardDisk == old(hardDisk) && hardDisk[..] == old(hardDisk[..])
      ensures m.Valid() && m.memory == old(m.memory)
      ensures Next(Value(), m.Snapshot()) == Start(old(Value()), old(m.Snapshot()), next)
    {
      completion := Deadline(m.time);
      m.memory[NV_MEM_CTRL_REG] := m.memory[NV_MEM_CTRL_REG] & !RDY;
      state := next;
    }

    /** The deadline output of READING and WRITING: set DONE, clear the deadline, maybe request an interrupt. */
    method EndTransfer(m: E.Machine, vector: InterruptDevice)
      requires Valid() && m.Valid() && hardDisk != m.memory
      modifies this, m, m.memory
      ensures Valid() && hardDisk == old(hardDisk) && hardDisk[..] == old(hardDisk[..])
      ensures m.Valid() && m.regs == old(m.regs) && m.memory == old(m.memory) && m.io == old(m.io)
      ensures Next(Value(), m.Snapshot()) == Finish(old(Value()), old(m.Snapshot()), vector)
    {
      m.memory[NV_MEM_CTRL_REG] := m.memory[NV_MEM_CTRL_REG] | DONE;
      completion := INT_MAX;
      state := OpComplete;
      if m.memory[NV_MEM_CTRL_REG] & INTERRUPT_ENABLE != 0 {
        m.interruptRequest := 1;
        m.interruptVector := vector;
        state := Interrupt;
      }
    }

    /** The release output of INTERRUPT and OP_COMPLETE: set RDY, clear both request bits, enter READY. */
    method ReturnToReady(m: E.Machine)
      requires Valid() && m.Valid() && hardDisk != m.memory
      modifies this, m.memory
      ensures Valid() && hardDisk == old(hardDisk) && hardDisk[..] == old(hardDisk[..])
      ensures m.Valid() && m.memory == old(m.memory)
      ensures Next(Value(), m.Snapshot()) == Release(old(Value()), old(m.Snapshot()))
    {
      m.memory[NV_MEM_CTRL_REG] := m.memory[NV_MEM_CTRL_REG] | RDY;
      m.memory[NV_MEM_CTRL_REG] := m.memory[NV_MEM_CTRL_REG] & !(WRITE_REQUEST | READ_REQUEST);
      state := Ready;
    }
  }
}
