/**
 * The keyboard poll `ReadKeyboardInput` of emu8080/vt100.h, over the
 * memory-mapped keyboard control register (0x3ff9) and data register
 * (0x3ffa).  The character `getchar` returns is a parameter.  The poll
 * tests the io_state enumerator READY as a bit mask; READY is 0, so the
 * request branch never runs, the deadline never leaves INT_MAX, and
 * `|= READY` leaves the control register as it is.
 */
module Keyboard {
  import opened Common
  import opened State
  import E = Emulator

  const KB_READ_RATE: nat := 20
  /** Clock cycles per key read: CLOCK_RATE / KB_READ_RATE. */
  const KB_READ_PERIOD: nat := CLOCK_RATE / KB_READ_RATE

  /** The enumerator READY of io_state, which the poll uses as a control-register bit. */
  const READY_MASK: bv8 := 0

  /** curses' ERR. */
  const ERR: int := -1

  /** `(uint8_t)key`: the value stored by `memory[KB_DATA_REG] = getchar()`. */
  function KeyByte(key: int): bv8
  {
    ByteOf(key % 256)
  }

  /** The state with the keyboard control register rewritten. */
  function WithKeyboardControl(c: Cpu, ctrl: bv8): Cpu
  {
    c.(mem := c.mem[KB_CTRL_REG := ctrl])
  }

  /** The state with the keyboard data register rewritten. */
  function WithKeyboardData(c: Cpu, data: bv8): Cpu
  {
    c.(mem := c.mem[KB_DATA_REG := data])
  }

  /** The deadline and the machine state after the poll, given the deadline before it. */
  datatype PollResult = PollResult(completion: u32, cpu: Cpu)

  /** One call of `ReadKeyboardInput` with `deadline` as `kb_op_completion_time`, `getchar` returning key. */
  function ReadKeyboardInput(deadline: u32, c: Cpu, key: int): PollResult
  {
    var ctrl := c.mem[KB_CTRL_REG];
    if ctrl & READY_MASK != 0 then
      if ctrl & READ_REQUEST != 0 then
        PollResult(Wrap32(c.time + KB_READ_PERIOD), WithKeyboardControl(c, ctrl & !READY_MASK))
      else
        PollResult(deadline, c)
    else if ctrl & READY_MASK == 0 && c.time >= deadline then
      var c1 := WithKeyboardData(c, KeyByte(key));
      if KeyByte(key) as int != ERR then
        var c2 := if c1.mem[KB_CTRL_REG] & INTERRUPT_ENABLE != 0 then c1.(interruptRequest := 1) else c1;
        PollResult(INT_MAX, WithKeyboardControl(c2, c2.mem[KB_CTRL_REG] | READY_MASK))
      else
        PollResult(deadline, c1)
    else
      PollResult(deadline, c)
  }

  // ---------------------------------------------------------------- properties

  /** READY is the io_state enumerator 0, so no control byte has it set: the request branch is dead. */
  lemma RequestBranchDead(ctrl: bv8)
    ensures READY_MASK as int == StateCode(Ready)
    ensures ctrl & READY_MASK == 0
  {
  }

  /** A stored key byte is never ERR, so the completion test always succeeds. */
  lemma KeyNeverErr(key: int)
    ensures KeyByte(key) as int == key % 256
    ensures KeyByte(key) as int != ERR
  {
    ByteValue(key % 256);
  }

  /** The poll leaves the deadline as it was or resets it to INT_MAX: it never sets a real deadline. */
  lemma DeadlineNeverSet(deadline: u32, c: Cpu, key: int)
    ensures var r := ReadKeyboardInput(deadline, c, key);
      r.completion == deadline || r.completion == INT_MAX
    ensures ReadKeyboardInput(INT_MAX, c, key).completion == INT_MAX
  {
  }

  /** Before the deadline the poll changes nothing. */
  lemma WaitsForDeadline(deadline: u32, c: Cpu, key: int)
    requires c.time < deadline
    ensures ReadKeyboardInput(deadline, c, key) == PollResult(deadline, c)
  {
  }

  /**
   * At the deadline the data register receives the low byte of the key,
   * the deadline is reset, the control register keeps its value, and
   * interrupt_request is set exactly when INTERRUPT_ENABLE is; the
   * interrupt vector is never written.
   */
  lemma CompletesAtDeadline(deadline: u32, c: Cpu, key: int)
    requires c.time >= deadline
    ensures var r := ReadKeyboardInput(deadline, c, key);
      && r.completion == INT_MAX
      && r.cpu.mem == c.mem[KB_DATA_REG := KeyByte(key)]
      && r.cpu.mem[KB_DATA_REG] as int == key % 256
      && r.cpu.mem[KB_CTRL_REG] == c.mem[KB_CTRL_REG]
      && r.cpu.interruptRequest == (if c.mem[KB_CTRL_REG] & INTERRUPT_ENABLE != 0 then 1 else c.interruptRequest)
      && r.cpu == c.(mem := r.cpu.mem, interruptRequest := r.cpu.interruptRequest)
  {
    KeyNeverErr(key);
    assert c.mem[KB_DATA_REG := KeyByte(key)][KB_CTRL_REG] == c.mem[KB_CTRL_REG];
  }

  /** From its initial deadline the poll never completes while time is below INT_MAX. */
  lemma NeverCompletesEarly(c: Cpu, key: int)
    requires c.time < INT_MAX
    ensures ReadKeyboardInput(INT_MAX, c, key) == PollResult(INT_MAX, c)
  {
  }

  /** The function-static `kb_op_completion_time`. */
  class KeyboardDevice {
    var completion: u32

    /** The static's initial value. */
    constructor ()
      ensures completion == INT_MAX
    {
      completion := INT_MAX;
    }

    /** `ReadKeyboardInput` on machine m, with `getchar` returning key. */
    method Read(m: E.Machine, key: int)
      requires m.Valid()
      modifies this, m, m.memory
      ensures m.Valid() && m.regs == old(m.regs) && m.memory == old(m.memory) && m.io == old(m.io)
      ensures PollResult(completion, m.Snapshot()) == ReadKeyboardInput(old(completion), old(m.Snapshot()), key)
    {
      if m.memory[KB_CTRL_REG] & READY_MASK != 0 {
        // READY is 0: the request branch cannot run.
        assert false;
      } else if m.memory[KB_CTRL_REG] & READY_MASK == 0 && m.time >= completion {
        m.memory[KB_DATA_REG] := KeyByte(key);
        if m.memory[KB_DATA_REG] as int != ERR {
          if m.memory[KB_CTRL_REG] & INTERRUPT_ENABLE != 0 {
            m.interruptRequest := 1;
          }
          m.memory[KB_CTRL_REG] := m.memory[KB_CTRL_REG] | READY_MASK;
          completion := INT_MAX;
        }
      }
    }
  }
}
