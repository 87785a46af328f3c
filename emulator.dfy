/**
 * The emulator's global state (emu8080/emulator.c) as a class whose
 * fields are the C globals, and the handlers of emu8080/instruction_set.h
 * as methods that update those fields in place.  Each method is proved to
 * leave the machine in the state its Semantics function describes.
 */
module Emulator {
  import opened Common
  import opened State
  import opened Flags
  import opened InstructionSet
  import D = Dispatch
  import M = Semantics
  import F = Fetch

  /** The parity loop of ModifyFlags: add up bit 0 of x, shifting x right eight times. */
  method CountOnes(x: bv8) returns (parity: nat)
    ensures parity == PopCount(x)
  {
    var rest := x;
    parity := 0;
    var i := 0;
    while i < 8
      invariant 0 <= i <= 8
      invariant parity + PopCountBelow(rest, 8 - i) == PopCount(x)
    {
      parity := parity + (if rest & 0x01 == 1 then 1 else 0);
      rest := rest >> 1;
      i := i + 1;
    }
  }

  /** Writing the status byte twice keeps the second value only. */
  lemma StatusOverwritten(regs: Registers, first: bv8, second: bv8)
    ensures M.WithStatus(regs[STATUS := first], second) == M.WithStatus(regs, second)
  {
  }

  /**
   * The value DAA computes, taken apart into the two adjustment steps the
   * handler performs one after the other.
   */
  lemma DaaSteps(regs: Registers, mask: bv8, low: bool, a1: bv8, high: bool, a2: bv8, result: bv16)
    requires low == ((regs[A] & 0x0F) > 9 || regs[STATUS] & AC != 0)
    requires a1 == if low then regs[A] + 0x06 else regs[A]
    requires high == ((a1 & 0xF0) >> 4 > 9 || regs[STATUS] & CY != 0)
    requires a2 == if high then a1 + 0x60 else a1
    requires result == if high then a1 as bv16 + 0x60 else if low then regs[A] as bv16 + 0x06 else regs[A] as bv16
    ensures M.Daa(regs, mask) == M.WithFlags(regs[A := a2], M.Bit4(regs[A]), result, mask)
  {
  }

  /** ADD and SUB, in their register, memory and immediate forms. */
  predicate WithoutCarry(op: AddSubHandler) {
    op.AddRegister? || op.AddMemory? || op.Adi? || op.SubRegister? || op.SubMemory? || op.Sui?
  }

  /** ANA and ANI. */
  predicate AndForm(op: LogicHandler) {
    op.AnaRegister? || op.AnaMemory? || op.Ani?
  }

  /** XRA and XRI. */
  predicate XorForm(op: LogicHandler) {
    op.XraRegister? || op.XraMemory? || op.Xri?
  }

  class Machine {
    /** `register_file`: C, B, E, D, L, H, A, STATUS. */
    var regs: array<bv8>
    var pc: word
    var sp: word
    /** `memory`, the `ADDRESSED_SPACE_SIZE` bytes of `address_space`. */
    var memory: array<bv8>
    var io: array<bv8>
    var ir: bv8
    var interruptEnable: bv8
    var haltEnable: bv8
    var interruptRequest: bv8
    var interruptVector: InterruptDevice
    var time: u32

    /**
     * The set-up `main` does before its loop, given the program image and
     * the port contents: fresh arrays, everything zero but memory, and the
     * storage control register set to RDY.
     */
    constructor (image: Memory, ports: Ports)
      ensures Valid() && fresh(regs) && fresh(memory) && fresh(io)
      ensures Snapshot() == F.Boot(image, ports)
    {
      time := 0;
      haltEnable := 0;
      interruptRequest := 0;
      interruptEnable := 0;
      ir := 0;
      sp := 0;
      regs := new bv8[8](_ => 0);
      memory := new bv8[ADDRESSED_SPACE_SIZE](i => if 0 <= i < ADDRESSED_SPACE_SIZE then image[i] else 0);
      io := new bv8[PORTS](i => if 0 <= i < PORTS then ports[i] else 0);
      pc := 0;
      interruptVector := NoInterrupt;
      new;
      assert regs[..] == [0, 0, 0, 0, 0, 0, 0, 0];
      assert memory[..] == image;
      assert io[..] == ports;
      memory[NV_MEM_CTRL_REG] := RDY;
    }

    /** The arrays have their C sizes and do not overlap. */
    predicate Valid()
      reads this
    {
      && regs.Length == 8
      && memory.Length == ADDRESSED_SPACE_SIZE
      && io.Length == PORTS
      && regs != memory && regs != io && memory != io
    }

    /** The machine state as a value. */
    function Snapshot(): Cpu
      reads this, regs, memory, io
      requires Valid()
    {
      Cpu(regs[..], pc, sp, memory[..], io[..], ir, interruptEnable, haltEnable, interruptRequest, interruptVector, time)
    }

    /** The pair at `p` read through a `uint16_t*`. */
    function Pair(p: PairOffset): word
      reads this, regs
      requires Valid()
    {
      Word(regs[p + 1], regs[p])
    }

    /** `*pair = v` through a `uint16_t*` into the register file: low byte first. */
    method StorePair(p: PairOffset, v: word)
      requires Valid()
      modifies regs
      ensures Valid()
      ensures regs[..] == WithPair(old(regs[..]), p, v)
    {
      regs[p] := LowByte(v);
      regs[p + 1] := HighByte(v);
    }

    /** The parity step of ModifyFlags: count the one bits of the low byte, then rewrite EP. */
    method ModifyParity(result: bv16)
      requires Valid()
      modifies regs
      ensures Valid()
      ensures regs[..] == old(regs[..])[STATUS := UpdateParity(old(regs[STATUS]), result)]
    {
      var parity := CountOnes(Truncate(result));
      regs[STATUS] := regs[STATUS] & !0x10;
      regs[STATUS] := regs[STATUS] + FlagBit(parity % 2 == 0, 0x10);
    }

    /** The zero step of ModifyFlags. */
    method ModifyZero(result: bv16)
      requires Valid()
      modifies regs
      ensures Valid()
      ensures regs[..] == old(regs[..])[STATUS := UpdateZero(old(regs[STATUS]), result)]
    {
      if Truncate(result) == 0 {
        regs[STATUS] := regs[STATUS] | 0x08;
      } else {
        regs[STATUS] := regs[STATUS] & !0x08;
      }
    }

    /** The sign step of ModifyFlags. */
    method ModifySign(result: bv16)
      requires Valid()
      modifies regs
      ensures Valid()
      ensures regs[..] == old(regs[..])[STATUS := UpdateSign(old(regs[STATUS]), result)]
    {
      regs[STATUS] := regs[STATUS] & !0x04;
      regs[STATUS] := regs[STATUS] + ((result & 0x80) >> 5) as bv8;
    }

    /** The auxiliary-carry step of ModifyFlags. */
    method ModifyAuxCarry(bit4Sum: bv8, result: bv16)
      requires Valid()
      modifies regs
      ensures Valid()
      ensures regs[..] == old(regs[..])[STATUS := UpdateAuxCarry(old(regs[STATUS]), bit4Sum, result)]
    {
      if AuxCarryRule(bit4Sum, result) {
        regs[STATUS] := regs[STATUS] | 0x02;
      } else {
        regs[STATUS] := regs[STATUS] & !0x02;
      }
    }

    /** The carry step of ModifyFlags. */
    method ModifyCarry(result: bv16)
      requires Valid()
      modifies regs
      ensures Valid()
      ensures regs[..] == old(regs[..])[STATUS := UpdateCarry(old(regs[STATUS]), result)]
    {
      regs[STATUS] := regs[STATUS] & !0x01;
      regs[STATUS] := regs[STATUS] + ((result & 0x100) >> 8) as bv8;
    }

    /**
     * `ModifyFlags(bit_4_sum, result, flags_to_modify)`: the five guarded
     * updates of the status byte, in the source's order.
     */
    method ModifyFlags(bit4Sum: bv8, result: bv16, mask: bv8)
      requires Valid()
      modifies regs
      ensures Valid()
      ensures regs[..] == old(regs[..])[STATUS := ModifiedFlags(old(regs[STATUS]), bit4Sum, result, mask)]
    {
      ghost var r0 := regs[..];
      ghost var s0 := regs[STATUS];
      if mask & 0x10 != 0 {
        ModifyParity(result);
      }
      ghost var s1 := if mask & EP != 0 then UpdateParity(s0, result) else s0;
      assert regs[..] == r0[STATUS := s1];
      if mask & 0x08 != 0 {
        ModifyZero(result);
      }
      ghost var s2 := if mask & Z != 0 then UpdateZero(s1, result) else s1;
      assert regs[..] == r0[STATUS := s2];
      if mask & 0x04 != 0 {
        ModifySign(result);
      }
      ghost var s3 := if mask & S != 0 then UpdateSign(s2, result) else s2;
      assert regs[..] == r0[STATUS := s3];
      if mask & 0x02 != 0 {
        ModifyAuxCarry(bit4Sum, result);
      }
      ghost var s4 := if mask & AC != 0 then UpdateAuxCarry(s3, bit4Sum, result) else s3;
      assert regs[..] == r0[STATUS := s4];
      if mask & 0x01 != 0 {
        ModifyCarry(result);
      }
      assert regs[..] == r0[STATUS := SequentialFlags(s0, bit4Sum, result, mask)];
      SequentialIsMasked(old(regs[STATUS]), bit4Sum, result, mask);
    }

    /** The pair or stack pointer a descriptor names, read as a word. */
    function ReadRef(rp: PairRef): word
      reads this, regs
      requires Valid()
    {
      match rp
      case RegisterPair(p) => Pair(p)
      case StackPointer => sp
    }

    /** `*register_pair = v` for a pair or the stack pointer. */
    method WriteRef(rp: PairRef, v: word)
      requires Valid()
      modifies this, regs
      ensures Valid() && regs == old(regs) && memory == old(memory) && io == old(io)
      ensures Snapshot() == WritePair(old(Snapshot()), rp, v)
    {
      match rp
      case RegisterPair(p) =>
        StorePair(p, v);
      case StackPointer =>
        sp := v;
    }

    // ---------------------------------------------------------------- data transfer

    method MovRegister(src: RegIndex, dst: RegIndex)
      requires Valid()
      modifies regs
      ensures Valid()
      ensures Snapshot() == old(Snapshot()).(regs := M.MovRegister(old(regs[..]), src, dst))
    {
      regs[dst] := regs[src];
    }

    method MovToMemory(src: RegIndex)
      requires Valid() && InMemory(Pair(H_PAIR))
      modifies memory
      ensures Valid()
      ensures Snapshot() == M.MovToMemory(old(Snapshot()), src)
    {
      var address := Pair(H_PAIR);
      memory[address] := regs[src];
    }

    method MovFromMemory(dst: RegIndex)
      requires Valid() && InMemory(Pair(H_PAIR))
      modifies regs
      ensures Valid()
      ensures Snapshot() == M.MovFromMemory(old(Snapshot()), dst)
    {
      var address := Pair(H_PAIR);
      regs[dst] := memory[address];
    }

    /** MVI: to the destination register when the descriptor names one, otherwise to memory[HL]. */
    method Mvi(dst: Option<RegIndex>)
      requires Valid() && InMemory(pc) && (dst.None? ==> InMemory(Pair(H_PAIR)))
      modifies this, regs, memory
      ensures Valid() && regs == old(regs) && memory == old(memory) && io == old(io)
      ensures Snapshot() == M.Mvi(old(Snapshot()), dst)
    {
      var address := Pair(H_PAIR);
      if dst.Some? {
        regs[dst.value] := memory[pc];
        pc := Wrap16(pc + 1);
        return;
      }
      memory[address] := memory[pc];
      pc := Wrap16(pc + 1);
    }

    method Lxi(rp: PairRef)
      requires Valid() && InMemory(pc + 1)
      modifies this, regs
      ensures Valid() && regs == old(regs) && memory == old(memory) && io == old(io)
      ensures Snapshot() == M.Lxi(old(Snapshot()), rp)
    {
      var lowByte := memory[pc + 0];
      var highByte := memory[pc + 1];
      pc := Wrap16(pc + 2);
      WriteRef(rp, Word(highByte, lowByte));
    }

    method Lda()
      requires Valid() && InMemory(pc + 1) && InMemory(Operand16(Snapshot()))
      modifies this, regs
      ensures Valid() && regs == old(regs) && memory == old(memory) && io == old(io)
      ensures Snapshot() == M.Lda(old(Snapshot()))
    {
      var lowByte := memory[pc + 0];
      var highByte := memory[pc + 1];
      pc := Wrap16(pc + 2);
      var address := Word(highByte, lowByte);
      regs[A] := memory[address];
    }

    method Sta()
      requires Valid() && InMemory(pc + 1) && InMemory(Operand16(Snapshot()))
      modifies this, memory
      ensures Valid() && regs == old(regs) && memory == old(memory) && io == old(io)
      ensures Snapshot() == M.Sta(old(Snapshot()))
    {
      var lowByte := memory[pc + 0];
      var highByte := memory[pc + 1];
      pc := Wrap16(pc + 2);
      var address := Word(highByte, lowByte);
      memory[address] := regs[A];
    }

    method Lhld()
      requires Valid() && InMemory(pc + 1) && InMemory(Operand16(Snapshot()) + 1)
      modifies this, regs
      ensures Valid() && regs == old(regs) && memory == old(memory) && io == old(io)
      ensures Snapshot() == M.Lhld(old(Snapshot()))
    {
      var lowByte := memory[pc + 0];
      var highByte := memory[pc + 1];
      pc := Wrap16(pc + 2);
      var address := Word(highByte, lowByte);
      regs[L] := memory[address + 0];
      regs[H] := memory[address + 1];
    }

    method Shld()
      requires Valid() && InMemory(pc + 1) && InMemory(Operand16(Snapshot()) + 1)
      modifies this, memory
      ensures Valid() && regs == old(regs) && memory == old(memory) && io == old(io)
      ensures Snapshot() == M.Shld(old(Snapshot()))
    {
      var lowByte := memory[pc + 0];
      var highByte := memory[pc + 1];
      pc := Wrap16(pc + 2);
      var address := Word(highByte, lowByte);
      memory[address + 0], memory[address + 1] := regs[L], regs[H];
    }

    method Ldax(rp: PairRef)
      requires Valid() && InMemory(ReadRef(rp))
      modifies regs
      ensures Valid()
      ensures Snapshot() == M.Ldax(old(Snapshot()), rp)
    {
      var address := ReadRef(rp);
      regs[A] := memory[address];
    }

    method Stax(rp: PairRef)
      requires Valid() && InMemory(ReadRef(rp))
      modifies memory
      ensures Valid()
      ensures Snapshot() == M.Stax(old(Snapshot()), rp)
    {
      var address := ReadRef(rp);
      memory[address] := regs[A];
    }

    method Xchg()
      requires Valid()
      modifies regs
      ensures Valid()
      ensures Snapshot() == old(Snapshot()).(regs := M.Xchg(old(regs[..])))
    {
      var temporary := Pair(H_PAIR);
      StorePair(H_PAIR, Pair(D_PAIR));
      StorePair(D_PAIR, temporary);
    }

    // ---------------------------------------------------------------- arithmetic

    /** `a[0] = value; ModifyFlags(bit4Sum, result, mask)`, the tail every accumulator handler shares. */
    method Accumulate(value: bv8, bit4Sum: bv8, result: bv16, mask: bv8)
      requires Valid()
      modifies regs
      ensures Valid()
      ensures regs[..] == M.WithFlags(old(regs[..])[A := value], bit4Sum, result, mask)
    {
      regs[A] := value;
      ModifyFlags(bit4Sum, result, mask);
    }

    /** ADD, ADI and the memory form: A += v, then the flag engine on the 16-bit sum. */
    method AddValue(v: bv8, mask: bv8)
      requires Valid()
      modifies regs
      ensures Valid()
      ensures Snapshot() == old(Snapshot()).(regs := M.AddValue(old(regs[..]), v, mask))
    {
      ghost var r0 := regs[..];
      var a := regs[A];
      assert a == r0[A];
      Accumulate(a + v, M.Bit4Sum(a, v), M.WideSum(a, v), mask);
    }

    /** SUB, SUI and the memory form. */
    method SubValue(v: bv8, mask: bv8)
      requires Valid()
      modifies regs
      ensures Valid()
      ensures Snapshot() == old(Snapshot()).(regs := M.SubValue(old(regs[..]), v, mask))
    {
      ghost var r0 := regs[..];
      var a := regs[A];
      assert a == r0[A];
      Accumulate(a - v, M.Bit4Sum(a, v), M.WideDifference(a, v), mask);
    }

    /** ADC, ACI and the memory form: the carry is added into A but not into the flags' result. */
    method AdcValue(v: bv8, mask: bv8)
      requires Valid()
      modifies regs
      ensures Valid()
      ensures Snapshot() == old(Snapshot()).(regs := M.AdcValue(old(regs[..]), v, mask))
    {
      ghost var r0 := regs[..];
      var a := regs[A];
      var carry := regs[STATUS] & 0x01;
      assert a == r0[A] && carry == r0[STATUS] & CY;
      Accumulate(a + (v + carry), M.Bit4Sum(a, v), M.WideSum(a, v), mask);
    }

    /** SBB, SBI and the memory form. */
    method SbbValue(v: bv8, mask: bv8)
      requires Valid()
      modifies regs
      ensures Valid()
      ensures Snapshot() == old(Snapshot()).(regs := M.SbbValue(old(regs[..]), v, mask))
    {
      ghost var r0 := regs[..];
      var a := regs[A];
      var carry := regs[STATUS] & 0x01;
      assert a == r0[A] && carry == r0[STATUS] & CY;
      Accumulate(a - (v + carry), M.Bit4Sum(a, v), M.WideDifference(a, v), mask);
    }

    method InrRegister(reg: RegIndex, mask: bv8)
      requires Valid()
      modifies regs
      ensures Valid()
      ensures Snapshot() == old(Snapshot()).(regs := M.InrRegister(old(regs[..]), reg, mask))
    {
      var bit4 := M.Bit4(regs[reg]);
      regs[reg] := regs[reg] + 1;
      ModifyFlags(bit4, regs[reg] as bv16, mask);
    }

    method DcrRegister(reg: RegIndex, mask: bv8)
      requires Valid()
      modifies regs
      ensures Valid()
      ensures Snapshot() == old(Snapshot()).(regs := M.DcrRegister(old(regs[..]), reg, mask))
    {
      var bit4 := M.Bit4(regs[reg]);
      regs[reg] := regs[reg] - 1;
      ModifyFlags(bit4, regs[reg] as bv16, mask);
    }

    method InrMemory(mask: bv8)
      requires Valid() && InMemory(Pair(H_PAIR))
      modifies regs, memory
      ensures Valid()
      ensures Snapshot() == M.InrMemory(old(Snapshot()), mask)
    {
      var address := Pair(H_PAIR);
      var bit4 := M.Bit4(memory[address]);
      memory[address] := memory[address] + 1;
      ModifyFlags(bit4, memory[address] as bv16, mask);
    }

    method DcrMemory(mask: bv8)
      requires Valid() && InMemory(Pair(H_PAIR))
      modifies regs, memory
      ensures Valid()
      ensures Snapshot() == M.DcrMemory(old(Snapshot()), mask)
    {
      var address := Pair(H_PAIR);
      var bit4 := M.Bit4(memory[address]);
      memory[address] := memory[address] - 1;
      ModifyFlags(bit4, memory[address] as bv16, mask);
    }

    method Inx(rp: PairRef)
      requires Valid()
      modifies this, regs
      ensures Valid() && regs == old(regs) && memory == old(memory) && io == old(io)
      ensures Snapshot() == M.Inx(old(Snapshot()), rp)
    {
      WriteRef(rp, Wrap16(ReadRef(rp) + 1));
    }

    method Dcx(rp: PairRef)
      requires Valid()
      modifies this, regs
      ensures Valid() && regs == old(regs) && memory == old(memory) && io == old(io)
      ensures Snapshot() == M.Dcx(old(Snapshot()), rp)
    {
      WriteRef(rp, Wrap16(ReadRef(rp) - 1));
    }

    /** DAD: the truncated 16-bit sum is both stored in HL and handed to the flag engine. */
    method Dad(addend: word, mask: bv8)
      requires Valid()
      modifies regs
      ensures Valid()
      ensures Snapshot() == old(Snapshot()).(regs := M.Dad(old(regs[..]), addend, mask))
    {
      var result := Wrap16(Pair(H_PAIR) + addend);
      StorePair(H_PAIR, Wrap16(Pair(H_PAIR) + addend));
      ModifyFlags(0, WordBits(result), mask);
    }

    method Daa(mask: bv8)
      requires Valid()
      modifies regs
      ensures Valid()
      ensures Snapshot() == old(Snapshot()).(regs := M.Daa(old(regs[..]), mask))
    {
      ghost var r0 := regs[..];
      var a := regs[A];
      var status := regs[STATUS];
      var bit4 := M.Bit4(a);
      var result: bv16 := a as bv16;
      var low := (a & 0x0F) > 9 || status & AC != 0;
      if low {
        result := a as bv16 + 0x06;
        a := a + 0x06;
      }
      ghost var a1 := a;
      var high := (a & 0xF0) >> 4 > 9 || status & CY != 0;
      if high {
        result := a as bv16 + 0x60;
        a := a + 0x60;
      }
      DaaSteps(r0, mask, low, a1, high, a, result);
      Accumulate(a, bit4, result, mask);
    }

    // ---------------------------------------------------------------- logic

    /** ANA/XRA/ORA and the immediate forms: A := A op v, the flag engine, then `status &= ~cleared`. */
    method Logical(op: M.LogicOp, v: bv8, mask: bv8, cleared: bv8)
      requires Valid()
      modifies regs
      ensures Valid()
      ensures Snapshot() == old(Snapshot()).(regs := M.Logical(old(regs[..]), op, v, mask, cleared))
    {
      ghost var r0 := regs[..];
      var a := regs[A];
      var result := M.Apply(op, a, v);
      assert a == r0[A];
      Accumulate(result, M.Bit4Sum(a, v), result as bv16, mask);
      regs[STATUS] := M.Cleared(regs[STATUS], cleared);
    }

    /** The tail of CMP/CPI: Z and CY put back from `saved`, then set when `a == v` and `a < v`. */
    method RestoreCompared(saved: bv8, a: bv8, v: bv8)
      requires Valid()
      modifies regs
      ensures Valid()
      ensures regs[..] == M.WithStatus(old(regs[..]), M.ComparedStatus(old(regs[STATUS]), saved, a, v))
    {
      regs[STATUS] := M.ZeroCarryRestored(regs[STATUS], saved);
      if a == v {
        regs[STATUS] := M.Raised(regs[STATUS], Z);
      }
      if a < v {
        regs[STATUS] := M.Raised(regs[STATUS], CY);
      }
    }

    /** CMP/CPI: flags from A - v, then Z and CY restored and set when A == v and A < v. */
    method Compare(v: bv8, mask: bv8)
      requires Valid()
      modifies regs
      ensures Valid()
      ensures Snapshot() == old(Snapshot()).(regs := M.Compare(old(regs[..]), v, mask))
    {
      ghost var r0 := regs[..];
      var a := regs[A];
      var saved := regs[STATUS];
      ModifyFlags(M.Bit4Sum(a, v), M.WideDifference(a, v), mask);
      StatusOverwritten(r0, regs[STATUS], M.ComparedStatus(regs[STATUS], saved, a, v));
      RestoreCompared(saved, a, v);
    }

    /** The common tail of the four rotations: the rotated accumulator and the status byte with the new carry. */
    method Rotate(a: bv8, status: bv8)
      requires Valid()
      modifies regs
      ensures Valid()
      ensures regs[..] == M.WithAccumulatorStatus(old(regs[..]), a, status)
    {
      regs[A] := a;
      regs[STATUS] := status;
    }

    /** `status[0] = status`. */
    method SetStatus(status: bv8)
      requires Valid()
      modifies regs
      ensures Valid()
      ensures regs[..] == M.WithStatus(old(regs[..]), status)
    {
      regs[STATUS] := status;
    }

    method Rlc()
      requires Valid()
      modifies regs
      ensures Valid()
      ensures Snapshot() == old(Snapshot()).(regs := M.Rlc(old(regs[..])))
    {
      var a := regs[A];
      var bit7 := (a & 0x80) >> 7;
      Rotate(M.ShiftedLeft(a, bit7), M.WithCarry(regs[STATUS], bit7));
    }

    method Rrc()
      requires Valid()
      modifies regs
      ensures Valid()
      ensures Snapshot() == old(Snapshot()).(regs := M.Rrc(old(regs[..])))
    {
      var a := regs[A];
      var bit0 := a & 0x01;
      Rotate(M.ShiftedRight(a, bit0), M.WithCarry(regs[STATUS], bit0));
    }

    /** RAL: the "new carry" `(a * 0x80) >> 7` is computed in int and truncated to A itself. */
    method Ral()
      requires Valid()
      modifies regs
      ensures Valid()
      ensures Snapshot() == old(Snapshot()).(regs := M.Ral(old(regs[..])))
    {
      var a := regs[A];
      var status := regs[STATUS];
      // `(a * 0x80) >> 7` is evaluated in int and truncated to a byte: A itself.
      var newCarry := a;
      Rotate(M.ShiftedLeft(a, status & 0x01), M.WithCarry(status, newCarry));
    }

    method Rar()
      requires Valid()
      modifies regs
      ensures Valid()
      ensures Snapshot() == old(Snapshot()).(regs := M.Rar(old(regs[..])))
    {
      var a := regs[A];
      var status := regs[STATUS];
      var newCarry := a & 0x01;
      Rotate(M.ShiftedRight(a, status & 0x01), M.WithCarry(status, newCarry));
    }

    method Cma()
      requires Valid()
      modifies regs
      ensures Valid()
      ensures Snapshot() == old(Snapshot()).(regs := M.Cma(old(regs[..])))
    {
      regs[A] := !regs[A];
    }

    method Cmc()
      requires Valid()
      modifies regs
      ensures Valid()
      ensures Snapshot() == old(Snapshot()).(regs := M.Cmc(old(regs[..])))
    {
      regs[STATUS] := regs[STATUS] ^ 0x01;
    }

    method Stc()
      requires Valid()
      modifies regs
      ensures Valid()
      ensures Snapshot() == old(Snapshot()).(regs := M.Stc(old(regs[..])))
    {
      regs[STATUS] := regs[STATUS] | 0x01;
    }

    // ---------------------------------------------------------------- branch

    method Jmp()
      requires Valid() && InMemory(pc + 1)
      modifies this
      ensures Valid() && regs == old(regs) && memory == old(memory) && io == old(io)
      ensures Snapshot() == M.Jmp(old(Snapshot()))
    {
      var highByte := memory[pc + 1];
      var lowByte := memory[pc + 0];
      pc := Word(highByte, lowByte);
    }

    /** Jcc, with the condition already evaluated on the status byte. */
    method JumpIf(taken: bool)
      requires Valid() && InMemory(pc + 1)
      modifies this
      ensures Valid() && regs == old(regs) && memory == old(memory) && io == old(io)
      ensures Snapshot() == M.JumpIf(old(Snapshot()), taken)
    {
      var highByte := memory[pc + 1];
      var lowByte := memory[pc + 0];
      var address := Word(highByte, lowByte);
      if taken {
        pc := address;
        return;
      }
      pc := Wrap16(pc + 2);
    }

    /** CALL: `memory[sp] = pc` keeps only the low byte of the return address. */
    method Call()
      requires Valid() && InMemory(pc + 1) && InMemory(Wrap16(sp - 2))
      modifies this, memory
      ensures Valid() && regs == old(regs) && memory == old(memory) && io == old(io)
      ensures Snapshot() == M.Call(old(Snapshot()))
    {
      var highByte := memory[pc + 1];
      var lowByte := memory[pc + 0];
      var address := Word(highByte, lowByte);
      pc := Wrap16(pc + 2);
      sp := Wrap16(sp - 2);
      memory[sp] := LowByte(pc);
      pc := address;
    }

    /** Ccc: the operand is read whether or not the call is taken. */
    method CallIf(taken: bool)
      requires Valid() && InMemory(pc + 1) && (taken ==> InMemory(Wrap16(sp - 2)))
      modifies this, memory
      ensures Valid() && regs == old(regs) && memory == old(memory) && io == old(io)
      ensures Snapshot() == M.CallIf(old(Snapshot()), taken)
    {
      var highByte := memory[pc + 1];
      var lowByte := memory[pc + 0];
      var address := Word(highByte, lowByte);
      if taken {
        pc := Wrap16(pc + 2);
        sp := Wrap16(sp - 2);
        memory[sp] := LowByte(pc);
        pc := address;
      }
    }

    method Ret()
      requires Valid() && InMemory(sp + 1)
      modifies this
      ensures Valid() && regs == old(regs) && memory == old(memory) && io == old(io)
      ensures Snapshot() == M.Ret(old(Snapshot()))
    {
      var highByte := memory[sp + 1];
      var lowByte := memory[sp + 0];
      var address := Word(highByte, lowByte);
      sp := Wrap16(sp + 2);
      pc := address;
    }

    /** Rcc: the stack top is read whether or not the return is taken. */
    method ReturnIf(taken: bool)
      requires Valid() && InMemory(sp + 1)
      modifies this
      ensures Valid() && regs == old(regs) && memory == old(memory) && io == old(io)
      ensures Snapshot() == M.ReturnIf(old(Snapshot()), taken)
    {
      var highByte := memory[sp + 1];
      var lowByte := memory[sp + 0];
      var address := Word(highByte, lowByte);
      if taken {
        sp := Wrap16(sp + 2);
        pc := address;
      }
    }

    /** RST: guarded by the Sign bit, 0x04, of the status byte. */
    method Rst()
      requires Valid() && (regs[STATUS] & S != 0 ==> InMemory(Wrap16(sp - 2)))
      modifies this, memory
      ensures Valid() && regs == old(regs) && memory == old(memory) && io == old(io)
      ensures Snapshot() == M.Rst(old(Snapshot()))
    {
      var address := M.RestartAddress(ir);
      if regs[STATUS] & 0x04 != 0 {
        sp := Wrap16(sp - 2);
        memory[sp] := LowByte(pc);
        pc := address;
      }
    }

    method Pchl()
      requires Valid()
      modifies this
      ensures Valid() && regs == old(regs) && memory == old(memory) && io == old(io)
      ensures Snapshot() == M.Pchl(old(Snapshot()))
    {
      pc := Pair(H_PAIR);
    }

    // ---------------------------------------------------------------- stack, I/O, machine control

    /** PUSH rp: `memory[sp] = pushed_value` keeps only the low byte. */
    method PushRp(rp: PairRef)
      requires Valid() && InMemory(Wrap16(sp - 2))
      modifies this, memory
      ensures Valid() && regs == old(regs) && memory == old(memory) && io == old(io)
      ensures Snapshot() == M.PushRp(old(Snapshot()), rp)
    {
      var pushedValue := ReadRef(rp);
      sp := Wrap16(sp - 2);
      memory[sp] := LowByte(pushedValue);
    }

    method PushPsw()
      requires Valid() && sp >= 2
      modifies this, memory
      ensures Valid() && regs == old(regs) && memory == old(memory) && io == old(io)
      ensures Snapshot() == M.PushPsw(old(Snapshot()))
    {
      var pushedStatus := M.PushedStatus(regs[STATUS]);
      memory[sp - 1] := regs[A];
      memory[sp - 2] := pushedStatus;
      sp := sp - 2;
    }

    /** POP rp: the pair receives the single byte memory[sp], zero-extended. */
    method PopRp(rp: PairRef)
      requires Valid() && InMemory(sp)
      modifies this, regs
      ensures Valid() && regs == old(regs) && memory == old(memory) && io == old(io)
      ensures Snapshot() == M.PopRp(old(Snapshot()), rp)
    {
      WriteRef(rp, Word(0, memory[sp]));
      sp := Wrap16(sp + 2);
    }

    method PopPsw()
      requires Valid() && InMemory(sp + 1)
      modifies this, regs
      ensures Valid() && regs == old(regs) && memory == old(memory) && io == old(io)
      ensures Snapshot() == M.PopPsw(old(Snapshot()))
    {
      var poppedStatus := memory[sp + 0];
      regs[STATUS] := M.PoppedStatus(poppedStatus);
      regs[A] := memory[sp + 1];
      sp := Wrap16(sp + 2);
    }

    /** XTHL: `h_pair[0] = memory[sp]` zero-extends a single byte. */
    method Xthl()
      requires Valid() && InMemory(sp + 1)
      modifies regs, memory
      ensures Valid()
      ensures Snapshot() == M.Xthl(old(Snapshot()))
    {
      var temporaryH := regs[H];
      var temporaryL := regs[L];
      StorePair(H_PAIR, Word(0, memory[sp]));
      memory[sp + 0] := temporaryL;
      memory[sp + 1] := temporaryH;
    }

    method Sphl()
      requires Valid()
      modifies this
      ensures Valid() && regs == old(regs) && memory == old(memory) && io == old(io)
      ensures Snapshot() == M.Sphl(old(Snapshot()))
    {
      sp := Pair(H_PAIR);
    }

    method In()
      requires Valid() && InMemory(pc)
      modifies this, regs
      ensures Valid() && regs == old(regs) && memory == old(memory) && io == old(io)
      ensures Snapshot() == M.In(old(Snapshot()))
    {
      var port := memory[pc + 0];
      pc := Wrap16(pc + 1);
      regs[A] := io[port];
    }

    method Out()
      requires Valid() && InMemory(pc)
      modifies this, io
      ensures Valid() && regs == old(regs) && memory == old(memory) && io == old(io)
      ensures Snapshot() == M.Out(old(Snapshot()))
    {
      var port := memory[pc + 0];
      pc := Wrap16(pc + 1);
      io[port] := regs[A];
    }

    method Ei()
      requires Valid()
      modifies this
      ensures Valid() && regs == old(regs) && memory == old(memory) && io == old(io)
      ensures Snapshot() == M.Ei(old(Snapshot()))
    {
      interruptEnable := interruptEnable | 0x01;
    }

    method Di()
      requires Valid()
      modifies this
      ensures Valid() && regs == old(regs) && memory == old(memory) && io == old(io)
      ensures Snapshot() == M.Di(old(Snapshot()))
    {
      interruptEnable := interruptEnable & !0x01;
    }

    method Hlt()
      requires Valid()
      modifies this
      ensures Valid() && regs == old(regs) && memory == old(memory) && io == old(io)
      ensures Snapshot() == M.Hlt(old(Snapshot()))
    {
      haltEnable := haltEnable | 0x01;
    }

    // ---------------------------------------------------------------- fetch

    /**
     * `InterruptCheckAndInstructionFetch`: an accepted interrupt clears the
     * request and loads IR with the vector's RST opcode; otherwise IR
     * receives memory[pc] and pc advances.  The bounds test for pc comes
     * before the request is cleared, so an undefined fetch changes nothing.
     */
    method FetchInstruction() returns (defined: bool)
      requires Valid()
      modifies this
      ensures Valid() && regs == old(regs) && memory == old(memory) && io == old(io)
      ensures defined == F.Fetch(old(Snapshot())).Next?
      ensures defined ==> Snapshot() == F.Fetch(old(Snapshot())).cpu
      ensures !defined ==> Snapshot() == old(Snapshot())
    {
      if interruptRequest != 0 && interruptEnable != 0 {
        match interruptVector
        case StorageRead =>
          interruptRequest := 0;
          ir := 0xd7;
          return true;
        case StorageWrite =>
          interruptRequest := 0;
          ir := 0xdf;
          return true;
        case Keyboard =>
          interruptRequest := 0;
          ir := 0xe7;
          return true;
        case Display =>
          interruptRequest := 0;
          ir := 0xef;
          return true;
        case NoInterrupt =>
          if !InMemory(pc) {
            return false;
          }
          interruptRequest := 0;
      }
      if !InMemory(pc) {
        return false;
      }
      ir := memory[pc];
      pc := Wrap16(pc + 1);
      defined := true;
    }

    // ---------------------------------------------------------------- dispatch

    /**
     * One data-transfer handler with its descriptor.  `defined` is false
     * exactly when the step is undefined behaviour in C; the machine is
     * then left as it was.
     */
    method ExecuteTransfer(op: TransferHandler, d: Descriptor) returns (defined: bool)
      requires Valid()
      modifies this, regs, memory
      ensures Valid() && regs == old(regs) && memory == old(memory) && io == old(io)
      ensures defined == D.ExecuteTransfer(op, d, old(Snapshot())).Next?
      ensures defined ==> Snapshot() == D.ExecuteTransfer(op, d, old(Snapshot())).cpu
      ensures !defined ==> Snapshot() == old(Snapshot())
    {
      ghost var c := Snapshot();
      var hl := Pair(H_PAIR);
      defined := true;
      match op
      case MovRegister =>
        if d.register1.Some? && d.register2.Some? {
          MovRegister(d.register1.value, d.register2.value);
        } else {
          defined := false;
        }
      case MovToMemory =>
        if d.register1.Some? && InMemory(hl) {
          MovToMemory(d.register1.value);
        } else {
          defined := false;
        }
      case MovFromMemory =>
        if d.register2.Some? && InMemory(hl) {
          MovFromMemory(d.register2.value);
        } else {
          defined := false;
        }
      case Mvi =>
        if InMemory(pc) && (d.register2.None? ==> InMemory(hl)) {
          Mvi(d.register2);
        } else {
          defined := false;
        }
      case Lxi =>
        if d.registerPair.Some? && InMemory(pc + 1) {
          Lxi(d.registerPair.value);
        } else {
          defined := false;
        }
      case Lda =>
        if InMemory(pc + 1) && InMemory(Operand16(Snapshot())) {
          Lda();
        } else {
          defined := false;
        }
      case Sta =>
        if InMemory(pc + 1) && InMemory(Operand16(Snapshot())) {
          Sta();
        } else {
          defined := false;
        }
      case Lhld =>
        if InMemory(pc + 1) && InMemory(Operand16(Snapshot()) + 1) {
          Lhld();
        } else {
          defined := false;
        }
      case Shld =>
        if InMemory(pc + 1) && InMemory(Operand16(Snapshot()) + 1) {
          Shld();
        } else {
          defined := false;
        }
      case Ldax =>
        if d.registerPair.Some? && InMemory(ReadRef(d.registerPair.value)) {
          Ldax(d.registerPair.value);
        } else {
          defined := false;
        }
      case Stax =>
        if d.registerPair.Some? && InMemory(ReadRef(d.registerPair.value)) {
          Stax(d.registerPair.value);
        } else {
          defined := false;
        }
      case Xchg =>
        Xchg();
    }

    /** One add or subtract handler: the register, memory and immediate forms of ADD, SUB, ADC and SBB. */
    method ExecuteAddSub(op: AddSubHandler, d: Descriptor) returns (defined: bool)
      requires Valid()
      modifies this, regs, memory
      ensures Valid() && regs == old(regs) && memory == old(memory) && io == old(io)
      ensures defined == D.ExecuteAddSub(op, d, old(Snapshot())).Next?
      ensures defined ==> Snapshot() == D.ExecuteAddSub(op, d, old(Snapshot())).cpu
      ensures !defined ==> Snapshot() == old(Snapshot())
    {
      if WithoutCarry(op) {
        defined := ExecuteAddOrSub(op, d);
      } else {
        defined := ExecuteWithCarry(op, d);
      }
    }

    /** The ADD and SUB forms. */
    method ExecuteAddOrSub(op: AddSubHandler, d: Descriptor) returns (defined: bool)
      requires Valid() && WithoutCarry(op)
      modifies this, regs, memory
      ensures Valid() && regs == old(regs) && memory == old(memory) && io == old(io)
      ensures defined == D.ExecuteAddSub(op, d, old(Snapshot())).Next?
      ensures defined ==> Snapshot() == D.ExecuteAddSub(op, d, old(Snapshot())).cpu
      ensures !defined ==> Snapshot() == old(Snapshot())
    {
      var hl := Pair(H_PAIR);
      defined := true;
      match op
      case AddRegister =>
        if d.register1.Some? {
          AddValue(regs[d.register1.value], d.flags);
        } else {
          defined := false;
        }
      case AddMemory =>
        if InMemory(hl) {
          AddValue(memory[hl], d.flags);
        } else {
          defined := false;
        }
      case Adi =>
        if InMemory(pc) {
          var operand := memory[pc + 0];
          AddValue(operand, d.flags);
          pc := Wrap16(pc + 1);
        } else {
          defined := false;
        }
      case SubRegister =>
        if d.register1.Some? {
          SubValue(regs[d.register1.value], d.flags);
        } else {
          defined := false;
        }
      case SubMemory =>
        if InMemory(hl) {
          SubValue(memory[hl], d.flags);
        } else {
          defined := false;
        }
      case Sui =>
        if InMemory(pc) {
          var operand := memory[pc + 0];
          SubValue(operand, d.flags);
          pc := Wrap16(pc + 1);
        } else {
          defined := false;
        }
      case _ =>
        assert false;
    }

    /** The ADC and SBB forms. */
    method ExecuteWithCarry(op: AddSubHandler, d: Descriptor) returns (defined: bool)
      requires Valid() && !WithoutCarry(op)
      modifies this, regs, memory
      ensures Valid() && regs == old(regs) && memory == old(memory) && io == old(io)
      ensures defined == D.ExecuteAddSub(op, d, old(Snapshot())).Next?
      ensures defined ==> Snapshot() == D.ExecuteAddSub(op, d, old(Snapshot())).cpu
      ensures !defined ==> Snapshot() == old(Snapshot())
    {
      var hl := Pair(H_PAIR);
      defined := true;
      match op
      case AdcRegister =>
        if d.register1.Some? {
          AdcValue(regs[d.register1.value], d.flags);
        } else {
          defined := false;
        }
      case AdcMemory =>
        if InMemory(hl) {
          AdcValue(memory[hl], d.flags);
        } else {
          defined := false;
        }
      case Aci =>
        if InMemory(pc) {
          var operand := memory[pc + 0];
          AdcValue(operand, d.flags);
          pc := Wrap16(pc + 1);
        } else {
          defined := false;
        }
      case SbbRegister =>
        if d.register1.Some? {
          SbbValue(regs[d.register1.value], d.flags);
        } else {
          defined := false;
        }
      case SbbMemory =>
        if InMemory(hl) {
          SbbValue(memory[hl], d.flags);
        } else {
          defined := false;
        }
      case Sbi =>
        if InMemory(pc) {
          var operand := memory[pc + 0];
          SbbValue(operand, d.flags);
          pc := Wrap16(pc + 1);
        } else {
          defined := false;
        }
      case _ =>
        assert false;
    }

    /** One increment, decrement, DAD or DAA handler. */
    method ExecuteIncDec(op: IncDecHandler, d: Descriptor) returns (defined: bool)
      requires Valid()
      modifies this, regs, memory
      ensures Valid() && regs == old(regs) && memory == old(memory) && io == old(io)
      ensures defined == D.ExecuteIncDec(op, d, old(Snapshot())).Next?
      ensures defined ==> Snapshot() == D.ExecuteIncDec(op, d, old(Snapshot())).cpu
      ensures !defined ==> Snapshot() == old(Snapshot())
    {
      var hl := Pair(H_PAIR);
      defined := true;
      match op
      case InrRegister =>
        if d.register1.Some? {
          InrRegister(d.register1.value, d.flags);
        } else {
          defined := false;
        }
      case DcrRegister =>
        if d.register1.Some? {
          DcrRegister(d.register1.value, d.flags);
        } else {
          defined := false;
        }
      case InrMemory =>
        if InMemory(hl) {
          InrMemory(d.flags);
        } else {
          defined := false;
        }
      case DcrMemory =>
        if InMemory(hl) {
          DcrMemory(d.flags);
        } else {
          defined := false;
        }
      case Inx =>
        if d.registerPair.Some? {
          Inx(d.registerPair.value);
        } else {
          defined := false;
        }
      case Dcx =>
        if d.registerPair.Some? {
          Dcx(d.registerPair.value);
        } else {
          defined := false;
        }
      case Dad =>
        if d.registerPair.Some? {
          Dad(ReadRef(d.registerPair.value), d.flags);
        } else {
          defined := false;
        }
      case Daa =>
        Daa(d.flags);
    }

    /** One AND, XOR or OR handler: ANA clears CY afterwards, every other form CY and AC. */
    method ExecuteLogic(op: LogicHandler, d: Descriptor) returns (defined: bool)
      requires Valid()
      modifies this, regs, memory
      ensures Valid() && regs == old(regs) && memory == old(memory) && io == old(io)
      ensures defined == D.ExecuteLogic(op, d, old(Snapshot())).Next?
      ensures defined ==> Snapshot() == D.ExecuteLogic(op, d, old(Snapshot())).cpu
      ensures !defined ==> Snapshot() == old(Snapshot())
    {
      if AndForm(op) {
        defined := ExecuteAnd(op, d);
      } else if XorForm(op) {
        defined := ExecuteXor(op, d);
      } else {
        defined := ExecuteOr(op, d);
      }
    }

    /** The ANA and ANI forms. */
    method ExecuteAnd(op: LogicHandler, d: Descriptor) returns (defined: bool)
      requires Valid() && AndForm(op)
      modifies this, regs, memory
      ensures Valid() && regs == old(regs) && memory == old(memory) && io == old(io)
      ensures defined == D.ExecuteLogic(op, d, old(Snapshot())).Next?
      ensures defined ==> Snapshot() == D.ExecuteLogic(op, d, old(Snapshot())).cpu
      ensures !defined ==> Snapshot() == old(Snapshot())
    {
      var hl := Pair(H_PAIR);
      defined := true;
      match op
      case AnaRegister =>
        if d.register1.Some? {
          Logical(M.And, regs[d.register1.value], d.flags, CY);
        } else {
          defined := false;
        }
      case AnaMemory =>
        if InMemory(hl) {
          Logical(M.And, memory[hl], d.flags, CY);
        } else {
          defined := false;
        }
      case Ani =>
        if InMemory(pc) {
          var operand := memory[pc + 0];
          Logical(M.And, operand, d.flags, CY | AC);
          pc := Wrap16(pc + 1);
        } else {
          defined := false;
        }
      case _ =>
        assert false;
    }

    /** The XRA and XRI forms. */
    method ExecuteXor(op: LogicHandler, d: Descriptor) returns (defined: bool)
      requires Valid() && XorForm(op)
      modifies this, regs, memory
      ensures Valid() && regs == old(regs) && memory == old(memory) && io == old(io)
      ensures defined == D.ExecuteLogic(op, d, old(Snapshot())).Next?
      ensures defined ==> Snapshot() == D.ExecuteLogic(op, d, old(Snapshot())).cpu
      ensures !defined ==> Snapshot() == old(Snapshot())
    {
      var hl := Pair(H_PAIR);
      defined := true;
      match op
      case XraRegister =>
        if d.register1.Some? {
          Logical(M.Xor, regs[d.register1.value], d.flags, CY | AC);
        } else {
          defined := false;
        }
      case XraMemory =>
        if InMemory(hl) {
          Logical(M.Xor, memory[hl], d.flags, CY | AC);
        } else {
          defined := false;
        }
      case Xri =>
        if InMemory(pc) {
          var operand := memory[pc + 0];
          Logical(M.Xor, operand, d.flags, CY | AC);
          pc := Wrap16(pc + 1);
        } else {
          defined := false;
        }
      case _ =>
        assert false;
    }

    /** The ORA and ORI forms. */
    method ExecuteOr(op: LogicHandler, d: Descriptor) returns (defined: bool)
      requires Valid() && !AndForm(op) && !XorForm(op)
      modifies this, regs, memory
      ensures Valid() && regs == old(regs) && memory == old(memory) && io == old(io)
      ensures defined == D.ExecuteLogic(op, d, old(Snapshot())).Next?
      ensures defined ==> Snapshot() == D.ExecuteLogic(op, d, old(Snapshot())).cpu
      ensures !defined ==> Snapshot() == old(Snapshot())
    {
      var hl := Pair(H_PAIR);
      defined := true;
      match op
      case OraRegister =>
        if d.register1.Some? {
          Logical(M.Or, regs[d.register1.value], d.flags, CY | AC);
        } else {
          defined := false;
        }
      case OraMemory =>
        if InMemory(hl) {
          Logical(M.Or, memory[hl], d.flags, CY | AC);
        } else {
          defined := false;
        }
      case Ori =>
        if InMemory(pc) {
          var operand := memory[pc + 0];
          Logical(M.Or, operand, d.flags, CY | AC);
          pc := Wrap16(pc + 1);
        } else {
          defined := false;
        }
      case _ =>
        assert false;
    }

    /** One compare, rotate or carry handler. */
    method ExecuteCompareRotate(op: CompareRotateHandler, d: Descriptor) returns (defined: bool)
      requires Valid()
      modifies this, regs, memory
      ensures Valid() && regs == old(regs) && memory == old(memory) && io == old(io)
      ensures defined == D.ExecuteCompareRotate(op, d, old(Snapshot())).Next?
      ensures defined ==> Snapshot() == D.ExecuteCompareRotate(op, d, old(Snapshot())).cpu
      ensures !defined ==> Snapshot() == old(Snapshot())
    {
      var hl := Pair(H_PAIR);
      defined := true;
      match op
      case CmpRegister =>
        if d.register1.Some? {
          Compare(regs[d.register1.value], d.flags);
        } else {
          defined := false;
        }
      case CmpMemory =>
        if InMemory(hl) {
          Compare(memory[hl], d.flags);
        } else {
          defined := false;
        }
      case Cpi =>
        if InMemory(pc) {
          var operand := memory[pc + 0];
          Compare(operand, d.flags);
          pc := Wrap16(pc + 1);
        } else {
          defined := false;
        }
      case Rlc => Rlc();
      case Rrc => Rrc();
      case Ral => Ral();
      case Rar => Rar();
      case Cma => Cma();
      case Cmc => Cmc();
      case Stc => Stc();
    }

    /** The condition of a conditional jump, call or return, tested on the status byte. */
    function Holds(cond: D.Condition): (r: bool)
      reads this, regs
      requires Valid()
      ensures r == D.Holds(cond, Snapshot())
    {
      var status := regs[STATUS];
      match cond
      case NotZero => status & 0x08 == 0
      case Zero => status & 0x08 != 0
      case NoCarry => status & 0x01 == 0
      case Carry => status & 0x01 != 0
      case ParityOdd => status & 0x10 == 0
      case ParityEven => status & 0x10 != 0
      case Plus => status & 0x04 == 0
      case Minus => status & 0x04 != 0
    }

    /** One jump handler: PCHL, or JMP and Jcc, which read the two operand bytes. */
    method ExecuteJump(op: JumpHandler, d: Descriptor) returns (defined: bool)
      requires Valid()
      modifies this
      ensures Valid() && regs == old(regs) && memory == old(memory) && io == old(io)
      ensures defined == D.ExecuteJump(op, d, old(Snapshot())).Next?
      ensures defined ==> Snapshot() == D.ExecuteJump(op, d, old(Snapshot())).cpu
      ensures !defined ==> Snapshot() == old(Snapshot())
    {
      defined := true;
      if op.Pchl? {
        Pchl();
      } else if !InMemory(pc + 1) {
        defined := false;
      } else {
        match op
        case Jmp => Jmp();
        case Jnz => JumpIf(Holds(D.NotZero));
        case Jz => JumpIf(Holds(D.Zero));
        case Jnc => JumpIf(Holds(D.NoCarry));
        case Jc => JumpIf(Holds(D.Carry));
        case Jpo => JumpIf(Holds(D.ParityOdd));
        case Jpe => JumpIf(Holds(D.ParityEven));
        case Jp => JumpIf(Holds(D.Plus));
        case Jm => JumpIf(Holds(D.Minus));
        case Pchl => assert false;
      }
    }

    /** CALL or Ccc: defined when the operand and, if the call is taken, the push slot are inside memory. */
    method CallWhen(taken: bool) returns (defined: bool)
      requires Valid()
      modifies this, memory
      ensures Valid() && regs == old(regs) && memory == old(memory) && io == old(io)
      ensures defined == D.CallWhen(old(Snapshot()), taken).Next?
      ensures defined ==> Snapshot() == D.CallWhen(old(Snapshot()), taken).cpu
      ensures !defined ==> Snapshot() == old(Snapshot())
    {
      defined := InMemory(pc + 1) && (taken ==> InMemory(Wrap16(sp - 2)));
      if defined {
        CallIf(taken);
      }
    }

    /** One call or restart handler. */
    method ExecuteCallRestart(op: CallHandler, d: Descriptor) returns (defined: bool)
      requires Valid()
      modifies this, regs, memory
      ensures Valid() && regs == old(regs) && memory == old(memory) && io == old(io)
      ensures defined == D.ExecuteCallRestart(op, d, old(Snapshot())).Next?
      ensures defined ==> Snapshot() == D.ExecuteCallRestart(op, d, old(Snapshot())).cpu
      ensures !defined ==> Snapshot() == old(Snapshot())
    {
      match op
      case Call =>
        defined := InMemory(pc + 1) && InMemory(Wrap16(sp - 2));
        if defined {
          Call();
        }
      case Cnz => defined := CallWhen(Holds(D.NotZero));
      case Cz => defined := CallWhen(Holds(D.Zero));
      case Cnc => defined := CallWhen(Holds(D.NoCarry));
      case Cc => defined := CallWhen(Holds(D.Carry));
      case Cpo => defined := CallWhen(Holds(D.ParityOdd));
      case Cpe => defined := CallWhen(Holds(D.ParityEven));
      case Cp => defined := CallWhen(Holds(D.Plus));
      case Cm => defined := CallWhen(Holds(D.Minus));
      case Rst =>
        defined := regs[STATUS] & S != 0 ==> InMemory(Wrap16(sp - 2));
        if defined {
          Rst();
        }
    }

    /** One return handler: RET and Rcc read the two bytes on top of the stack. */
    method ExecuteReturn(op: ReturnHandler, d: Descriptor) returns (defined: bool)
      requires Valid()
      modifies this
      ensures Valid() && regs == old(regs) && memory == old(memory) && io == old(io)
      ensures defined == D.ExecuteReturn(op, d, old(Snapshot())).Next?
      ensures defined ==> Snapshot() == D.ExecuteReturn(op, d, old(Snapshot())).cpu
      ensures !defined ==> Snapshot() == old(Snapshot())
    {
      defined := InMemory(sp + 1);
      if defined {
        match op
        case Ret => Ret();
        case Rnz => ReturnIf(Holds(D.NotZero));
        case Rz => ReturnIf(Holds(D.Zero));
        case Rnc => ReturnIf(Holds(D.NoCarry));
        case Rc => ReturnIf(Holds(D.Carry));
        case Rpo => ReturnIf(Holds(D.ParityOdd));
        case Rpe => ReturnIf(Holds(D.ParityEven));
        case Rp => ReturnIf(Holds(D.Plus));
        case Rm => ReturnIf(Holds(D.Minus));
      }
    }

    /** One stack, I/O or machine-control handler. */
    method ExecuteControl(op: ControlHandler, d: Descriptor) returns (defined: bool)
      requires Valid()
      modifies this, regs, memory, io
      ensures Valid() && regs == old(regs) && memory == old(memory) && io == old(io)
      ensures defined == D.ExecuteControl(op, d, old(Snapshot())).Next?
      ensures defined ==> Snapshot() == D.ExecuteControl(op, d, old(Snapshot())).cpu
      ensures !defined ==> Snapshot() == old(Snapshot())
    {
      defined := true;
      match op
      case PushRp =>
        if d.registerPair.Some? && InMemory(Wrap16(sp - 2)) {
          PushRp(d.registerPair.value);
        } else {
          defined := false;
        }
      case PushPsw =>
        if sp >= 2 {
          PushPsw();
        } else {
          defined := false;
        }
      case PopRp =>
        if d.registerPair.Some? && InMemory(sp) {
          PopRp(d.registerPair.value);
        } else {
          defined := false;
        }
      case PopPsw =>
        if InMemory(sp + 1) {
          PopPsw();
        } else {
          defined := false;
        }
      case Xthl =>
        if InMemory(sp + 1) {
          Xthl();
        } else {
          defined := false;
        }
      case Sphl => Sphl();
      case In =>
        if InMemory(pc) {
          In();
        } else {
          defined := false;
        }
      case Out =>
        if InMemory(pc) {
          Out();
        } else {
          defined := false;
        }
      case Ei => Ei();
      case Di => Di();
      case Hlt => Hlt();
      case Nop =>
    }

    /** `instruction_set[h](&d)`: run handler h with descriptor d. */
    method Execute(h: Handler, d: Descriptor) returns (defined: bool)
      requires Valid()
      modifies this, regs, memory, io
      ensures Valid() && regs == old(regs) && memory == old(memory) && io == old(io)
      ensures defined == D.Execute(h, d, old(Snapshot())).Next?
      ensures defined ==> Snapshot() == D.Execute(h, d, old(Snapshot())).cpu
      ensures !defined ==> Snapshot() == old(Snapshot())
    {
      match h
      case Transfer(op) => defined := ExecuteTransfer(op, d);
      case AddSub(op) => defined := ExecuteAddSub(op, d);
      case IncDec(op) => defined := ExecuteIncDec(op, d);
      case Logic(op) => defined := ExecuteLogic(op, d);
      case CompareRotate(op) => defined := ExecuteCompareRotate(op, d);
      case Jump(op) => defined := ExecuteJump(op, d);
      case CallRestart(op) => defined := ExecuteCallRestart(op, d);
      case Return(op) => defined := ExecuteReturn(op, d);
      case Control(op) => defined := ExecuteControl(op, d);
    }

    /** Decode and execute: `instruction_set[ir](&instruction_set_data[ir])`. */
    method Step() returns (defined: bool)
      requires Valid()
      modifies this, regs, memory, io
      ensures Valid() && regs == old(regs) && memory == old(memory) && io == old(io)
      ensures defined == D.Step(old(Snapshot())).Next?
      ensures defined ==> Snapshot() == D.Step(old(Snapshot())).cpu
      ensures !defined ==> Snapshot() == old(Snapshot())
    {
      defined := Execute(HandlerOf(ir), DescriptorOf(ir));
    }
  }
}
