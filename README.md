# An Intel 8080 emulator, its assembler helpers and a ROM scanner, in Dafny

This project models the core of a small Intel 8080 toolchain written in C:

- **The emulator** (`emu8080/`). It has a register file of single bytes (C, B,
  E, D, L, H, A and the status byte). Register pairs are read and written
  through `uint16_t` pointers on a little-endian host. It has a 0xFFFF-byte
  address space with memory-mapped storage and keyboard registers, and a
  256-entry table of instruction descriptors with one handler per opcode.
  `InterruptCheckAndInstructionFetch` either substitutes an RST opcode for a
  pending interrupt or fetches `memory[pc]`. The non-volatile storage
  peripheral is a five-state machine. The keyboard poll has a deadline.
  `main` boots the machine and loops until `halt_enable` is set.
- **The assembler helpers** (`asm8080/`):
  - the mnemonic table and its floating-point `BinarySearch`;
  - the pseudo-instruction matcher;
  - the label list, a linked list whose head also points at the tail;
  - the output list;
  - the growable character buffer;
  - the line-token array.
- **The scanner of the old disassembler** (`old/8080_disassembler/`). It is a
  five-state loop that picks the two characters after every `0x` that is
  followed by `,` or `]`.

The emulator is modelled twice:
- as values: `State.Cpu` in modules `State`, `Flags`, `Semantics`, `Dispatch`, `Fetch`, `Storage`, `Keyboard` and `MainLoop`;
- as a class `Emulator.Machine` that holds the C arrays as Dafny arrays.

Each handler method of the class is proved to leave the machine in the state that the matching value-level function gives. The properties the source promises, and its quirks, are then proved as lemmas about those functions.

The value-level functions, and the source each one models (the rows under "## Model" name them where a method or lemma is stated through them):
- `Flags.ModifiedFlags`, the masked update of all five flags, and `Flags.SequentialFlags` with `Flags.UpdateParity`, `UpdateZero`, `UpdateSign`, `UpdateAuxCarry` and `UpdateCarry`, its five steps in the source's order: `ModifyFlags`, emu8080/instruction_set.h:300-370.
- `Semantics.<Handler>` for each instruction handler of emu8080/instruction_set.h:374-1641, under the handler's own name (`Semantics.Lda`, `Semantics.Daa`, `Semantics.Xthl`, ...). The rows of `Emulator.Machine.<Handler>` give the lines of each.
- `Dispatch.Execute` and its groups `Dispatch.ExecuteTransfer`, `ExecuteAddSub`, `ExecuteIncDec`, `ExecuteLogic`, `ExecuteCompareRotate`, `ExecuteJump`, `ExecuteCallRestart`, `ExecuteReturn` and `ExecuteControl`: the call `instruction_set[IR](&instruction_set_data[IR])` through the handler and descriptor tables, emu8080/instruction_set.h:1649-1907. `Dispatch.Holds` is the branch conditions of instruction_set.h:1123-1249, and `Dispatch.Step` is the decode of IR at emu8080/emulator.c:321-322.
- `Fetch.Fetch`, with `Fetch.NormalFetch` and `Fetch.VectorOpcode`: `InterruptCheckAndInstructionFetch`, emu8080/emulator.c:139-167. `Fetch.Boot` is the set-up in `main`, emulator.c:288-311.
- `Storage.Operation`: `NonVolatileMemoryOperation`, emu8080/storage.h:66-171. Its outputs are `Storage.Start` (lines 78-82 and 87-91), `Storage.Finish` (lines 102-113 and 124-135) and `Storage.Release` (lines 150-154 and 161-165).
- `Keyboard.ReadKeyboardInput`: the poll of emu8080/vt100.h:115-142.
- `MainLoop.Cycle`, one iteration of the loop of emu8080/emulator.c:318-326, and `MainLoop.Run`, the loop `while (!halt_enable)` of lines 315-327 cut off by fuel.
- `Mnemonics.SearchFrom` and `Mnemonics.Search`: `BinarySearch`, asm8080/instruction_set.h:291-353. `Mnemonics.FixedSearchFrom` and `Mnemonics.FixedSearch` are the corrected search of "## Findings".
- `Pseudo.FindFrom` and `Pseudo.Find`: `FindPseudoInstruction`, asm8080/pseudo_instruction_set.h:56-78.
- `Labels.FindIn`: `FindLabelValue`, asm8080/label_list.h:46-61.
- `LineTokens.Add`: `AddLineToken`, asm8080/line_token_array.h:27-68. `LineTokens.Freed` is the pointers `FreeLineTokens` frees, lines 70-87.
- `HexScanner.Step`, one pass of the loop body of old/8080_disassembler/8080_disassembler.c:43-89, and `HexScanner.Run`, the loop over the input, lines 30-89.
- `AsmCommon.Strncmp` and `AsmCommon.Strcmp`: the sign of the C library's `strncmp` and `strcmp` as the assembler uses them.

The assembler's lists, buffer and token array are classes whose methods update fields and heap blocks in place. Failed allocations enter as boolean parameters.

Two places where the source does not do what it evidently intends are recorded under "## Findings". Each is modelled both as written and corrected.

## Model

| member | source | states |
|---|---|---|
| Common.DeviceCode | emu8080/common.h:178-185 | the `interrupt_device` codes; the code is 0 exactly for NO_INTERRUPT |
| Common.StateCode | emu8080/common.h:189-196 | the `io_state` codes lie in 0..4, and the code is 0 exactly for READY |
| Common.WrapIncrementDecrement | emu8080/instruction_set.h:758-771 | a `uint16_t` incremented and then decremented modulo 2^16 is unchanged |
| Common.SuccessorValue | emu8080/common.h:75-81 | incrementing a byte below 255 adds one to its value (no wrap) |
| Common.ByteValue | emu8080/common.h:75-81 | the byte built for n in 0..255 has the value n (the `(uint8_t)` conversion) |
| Common.ByteInjective | emu8080/common.h:75-81 | two bytes with the same value are the same byte |
| Common.ByteOfValue | emu8080/common.h:75-81 | converting a byte to int and back gives the byte |
| Common.WordBytes | emu8080/common.h:83-92 | a word splits into high and low byte and the little-endian join gives it back, both ways |
| Common.WordLaws | emu8080/common.h:83-92 | WordBytes for all bytes and words at once |
| Common.FlagLayout | emu8080/common.h:20-24 | CY, AC, S, Z and EP are distinct single bits; ALL is their union; ALL_EXCEPT_CARRY is ALL without CY; CARRY is CY |
| Common.ControlLayout | emu8080/common.h:66-70 | the storage control bits INTERRUPT_ENABLE, RDY, READ_REQUEST, WRITE_REQUEST and DONE are distinct single bits |
| Common.MappedRegistersInMemory | emu8080/common.h:58-64 | the storage and keyboard registers are distinct cells inside the 0xFFFF-byte address space |
| Common.CodesInjective | emu8080/common.h:178-196 | distinct `io_state` and `interrupt_device` enumerators have distinct codes |
| State.PairRoundTrip | emu8080/common.h:115-123 | reading a pair after storing v through its `uint16_t*` gives v, and the other six cells are untouched |
| State.PairRestore | emu8080/common.h:115-123 | storing a pair's own value leaves the register file unchanged |
| State.PairOverwrite | emu8080/common.h:115-123 | a second store through the same pair overrides the first |
| State.PairOfByte | emu8080/instruction_set.h:1565-1572 | storing a zero-extended byte through a pair puts the byte in the low cell and 0 in the high cell |
| State.PairLaws | emu8080/common.h:115-123 | the three pair laws for every register file, pair and value |
| State.PairIncrementDecrement | emu8080/instruction_set.h:758-771 | incrementing a pair and then decrementing it restores the register file |
| Flags.PopCountBelow | emu8080/instruction_set.h:305-314 | the number of one bits below bit n is at most n |
| Flags.UpdateParityLaw | emu8080/instruction_set.h:304-318 | the parity step rewrites EP only, setting it exactly when the low byte of the result has an even number of ones |
| Flags.ParityBit | emu8080/instruction_set.h:316-317 | adding the parity bit to a status byte with EP cleared equals or-ing it in |
| Flags.UpdateZeroLaw | emu8080/instruction_set.h:320-331 | the zero step rewrites Z only, setting it exactly when the low byte of the result is 0 |
| Flags.UpdateSignLaw | emu8080/instruction_set.h:333-338 | the sign step rewrites S only, from bit 7 of the result |
| Flags.UpdateAuxCarryLaw | emu8080/instruction_set.h:340-362 | the auxiliary-carry step rewrites AC only, by the source's rule on `bit_4_sum` and bit 4 of the result |
| Flags.UpdateCarryLaw | emu8080/instruction_set.h:364-369 | the carry step rewrites CY only, from bit 8 of the 16-bit result |
| Flags.UpdateLaws | emu8080/instruction_set.h:300-370 | the five per-flag laws for every status byte and result |
| Flags.SequentialIsMasked | emu8080/instruction_set.h:300-370 | running the five masked steps in the source's order equals one masked update of all five flags |
| Flags.OnlyMaskedFlagsChange | emu8080/instruction_set.h:300-370 | `ModifyFlags` changes no status bit outside `flags_to_modify & ALL` |
| Flags.MaskedFlagValues | emu8080/instruction_set.h:300-370 | every selected flag ends up set exactly when its condition on the result holds (zero, sign, even parity, aux carry, bit 8) |
| Flags.NoneMaskChangesNothing | emu8080/instruction_set.h:300-370 | with the NONE mask the status byte is unchanged |
| Fetch.InterruptAccepted | emu8080/emulator.c:139-162 | a pending, enabled interrupt with a device vector is cleared, IR receives that device's RST opcode, and pc, interrupt_enable and all other state are unchanged |
| Fetch.VectorOpcodes | emu8080/emulator.c:145-161 | STORAGE_READ gives 0xd7, STORAGE_WRITE 0xdf, KEYBOARD 0xe7, DISPLAY 0xef; NO_INTERRUPT gives none |
| Fetch.VectorsAreRestarts | emu8080/emulator.c:145-161 | every substituted opcode is dispatched to the RST handler, and it restarts at 16, 24, 32 or 40 |
| Fetch.StorageVectorsCrossed | emu8080/emulator.c:145-161 | each storage vector's enum code is the other storage vector's substituted opcode, while KEYBOARD and DISPLAY agree with their own |
| Fetch.FetchFromMemory | emu8080/emulator.c:164-166 | with no accepted interrupt, IR receives memory[pc], pc advances by one modulo 2^16, and nothing else changes |
| Fetch.MaskedRequestStaysPending | emu8080/emulator.c:141 | with interrupts disabled, the fetch is the normal one and a pending request stays pending |
| Fetch.EmptyVectorFallsThrough | emu8080/emulator.c:158-166 | a pending request whose vector is NO_INTERRUPT is cleared, and the fetch then reads memory |
| Fetch.FetchKeeps | emu8080/emulator.c:139-167 | the fetch never changes interrupt_enable, the registers, sp, memory, the ports, time or halt_enable |
| Fetch.FetchUndefined | emu8080/emulator.c:165 | the fetch is undefined exactly when it reads memory at pc 0xFFFF, past the end of the address space |
| Fetch.BootState | emu8080/emulator.c:288-311 | after boot, pc, time, halt_enable, interrupt_request and the status byte are 0, the vector is NO_INTERRUPT, storage reports RDY (0x02), and every other cell holds the loaded image |
| Emulator.CountOnes | emu8080/instruction_set.h:305-314 | the shift-and-add loop of the parity step returns the number of one bits of the byte |
| Emulator.StatusOverwritten | emu8080/instruction_set.h:965-991 | writing the status byte twice keeps only the second value |
| Emulator.DaaSteps | emu8080/instruction_set.h:787-807 | the two adjustment steps of the DAA handler, in the source's order, give `Semantics.Daa` |
| Emulator.Machine.constructor | emu8080/emulator.c:288-311 | the fresh machine's register file, memory and ports are separate new arrays, and its state is the boot state |
| Emulator.Machine.StorePair | emu8080/common.h:115-123 | a store through a pair pointer writes the low byte to the lower cell and the high byte to the upper cell |
| Emulator.Machine.ModifyParity | emu8080/instruction_set.h:304-318 | the parity step on the status array is `Flags.UpdateParity` |
| Emulator.Machine.ModifyZero | emu8080/instruction_set.h:320-331 | the zero step on the status array is `Flags.UpdateZero` |
| Emulator.Machine.ModifySign | emu8080/instruction_set.h:333-338 | the sign step on the status array is `Flags.UpdateSign` |
| Emulator.Machine.ModifyAuxCarry | emu8080/instruction_set.h:340-362 | the aux-carry step on the status array is `Flags.UpdateAuxCarry` |
| Emulator.Machine.ModifyCarry | emu8080/instruction_set.h:364-369 | the carry step on the status array is `Flags.UpdateCarry` |
| Emulator.Machine.ModifyFlags | emu8080/instruction_set.h:300-370 | the sequence of masked steps on the status array is one masked update of the status byte (`Flags.ModifiedFlags`), with every other register kept |
| Emulator.Machine.WriteRef | emu8080/instruction_set.h:419-429 | a store through a descriptor's `register_pair` goes to that pair or to sp |
| Emulator.Machine.MovRegister | emu8080/instruction_set.h:374-380 | MOV r,r: the destination register receives the source register, and nothing else changes (`Semantics.MovRegister`) |
| Emulator.Machine.MovToMemory | emu8080/instruction_set.h:383-389 | MOV M,r: memory[HL] receives the register (`Semantics.MovToMemory`) |
| Emulator.Machine.MovFromMemory | emu8080/instruction_set.h:392-398 | MOV r,M: the register receives memory[HL] (`Semantics.MovFromMemory`) |
| Emulator.Machine.Mvi | emu8080/instruction_set.h:401-416 | MVI: the register, or memory[HL] when the descriptor names none, receives memory[pc], and pc advances by one (`Semantics.Mvi`) |
| Emulator.Machine.Lxi | emu8080/instruction_set.h:419-429 | LXI: the pair or sp receives the little-endian operand, and pc advances by two (`Semantics.Lxi`) |
| Emulator.Machine.Lda | emu8080/instruction_set.h:432-444 | LDA: A receives the byte at the operand address (`Semantics.Lda`) |
| Emulator.Machine.Sta | emu8080/instruction_set.h:447-459 | STA: the byte at the operand address receives A (`Semantics.Sta`) |
| Emulator.Machine.Lhld | emu8080/instruction_set.h:462-475 | LHLD: L and H receive the two bytes at the operand address (`Semantics.Lhld`) |
| Emulator.Machine.Shld | emu8080/instruction_set.h:478-491 | SHLD: the two bytes at the operand address receive L and H (`Semantics.Shld`) |
| Emulator.Machine.Ldax | emu8080/instruction_set.h:494-499 | LDAX: A receives the byte the pair addresses (`Semantics.Ldax`) |
| Emulator.Machine.Stax | emu8080/instruction_set.h:503-508 | STAX: the byte the pair addresses receives A (`Semantics.Stax`) |
| Emulator.Machine.Xchg | emu8080/instruction_set.h:511-517 | XCHG: HL and DE are swapped through the pair pointers (`Semantics.Xchg`) |
| Emulator.Machine.Accumulate | emu8080/instruction_set.h:521-533 | the shared tail of the accumulator handlers: A receives the value, then the flag engine runs (`Semantics.WithFlags` after the write of A) |
| Emulator.Machine.AddValue | emu8080/instruction_set.h:521-594 | ADD, ADD M and ADI: A receives A + v modulo 256, with flags from the 16-bit sum (`Semantics.AddValue`) |
| Emulator.Machine.SubValue | emu8080/instruction_set.h:536-610 | SUB, SUB M and SUI: A receives A - v modulo 256, with flags from the 16-bit difference (`Semantics.SubValue`) |
| Emulator.Machine.AdcValue | emu8080/instruction_set.h:613-687 | ADC, ADC M and ACI: A receives A + v + CY, with flags from A + v without the carry (`Semantics.AdcValue`) |
| Emulator.Machine.SbbValue | emu8080/instruction_set.h:628-703 | SBB, SBB M and SBI: A receives A - (v + CY), with flags from A - v without the borrow (`Semantics.SbbValue`) |
| Emulator.Machine.InrRegister | emu8080/instruction_set.h:706-716 | INR r: the register is incremented modulo 256 under the flag mask (`Semantics.InrRegister`) |
| Emulator.Machine.DcrRegister | emu8080/instruction_set.h:719-729 | DCR r: the register is decremented modulo 256 under the flag mask (`Semantics.DcrRegister`) |
| Emulator.Machine.InrMemory | emu8080/instruction_set.h:732-742 | INR M: memory[HL] is incremented modulo 256 (`Semantics.InrMemory`) |
| Emulator.Machine.DcrMemory | emu8080/instruction_set.h:745-755 | DCR M: memory[HL] is decremented modulo 256 (`Semantics.DcrMemory`) |
| Emulator.Machine.Inx | emu8080/instruction_set.h:758-763 | INX: the pair or sp is incremented modulo 2^16 (`Semantics.Inx`) |
| Emulator.Machine.Dcx | emu8080/instruction_set.h:766-771 | DCX: the pair or sp is decremented modulo 2^16 (`Semantics.Dcx`) |
| Emulator.Machine.Dad | emu8080/instruction_set.h:774-784 | DAD: HL receives HL + the pair modulo 2^16, and the flag engine sees the truncated sum (`Semantics.Dad`) |
| Emulator.Machine.Daa | emu8080/instruction_set.h:787-807 | DAA: the low and then the high nibble adjustment on A (`Semantics.Daa`) |
| Emulator.Machine.Logical | emu8080/instruction_set.h:811-962 | ANA, XRA and ORA in all forms: A receives A op v, the flag engine runs, and then the listed flags are cleared (`Semantics.Logical`) |
| Emulator.Machine.RestoreCompared | emu8080/instruction_set.h:965-991 | the compare tail: Z and CY are restored from the saved status, then set when A == v and A < v (`Semantics.ComparedStatus`) |
| Emulator.Machine.Compare | emu8080/instruction_set.h:965-1051 | CMP, CMP M and CPI: A is unchanged, and the status is the compare status (`Semantics.Compare`) |
| Emulator.Machine.Rotate | emu8080/instruction_set.h:1054-1091 | the rotations' tail writes the new A and the new status byte (`Semantics.WithAccumulatorStatus`) |
| Emulator.Machine.SetStatus | emu8080/instruction_set.h:1094-1108 | `status[0] = s` changes only the status byte (`Semantics.WithStatus`) |
| Emulator.Machine.Rlc | emu8080/instruction_set.h:1054-1062 | RLC as `Semantics.Rlc`: A rotated left, bit 7 into bit 0 and CY |
| Emulator.Machine.Rrc | emu8080/instruction_set.h:1065-1073 | RRC as `Semantics.Rrc`: A rotated right, bit 0 into bit 7 and CY |
| Emulator.Machine.Ral | emu8080/instruction_set.h:1076-1082 | RAL, with the source's int-evaluated "new carry" (`Semantics.Ral`) |
| Emulator.Machine.Rar | emu8080/instruction_set.h:1085-1091 | RAR as `Semantics.Rar`: A rotated right through CY |
| Emulator.Machine.Cma | emu8080/instruction_set.h:1094-1097 | CMA: A is complemented (`Semantics.Cma`) |
| Emulator.Machine.Cmc | emu8080/instruction_set.h:1100-1103 | CMC: the carry is complemented (`Semantics.Cmc`) |
| Emulator.Machine.Stc | emu8080/instruction_set.h:1105-1108 | STC: the carry is set (`Semantics.Stc`) |
| Emulator.Machine.Jmp | emu8080/instruction_set.h:1112-1120 | JMP: pc receives the little-endian operand (`Semantics.Jmp`) |
| Emulator.Machine.JumpIf | emu8080/instruction_set.h:1123-1249 | Jcc: pc receives the operand when taken, and pc + 2 otherwise (`Semantics.JumpIf`) |
| Emulator.Machine.Call | emu8080/instruction_set.h:1252-1263 | CALL: sp drops by two, memory[sp] receives the low byte of the return address, and pc receives the operand (`Semantics.Call`) |
| Emulator.Machine.CallIf | emu8080/instruction_set.h:1266-1392 | Ccc: a CALL when taken; otherwise the state is unchanged, pc included (`Semantics.CallIf`) |
| Emulator.Machine.Ret | emu8080/instruction_set.h:1395-1404 | RET: pc receives the word on top of the stack, and sp rises by two (`Semantics.Ret`) |
| Emulator.Machine.ReturnIf | emu8080/instruction_set.h:1407-1517 | Rcc: a RET when taken; otherwise the state is unchanged (`Semantics.ReturnIf`) |
| Emulator.Machine.Rst | emu8080/instruction_set.h:1520-1530 | RST: with the Sign bit set, pushes the low byte of pc and jumps to the restart address; otherwise does nothing (`Semantics.Rst`) |
| Emulator.Machine.Pchl | emu8080/instruction_set.h:1533-1536 | PCHL: pc receives HL (`Semantics.Pchl`) |
| Emulator.Machine.PushRp | emu8080/instruction_set.h:1540-1546 | PUSH rp: sp drops by two, and memory[sp] receives the low byte of the pair (`Semantics.PushRp`) |
| Emulator.Machine.PushPsw | emu8080/instruction_set.h:1549-1562 | PUSH PSW: A and the status byte, rearranged into the 8080 flag layout, are pushed (`Semantics.PushPsw`) |
| Emulator.Machine.PopRp | emu8080/instruction_set.h:1565-1572 | POP rp: the pair receives the single byte memory[sp] zero-extended, and sp rises by two (`Semantics.PopRp`) |
| Emulator.Machine.PopPsw | emu8080/instruction_set.h:1575-1587 | POP PSW: A and the status byte, rearranged back, are popped (`Semantics.PopPsw`) |
| Emulator.Machine.Xthl | emu8080/instruction_set.h:1590-1599 | XTHL: HL receives memory[sp] zero-extended, and memory[sp] and memory[sp+1] receive L and H (`Semantics.Xthl`) |
| Emulator.Machine.Sphl | emu8080/instruction_set.h:1602-1605 | SPHL: sp receives HL (`Semantics.Sphl`) |
| Emulator.Machine.In | emu8080/instruction_set.h:1608-1614 | IN: A receives the port that memory[pc] names, and pc advances (`Semantics.In`) |
| Emulator.Machine.Out | emu8080/instruction_set.h:1617-1623 | OUT: the port that memory[pc] names receives A, and pc advances (`Semantics.Out`) |
| Emulator.Machine.Ei | emu8080/instruction_set.h:1626-1629 | EI: interrupt_enable is set (`Semantics.Ei`) |
| Emulator.Machine.Di | emu8080/instruction_set.h:1632-1635 | DI: interrupt_enable is cleared (`Semantics.Di`) |
| Emulator.Machine.Hlt | emu8080/instruction_set.h:1638-1641 | HLT: halt_enable is set (`Semantics.Hlt`) |
| Emulator.Machine.FetchInstruction | emu8080/emulator.c:139-167 | the in-place fetch is defined exactly when `Fetch.Fetch` is, and then gives its state; otherwise the state is unchanged |
| Emulator.Machine.ExecuteTransfer | emu8080/instruction_set.h:374-517 | the data-transfer handlers on the arrays agree with `Dispatch.ExecuteTransfer`, including when they are undefined |
| Emulator.Machine.ExecuteAddSub | emu8080/instruction_set.h:521-703 | the add and subtract handlers on the arrays agree with `Dispatch.ExecuteAddSub` |
| Emulator.Machine.ExecuteAddOrSub | emu8080/instruction_set.h:521-610 | the ADD and SUB forms agree with `Dispatch.ExecuteAddSub` |
| Emulator.Machine.ExecuteWithCarry | emu8080/instruction_set.h:613-703 | the ADC and SBB forms agree with `Dispatch.ExecuteAddSub` |
| Emulator.Machine.ExecuteIncDec | emu8080/instruction_set.h:706-807 | INR, DCR, INX, DCX, DAD and DAA agree with `Dispatch.ExecuteIncDec` |
| Emulator.Machine.ExecuteLogic | emu8080/instruction_set.h:811-962 | the logic handlers agree with `Dispatch.ExecuteLogic` |
| Emulator.Machine.ExecuteAnd | emu8080/instruction_set.h:811-858 | the ANA and ANI forms agree with `Dispatch.ExecuteLogic` |
| Emulator.Machine.ExecuteXor | emu8080/instruction_set.h:861-910 | the XRA and XRI forms agree with `Dispatch.ExecuteLogic` |
| Emulator.Machine.ExecuteOr | emu8080/instruction_set.h:913-962 | the ORA and ORI forms agree with `Dispatch.ExecuteLogic` |
| Emulator.Machine.ExecuteCompareRotate | emu8080/instruction_set.h:965-1108 | the compare, rotate and carry handlers agree with `Dispatch.ExecuteCompareRotate` |
| Emulator.Machine.Holds | emu8080/instruction_set.h:1123-1249 | each branch condition, tested on the status array, is `Dispatch.Holds` |
| Emulator.Machine.ExecuteJump | emu8080/instruction_set.h:1112-1249 | JMP, Jcc and PCHL agree with `Dispatch.ExecuteJump` |
| Emulator.Machine.CallWhen | emu8080/instruction_set.h:1266-1392 | a conditional call is defined exactly when its operand, and the push slot if it is taken, lie inside memory |
| Emulator.Machine.ExecuteCallRestart | emu8080/instruction_set.h:1252-1530 | CALL, Ccc and RST agree with `Dispatch.ExecuteCallRestart` |
| Emulator.Machine.ExecuteReturn | emu8080/instruction_set.h:1395-1517 | RET and Rcc agree with `Dispatch.ExecuteReturn` |
| Emulator.Machine.ExecuteControl | emu8080/instruction_set.h:1540-1647 | the stack, I/O and machine-control handlers agree with `Dispatch.ExecuteControl` |
| Emulator.Machine.Execute | emu8080/instruction_set.h:1649-1907 | running handler h on descriptor d in place is what `Dispatch.Execute` gives, and undefined exactly when it is |
| Emulator.Machine.Step | emu8080/emulator.c:321-322 | decode and execute of IR through the two tables agrees with `Dispatch.Step` |
| Properties.FlagsKeepRegisters | emu8080/instruction_set.h:300-370 | the flag update touches only the status byte |
| Properties.FlagLaws | emu8080/instruction_set.h:300-370 | under the mask, CY follows bit 8 of the result, Z a zero low byte and S bit 7 |
| Properties.SumLaws | emu8080/instruction_set.h:521-533 | the low byte of the wide sum is A + v, and bit 8 is set exactly when the sum exceeds 0xFF |
| Properties.DifferenceLaws | emu8080/instruction_set.h:536-548 | the low byte of the wide difference is A - v, and bit 8 is set exactly when A < v |
| Properties.SumFlagLaws | emu8080/instruction_set.h:521-533 | after an add under ALL, CY means unsigned overflow, Z a zero result and S a negative result |
| Properties.DifferenceFlagLaws | emu8080/instruction_set.h:536-548 | after a subtract under ALL, CY means A < v, Z means A == v and S a negative result |
| Properties.AddResult | emu8080/instruction_set.h:521-594 | ADD: A is the byte sum, CY, Z and S mean overflow, zero and negative, and the other registers are kept |
| Properties.SubResult | emu8080/instruction_set.h:536-610 | SUB: A is the byte difference, CY means borrow, Z and S follow the result, and the other registers are kept |
| Properties.CarryIn | emu8080/instruction_set.h:613-625 | the carry added by ADC is 0 or 1, and 1 exactly when CY is set |
| Properties.AdcAccumulator | emu8080/instruction_set.h:613-687 | ADC under any mask leaves A + v + CY in A |
| Properties.SbbAccumulator | emu8080/instruction_set.h:628-703 | SBB under any mask leaves A - (v + CY) in A |
| Properties.AdcResult | emu8080/instruction_set.h:613-687 | ADC's flags describe A + v without the carry, while A holds the sum with it |
| Properties.SbbResult | emu8080/instruction_set.h:628-703 | SBB's flags describe A - v without the borrow, while A holds the difference with it |
| Properties.CarryClearAdcIsAdd | emu8080/instruction_set.h:521-625 | with CY clear, ADC is ADD |
| Properties.CarryClearSbbIsSub | emu8080/instruction_set.h:536-640 | with CY clear, SBB is SUB |
| Properties.CompareResult | emu8080/instruction_set.h:965-1051 | CMP keeps A; Z ends up set exactly when it was set or A == v, and CY exactly when it was set or A < v |
| StackProperties.ConditionalJump | emu8080/instruction_set.h:1123-1249 | Jcc moves pc to the operand when taken, and by two otherwise, and changes nothing else |
| StackProperties.CallNotTaken | emu8080/instruction_set.h:1266-1392 | a conditional call that is not taken leaves the whole state unchanged, so pc still points at the operand |
| StackProperties.ReturnNotTaken | emu8080/instruction_set.h:1407-1517 | a conditional return that is not taken leaves the whole state unchanged |
| StackProperties.CallStoresLowByte | emu8080/instruction_set.h:1252-1263 | CALL decrements sp by two, writes only the low byte of the return address there, keeps every other cell, and jumps |
| StackProperties.ReturnPops | emu8080/instruction_set.h:1395-1404 | RET reads the little-endian word at sp and raises sp by two |
| StackProperties.RestartAddresses | emu8080/instruction_set.h:1520-1530 | RST k restarts at 8k |
| StackProperties.RestartOnlyOnSign | emu8080/instruction_set.h:1520-1530 | RST with S clear does nothing; with S set it pushes the low byte of pc and jumps to 8k |
| StackProperties.PushStoresLowByte | emu8080/instruction_set.h:1540-1546 | PUSH writes only the low byte of the pair at the new sp and keeps the rest of memory |
| StackProperties.PopLoadsOneByte | emu8080/instruction_set.h:1565-1572 | POP loads the single byte at sp into the low register and 0 into the high one |
| StackProperties.PushPopPair | emu8080/instruction_set.h:1540-1572 | PUSH B then POP D gives E = C and D = 0: the round trip loses the high byte |
| StackProperties.StatusThroughPsw | emu8080/instruction_set.h:1549-1587 | packing the status byte into the PSW layout and back keeps exactly the bits 0x1E: the carry is lost |
| StackProperties.PswRoundTrip | emu8080/instruction_set.h:1549-1587 | PUSH PSW then POP PSW restores A, sp and the other registers, and the status byte without its carry |
| StackProperties.ExchangeSwaps | emu8080/instruction_set.h:511-517 | XCHG swaps the values of HL and DE and is its own inverse |
| StackProperties.ExchangeTopQuirk | emu8080/instruction_set.h:1590-1599 | XTHL puts the old L and H on the stack but loads HL with only the byte at sp, so H becomes 0 |
| StackProperties.IncrementDecrementPair | emu8080/instruction_set.h:758-771 | DCX undoes INX on every pair and on sp |
| StepProperties.LowBitOfSum | emu8080/instruction_set.h:1076-1082 | adding A to a status byte with CY cleared leaves bit 0 of A in CY |
| StepProperties.RalCarry | emu8080/instruction_set.h:1076-1082 | RAL shifts A left with the old carry entering, but the new carry is bit 0 of A, not bit 7 |
| StepProperties.RalLosesBit7 | emu8080/instruction_set.h:1076-1082 | RAL of 0x80 with CY clear loses bit 7: CY stays clear, A becomes 0 and the status byte gains bit 7 |
| StepProperties.DaaEntry | emu8080/instruction_set.h:25-283 | opcode 0x27 dispatches to DAA with the NONE flag mask |
| StepProperties.DaaUnderNone | emu8080/instruction_set.h:787-807 | DAA under NONE changes only A |
| StepProperties.DaaKeepsFlags | emu8080/instruction_set.h:787-807 | executing 0x27 never changes the status byte |
| StepProperties.BitEight | emu8080/instruction_set.h:774-784 | bit 8 of a joined word is bit 0 of its high byte |
| StepProperties.BitEightLaw | emu8080/instruction_set.h:774-784 | the same for every word |
| StepProperties.DadCarry | emu8080/instruction_set.h:774-784 | DAD stores the sum modulo 2^16, and its CY is bit 0 of the new H rather than the carry out of bit 15 |
| StepProperties.DadMissesOverflow | emu8080/instruction_set.h:774-784 | DAD of 0xFFFF + 1 wraps HL to 0 and leaves CY clear |
| StepProperties.LogicalClears | emu8080/instruction_set.h:811-962 | a logic handler leaves A op v in A, clears the flags it lists, and keeps the other registers |
| StepProperties.AndEntries | emu8080/instruction_set.h:25-283 | 0xA0 is ANA B under ALL, and 0xE6 is ANI under ALL |
| StepProperties.AnaAuxCarry | emu8080/instruction_set.h:811-824 | ANA clears only CY, so AC can be left set (0x10 AND 0x10) |
| StepProperties.AnaKeepsAuxCarry | emu8080/instruction_set.h:811-824 | executing ANA B with A = B = 0x10 leaves AC set and CY clear |
| StepProperties.AniClearsCarries | emu8080/instruction_set.h:843-858 | ANI clears CY and AC, ANDs A with the immediate and advances pc |
| StepProperties.XorOrClear | emu8080/instruction_set.h:861-962 | every XRA, XRI, ORA and ORI form ends with CY and AC clear |
| StepProperties.XorOrEntries | emu8080/instruction_set.h:25-283 | opcodes 0xA8..0xB7 dispatch to the XRA and ORA handlers, and the register forms name a register |
| StepProperties.XorOrClearCarries | emu8080/instruction_set.h:861-927 | executing an XRA or ORA register opcode clears CY and AC |
| StepProperties.MovMemoryAUndefined | emu8080/instruction_set.h:25-283 | 0x77 is dispatched to the register-to-register MOV with no destination register, so executing it is undefined |
| StepProperties.UnofficialEntries | emu8080/instruction_set.h:1649-1907 | the twelve undocumented opcodes dispatch to NOP |
| StepProperties.UnofficialOpcodesAreNop | emu8080/instruction_set.h:1644-1647 | executing an undocumented opcode changes nothing |
| StepProperties.AddSubPc | emu8080/instruction_set.h:521-703 | only the immediate add and subtract forms move pc, by one byte |
| StepProperties.ArithmeticEntries | emu8080/instruction_set.h:1649-1907 | opcodes 0x80..0x9F dispatch to non-immediate add and subtract handlers |
| StepProperties.ArithmeticKeepsPc | emu8080/instruction_set.h:521-671 | executing 0x80..0x9F never moves pc |
| StepProperties.ImmediateEntries | emu8080/instruction_set.h:1649-1907 | 0xC6, 0xCE, 0xD6 and 0xDE dispatch to ADI, ACI, SUI and SBI |
| StepProperties.ImmediateAdvancesPc | emu8080/instruction_set.h:581-703 | executing an immediate add or subtract advances pc past its operand |
| Storage.ReadRequestStarts | emu8080/storage.h:74-83 | READY with READ_REQUEST sets the deadline to time + 62500 (CLOCK_RATE / STORAGE_ACCESS_RATE, 2500000 / 40) modulo 2^32, clears RDY only, and enters READING |
| Storage.WriteRequestStarts | emu8080/storage.h:84-92 | READY with only WRITE_REQUEST does the same and enters WRITING |
| Storage.ReadyIdle | emu8080/storage.h:74-95 | READY with no request bit changes nothing |
| Storage.WaitsForDeadline | emu8080/storage.h:96-137 | READING or WRITING before the deadline changes nothing |
| Storage.FinishLaws | emu8080/storage.h:102-135 | the end of a transfer sets DONE, keeps every other control bit, resets the deadline, and raises the device's interrupt and enters INTERRUPT exactly when INTERRUPT_ENABLE is set, else enters OP_COMPLETE |
| Storage.ReadCompletes | emu8080/storage.h:96-116 | at the deadline a read copies the data register to RAM at the transfer address, then finishes, with STORAGE_READ as the vector |
| Storage.WriteCompletes | emu8080/storage.h:117-137 | at the deadline a write copies the data register onto the disk at the transfer address, changes no other disk byte, and finishes with STORAGE_WRITE |
| Storage.ReleaseLaws | emu8080/storage.h:149-165 | a release sets RDY, clears both request bits, keeps every other control bit, and enters READY |
| Storage.InterruptState | emu8080/storage.h:138-156 | INTERRUPT re-raises the request while DONE is set, using READ_REQUEST to choose the vector, and releases once DONE is clear |
| Storage.CompleteState | emu8080/storage.h:157-167 | OP_COMPLETE waits while DONE is set and releases once it is clear |
| Storage.UndefinedTransfer | emu8080/storage.h:96-137 | the operation is undefined exactly when a transfer falls due at address 0xFFFF |
| Storage.OperationKeeps | emu8080/storage.h:66-171 | the operation never changes the registers, pc, sp, IR, the ports, time, interrupt_enable or halt_enable |
| Storage.StaysPending | emu8080/storage.h:66-171 | while a request's deadline lies ahead, the device stays pending, the disk is not written and no interrupt is raised |
| Storage.StorageDevice.constructor | emu8080/storage.h:68-69 | the statics start at READY with deadline INT_MAX, and the disk holds the loaded bytes |
| Storage.StorageDevice.Operate | emu8080/storage.h:66-171 | the in-place `switch` on the state agrees with `Storage.Operation`, including when it is undefined |
| Storage.StorageDevice.OperateReady | emu8080/storage.h:74-95 | the READY case agrees with `Storage.Operation` |
| Storage.StorageDevice.OperateReading | emu8080/storage.h:96-116 | the READING case agrees with `Storage.Operation` |
| Storage.StorageDevice.OperateWriting | emu8080/storage.h:117-137 | the WRITING case agrees with `Storage.Operation` |
| Storage.StorageDevice.OperateInterrupt | emu8080/storage.h:138-156 | the INTERRUPT case agrees with `Storage.Operation` |
| Storage.StorageDevice.OperateComplete | emu8080/storage.h:157-167 | the OP_COMPLETE case agrees with `Storage.Operation` |
| Storage.StorageDevice.BeginTransfer | emu8080/storage.h:77-82 | the request output sets the deadline, clears RDY and enters the next state |
| Storage.StorageDevice.EndTransfer | emu8080/storage.h:102-113 | the completion output sets DONE, resets the deadline, and requests the interrupt when enabled |
| Storage.StorageDevice.ReturnToReady | emu8080/storage.h:149-154 | the release output sets RDY, clears both request bits and enters READY |
| Keyboard.RequestBranchDead | emu8080/vt100.h:119-127 | READY is the enumerator 0, so `ctrl & READY` is always false and the request branch can never run |
| Keyboard.KeyNeverErr | emu8080/vt100.h:131 | the key stored in the byte register is `getchar()` modulo 256, which is never ERR, so the completion test always passes |
| Keyboard.DeadlineNeverSet | emu8080/vt100.h:115-142 | the poll keeps the deadline or resets it to INT_MAX, and never sets a real one |
| Keyboard.WaitsForDeadline | emu8080/vt100.h:128 | before the deadline the poll changes nothing |
| Keyboard.CompletesAtDeadline | emu8080/vt100.h:128-141 | at the deadline the key byte is stored, the control byte is unchanged (or-ing in READY, which is 0, adds nothing), and an interrupt is requested exactly when enabled, with the vector unchanged |
| Keyboard.NeverCompletesEarly | emu8080/vt100.h:117 | from its initial INT_MAX deadline the poll never completes while time is below INT_MAX |
| Keyboard.KeyboardDevice.constructor | emu8080/vt100.h:117 | the static deadline starts at INT_MAX |
| Keyboard.KeyboardDevice.Read | emu8080/vt100.h:115-142 | the in-place poll agrees with `Keyboard.ReadKeyboardInput` |
| MainLoop.Iterate | emu8080/emulator.c:318-326 | one loop iteration (fetch, execute, storage operation) on the arrays agrees with `MainLoop.Cycle` |
| MainLoop.RunUnfolds | emu8080/emulator.c:315-327 | a running machine with fuel left takes one cycle and continues |
| MainLoop.RunStops | emu8080/emulator.c:315-327 | a halted machine, or one whose fuel is spent, stays stopped where it is |
| MainLoop.RunFaults | emu8080/emulator.c:315-327 | a cycle that hits undefined behaviour ends the run as faulted |
| MainLoop.Advance | emu8080/emulator.c:315-327 | one in-place iteration is one step of the run: the outcome of the remaining fuel is kept |
| MainLoop.RunMachine | emu8080/emulator.c:315-327 | the in-place loop faults exactly when `MainLoop.Run` does, and otherwise ends in the state the run describes |
| MainLoop.TransferKeepsTime | emu8080/instruction_set.h:374-517 | no data-transfer handler changes time, interrupt_request or the interrupt vector |
| MainLoop.AddSubKeepsTime | emu8080/instruction_set.h:521-703 | no add or subtract handler changes time, interrupt_request or the interrupt vector |
| MainLoop.IncDecKeepsTime | emu8080/instruction_set.h:706-807 | no increment or decrement handler changes time, interrupt_request or the interrupt vector |
| MainLoop.LogicKeepsTime | emu8080/instruction_set.h:811-962 | no logic handler changes time, interrupt_request or the interrupt vector |
| MainLoop.CompareRotateKeepsTime | emu8080/instruction_set.h:965-1108 | no compare or rotate handler changes time, interrupt_request or the interrupt vector |
| MainLoop.JumpKeepsTime | emu8080/instruction_set.h:1112-1249 | no jump handler changes time, interrupt_request or the interrupt vector |
| MainLoop.CallRestartKeepsTime | emu8080/instruction_set.h:1252-1530 | no call or restart handler changes time, interrupt_request or the interrupt vector |
| MainLoop.ReturnKeepsTime | emu8080/instruction_set.h:1395-1517 | no return handler changes time, interrupt_request or the interrupt vector |
| MainLoop.ControlKeepsTime | emu8080/instruction_set.h:1540-1647 | no stack, I/O or control handler changes time, interrupt_request or the interrupt vector |
| MainLoop.StepKeepsTime | emu8080/instruction_set.h:288-293 | no handler calls AddTime, so no executed instruction changes time, interrupt_request or the interrupt vector |
| MainLoop.CycleKeepsTime | emu8080/emulator.c:318-326 | a full loop iteration never changes time |
| MainLoop.RunKeepsTime | emu8080/emulator.c:315-327 | time never moves during a run |
| MainLoop.CycleQuiet | emu8080/emulator.c:318-326 | at time 0, with no interrupt requested and storage idle or waiting for a later deadline, an iteration stays so and leaves the disk unchanged |
| MainLoop.RunQuiet | emu8080/emulator.c:315-327 | the same across a whole run |
| MainLoop.BootNeverTransfers | emu8080/emulator.c:286-327 | from boot, time stays 0, no storage transfer ever completes, the disk is never written and storage never raises an interrupt |
| MainLoop.HaltedStops | emu8080/emulator.c:315 | a halted machine does not run |
| MainLoop.StopsOnlyOnHalt | emu8080/emulator.c:315-327 | a run that ends with halt_enable clear began with a defined cycle and equals the run of the remaining fuel from that cycle's result |
| MainLoop.HltEndsRun | emu8080/emulator.c:315-327 | fetching and executing HLT sets halt_enable, and the run ends right after that cycle |
| MainLoop.InterruptLostWithoutSign | emu8080/emulator.c:139-162 | an accepted interrupt with S clear is cleared, and its RST does nothing: the request is lost |
| MainLoop.InterruptServedWithSign | emu8080/emulator.c:139-162 | an accepted interrupt with S set pushes the low byte of pc and jumps to the device's restart address |
| AsmCommon.StrncmpFrom | asm8080/instruction_set.h:310 | `strncmp` from position i returns -1, 0 or 1 |
| AsmCommon.StrcmpFrom | asm8080/label_list.h:52 | `strcmp` from position i returns -1, 0 or 1 |
| AsmCommon.StrncmpFromPrefix | asm8080/instruction_set.h:310 | comparing up to the length of b from i gives 0 exactly when a agrees with b from i to the end of b |
| AsmCommon.StrncmpPrefix | asm8080/instruction_set.h:310 | `strncmp(a, b, strlen(b))` is 0 exactly when b is a prefix of a |
| AsmCommon.StrncmpFromSymmetric | asm8080/pseudo_instruction_set.h:67 | whether `strncmp` reports a match does not depend on the order of its arguments |
| AsmCommon.StrncmpPrefixSwapped | asm8080/pseudo_instruction_set.h:67 | `strncmp(b, a, strlen(b))` is 0 exactly when b is a prefix of a |
| AsmCommon.StrcmpFromEqual | asm8080/label_list.h:52 | for C strings, `strcmp` from i is 0 exactly when the suffixes are equal |
| AsmCommon.StrcmpEqual | asm8080/label_list.h:52 | for C strings, `strcmp` is 0 exactly when the strings are equal |
| AsmCommon.BlankedLaws | asm8080/instruction_set.h:318-321 | blanking keeps the length, puts spaces in the first n characters and keeps the rest |
| AsmCommon.ClearPrefix | asm8080/pseudo_instruction_set.h:69-72 | the loop writing spaces into the line leaves the blanked line |
| Mnemonics.Pow2 | asm8080/instruction_set.h:340 | the powers of two used for the shift's closed form are positive |
| Mnemonics.ShiftClosedForm | asm8080/instruction_set.h:299-340 | after k halvings the shift `s/2 + 0.5`, starting from 128, is 1 + 127/2^k |
| Mnemonics.Pow2Monotone | asm8080/instruction_set.h:340 | the powers of two are monotone |
| Mnemonics.ProbeLimit | asm8080/instruction_set.h:305 | the guard `rounded_shift_value/2.0 >= 0.55` holds exactly for the first eleven probes |
| Mnemonics.ProbeUnfolds | asm8080/instruction_set.h:305-351 | one probe: a NULL slot is undefined, a match returns the entry with the line blanked, and otherwise the search moves left or right |
| Mnemonics.ProbeBounds | asm8080/instruction_set.h:305 | every probed index lies in the table, and at most eleven probes happen |
| Mnemonics.SearchFromResult | asm8080/instruction_set.h:291-353 | the search is undefined, or returns "no instruction found" with the line unchanged, or returns an initialised entry that the line accepts, with the line blanked under its mnemonic |
| Mnemonics.AcceptsPrefix | asm8080/instruction_set.h:310-323 | a line accepts a mnemonic exactly when the mnemonic begins the line and is not followed by a lower-case letter |
| Mnemonics.SearchResult | asm8080/instruction_set.h:291-353 | `BinarySearch` either is undefined, finds nothing, or returns an entry whose mnemonic begins the line, not followed by a letter, with those characters blanked |
| Mnemonics.FixedProbeUnfolds | asm8080/instruction_set.h:305-351 | the corrected probe treats a NULL slot as greater than the line and moves left |
| Mnemonics.FixedSearchFromResult | asm8080/instruction_set.h:291-353 | the corrected search is always defined, and returns either "no instruction found" or an accepted entry with the line blanked |
| Mnemonics.FixedAgrees | asm8080/instruction_set.h:291-353 | wherever the as-written search returns, the corrected search returns the same |
| Mnemonics.XthlSteersRight | asm8080/instruction_set.h:287 | the search for "xthl" passes index 128 and reaches index 240 on its fourth probe |
| Mnemonics.XthlFirstProbes | asm8080/instruction_set.h:305-351 | the first two probes for "xthl" move right to index 224 |
| Mnemonics.XthlThirdProbe | asm8080/instruction_set.h:305-351 | the third probe for "xthl" moves right again, to 240 |
| Mnemonics.XthlReadsNull | asm8080/instruction_set.h:305-351 | the probe at index 240 ("xra l") steers right to index 248, which lies past the 244 initialised entries (index 0xf3 is the last), and its NULL mnemonic is passed to `strlen` |
| Mnemonics.XthlFixedEnd | asm8080/instruction_set.h:287 | from index 240 the corrected search moves right to the empty slot 248, then left to xthl at index 243, and returns it with opcode 0xe3 |
| Mnemonics.NullSlotProbed | asm8080/instruction_set.h:305-310 | `BinarySearch("xthl")` reaches undefined behaviour |
| Mnemonics.FixedFindsXthl | asm8080/instruction_set.h:287 | the corrected search returns xthl with the line blanked |
| Mnemonics.Reposition | asm8080/instruction_set.h:340-350 | the floating-point update of the shift and the truncating conversion of the index give the next probe |
| Mnemonics.Probe | asm8080/instruction_set.h:305-351 | one iteration of the loop on the line array is one step of `Mnemonics.SearchFrom` |
| Mnemonics.BinarySearch | asm8080/instruction_set.h:291-353 | the loop on the line array returns what `Mnemonics.Search` returns, with the line blanked only on a match, and is undefined exactly when it is |
| Mnemonics.MnemonicIsCString | asm8080/instruction_set.h:42-288 | every initialised mnemonic is a C string |
| Mnemonics.TableSorted | asm8080/instruction_set.h:42-288 | the 244 initialised mnemonics are in strictly increasing `strcmp` order, and exactly the slots from 0xf4 on are NULL |
| Pseudo.FindPseudoInstruction | asm8080/pseudo_instruction_set.h:56-78 | the loop on the line array returns the identifier `Pseudo.Find` gives and leaves the line it describes |
| Pseudo.MatchesPrefix | asm8080/pseudo_instruction_set.h:67 | an entry matches exactly when its mnemonic, trailing space included, begins the line |
| Pseudo.TableLayout | asm8080/pseudo_instruction_set.h:47-52 | entry i has identifier i, and every mnemonic is four characters ending in a space |
| Pseudo.AtMostOneMatches | asm8080/pseudo_instruction_set.h:47-52 | no line begins with two different entries |
| Pseudo.FindFromResult | asm8080/pseudo_instruction_set.h:62-77 | the loop returns the identifier of an entry that begins the line and blanks its four characters, or NO_PSEUDO_FOUND with the line unchanged |
| Pseudo.FindResult | asm8080/pseudo_instruction_set.h:56-78 | the identifier returned is i exactly when entry i begins the line, and then the line loses that prefix |
| Pseudo.NoMatch | asm8080/pseudo_instruction_set.h:77 | with no entry at the start of the line, the result is NO_PSEUDO_FOUND and the line is kept |
| Pseudo.NeedsTrailingSpace | asm8080/pseudo_instruction_set.h:49-51 | "org", "equ" or "end" not followed by a space is not recognised |
| Labels.Strncpy | asm8080/label_list.h:29 | the copied label is always five characters |
| Labels.LabelNode.constructor | asm8080/label_list.h:29-32 | the new node holds the copied label and the address, and both links are NULL |
| Labels.LabelList.constructor | asm8080/label_list.h:34-40 | an empty list |
| Labels.LabelList.AddLabelNode | asm8080/label_list.h:19-44 | the new label, truncated to five characters, and its address are appended at the tail, and a non-empty list keeps its head |
| Labels.LabelList.Append | asm8080/label_list.h:42-43 | linking after the tail through the head's `last_node` appends to the entries and keeps the list well formed |
| Labels.LabelList.FindLabelValue | asm8080/label_list.h:46-61 | the walk down the nodes returns `Labels.FindIn`, and is undefined exactly when `strcmp` reads past a label |
| Labels.LabelList.FreeLabelList | asm8080/label_list.h:63-83 | the list becomes empty and the head NULL |
| Labels.StrncpyLaws | asm8080/label_list.h:29 | `strncpy` copies the first five characters of the name, or all of a shorter one, and pads with NUL; the copy is terminated exactly when the name is shorter than five |
| Labels.StrcmpShortLabel | asm8080/label_list.h:52 | comparing a padded short label is comparing the name it came from |
| Labels.LabelMatches | asm8080/label_list.h:52 | where the comparison stays inside the five bytes, a stored label equals a query exactly when its name is the query |
| Labels.FindInResult | asm8080/label_list.h:46-61 | the lookup returns the address of the first matching entry; it returns 0x10000 exactly when no entry matches; and it is undefined only at an entry whose comparison reads past its label |
| Labels.FindAfterAppend | asm8080/label_list.h:19-61 | appending a label leaves every earlier answer alone, and only a query not found before can find the new entry |
| Labels.AddedLabelFound | asm8080/label_list.h:19-61 | a label of at most four characters that is not in the list is found, after adding it, at its address |
| Buffers.ToLowerLaws | asm8080/buffer.h:84-92 | upper-case letters become the matching lower-case letters, other characters are unchanged, and no result is upper case |
| Buffers.ToLowerIdempotent | asm8080/buffer.h:84-92 | lowering twice is lowering once |
| Buffers.Buffer.constructor | asm8080/buffer.h:28-52 | a new buffer has no block, `last_char_index` -1, length 0 and no contents |
| Buffers.Buffer.AddCharToBuffer | asm8080/buffer.h:54-81 | the block is reallocated to length + 1 characters, keeping the old contents, and c is appended |
| Buffers.Buffer.ShiftBufferContentsLeft | asm8080/buffer.h:96-108 | the first character is dropped and the others move left; the freed cell becomes NUL and the block keeps its size |
| Buffers.FreeBuffer | asm8080/buffer.h:110-124 | the variable that held the buffer ends up NULL |
| OutputList.OutputNode.constructor | asm8080/output_list.h:41-45 | the node holds the opcode, the operand copy and the type, `final_operand` is 0x10000, and `next` is NULL |
| OutputList.Output.constructor | asm8080/output_list.h:56-62 | an empty list |
| OutputList.Output.AddOutputNode | asm8080/output_list.h:30-68 | EXIT_SUCCESS exactly when both allocations succeed; then the entry (opcode, operand copy, unresolved 0x10000, type) is at the tail; on failure the list is unchanged |
| OutputList.Output.Append | asm8080/output_list.h:64-65 | linking after the tail through the head's `last` appends the entry and keeps the list well formed |
| OutputList.Output.FreeOutputList | asm8080/output_list.h:70-91 | the list becomes empty and the head NULL |
| LineTokens.Realloc | asm8080/line_token_array.h:51 | the grown block has exactly the requested number of slots |
| LineTokens.LineTokenArray.constructor | asm8080/line_token_array.h:31 | no block yet |
| LineTokens.LineTokenArray.AddLineToken | asm8080/line_token_array.h:27-68 | status and new array are exactly what `LineTokens.Add` gives, covering the first block, the realloc, both allocation failures and the copy |
| LineTokens.LineTokenArray.FreeLineTokens | asm8080/line_token_array.h:70-87 | the line pointers of the first `num_tokens` slots are freed, and the array variable becomes NULL |
| LineTokens.AddStatus | asm8080/line_token_array.h:27-68 | EXIT_SUCCESS exactly when both allocations succeed |
| LineTokens.AddFillsSlot | asm8080/line_token_array.h:51-67 | on success the slot at `line_index` holds the line and its length, the block has `num_tokens + 1` slots, and the other slots are kept |
| LineTokens.AddAgainSame | asm8080/line_token_array.h:58-65 | adding the same line at the same slot twice gives the same array as adding it once |
| LineTokens.BlockFailureLosesTokens | asm8080/line_token_array.h:51-56 | a failed realloc overwrites the only pointer with NULL, so every token stored before is lost |
| LineTokens.LineFailureStoresNull | asm8080/line_token_array.h:58-62 | a failed line allocation leaves NULL in the slot and reports failure |
| LineTokens.FreedLines | asm8080/line_token_array.h:80-83 | exactly the first `num_tokens` line pointers are freed |
| LineTokens.AddInOrder | asm8080/line_token_array.h:27-68 | adding lines at slots n, n+1, ... with every allocation succeeding keeps the first n slots and leaves line k, with its length + 1, in slot n + k |
| HexScanner.Run | old/8080_disassembler/8080_disassembler.c:30-89 | the scanner state stays in 0..4, and the captured text only grows at its end and keeps an even length |
| HexScanner.Realloc | old/8080_disassembler/8080_disassembler.c:75-76 | the new block is larger and keeps the old contents |
| HexScanner.ScanFile | old/8080_disassembler/8080_disassembler.c:16-89 | the loop over the file leaves, in the first `hex_index` cells, exactly what the state machine captures from the input plus the EOF value; `hex_size` is `hex_index + 2` |
| HexScanner.RunSnoc | old/8080_disassembler/8080_disassembler.c:30-89 | running on one more character is one more step |
| HexScanner.RunAppend | old/8080_disassembler/8080_disassembler.c:30-89 | running on a concatenation is running on the second part from where the first stopped |
| HexScanner.StepRemembers | old/8080_disassembler/8080_disassembler.c:43-89 | one step keeps the invariant that links the state to the last characters read |
| HexScanner.RunRemembers | old/8080_disassembler/8080_disassembler.c:43-89 | after any input, states 1 to 4 mean that the last characters read were "0", "0x", "0xa" and "0xab" |
| HexScanner.CaptureNeedsPattern | old/8080_disassembler/8080_disassembler.c:73-85 | a step captures nothing or appends exactly one pair; it captures only when the last four characters read are "0", "x" and the pair itself, and the character just read is "," or "]" |
| HexScanner.LiteralCaptured | old/8080_disassembler/8080_disassembler.c:73-85 | from the reset state, "0x", any two characters and "," or "]" capture those two characters and return to the reset state |
| HexScanner.NoHexValidation | old/8080_disassembler/8080_disassembler.c:63-72 | the two captured characters are not checked to be hex digits: "0xzz," captures "zz" |
| HexScanner.BrokenPatternConsumed | old/8080_disassembler/8080_disassembler.c:43-62 | a "0" that is not followed by "x" is consumed, so "00x12," captures nothing |
| HexScanner.ListCaptured | old/8080_disassembler/8080_disassembler.c:73-85 | "[0x3e,0xc3]" captures "3ec3", because "]" also closes a literal |
| HexScanner.EofCapturesNothing | old/8080_disassembler/8080_disassembler.c:30-39 | the EOF value read at the end of the file never completes a capture |
| SbbOpcodes.EmulatorSbbLow | emu8080/instruction_set.h:179-182 | the emulator runs 0x98..0x9B as SBB B, C, D and E |
| SbbOpcodes.EmulatorSbbHigh | emu8080/instruction_set.h:183-186 | the emulator runs 0x9C..0x9F as SBB H, L, M and A |
| SbbOpcodes.SbbAsWritten | asm8080/instruction_set.h:253-260 | the assembler's "sbb c" to "sbb m" carry the opcode of the next register, so "sbb c" assembles to SBB D, and "sbb m" shares 0x9f with "sbb a" |
| SbbOpcodes.SbbCorrected | asm8080/instruction_set.h:253-260 | with the six opcodes lowered by one, every "sbb r" carries the emulator's opcode for SBB r, and the eight opcodes are distinct |

## Left out

- Terminal and file I/O is not modelled: `GetProgram`, `DisplayState`, `PrintMachineState`, the `display.h` and `vt100.h` monitor functions, `LoadNonVolatileMemory`, `StoreNonVolatileMemory` and every `printf`. The loaded program image, the disk contents, `getchar`'s key and the input file's characters are parameters.
- `OutputToDebugTerminal` (emu8080/instruction_set.h:295-298) prints only, so it is not modelled.
- `AddTime` (emu8080/instruction_set.h:288-293) is modelled, but no handler calls it. `MainLoop.StepKeepsTime` proves that no handler changes time.
- The emulator's main loop runs until `halt_enable` is set and need not end. `MainLoop.Run` and `MainLoop.RunMachine` take a `fuel` bound on the number of iterations. A run cut off by fuel says nothing about later iterations.
- Accesses past the end of memory are undefined in C. The model marks them `Undefined` instead of choosing a value. Examples are memory[0xFFFF], the last cell of a 0xFFFF-byte block, and a NULL descriptor register.
- `register_file` is declared with ten bytes, but the two extra bytes (Z and W) are never used. The model keeps eight.
- The storage deadline is a C `int` compared with a `uint32_t` time. It is modelled as `(time + 62500) mod 2^32`, which is the value the comparison sees.
- `Keyboard.KeyboardDevice.Read`: `main` never calls `ReadKeyboardInput`, so the poll is modelled and proved on its own, outside the main loop.
- Allocation failure is a boolean parameter of `AddOutputNode` and `AddLineToken`, as is the failure of each `malloc` or `realloc` call. `NewBuffer`, `AddCharToBuffer` and `AddLabelNode` call `exit` when allocation fails; the model assumes their allocations succeed.
- `free` is not modelled. Freed lists become empty, and `FreeLineTokens` returns the list of line pointers it would free.
- Characters are compared by code point. `strcmp`'s signed or unsigned `char` is not modelled, because every mnemonic and label is ASCII.
- OutputList.OutputNode.constructor: a non-head output node's `last` is uninitialised in C. Here it is NULL; it is never read.
- The output node's operand copy (`malloc` plus `strcpy`) is a string value, so the model does not capture aliasing of that block.
- `realloc` is modelled as moving the contents to a fresh block. This applies to buffer.h, line_token_array.h and the scanner. The model does not capture whether the old block aliases the new one.
- Buffers.Buffer.ShiftBufferContentsLeft requires a non-empty buffer. On an empty one the C writes `str[-1]`, which is undefined.
- asm8080/pseudo_instruction_set.h #defines NO_PSEUDO_FOUND, ORG, EQU and END as -1, 0, 1 and 2. These replace the enumerators of the same names in asm8080/common.h, and the model uses the #define values.
- XRA M and XRI are dispatched and executed like the other logic handlers. `StepProperties.XorOrClearCarries` covers only the register forms of XRA and ORA; `StepProperties.XorOrClear` covers every form at the handler level.
- Two parts of the disassembler's scanner are not modelled: opening the file, and the `printf` of each captured pair. An unchecked `realloc` failure is not modelled either.
- The code in the scanner after the state machine is not modelled, because it is commented out.
- `asm8080/assembler.c` (the driver that calls the helpers) and `8080_emulator.c` are not part of this model.
- The floating-point arithmetic of `BinarySearch` is modelled with Dafny reals. This matches the source because every value involved (1 + 127/2^k for k <= 11, and the indices) is exact in a double.

## Findings

| source | as written | input that shows it | evidently intended | confidence | as-written member | corrected member |
|---|---|---|---|---|---|---|
| asm8080/instruction_set.h:305-310 | `BinarySearch` probes up to index 255 of a 256-slot table with only 244 initialised entries, and passes an uninitialised slot's NULL mnemonic to `strlen` | the line "xthl", the last entry: the probes go 128, 192, 224, 240 ("xra l") and 248, and slot 248 is NULL | treat an empty slot as greater than every line and move left: the corrected search moves right to 248 and then left to xthl at 243 | not executed | Mnemonics.NullSlotProbed | Mnemonics.FixedFindsXthl |
| asm8080/instruction_set.h:255-260 | the entries "sbb c" to "sbb m" hold 0x9a to 0x9f, one more than the emulator's opcodes for those registers | "sbb c" assembles to 0x9a, which the emulator runs as SBB D; "sbb m" gives 0x9f, which it runs as SBB A | 0x99 to 0x9e, so that each "sbb r" is the emulator's SBB r | not executed | SbbOpcodes.SbbAsWritten | SbbOpcodes.SbbCorrected |

The corrected search `Mnemonics.FixedSearch` is proved to agree with the as-written search wherever the latter returns (`Mnemonics.FixedAgrees`). It is also always defined (`Mnemonics.FixedSearchFromResult`). The in-place `Mnemonics.BinarySearch` models the loop as written. Nothing in this model consumes a search result or an assembled opcode, because the driver `asm8080/assembler.c` is not part of it.
