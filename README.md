# SharpBoy CPU, modelled in Dafny

This project models the processor core of the SharpBoy Game Boy emulator:
the `CPU` class and the `Register` struct of
`SharpBoy/SharpBoySDL/Emulation/CPU.cs`. That code is a stepper for a Sharp
LR35902-class CPU. It holds six 16-bit register pairs (AF, BC, DE, HL, SP,
PC), each a high and a low byte with a derived `Word` view, plus the DIV and
TIMA countdowns, the frame's cycle count and the interrupt master enable
(IME). It works on the 64 KiB address space.

The model follows the C# code as written, not the real processor. Where the
two differ, a lemma of module `Quirks` pins the difference:

- DEC B and DEC H decrement C and L.
- DEC BC and DEC DE increment.
- INC DE increments BC.
- LD (DE),A stores through BC.
- LD BC,nn moves PC on by only two, so the high operand byte is then run as an opcode.
- LD (nn),SP writes SP over its own operand bytes.
- RLC/RRC feed the old carry into the vacated bit; RL/RR feed back the bit shifted out.
- ADD HL,rr has an unusual half-carry test and a wrap by 0xFFFF, never clears C and keeps Z.
- DAA's addition branch tests bit 5 of A in place of H.
- DAA's subtraction branch takes off 0x60 when bit 4 of A is set, in place of testing C.
- LD A,(BC) zeroes the whole flag byte; LD A,(DE) keeps it.
- The interrupt controller reads only the enable byte, and throws for an enabled bit 5, 6 or 7.
- A taken relative jump by -128 throws. `Math.Abs` of `sbyte.MinValue` raises OverflowException.

Layout:

- `bits.dfy` (module `Bits`): single-bit set and test on bytes, and the flag
  positions Z = 7, N = 6, H = 5, C = 4.
- `register.dfy` (module `Registers`):
  - the `Register` datatype with its `Word` getter and setter;
  - the wrapping 16-bit increment and decrement (`ushort` arithmetic).
- `alu.dfy` (module `Alu`): the ALU helpers and the DAA and CPL cases, as
  functions from a byte (or two pairs) and the flag byte to the new value and
  flag byte.
- `machine.dfy` (module `Semantics`):
  - every field the class changes, as one `Machine` value;
  - a function per member of the class (`Execute` for `DoOpcode`, `Timers`
    for `UpdateSpecialRegisters`, `ServiceInterrupt` for `DoInterrupts`,
    `Step` for `DoStep`, `AfterReset` for `Reset`, the stack operations);
  - the properties of those functions.
- `cpu.dfy` (module `Emulation`):
  - the class `Cpu`, with the register pairs, counters and IME as fields and
    memory as an `array<bv8>`;
  - one method per member of the C# class, and one per case of the
    opcode switch. Each is proved to change `State()` exactly as the
    matching `Semantics` function says.
- `quirks.dfy` (module `Quirks`): whole-`DoOpcode` and whole-`DoStep`
  statements of the behaviours above and of the jumps, loads and ADD HL,rr.

Exceptions the C# code can raise are part of the model. Each member that
can throw returns a `Status`, together with the state the code has left at
the point of the throw. They are:

- OverflowException in a relative jump;
- IndexOutOfRangeException in `DoInterrupts`;
- ArgumentException from `Array.Copy` in `Reset`.

## Model

| member | source | states |
|---|---|---|
| `Bits.SetBit` | SharpBoy/SharpBoySDL/Emulation/CPU.cs:111-112 | bit i of the result is `on`, every other bit is kept (the Utility.SetBit the code calls, taken as a plain bit set/clear) |
| `Registers.Register.Word` | SharpBoy/SharpBoySDL/Emulation/CPU.cs:698-700 | the getter's word divided by 256 is High and its remainder is Low |
| `Registers.Register.FromWord` | SharpBoy/SharpBoySDL/Emulation/CPU.cs:701 | the setter stores a pair whose Word reads back the value written |
| `Registers.FromWordBytes` | SharpBoy/SharpBoySDL/Emulation/CPU.cs:701 | the setter stores `value / 256` in High and `value % 256` in Low |
| `Registers.WordRoundTrip` | SharpBoy/SharpBoySDL/Emulation/CPU.cs:698-702 | writing back the word just read leaves the pair unchanged |
| `Registers.Incremented` | SharpBoy/SharpBoySDL/Emulation/CPU.cs:453-463 | the word of the incremented pair is `(w + 1) mod 65536` |
| `Registers.Decremented` | SharpBoy/SharpBoySDL/Emulation/CPU.cs:465-475 | the word of the decremented pair is `(w - 1) mod 65536` |
| `Registers.IncrementWraps` | SharpBoy/SharpBoySDL/Emulation/CPU.cs:455-458 | the increment of 0xFFFF is the pair 0, the explicit branch of INC_R16 |
| `Registers.DecrementWraps` | SharpBoy/SharpBoySDL/Emulation/CPU.cs:467-470 | the decrement of 0 is the pair 0xFFFF, the explicit branch of DEC_R16 |
| `Registers.IncDecInverse` | SharpBoy/SharpBoySDL/Emulation/CPU.cs:453-475 | the 16-bit increment and decrement undo each other in both orders, on every pair |
| `Registers.DecAfterInc` | SharpBoy/SharpBoySDL/Emulation/CPU.cs:453-475 | a decrement undoes an increment |
| `Registers.IncAfterDec` | SharpBoy/SharpBoySDL/Emulation/CPU.cs:453-475 | an increment undoes a decrement |
| `Alu.ClearZN` | SharpBoy/SharpBoySDL/Emulation/CPU.cs:446-451 | the two SetBit calls of LD_R16_NN and the loads clear Z and N and keep H, C and the low nibble |
| `Alu.Inc8` | SharpBoy/SharpBoySDL/Emulation/CPU.cs:477-498 | the result is x + 1 mod 256; Z iff the result is 0; H iff the low nibble of x is 0xF; N cleared; C and bits 0-3 kept |
| `Alu.Dec8` | SharpBoy/SharpBoySDL/Emulation/CPU.cs:500-527 | the result is x - 1 mod 256; Z cleared when x is 0, set when x is 1, kept otherwise; H iff the low nibble of x is 0; N set; C and bits 0-3 kept |
| `Alu.RotateFlags` | SharpBoy/SharpBoySDL/Emulation/CPU.cs:534-548 | a rotate leaves only C (the bit shifted out) and Z (the result is zero) in the flag byte: N, H and bits 0-3 are zero |
| `Alu.Rlc8` | SharpBoy/SharpBoySDL/Emulation/CPU.cs:529-549 | the result is x shifted left with the previous C in bit 0; C is bit 7 of x; Z iff the result is 0; every other flag bit zero |
| `Alu.Rrc8` | SharpBoy/SharpBoySDL/Emulation/CPU.cs:551-571 | the result is x shifted right with the previous C in bit 7; C is bit 0 of x; Z iff the result is 0; every other flag bit zero |
| `Alu.Rl8` | SharpBoy/SharpBoySDL/Emulation/CPU.cs:573-588 | the result is x rotated left (bit 7 to bit 0); C is bit 7 of x; Z iff x is 0; every other flag bit zero |
| `Alu.Rr8` | SharpBoy/SharpBoySDL/Emulation/CPU.cs:590-605 | the result is x rotated right (bit 0 to bit 7); C is bit 0 of x; Z iff x is 0; every other flag bit zero |
| `Alu.AddWordOnCarry` | SharpBoy/SharpBoySDL/Emulation/CPU.cs:435-438 | on a carry out of bit 15 the stored word is the sum less 0xFFFF |
| `Alu.AddWordNoCarry` | SharpBoy/SharpBoySDL/Emulation/CPU.cs:440-443 | without a carry the stored word is the sum |
| `Alu.AddWordIsSum` | SharpBoy/SharpBoySDL/Emulation/CPU.cs:435-443 | the stored word is the 16-bit sum, plus one when the sum carries out of bit 15 |
| `Alu.AddFlagBits` | SharpBoy/SharpBoySDL/Emulation/CPU.cs:424-444 | N cleared; H iff either high byte has a non-zero low nibble; C set on a carry and otherwise kept; Z and bits 0-3 kept |
| `Alu.HalfCarry16` | SharpBoy/SharpBoySDL/Emulation/CPU.cs:427 | the half-carry test holds exactly when the low nibble of either high byte is non-zero |
| `Alu.Daa` | SharpBoy/SharpBoySDL/Emulation/CPU.cs:322-372 | after a subtraction A loses 0x06 when its low nibble exceeds 9 or H is set, then 0x60 when the high nibble exceeds 9 or bit 4 is set; after an addition A gains 0x06 when its low nibble exceeds 9 or bit 5 is set, then 0x60 when the high nibble exceeds 9 or C is set; after a low correction C tells whether the new high nibble is 0xF (subtraction) or 0 (addition), otherwise C is kept; Z is recomputed from the final accumulator; N, H and bits 0-3 are kept |
| `Alu.DaaAfterSubtract` | SharpBoy/SharpBoySDL/Emulation/CPU.cs:324-342 | the N-set branch takes 0x06 off when the low nibble exceeds 9 or H is set, then 0x60 when the high nibble exceeds 9 or bit 4 of A is set; after the low correction C tells whether the high nibble became 0xF; it changes at most C, and no flag without a low correction |
| `Alu.DaaAfterAdd` | SharpBoy/SharpBoySDL/Emulation/CPU.cs:343-361 | the N-clear branch adds 0x06 when the low nibble exceeds 9 or bit 5 of A is set, then 0x60 when the high nibble exceeds 9 or C (as the low correction left it) is set; it changes at most C, and no flag without a low correction |
| `Alu.Cpl` | SharpBoy/SharpBoySDL/Emulation/CPU.cs:413-418 | the result is the complement of A; N and H set; Z, C and bits 0-3 kept |
| `Semantics.ReadWord` | SharpBoy/SharpBoySDL/Emulation/CPU.cs:633-634 | the low byte of the word is the byte at the address, the high byte the one after it (wrapping) |
| `Semantics.Push` | SharpBoy/SharpBoySDL/Emulation/CPU.cs:624-629 | the high byte lands at SP - 1, the low byte at SP - 2, SP goes down by 2, and nothing else changes |
| `Semantics.Pop` | SharpBoy/SharpBoySDL/Emulation/CPU.cs:631-637 | the value is the word at SP, and SP goes up by 2 with nothing else changed |
| `Semantics.Call` | SharpBoy/SharpBoySDL/Emulation/CPU.cs:607-611 | PC becomes the address; the word at the new SP (2 below the old) is the old PC; only SP, PC and memory change |
| `Semantics.Ret` | SharpBoy/SharpBoySDL/Emulation/CPU.cs:613-616 | PC becomes the word at SP and SP goes up by 2; nothing else changes |
| `Semantics.Reti` | SharpBoy/SharpBoySDL/Emulation/CPU.cs:618-622 | RETI is RET with IME set |
| `Semantics.ReadPushed` | SharpBoy/SharpBoySDL/Emulation/CPU.cs:624-629 | the word at the new SP after PUSH is the pushed value |
| `Semantics.PopAfterPush` | SharpBoy/SharpBoySDL/Emulation/CPU.cs:624-637 | POP after PUSH returns the pushed value and restores SP |
| `Semantics.PopRestores` | SharpBoy/SharpBoySDL/Emulation/CPU.cs:635 | POP sets SP to any pair whose word is two above it |
| `Semantics.RetAfterCall` | SharpBoy/SharpBoySDL/Emulation/CPU.cs:607-616 | RET after CALL returns to the calling PC with the original SP |
| `Semantics.Signed` | SharpBoy/SharpBoySDL/Emulation/CPU.cs:99 | the sbyte reading of a byte lies in -128..127 and agrees with it mod 256 |
| `Semantics.Jump` | SharpBoy/SharpBoySDL/Emulation/CPU.cs:234-241 | a jump by displacement d moves the word by the signed d, mod 65536 |
| `Semantics.Ops00` | SharpBoy/SharpBoySDL/Emulation/CPU.cs:103-144 | opcodes 0x00-0x07 return normally at cost 1, 2 or 3 and leave SP, IME and the counters alone |
| `Semantics.Ops08` | SharpBoy/SharpBoySDL/Emulation/CPU.cs:145-188 | opcodes 0x08-0x0F return normally at cost 1, 2 or 5 and leave SP, IME and the counters alone |
| `Semantics.Ops10` | SharpBoy/SharpBoySDL/Emulation/CPU.cs:189-231 | opcodes 0x10-0x17 return normally at cost 1, 2 or 3 and leave SP, IME and the counters alone |
| `Semantics.Ops18` | SharpBoy/SharpBoySDL/Emulation/CPU.cs:232-280 | opcodes 0x18-0x1F cost 1, 2 or 3; only JR n can throw, and then only PC has moved (onto the operand) |
| `Semantics.Ops20` | SharpBoy/SharpBoySDL/Emulation/CPU.cs:281-372 | opcodes 0x20-0x27 cost 1, 2 or 3; only JR NZ,n can throw, and then only PC has moved |
| `Semantics.Ops28` | SharpBoy/SharpBoySDL/Emulation/CPU.cs:373-418 | opcodes 0x28-0x2F cost 1, 2 or 3; only JR Z,n can throw, and then only PC has moved |
| `Semantics.Execute` | SharpBoy/SharpBoySDL/Emulation/CPU.cs:96-422 | DoOpcode costs one of 0, 1, 2, 3, 5; only the three relative jumps throw (OverflowException); an opcode from 0x30 up costs 0, advances PC by 1 and changes nothing else; SP, IME and the counters never change |
| `Semantics.TimaPeriod` | SharpBoy/SharpBoySDL/Emulation/CPU.cs:688 | the TIMA countdown for TAC & 3 is 1024, 16, 64 or 256 cycles |
| `Semantics.Timers` | SharpBoy/SharpBoySDL/Emulation/CPU.cs:658-690 | UpdateSpecialRegisters changes only memory and the two countdowns |
| `Semantics.TimersWriteOnlyTimerBytes` | SharpBoy/SharpBoySDL/Emulation/CPU.cs:658-690 | every byte of memory other than DIV, TIMA and IF is unchanged |
| `Semantics.TimersDivider` | SharpBoy/SharpBoySDL/Emulation/CPU.cs:660-673 | when the DIV countdown drops to 0 or below, DIV goes up by one mod 256 and the countdown restarts at 256; otherwise only the countdown moves |
| `Semantics.TimersTimer` | SharpBoy/SharpBoySDL/Emulation/CPU.cs:675-689 | when the TIMA countdown drops to 0 or below, TIMA at 0xFF reloads from TMA and sets bit 2 of IF, TIMA below 0xFF goes up by one, and the countdown restarts from TAC's period; otherwise only the countdown moves |
| `Semantics.DivTick` | SharpBoy/SharpBoySDL/Emulation/CPU.cs:660-673 | the divider half: only DIV and its countdown change, as in TimersDivider |
| `Semantics.TimaTick` | SharpBoy/SharpBoySDL/Emulation/CPU.cs:675-689 | the timer half: only TIMA, IF and the TIMA countdown change, as in TimersTimer |
| `Semantics.LowestSetBit` | SharpBoy/SharpBoySDL/Emulation/CPU.cs:643-645 | the result is the first set bit at or above the start, or 8 when there is none: every bit below it is clear |
| `Semantics.LowestSetBitIs` | SharpBoy/SharpBoySDL/Emulation/CPU.cs:643-651 | the scan returns exactly the first set bit: any set bit with only clear bits below it is the result |
| `Semantics.Enter` | SharpBoy/SharpBoySDL/Emulation/CPU.cs:647-649 | for i below 5: IME is cleared, PC becomes 0x40 + 8i, SP goes down by 2 with the old PC as the word at the new SP, bit i of IF is cleared (when neither stack slot is IF), every other byte is kept and no other field changes; for i of 5 and up the vector lookup throws IndexOutOfRangeException after IF bit i and IME are cleared |
| `Semantics.ServiceInterrupt` | SharpBoy/SharpBoySDL/Emulation/CPU.cs:639-654 | with IME clear or no enable bit set nothing changes; otherwise the lowest set bit of IE is entered, whatever IF holds |
| `Semantics.Step` | SharpBoy/SharpBoySDL/Emulation/CPU.cs:86-94 | a step that does not throw adds exactly the opcode's cost, between 0 and 5, to the frame count |
| `Semantics.Settle` | SharpBoy/SharpBoySDL/Emulation/CPU.cs:90-93 | the timers, then the interrupts, then the cost is added to the frame count |
| `Semantics.CopiedOver` | SharpBoy/SharpBoySDL/Emulation/CPU.cs:68 | an element-by-element copy of the image over the start of memory gives the image followed by the rest of memory |
| `Semantics.AfterReset` | SharpBoy/SharpBoySDL/Emulation/CPU.cs:58-73 | AF = 0x01B0, BC = 0x0013, DE = 0x00D8, HL = 0x014D, SP = 0xFFFE, PC = 0; the boot image sits at the bottom of memory with the rest unchanged, DIV countdown 256, TIMA countdown 1024, IME set; an image longer than memory throws ArgumentException after the registers are set |
| `Emulation.Cpu.constructor` | SharpBoy/SharpBoySDL/Emulation/CPU.cs:36-56 | all six pairs are zero, the counters zero and IME set |
| `Emulation.Cpu.Reset` | SharpBoy/SharpBoySDL/Emulation/CPU.cs:58-73 | the new state and status are AfterReset of the old state and the boot image |
| `Emulation.Cpu.SetBootRegisters` | SharpBoy/SharpBoySDL/Emulation/CPU.cs:60-66 | the pairs take the boot values and nothing else changes |
| `Emulation.Cpu.CopyBootImage` | SharpBoy/SharpBoySDL/Emulation/CPU.cs:68 | memory becomes the boot image followed by the rest of the old memory |
| `Emulation.Cpu.DoFrame` | SharpBoy/SharpBoySDL/Emulation/CPU.cs:75-84 | the state is that of Run from the old state with a zero frame count; a completed frame has used at least CYCLESPERFRAME cycles and fewer than CYCLESPERFRAME + 5 |
| `Emulation.Cpu.DoStep` | SharpBoy/SharpBoySDL/Emulation/CPU.cs:86-94 | the new state and status are Step of the old state |
| `Emulation.Cpu.FinishStep` | SharpBoy/SharpBoySDL/Emulation/CPU.cs:90-93 | the new state and status are Settle of the old state and the cost |
| `Emulation.Cpu.DoOpcode` | SharpBoy/SharpBoySDL/Emulation/CPU.cs:96-422 | the new state, status and cost are Execute of the old state |
| `Emulation.Cpu.Switch` | SharpBoy/SharpBoySDL/Emulation/CPU.cs:98-419 | the new state, status and cost are Dispatch of the old state |
| `Emulation.Cpu.Opcodes00` | SharpBoy/SharpBoySDL/Emulation/CPU.cs:103-144 | cases 0x00-0x07 move the state as Ops00 |
| `Emulation.Cpu.Opcodes08` | SharpBoy/SharpBoySDL/Emulation/CPU.cs:145-188 | cases 0x08-0x0F move the state as Ops08 |
| `Emulation.Cpu.Opcodes10` | SharpBoy/SharpBoySDL/Emulation/CPU.cs:189-231 | cases 0x10-0x17 move the state as Ops10 |
| `Emulation.Cpu.Opcodes18` | SharpBoy/SharpBoySDL/Emulation/CPU.cs:232-280 | cases 0x18-0x1F move the state as Ops18 |
| `Emulation.Cpu.Opcodes20` | SharpBoy/SharpBoySDL/Emulation/CPU.cs:281-372 | cases 0x20-0x27 move the state as Ops20 |
| `Emulation.Cpu.Opcodes28` | SharpBoy/SharpBoySDL/Emulation/CPU.cs:373-418 | cases 0x28-0x2F move the state as Ops28 |
| `Emulation.Cpu.Nop` | SharpBoy/SharpBoySDL/Emulation/CPU.cs:103-105 | NOP costs 1 and changes nothing |
| `Emulation.Cpu.LdBcNn` | SharpBoy/SharpBoySDL/Emulation/CPU.cs:106-109 | LD BC,nn loads the word after the opcode, clears Z and N, and leaves PC on the low operand byte (LoadPair without the skip) |
| `Emulation.Cpu.LdBcA` | SharpBoy/SharpBoySDL/Emulation/CPU.cs:110-115 | LD (BC),A stores A at BC and clears Z and N |
| `Emulation.Cpu.IncBc` | SharpBoy/SharpBoySDL/Emulation/CPU.cs:116-126 | INC BC is the wrapping increment of BC |
| `Emulation.Cpu.IncB` | SharpBoy/SharpBoySDL/Emulation/CPU.cs:127-130 | INC B is INC_R8 on B |
| `Emulation.Cpu.DecB` | SharpBoy/SharpBoySDL/Emulation/CPU.cs:131-134 | DEC B is DEC_R8 on C |
| `Emulation.Cpu.LdBN` | SharpBoy/SharpBoySDL/Emulation/CPU.cs:135-140 | LD B,n loads the byte after the opcode into B and clears Z and N |
| `Emulation.Cpu.RlcA` | SharpBoy/SharpBoySDL/Emulation/CPU.cs:141-144 | RLC A is RLC_R8 on A, at cost 2 |
| `Emulation.Cpu.LdNnSp` | SharpBoy/SharpBoySDL/Emulation/CPU.cs:145-150 | LD (nn),SP zeroes F and stores the two bytes of SP over its own operand bytes |
| `Emulation.Cpu.AddHlBc` | SharpBoy/SharpBoySDL/Emulation/CPU.cs:151-154 | ADD HL,BC is ADD_R16_R16 into HL |
| `Emulation.Cpu.LdABc` | SharpBoy/SharpBoySDL/Emulation/CPU.cs:155-159 | LD A,(BC) zeroes F and loads A from BC |
| `Emulation.Cpu.DecBc` | SharpBoy/SharpBoySDL/Emulation/CPU.cs:160-170 | DEC BC is the wrapping increment of BC |
| `Emulation.Cpu.IncC` | SharpBoy/SharpBoySDL/Emulation/CPU.cs:171-174 | INC C is INC_R8 on C |
| `Emulation.Cpu.DecC` | SharpBoy/SharpBoySDL/Emulation/CPU.cs:175-178 | DEC C is DEC_R8 on C |
| `Emulation.Cpu.LdCN` | SharpBoy/SharpBoySDL/Emulation/CPU.cs:179-184 | LD C,n loads the byte after the opcode into C and clears Z and N |
| `Emulation.Cpu.RrcA` | SharpBoy/SharpBoySDL/Emulation/CPU.cs:185-188 | RRC A is RRC_R8 on A, at cost 2 |
| `Emulation.Cpu.Stop` | SharpBoy/SharpBoySDL/Emulation/CPU.cs:189-191 | STOP costs 1 and changes nothing |
| `Emulation.Cpu.LdDeNn` | SharpBoy/SharpBoySDL/Emulation/CPU.cs:192-196 | LD DE,nn loads the word after the opcode, clears Z and N, and moves PC onto the high operand byte |
| `Emulation.Cpu.LdDeA` | SharpBoy/SharpBoySDL/Emulation/CPU.cs:197-202 | LD (DE),A stores A at BC and clears Z and N |
| `Emulation.Cpu.IncDe` | SharpBoy/SharpBoySDL/Emulation/CPU.cs:203-213 | INC DE is the wrapping increment of BC |
| `Emulation.Cpu.IncD` | SharpBoy/SharpBoySDL/Emulation/CPU.cs:214-217 | INC D is INC_R8 on D |
| `Emulation.Cpu.DecD` | SharpBoy/SharpBoySDL/Emulation/CPU.cs:218-221 | DEC D is DEC_R8 on D |
| `Emulation.Cpu.LdDN` | SharpBoy/SharpBoySDL/Emulation/CPU.cs:222-227 | LD D,n loads the byte after the opcode into D and clears Z and N |
| `Emulation.Cpu.RlA` | SharpBoy/SharpBoySDL/Emulation/CPU.cs:228-231 | RL A is RL_R8 on A, at cost 2 |
| `Emulation.Cpu.Jr` | SharpBoy/SharpBoySDL/Emulation/CPU.cs:232-243 | JR n reads the displacement after the opcode and always jumps (RelativeJump taken) |
| `Emulation.Cpu.AddHlDe` | SharpBoy/SharpBoySDL/Emulation/CPU.cs:244-247 | ADD HL,DE is ADD_R16_R16 into HL |
| `Emulation.Cpu.LdADe` | SharpBoy/SharpBoySDL/Emulation/CPU.cs:248-251 | LD A,(DE) loads A from DE and keeps F |
| `Emulation.Cpu.DecDe` | SharpBoy/SharpBoySDL/Emulation/CPU.cs:252-262 | DEC DE is the wrapping increment of DE |
| `Emulation.Cpu.IncE` | SharpBoy/SharpBoySDL/Emulation/CPU.cs:263-266 | INC E is INC_R8 on E |
| `Emulation.Cpu.DecE` | SharpBoy/SharpBoySDL/Emulation/CPU.cs:267-270 | DEC E is DEC_R8 on E |
| `Emulation.Cpu.LdEN` | SharpBoy/SharpBoySDL/Emulation/CPU.cs:271-276 | LD E,n loads the byte after the opcode into E and clears Z and N |
| `Emulation.Cpu.RrA` | SharpBoy/SharpBoySDL/Emulation/CPU.cs:277-280 | RR A is RR_R8 on A, at cost 2 |
| `Emulation.Cpu.JrNz` | SharpBoy/SharpBoySDL/Emulation/CPU.cs:281-295 | JR NZ,n jumps exactly when Z is clear |
| `Emulation.Cpu.LdHlNn` | SharpBoy/SharpBoySDL/Emulation/CPU.cs:296-300 | LD HL,nn loads the word after the opcode, clears Z and N, and moves PC onto the high operand byte |
| `Emulation.Cpu.LdiHlA` | SharpBoy/SharpBoySDL/Emulation/CPU.cs:301-305 | LDI (HL),A stores A at HL, then increments HL |
| `Emulation.Cpu.IncHl` | SharpBoy/SharpBoySDL/Emulation/CPU.cs:306-309 | INC HL is the wrapping increment of HL |
| `Emulation.Cpu.IncH` | SharpBoy/SharpBoySDL/Emulation/CPU.cs:310-313 | INC H is INC_R8 on H |
| `Emulation.Cpu.DecH` | SharpBoy/SharpBoySDL/Emulation/CPU.cs:314-317 | DEC H is DEC_R8 on L |
| `Emulation.Cpu.LdHN` | SharpBoy/SharpBoySDL/Emulation/CPU.cs:318-321 | LD H,n loads the byte after the opcode into H and keeps F |
| `Emulation.Cpu.DecimalAdjustA` | SharpBoy/SharpBoySDL/Emulation/CPU.cs:322-372 | DAA puts Daa of A and F into AF, at cost 1 |
| `Emulation.Cpu.JrZ` | SharpBoy/SharpBoySDL/Emulation/CPU.cs:373-387 | JR Z,n jumps exactly when Z is set |
| `Emulation.Cpu.AddHlHl` | SharpBoy/SharpBoySDL/Emulation/CPU.cs:388-391 | ADD HL,HL is ADD_R16_R16 of HL with a copy of itself |
| `Emulation.Cpu.LdiAHl` | SharpBoy/SharpBoySDL/Emulation/CPU.cs:392-396 | LDI A,(HL) loads A from HL, then increments HL |
| `Emulation.Cpu.DecHl` | SharpBoy/SharpBoySDL/Emulation/CPU.cs:397-400 | DEC HL is the wrapping decrement of HL |
| `Emulation.Cpu.IncL` | SharpBoy/SharpBoySDL/Emulation/CPU.cs:401-404 | INC L is INC_R8 on L |
| `Emulation.Cpu.DecL` | SharpBoy/SharpBoySDL/Emulation/CPU.cs:405-408 | DEC L is DEC_R8 on L |
| `Emulation.Cpu.LdLN` | SharpBoy/SharpBoySDL/Emulation/CPU.cs:409-412 | LD L,n loads the byte after the opcode into L and keeps F |
| `Emulation.Cpu.ComplementA` | SharpBoy/SharpBoySDL/Emulation/CPU.cs:413-418 | CPL puts Cpl of A and F into AF, at cost 1 |
| `Emulation.Cpu.JumpBy` | SharpBoy/SharpBoySDL/Emulation/CPU.cs:234-241 | a displacement of -128 throws OverflowException with PC unchanged; any other moves PC as Jump does |
| `Emulation.Cpu.DecimalAdjust` | SharpBoy/SharpBoySDL/Emulation/CPU.cs:322-369 | AF becomes Daa of the old A and F |
| `Emulation.Cpu.AdjustAfterSubtract` | SharpBoy/SharpBoySDL/Emulation/CPU.cs:324-342 | AF becomes DaaAfterSubtract of the old A and F |
| `Emulation.Cpu.AdjustAfterAdd` | SharpBoy/SharpBoySDL/Emulation/CPU.cs:343-361 | AF becomes DaaAfterAdd of the old A and F |
| `Emulation.Cpu.SetFlag` | SharpBoy/SharpBoySDL/Emulation/CPU.cs:111 | exactly one bit of F is set or cleared; A is kept |
| `Emulation.Cpu.ClearZeroAndSubtract` | SharpBoy/SharpBoySDL/Emulation/CPU.cs:111-112 | F becomes ClearZN of the old F; A is kept |
| `Emulation.Cpu.AddR16R16` | SharpBoy/SharpBoySDL/Emulation/CPU.cs:424-444 | the new pair is AddWord of the operands and F is AddFlags of them; A is kept |
| `Emulation.Cpu.IncR16` | SharpBoy/SharpBoySDL/Emulation/CPU.cs:453-463 | the result is the wrapping increment of the pair; AF is not among the fields the method may change |
| `Emulation.Cpu.DecR16` | SharpBoy/SharpBoySDL/Emulation/CPU.cs:465-475 | the result is the wrapping decrement of the pair; AF is not among the fields the method may change |
| `Emulation.Cpu.LdR16Nn` | SharpBoy/SharpBoySDL/Emulation/CPU.cs:446-451 | the new pair's word is nn, and F is ClearZN of the old F |
| `Emulation.Cpu.IncR8` | SharpBoy/SharpBoySDL/Emulation/CPU.cs:477-498 | the new byte and F are Inc8 of the old byte and F; A is kept |
| `Emulation.Cpu.DecR8` | SharpBoy/SharpBoySDL/Emulation/CPU.cs:500-527 | the new byte and F are Dec8 of the old byte and F; A is kept |
| `Emulation.Cpu.RlcR8` | SharpBoy/SharpBoySDL/Emulation/CPU.cs:529-549 | the new byte and F are Rlc8 of the old byte and F; A is kept |
| `Emulation.Cpu.RrcR8` | SharpBoy/SharpBoySDL/Emulation/CPU.cs:551-571 | the new byte and F are Rrc8 of the old byte and F; A is kept |
| `Emulation.Cpu.RlR8` | SharpBoy/SharpBoySDL/Emulation/CPU.cs:573-588 | the new byte and F are Rl8 of the old byte; A is kept |
| `Emulation.Cpu.RrR8` | SharpBoy/SharpBoySDL/Emulation/CPU.cs:590-605 | the new byte and F are Rr8 of the old byte; A is kept |
| `Emulation.Cpu.Call` | SharpBoy/SharpBoySDL/Emulation/CPU.cs:607-611 | the state moves as Call |
| `Emulation.Cpu.Ret` | SharpBoy/SharpBoySDL/Emulation/CPU.cs:613-616 | the state moves as Ret |
| `Emulation.Cpu.Reti` | SharpBoy/SharpBoySDL/Emulation/CPU.cs:618-622 | the state moves as Reti |
| `Emulation.Cpu.Push` | SharpBoy/SharpBoySDL/Emulation/CPU.cs:624-629 | the state moves as Push |
| `Emulation.Cpu.Pop` | SharpBoy/SharpBoySDL/Emulation/CPU.cs:631-637 | the value and state are those of Pop |
| `Emulation.Cpu.DoInterrupts` | SharpBoy/SharpBoySDL/Emulation/CPU.cs:639-654 | the for loop over the eight bits leaves the state and status of ServiceInterrupt |
| `Emulation.Cpu.UpdateSpecialRegisters` | SharpBoy/SharpBoySDL/Emulation/CPU.cs:658-690 | the state moves as Timers |
| `Emulation.Cpu.TickDivider` | SharpBoy/SharpBoySDL/Emulation/CPU.cs:660-673 | the state moves as DivTick |
| `Emulation.Cpu.TickTimer` | SharpBoy/SharpBoySDL/Emulation/CPU.cs:675-689 | the state moves as TimaTick |
| `Emulation.Cpu.BumpTima` | SharpBoy/SharpBoySDL/Emulation/CPU.cs:679-687 | memory becomes TimaBumped of the old memory |
| `Quirks.Operand` | SharpBoy/SharpBoySDL/Emulation/CPU.cs:138 | the operand of a one-byte-operand opcode is the byte at PC + 1 (wrapping) |
| `Quirks.OperandWord` | SharpBoy/SharpBoySDL/Emulation/CPU.cs:107 | the operand of a two-byte-operand opcode is the word at PC + 1, low byte first |
| `Quirks.DecBActsOnC` | SharpBoy/SharpBoySDL/Emulation/CPU.cs:131-134 | DEC B (0x05) leaves B alone and decrements C, with the DEC_R8 flags of C |
| `Quirks.DecHActsOnL` | SharpBoy/SharpBoySDL/Emulation/CPU.cs:314-317 | DEC H (0x25) leaves H alone and decrements L, with the DEC_R8 flags of L |
| `Quirks.DecBcIncrements` | SharpBoy/SharpBoySDL/Emulation/CPU.cs:160-170 | DEC BC (0x0B) increments BC, and only BC and PC change |
| `Quirks.DecDeIncrements` | SharpBoy/SharpBoySDL/Emulation/CPU.cs:252-262 | DEC DE (0x1B) increments DE, and only DE and PC change |
| `Quirks.IncDeActsOnBc` | SharpBoy/SharpBoySDL/Emulation/CPU.cs:203-213 | INC DE (0x13) leaves DE alone and increments BC |
| `Quirks.LoadFromBcZeroesFlags` | SharpBoy/SharpBoySDL/Emulation/CPU.cs:155-159 | LD A,(BC) (0x0A) loads A from BC and zeroes the flag byte; only AF and PC change, cost 2 |
| `Quirks.LoadFromDeKeepsFlags` | SharpBoy/SharpBoySDL/Emulation/CPU.cs:248-251 | LD A,(DE) (0x1A) loads A from DE and keeps the flag byte; only A and PC change, cost 2 |
| `Quirks.StoreIncrementsHl` | SharpBoy/SharpBoySDL/Emulation/CPU.cs:301-305 | LDI (HL),A (0x22) stores A at HL, then HL goes up by one mod 65536; only memory, HL and PC change, cost 2 |
| `Quirks.LoadIncrementsHl` | SharpBoy/SharpBoySDL/Emulation/CPU.cs:392-396 | LDI A,(HL) (0x2A) loads A from HL, then HL goes up by one mod 65536; only A, HL and PC change, cost 2 |
| `Quirks.StoreThroughBc` | SharpBoy/SharpBoySDL/Emulation/CPU.cs:197-202 | LD (DE),A (0x12) stores A at BC and clears Z and N |
| `Quirks.LoadPairCases` | SharpBoy/SharpBoySDL/Emulation/CPU.cs:106-109 | the opcodes 0x01, 0x11 and 0x21 load BC, DE and HL; only 0x01 does not skip its high operand byte |
| `Quirks.LoadBcStopsOnOperand` | SharpBoy/SharpBoySDL/Emulation/CPU.cs:106-109 | LD BC,nn (0x01) loads nn but moves PC on by only 2, so the next opcode fetched is the high byte of nn |
| `Quirks.LoadPairSkipsOperand` | SharpBoy/SharpBoySDL/Emulation/CPU.cs:192-196 | LD DE,nn (0x11) and LD HL,nn (0x21) load the word after the opcode and move PC on by 3 |
| `Quirks.StoreSpState` | SharpBoy/SharpBoySDL/Emulation/CPU.cs:145-150 | LD (nn),SP (0x08) as one whole DoOpcode |
| `Quirks.StoreSpOverwritesOperand` | SharpBoy/SharpBoySDL/Emulation/CPU.cs:145-150 | LD (nn),SP (0x08) never uses nn: SP's low byte lands on the first operand byte, its high byte on the second, no other byte changes, F is zeroed and PC moves on by 3 |
| `Quirks.LoadHalfCases` | SharpBoy/SharpBoySDL/Emulation/CPU.cs:135-140 | the opcodes 0x06-0x2E step 8 load B, C, D, E, H, L; only those below 0x20 clear flags |
| `Quirks.LoadImmediate` | SharpBoy/SharpBoySDL/Emulation/CPU.cs:135-140 | LD r,n loads the byte after the opcode, costs 2 and moves PC on by 2; the loads into B, C, D, E clear Z and N and keep the rest of AF; those into H and L leave AF untouched |
| `Quirks.JumpCases` | SharpBoy/SharpBoySDL/Emulation/CPU.cs:232-243 | each relative jump opcode is taken unconditionally (0x18), when Z is clear (0x20) or when Z is set (0x28) |
| `Quirks.JumpTakenState` | SharpBoy/SharpBoySDL/Emulation/CPU.cs:232-243 | a taken relative jump, as one whole DoOpcode |
| `Quirks.JumpLands` | SharpBoy/SharpBoySDL/Emulation/CPU.cs:233-243 | a taken relative jump from P by d ends with PC = P + 2 + d mod 65536, costs 3 and changes nothing else |
| `Quirks.JumpNotTakenState` | SharpBoy/SharpBoySDL/Emulation/CPU.cs:281-295 | a relative jump not taken, as one whole DoOpcode |
| `Quirks.JumpFallsThrough` | SharpBoy/SharpBoySDL/Emulation/CPU.cs:281-295 | JR NZ,n and JR Z,n not taken end with PC = P + 2, cost 3 and change nothing else |
| `Quirks.JumpOverflows` | SharpBoy/SharpBoySDL/Emulation/CPU.cs:236 | a taken jump by 0x80 throws OverflowException with PC on the displacement byte and nothing else changed |
| `Quirks.AddHlCases` | SharpBoy/SharpBoySDL/Emulation/CPU.cs:151-154 | the opcodes 0x09, 0x19 and 0x29 add BC, DE and HL to HL |
| `Quirks.AddHlOutcome` | SharpBoy/SharpBoySDL/Emulation/CPU.cs:424-444 | ADD HL,rr stores one more than the 16-bit sum on a carry; C can be set but never cleared; H iff either high byte has a non-zero low nibble; Z kept; N cleared |
| `Quirks.DaaIgnoresHalfCarry` | SharpBoy/SharpBoySDL/Emulation/CPU.cs:343-361 | after an addition DAA ignores H: setting or clearing it changes neither the result nor C |
| `Quirks.DaaGateExamples` | SharpBoy/SharpBoySDL/Emulation/CPU.cs:345 | the addition branch of DAA adjusts 0x20 with H clear and leaves 0x01 with H set alone |
| `Quirks.DaaSubtractGatesOnBit4` | SharpBoy/SharpBoySDL/Emulation/CPU.cs:338-341 | after a subtraction with H and C clear, a packed-BCD accumulator loses 0x60 exactly when its bit 4 is set, and C is kept |
| `Quirks.DaaBit4Example` | SharpBoy/SharpBoySDL/Emulation/CPU.cs:338-341 | 0x15 after a subtraction with H and C clear becomes 0xB5 |
| `Quirks.RrcUndoesRlc` | SharpBoy/SharpBoySDL/Emulation/CPU.cs:529-571 | RRC as written undoes RLC as written, restoring both the byte and C |
| `Quirks.RrUndoesRl` | SharpBoy/SharpBoySDL/Emulation/CPU.cs:573-605 | RL and RR as written are inverse 8-bit rotations |
| `Quirks.ServiceIgnoresRequests` | SharpBoy/SharpBoySDL/Emulation/CPU.cs:639-654 | with IME set and bit 0 of IE set, the vector 0x40 is called even when IF is zero |
| `Quirks.HighEnableBitThrows` | SharpBoy/SharpBoySDL/Emulation/CPU.cs:54 | an enabled bit 5, 6 or 7 with bits 0-4 of IE clear throws IndexOutOfRangeException after IME is cleared |
| `Quirks.InterruptAfterOpcode` | SharpBoy/SharpBoySDL/Emulation/CPU.cs:86-94 | an interrupt taken in the same step pushes the PC the opcode left, and PC ends at 0x40 |

## Left out

- `DIV_Counter`, `TIMA_Counter` and `CyclesRunThisFrame` are C# `int` fields. The model keeps them as unbounded integers, so a 32-bit overflow is not modelled. Within `DoFrame` they stay far below 2^31, but `DoStep` called on its own over and over could in principle overflow `CyclesRunThisFrame`.
- Loading the boot image from `DMG_ROM.bin` in the constructor is file I/O. The image is a sequence passed to the constructor instead.
- `Core`, `Memory` and `Utility` are not part of this model. Memory is 65536 plain bytes:
  - `Read` and `Write` are array reads and writes, and `ReadWord` reads low byte first.
  - Any bank switching or side effect of a memory-mapped write is not modelled.
  - `Utility.SetBit` and `Utility.IsBitSet` are a plain bit set, clear and test.
- The debugger form (`frmDebugger`) is generated layout with no logic.
- Opcodes 0x30 to 0xFF have no case in the switch. The model takes them exactly as the code does: they cost 0 and only advance PC. It does not model the real instructions.
- `Emulation.Cpu.DoFrame`: the source loop need not end, because an opcode without a case costs 0 cycles. The method takes a `fuel` bound on the number of steps and proves partial correctness. On a completed frame the budget is met and overrun by less than 5. The model says nothing about a frame that runs out of fuel, beyond the steps taken.
- The `Cycles` parameter of `DoInterrupts` is unused by the source and is ignored.
- `Register` is a C# struct passed by value and by `ref`. The model keeps pairs as immutable values, and each `ref` parameter becomes a returned value that the caller stores back into the same field. `ADD_R16_R16(ref HL, HL)` is therefore the sum of HL with a copy of itself, as in C#.
- The opcode switch is split into `Switch`, six block methods of eight cases each (`Opcodes00` to `Opcodes28`) and one method per case. `DoStep` is split into `DoOpcode` and `FinishStep`, and the TIMA increment is its own method, `BumpTima`. The split only shortens the proofs.
- `Reset` writes BC, DE, HL and SP through the `Word` setter. The model writes the two bytes that setter stores. `AfterReset` states the resulting words.
- `Alu.AddWord` and `Semantics.Jump` are written without a branch (the carry folded back in, and the signed displacement added). The source's two branches are kept in the methods `Emulation.Cpu.AddR16R16` and `Emulation.Cpu.JumpBy`. The lemmas `Alu.AddWordOnCarry` and `Alu.AddWordNoCarry` state both branches of the addition.
