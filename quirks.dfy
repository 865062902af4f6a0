/** Where the CPU of CPU.cs, as written, differs from the processor it
    emulates, stated of a whole DoOpcode (Execute) or DoStep (Step) so that
    each difference can be read off one lemma: wrong registers, wrong
    directions, operands used the wrong way, and the exceptions the C# code
    can raise. */
module Quirks {
  import opened Bits
  import opened Registers
  import opened Alu
  import opened Semantics

  /** The byte after the opcode: the operand of a one-byte-operand opcode. */
  function Operand(m: Machine): (b: bv8)
    ensures b == m.mem[Wrap16(m.pc.Word() + 1)]
  {
    m.mem[Incremented(m.pc).Word()]
  }

  /** The word after the opcode, low byte first: the operand of a
      two-byte-operand opcode. */
  function OperandWord(m: Machine): (w: u16)
    ensures w == ReadWord(m.mem, Wrap16(m.pc.Word() + 1))
  {
    ReadWord(m.mem, Incremented(m.pc).Word())
  }

  /** Two wrapping increments of a ushort. */
  lemma WrapTwo(w: u16, w1: u16, w2: u16)
    requires w1 == (w + 1) % 0x10000 && w2 == (w1 + 1) % 0x10000
    ensures w2 == (w + 2) % 0x10000
  {
    WrapSucc(w);
    WrapSucc(w1);
  }

  /** Three wrapping increments of a ushort. */
  lemma WrapThree(w: u16, w1: u16, w2: u16, w3: u16)
    requires w1 == (w + 1) % 0x10000 && w2 == (w1 + 1) % 0x10000 && w3 == (w2 + 1) % 0x10000
    ensures w3 == (w + 3) % 0x10000
  {
    WrapTwo(w, w1, w2);
    WrapSucc(w2);
  }

  /** A wrapping increment, a signed step s and another wrapping increment
      of a ushort. */
  lemma WrapJump(w: u16, s: int, w1: u16, w2: u16, w3: u16)
    requires -128 <= s < 128
    requires w1 == (w + 1) % 0x10000 && w2 == (w1 + s) % 0x10000 && w3 == (w2 + 1) % 0x10000
    ensures w3 == (w + 2 + s) % 0x10000
  {
    WrapSucc(w);
    WrapSucc(w2);
  }

  /** Two increments of PC move it on by two. */
  lemma IncrementedTwice(r: Register)
    ensures Incremented(Incremented(r)).Word() == Wrap16(r.Word() + 2)
  {
    WrapTwo(r.Word(), Incremented(r).Word(), Incremented(Incremented(r)).Word());
  }

  /** Three increments of PC move it on by three. */
  lemma IncrementedThrice(r: Register)
    ensures Incremented(Incremented(Incremented(r))).Word() == Wrap16(r.Word() + 3)
  {
    var r1 := Incremented(r);
    var r2 := Incremented(r1);
    WrapThree(r.Word(), r1.Word(), r2.Word(), Incremented(r2).Word());
  }

  // ------------------------------------------------- wrong register or direction

  /** DEC B (0x05) decrements C and leaves B alone. */
  lemma DecBActsOnC(m: Machine)
    requires Opcode(m) == 0x05
    ensures Execute(m).m.bc.high == m.bc.high && Execute(m).m.bc.low == m.bc.low - 1
    ensures Execute(m) == Executed(m.(bc := m.bc.(low := Dec8(m.bc.low, m.af.low).value),
                                      af := m.af.(low := Dec8(m.bc.low, m.af.low).flags),
                                      pc := Incremented(m.pc)), Normal, 1)
  {
  }

  /** DEC H (0x25) decrements L and leaves H alone. */
  lemma DecHActsOnL(m: Machine)
    requires Opcode(m) == 0x25
    ensures Execute(m).m.hl.high == m.hl.high && Execute(m).m.hl.low == m.hl.low - 1
    ensures Execute(m) == Executed(m.(hl := m.hl.(low := Dec8(m.hl.low, m.af.low).value),
                                      af := m.af.(low := Dec8(m.hl.low, m.af.low).flags),
                                      pc := Incremented(m.pc)), Normal, 1)
  {
  }

  /** DEC BC (0x0B) increments BC; nothing else changes but PC. */
  lemma DecBcIncrements(m: Machine)
    requires Opcode(m) == 0x0B
    ensures Execute(m).m.bc.Word() == Wrap16(m.bc.Word() + 1)
    ensures Execute(m) == Executed(m.(bc := Incremented(m.bc), pc := Incremented(m.pc)), Normal, 2)
  {
  }

  /** DEC DE (0x1B) increments DE; nothing else changes but PC. */
  lemma DecDeIncrements(m: Machine)
    requires Opcode(m) == 0x1B
    ensures Execute(m).m.de.Word() == Wrap16(m.de.Word() + 1)
    ensures Execute(m) == Executed(m.(de := Incremented(m.de), pc := Incremented(m.pc)), Normal, 2)
  {
  }

  /** INC DE (0x13) increments BC and leaves DE alone. */
  lemma IncDeActsOnBc(m: Machine)
    requires Opcode(m) == 0x13
    ensures Execute(m).m.de == m.de && Execute(m).m.bc.Word() == Wrap16(m.bc.Word() + 1)
    ensures Execute(m) == Executed(m.(bc := Incremented(m.bc), pc := Incremented(m.pc)), Normal, 2)
  {
  }

  /** LD (DE),A (0x12) stores A at the address in BC, not DE, and clears Z
      and N as a side effect. */
  lemma StoreThroughBc(m: Machine)
    requires Opcode(m) == 0x12
    ensures Execute(m).m.mem == m.mem[m.bc.Word() := m.af.high]
    ensures !FlagZ(Execute(m).m.af.low) && !FlagN(Execute(m).m.af.low)
    ensures Execute(m) == Executed(m.(af := m.af.(low := ClearZN(m.af.low)),
                                      mem := m.mem[m.bc.Word() := m.af.high],
                                      pc := Incremented(m.pc)), Normal, 2)
  {
  }

  /** LD A,(BC) (0x0A) zeroes the whole flag byte as it loads A. */
  lemma LoadFromBcZeroesFlags(m: Machine)
    requires Opcode(m) == 0x0A
    ensures Execute(m).m.af == Register(m.mem[m.bc.Word()], 0)
    ensures Execute(m) == Executed(m.(af := Register(m.mem[m.bc.Word()], 0), pc := Incremented(m.pc)), Normal, 2)
  {
  }

  /** LD A,(DE) (0x1A) loads A and keeps the flag byte, unlike LD A,(BC). */
  lemma LoadFromDeKeepsFlags(m: Machine)
    requires Opcode(m) == 0x1A
    ensures Execute(m).m.af == Register(m.mem[m.de.Word()], m.af.low)
    ensures Execute(m) == Executed(m.(af := m.af.(high := m.mem[m.de.Word()]), pc := Incremented(m.pc)), Normal, 2)
  {
  }

  /** LDI (HL),A (0x22) stores A at HL, then HL goes up by one (wrapping);
      the flags are kept. */
  lemma StoreIncrementsHl(m: Machine)
    requires Opcode(m) == 0x22
    ensures Execute(m).m.mem == m.mem[m.hl.Word() := m.af.high]
    ensures Execute(m).m.hl.Word() == Wrap16(m.hl.Word() + 1)
    ensures Execute(m) == Executed(m.(mem := m.mem[m.hl.Word() := m.af.high], hl := Incremented(m.hl),
                                      pc := Incremented(m.pc)), Normal, 2)
  {
  }

  /** LDI A,(HL) (0x2A) loads A from HL, then HL goes up by one (wrapping);
      the flags are kept. */
  lemma LoadIncrementsHl(m: Machine)
    requires Opcode(m) == 0x2A
    ensures Execute(m).m.af == Register(m.mem[m.hl.Word()], m.af.low)
    ensures Execute(m).m.hl.Word() == Wrap16(m.hl.Word() + 1)
    ensures Execute(m) == Executed(m.(af := m.af.(high := m.mem[m.hl.Word()]), hl := Incremented(m.hl),
                                      pc := Incremented(m.pc)), Normal, 2)
  {
  }

  // ------------------------------------------------------------ operands

  /** DoOpcode after a switch case that did not throw: the case's state
      with PC moved on by one, at the case's cost. */
  lemma Finished(m: Machine, d: Executed)
    requires Dispatch(m) == d && d.status == Normal
    ensures Execute(m) == Executed(d.m.(pc := Incremented(d.m.pc)), Normal, d.cycles)
  {
  }

  /** The case LD BC,nn takes, and the one LD DE,nn and LD HL,nn take. */
  lemma LoadPairCases(m: Machine)
    requires Opcode(m) in {0x01, 0x11, 0x21}
    ensures Dispatch(m) == LoadPair(m, [BC, DE, HL][Opcode(m) as int / 16], Opcode(m) != 0x01)
  {
  }

  /** LD BC,nn (0x01) loads the word after the opcode but moves PC on by
      two, so the next opcode fetched is the high byte of nn. */
  lemma LoadBcStopsOnOperand(m: Machine)
    requires Opcode(m) == 0x01
    ensures Execute(m).m.bc.Word() == OperandWord(m)
    ensures Execute(m).m.pc.Word() == Wrap16(m.pc.Word() + 2)
    ensures Opcode(Execute(m).m) == m.mem[Wrap16(m.pc.Word() + 2)]
  {
    LoadPairCases(m);
    Finished(m, LoadPair(m, BC, false));
    IncrementedTwice(m.pc);
  }

  /** LD DE,nn (0x11) and LD HL,nn (0x21) load the word after the opcode and
      move PC past both operand bytes. */
  lemma LoadPairSkipsOperand(m: Machine)
    requires Opcode(m) in {0x11, 0x21}
    ensures GetPair(Execute(m).m, if Opcode(m) == 0x11 then DE else HL).Word() == OperandWord(m)
    ensures Execute(m).m.pc.Word() == Wrap16(m.pc.Word() + 3)
  {
    var p := if Opcode(m) == 0x11 then DE else HL;
    LoadPairCases(m);
    Finished(m, LoadPair(m, p, true));
    LoadedPair(m, p, Execute(m));
  }

  /** What LD DE,nn or LD HL,nn leaves, once the trailing increment is
      applied. */
  lemma LoadedPair(m: Machine, p: Pair, e: Executed)
    requires e == Executed(LoadPair(m, p, true).m.(pc := Incremented(LoadPair(m, p, true).m.pc)), Normal, 3)
    ensures GetPair(e.m, p).Word() == OperandWord(m) && e.m.pc.Word() == Wrap16(m.pc.Word() + 3)
  {
    var r := Register.FromWord(OperandWord(m));
    assert e.m.pc == Incremented(Incremented(Incremented(m.pc)));
    assert GetPair(e.m, p) == r;
    IncrementedThrice(m.pc);
  }

  /** What LD (nn),SP leaves, once the trailing increment is applied: PC
      moved onto each operand byte in turn and SP stored over the two. */
  function StoredSp(m: Machine): Executed
  {
    var next := Incremented(m.pc);
    var next2 := Incremented(next);
    Executed(m.(af := m.af.(low := 0), mem := m.mem[next.Word() := m.sp.low][next2.Word() := m.sp.high],
                pc := Incremented(next2)), Normal, 5)
  }

  /** LD (nn),SP (0x08), as one DoOpcode. */
  lemma StoreSpState(m: Machine)
    requires Opcode(m) == 0x08
    ensures Execute(m) == StoredSp(m)
  {
    assert Dispatch(m) == StoreSpOverOperand(m);
    Finished(m, StoreSpOverOperand(m));
  }

  /** LD (nn),SP (0x08) never uses nn: the low byte of SP lands on the
      first operand byte, the high byte on the second, and no other byte of
      memory changes; F is zeroed and PC moves past both operand bytes. */
  lemma StoreSpOverwritesOperand(m: Machine)
    requires Opcode(m) == 0x08
    ensures Execute(m).m.mem == m.mem[Wrap16(m.pc.Word() + 1) := m.sp.low][Wrap16(m.pc.Word() + 2) := m.sp.high]
    ensures Execute(m).m.af.low == 0 && Execute(m).m.pc.Word() == Wrap16(m.pc.Word() + 3)
  {
    StoreSpState(m);
    IncrementedTwice(m.pc);
    IncrementedThrice(m.pc);
  }

  /** The register LD r,n loads, by opcode. */
  function LoadTarget(op: bv8): Half
    requires op in {0x06, 0x0E, 0x16, 0x1E, 0x26, 0x2E}
  {
    [B, C, D, E, H, L][op as int / 8]
  }

  /** The case each LD r,n takes: only the loads into B, C, D and E clear
      flags. */
  lemma LoadHalfCases(m: Machine)
    requires Opcode(m) in {0x06, 0x0E, 0x16, 0x1E, 0x26, 0x2E}
    ensures Dispatch(m) == LoadHalf(m, LoadTarget(Opcode(m)), Opcode(m) < 0x20)
  {
  }

  /** LD r,n loads the byte after the opcode into r and moves PC past it.
      LD B,n, LD C,n, LD D,n and LD E,n clear Z and N and keep the rest of
      AF; LD H,n and LD L,n leave AF untouched. */
  lemma LoadImmediate(m: Machine)
    requires Opcode(m) in {0x06, 0x0E, 0x16, 0x1E, 0x26, 0x2E}
    ensures Execute(m).status == Normal && Execute(m).cycles == 2
    ensures GetHalf(Execute(m).m, LoadTarget(Opcode(m))) == Operand(m)
    ensures Execute(m).m.pc.Word() == Wrap16(m.pc.Word() + 2)
    ensures Opcode(m) < 0x20 ==> !FlagZ(Execute(m).m.af.low) && !FlagN(Execute(m).m.af.low) &&
                                 FlagH(Execute(m).m.af.low) == FlagH(m.af.low) &&
                                 FlagC(Execute(m).m.af.low) == FlagC(m.af.low) &&
                                 Execute(m).m.af.high == m.af.high
    ensures Opcode(m) >= 0x20 ==> Execute(m).m.af == m.af
  {
    var l := LoadHalf(m, LoadTarget(Opcode(m)), Opcode(m) < 0x20);
    LoadHalfCases(m);
    Finished(m, l);
    LoadedHalf(m, LoadTarget(Opcode(m)), Opcode(m) < 0x20, Execute(m));
  }

  /** What LD r,n leaves, once the trailing increment is applied. */
  lemma LoadedHalf(m: Machine, h: Half, clears: bool, e: Executed)
    requires e == Executed(LoadHalf(m, h, clears).m.(pc := Incremented(LoadHalf(m, h, clears).m.pc)), Normal, 2)
    ensures GetHalf(e.m, h) == Operand(m) && e.m.pc.Word() == Wrap16(m.pc.Word() + 2)
    ensures clears ==> !FlagZ(e.m.af.low) && !FlagN(e.m.af.low) && FlagH(e.m.af.low) == FlagH(m.af.low) &&
                       FlagC(e.m.af.low) == FlagC(m.af.low) && e.m.af.high == m.af.high
    ensures !clears ==> e.m.af == m.af
  {
    var f := if clears then ClearZN(m.af.low) else m.af.low;
    assert e.m == SetHalf(m, h, Operand(m)).(af := m.af.(low := f), pc := Incremented(Incremented(m.pc)));
    SetHalfKeeps(m, h, Operand(m));
    IncrementedTwice(m.pc);
  }

  /** Writing a byte register and reading it back; AF is not among them. */
  lemma SetHalfKeeps(m: Machine, h: Half, v: bv8)
    ensures GetHalf(SetHalf(m, h, v), h) == v && SetHalf(m, h, v).af == m.af
  {
  }

  // ------------------------------------------------------- relative jumps

  /** Whether JR n, JR NZ,n or JR Z,n jumps from m. */
  predicate JumpTaken(m: Machine)
  {
    Opcode(m) == 0x18 || (Opcode(m) == 0x20 && !FlagZ(m.af.low)) || (Opcode(m) == 0x28 && FlagZ(m.af.low))
  }

  /** The case each relative jump takes. */
  lemma JumpCases(m: Machine)
    requires Opcode(m) in {0x18, 0x20, 0x28}
    ensures Dispatch(m) == RelativeJump(m, JumpTaken(m))
  {
  }

  /** A taken relative jump, as one DoOpcode: PC moves onto the
      displacement, jumps by it, and takes the trailing increment. */
  lemma JumpTakenState(m: Machine)
    requires JumpTaken(m) && Operand(m) != 0x80
    ensures Execute(m) == Executed(m.(pc := Incremented(Jump(Incremented(m.pc), Operand(m)))), Normal, 3)
  {
    JumpCases(m);
    Finished(m, RelativeJump(m, true));
  }

  /** A taken relative jump lands at the opcode address plus two plus the
      signed displacement, costs 3 and changes nothing but PC. */
  lemma JumpLands(m: Machine)
    requires JumpTaken(m) && Operand(m) != 0x80
    ensures Execute(m).status == Normal && Execute(m).cycles == 3
    ensures Execute(m).m.pc.Word() == Wrap16(m.pc.Word() + 2 + Signed(Operand(m)))
    ensures Execute(m).m == m.(pc := Execute(m).m.pc)
  {
    JumpTakenState(m);
    LandsAt(m.pc, Operand(m), Execute(m).m.pc);
  }

  /** The PC a taken jump by d leaves, from opcode address pc. */
  lemma LandsAt(pc: Register, d: bv8, np: Register)
    requires d != 0x80
    requires np == Incremented(Jump(Incremented(pc), d))
    ensures np.Word() == Wrap16(pc.Word() + 2 + Signed(d))
  {
    LandsAtWord(pc, Signed(d), np);
  }

  /** LandsAt for the signed displacement s. */
  lemma LandsAtWord(pc: Register, s: int, np: Register)
    requires -128 <= s < 128
    requires np == Incremented(Register.FromWord(Wrap16(Incremented(pc).Word() + s)))
    ensures np.Word() == Wrap16(pc.Word() + 2 + s)
  {
    var pc1 := Incremented(pc);
    var pc2 := Register.FromWord(Wrap16(Incremented(pc).Word() + s));
    WrapJump(pc.Word(), s, pc1.Word(), pc2.Word(), np.Word());
  }

  /** A relative jump not taken, as one DoOpcode: PC moves past the
      displacement and nothing else changes. */
  lemma JumpNotTakenState(m: Machine)
    requires Opcode(m) in {0x20, 0x28} && !JumpTaken(m)
    ensures Execute(m) == Executed(m.(pc := Incremented(Incremented(m.pc))), Normal, 3)
  {
    JumpCases(m);
    assert RelativeJump(m, false) == Executed(m.(pc := Incremented(m.pc)), Normal, 3);
    Finished(m, RelativeJump(m, false));
  }

  /** A relative jump not taken moves PC past the displacement and costs 3. */
  lemma JumpFallsThrough(m: Machine)
    requires Opcode(m) in {0x20, 0x28} && !JumpTaken(m)
    ensures Execute(m).status == Normal && Execute(m).cycles == 3
    ensures Execute(m).m.pc.Word() == Wrap16(m.pc.Word() + 2)
    ensures Execute(m).m == m.(pc := Execute(m).m.pc)
  {
    JumpNotTakenState(m);
    IncrementedTwice(m.pc);
  }

  /** Math.Abs((sbyte)0x80) throws: a taken jump by -128 stops DoOpcode with
      PC on the displacement byte and the trailing increment skipped. */
  lemma JumpOverflows(m: Machine)
    requires JumpTaken(m) && Operand(m) == 0x80
    ensures Execute(m) == Executed(m.(pc := Incremented(m.pc)), Threw(OverflowException), 0)
    ensures Execute(m).m.pc.Word() == Wrap16(m.pc.Word() + 1)
  {
    JumpCases(m);
  }

  // ----------------------------------------------------------- ADD HL,rr

  /** The pair ADD HL,rr adds, by opcode. */
  function AddSource(op: bv8): Pair
    requires op in {0x09, 0x19, 0x29}
  {
    [BC, DE, HL][op as int / 16]
  }

  /** The case each ADD HL,rr takes. */
  lemma AddHlCases(m: Machine)
    requires Opcode(m) in {0x09, 0x19, 0x29}
    ensures Dispatch(m) == AddToHl(m, AddSource(Opcode(m)))
  {
  }

  /** ADD HL,BC / DE / HL: a carry out of bit 15 leaves one more than the
      16-bit sum; H is set when either high byte has a nonzero low nibble;
      C can be set but never cleared; Z is untouched and N cleared. */
  lemma AddHlOutcome(m: Machine)
    requires Opcode(m) in {0x09, 0x19, 0x29}
    ensures var rr := GetPair(m, AddSource(Opcode(m)));
            var sum := m.hl.Word() + rr.Word();
            && Execute(m).m.hl.Word() == sum % 0x10000 + (if sum > 0xFFFF then 1 else 0)
            && FlagC(Execute(m).m.af.low) == (FlagC(m.af.low) || sum > 0xFFFF)
            && FlagH(Execute(m).m.af.low) == (m.hl.high & 0x0F != 0 || rr.high & 0x0F != 0)
            && FlagZ(Execute(m).m.af.low) == FlagZ(m.af.low) && !FlagN(Execute(m).m.af.low)
  {
    var rr := GetPair(m, AddSource(Opcode(m)));
    AddHlCases(m);
    Finished(m, AddToHl(m, AddSource(Opcode(m))));
    AddWordIsSum(m.hl, rr);
    AddFlagBits(m.hl, rr, m.af.low);
  }

  // ----------------------------------------------------------------- DAA

  /** After an addition (N clear), DAA never looks at H: setting or
      clearing H changes neither the result nor C. The low correction is
      gated on bit 5 of A instead. */
  lemma DaaIgnoresHalfCarry(a: bv8, f: bv8)
    requires !FlagN(f)
    ensures Daa(a, SetBit(f, FLAG_H, true)).value == Daa(a, SetBit(f, FLAG_H, false)).value
    ensures FlagC(Daa(a, SetBit(f, FLAG_H, true)).flags) == FlagC(Daa(a, SetBit(f, FLAG_H, false)).flags)
  {
  }

  /** Two inputs that show the gate: 0x20 with H clear is adjusted, 0x01
      with H set is not. */
  lemma DaaGateExamples()
    ensures Daa(0x20, 0x00).value == 0x26
    ensures Daa(0x01, 0x20).value == 0x01
  {
  }

  /** After a subtraction (N set), the 0x60 correction is gated on bit 4 of
      A, not on C: a packed-BCD accumulator with H and C clear, which needs
      no correction, loses 0x60 exactly when its bit 4 is set. */
  lemma DaaSubtractGatesOnBit4(a: bv8, f: bv8)
    requires FlagN(f) && !FlagH(f) && !FlagC(f)
    requires a & 0x0F <= 9 && a & 0xF0 <= 0x90
    ensures Daa(a, f).value == if a & 0x10 != 0 then a - 0x60 else a
    ensures FlagC(Daa(a, f).flags) == FlagC(f)
  {
  }

  /** An input that shows the bit-4 gate: 0x15 after a subtraction, with H
      and C clear, becomes 0xB5. */
  lemma DaaBit4Example()
    ensures Daa(0x15, 0x40).value == 0xB5
  {
  }

  // ------------------------------------------------------------ rotates

  /** RRC (as written) undoes RLC (as written): RLC moves bit 7 into C and
      the old C into bit 0, and RRC moves them back. */
  lemma RrcUndoesRlc(x: bv8, f: bv8)
    ensures Rrc8(Rlc8(x, f).value, Rlc8(x, f).flags).value == x
    ensures FlagC(Rrc8(Rlc8(x, f).value, Rlc8(x, f).flags).flags) == FlagC(f)
  {
  }

  /** RR (as written) undoes RL (as written): both are plain 8-bit rotations. */
  lemma RrUndoesRl(x: bv8)
    ensures Rr8(Rl8(x).value).value == x
    ensures Rl8(Rr8(x).value).value == x
  {
  }

  // ---------------------------------------------------------- interrupts

  /** DoInterrupts services an enabled interrupt whatever the request byte
      holds: with IME set and bit 0 of IE set, the vector 0x40 is called
      even when IF is all zeros. */
  lemma ServiceIgnoresRequests(m: Machine)
    requires m.ime && IsBitSet(m.mem[INTERRUPT_ENABLE], 0) && m.mem[INTERRUPT_FLAG] == 0
    ensures ServiceInterrupt(m).status == Normal && ServiceInterrupt(m).m.pc.Word() == 0x40
  {
    LowestSetBitIs(m.mem[INTERRUPT_ENABLE], 0, 0);
  }

  /** An enabled bit 5, 6 or 7 with bits 0 to 4 clear indexes past the
      five-entry vector table: DoInterrupts throws after clearing the IF
      bit and IME. */
  lemma HighEnableBitThrows(m: Machine)
    requires m.ime && m.mem[INTERRUPT_ENABLE] & 0x1F == 0 && m.mem[INTERRUPT_ENABLE] != 0
    ensures ServiceInterrupt(m).status == Threw(IndexOutOfRangeException)
    ensures !ServiceInterrupt(m).m.ime
  {

  }

  /** DoStep runs the opcode before it looks at interrupts: an interrupt
      taken in the same step pushes the PC that the opcode left. */
  lemma InterruptAfterOpcode(m: Machine)
    requires Execute(m).status == Normal
    requires var t := Timers(Execute(m).m, Execute(m).cycles);
             t.ime && IsBitSet(t.mem[INTERRUPT_ENABLE], 0)
    ensures Step(m).status == Normal && Step(m).m.pc.Word() == 0x40
    ensures ReadWord(Step(m).m.mem, Step(m).m.sp.Word()) == Execute(m).m.pc.Word()
  {
    var e := Execute(m);
    var t := Timers(e.m, e.cycles);
    LowestSetBitIs(t.mem[INTERRUPT_ENABLE], 0, 0);
  }
}
