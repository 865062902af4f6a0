/** The CPU's registers, counters and the 64 KiB memory as one value, and
    what each member of the CPU class does to that value. The class in
    cpu.dfy is proved to change its fields exactly as these functions say,
    so every property proved here holds of the class as well. */
module Semantics {
  import opened Bits
  import opened Registers
  import opened Alu

  const CYCLES_PER_SECOND: int := 4194304
  const CYCLES_PER_FRAME: int := CYCLES_PER_SECOND / 60

  /** Memory-mapped registers read and written by the timers and the
      interrupt controller. */
  const DIV_REG: u16 := 0xFF04
  const TIMA_REG: u16 := 0xFF05
  const TMA_REG: u16 := 0xFF06
  const TAC_REG: u16 := 0xFF07
  const INTERRUPT_FLAG: u16 := 0xFF0F
  const INTERRUPT_ENABLE: u16 := 0xFFFF

  const TIMA_FREQUENCIES: seq<int> := [4096, 262144, 65536, 16384]
  const INTERRUPT_ADDRESSES: seq<u16> := [0x40, 0x48, 0x50, 0x58, 0x60]

  /** The whole address space, one byte per address. */
  type Ram = s: seq<bv8> | |s| == 0x10000 witness seq(0x10000, _ => 0)

  /** Everything the CPU class reads or writes, apart from the boot image. */
  datatype Machine = Machine(
    af: Register, bc: Register, de: Register, hl: Register,
    sp: Register, pc: Register,
    mem: Ram,
    divCounter: int, timaCounter: int, cyclesRunThisFrame: int,
    ime: bool)

  /** The exceptions the C# code can throw out of the modelled members. */
  datatype Fault =
    | OverflowException        // Math.Abs of the displacement -128 in a relative jump
    | IndexOutOfRangeException // InterruptAddresses[i] for an enabled bit i >= 5
    | ArgumentException        // Array.Copy of a boot image longer than memory

  datatype Status = Normal | Threw(fault: Fault)

  /** A new state, and whether the member returned or threw. A member that
      throws leaves behind whatever it changed before the throw. */
  datatype Outcome = Outcome(m: Machine, status: Status)

  /** The outcome of DoOpcode, with the cycle count it returns. */
  datatype Executed = Executed(m: Machine, status: Status, cycles: int)

  /** A word popped off the stack and the state after the pop. */
  datatype Popped = Popped(value: u16, m: Machine)

  // ---------------------------------------------------------------- memory

  /** Memory.ReadWord: low byte at a, high byte at a + 1. */
  function ReadWord(mem: Ram, a: u16): (w: u16)
    ensures w % 256 == mem[a] as int && w / 256 == mem[Wrap16(a + 1)] as int
  {
    Register(mem[Wrap16(a + 1)], mem[a]).Word()
  }

  // ----------------------------------------------------------------- stack

  /** PUSH: the high byte of nn goes to SP - 1, the low byte to SP - 2, and
      SP goes down by two, all addresses wrapping at 16 bits. */
  function Push(m: Machine, nn: u16): (r: Machine)
    ensures r.sp.Word() == Wrap16(m.sp.Word() - 2)
    ensures r.mem[Wrap16(m.sp.Word() - 1)] as int == nn / 256
    ensures r.mem[Wrap16(m.sp.Word() - 2)] as int == nn % 256
    ensures forall a: u16 :: a != Wrap16(m.sp.Word() - 1) && a != Wrap16(m.sp.Word() - 2) ==> r.mem[a] == m.mem[a]
    ensures r == m.(sp := r.sp, mem := r.mem)
  {
    var sp: int := m.sp.Word();
    StackSlotsDistinct(sp);
    ByteOfInt(nn / 256);
    ByteOfInt(nn % 256);
    var mem' := m.mem[Wrap16(sp - 1) := (nn / 256) as bv8][Wrap16(sp - 2) := (nn % 256) as bv8];
    m.(mem := mem', sp := Register.FromWord(Wrap16(sp - 2)))
  }

  /** POP: the byte at SP + 1 shifted left by 8, or-ed with the byte at SP
      (the two never overlap, so the or is a sum); SP goes up by two. */
  function Pop(m: Machine): (p: Popped)
    ensures p.value == ReadWord(m.mem, m.sp.Word())
    ensures p.m == m.(sp := Register.FromWord(Wrap16(m.sp.Word() + 2)))
  {
    var sp: int := m.sp.Word();
    var ret := m.mem[Wrap16(sp + 1)] as int * 256;
    Popped(ret + m.mem[sp] as int, m.(sp := Register.FromWord(Wrap16(sp + 2))))
  }

  /** CALL: push PC, then jump. */
  function Call(m: Machine, address: u16): (r: Machine)
    ensures r.pc.Word() == address
    ensures r.sp.Word() == Wrap16(m.sp.Word() - 2)
    ensures ReadWord(r.mem, r.sp.Word()) == m.pc.Word()
    ensures r == m.(sp := r.sp, pc := r.pc, mem := r.mem)
  {
    ReadPushed(m, m.pc.Word());
    Push(m, m.pc.Word()).(pc := Register.FromWord(address))
  }

  /** RET: pop PC. */
  function Ret(m: Machine): (r: Machine)
    ensures r.pc.Word() == ReadWord(m.mem, m.sp.Word())
    ensures r.sp.Word() == Wrap16(m.sp.Word() + 2)
    ensures r == m.(pc := r.pc, sp := r.sp)
  {
    var p := Pop(m);
    p.m.(pc := Register.FromWord(p.value))
  }

  /** RETI: enable interrupts, then RET. */
  function Reti(m: Machine): (r: Machine)
    ensures r.ime
    ensures r == Ret(m).(ime := true)
  {
    Ret(m.(ime := true))
  }

  /** The two bytes PUSH writes are different addresses. */
  lemma StackSlotsDistinct(sp: u16)
    ensures Wrap16(sp - 1) != Wrap16(sp - 2)
  {
  }

  /** The byte above the new SP is the one PUSH wrote at SP - 1. */
  lemma StackSlotsAdjacent(sp: u16)
    ensures Wrap16(Wrap16(sp - 2) + 1) == Wrap16(sp - 1)
    ensures Wrap16(Wrap16(sp - 2) + 2) == sp
  {
  }

  /** A word is determined by its two bytes. */
  lemma SameBytes(w: u16, v: u16)
    requires w / 256 == v / 256 && w % 256 == v % 256
    ensures w == v
  {
  }

  /** The word at the new SP after PUSH is the pushed word. */
  lemma {:induction false} ReadPushed(m: Machine, nn: u16)
    ensures ReadWord(Push(m, nn).mem, Wrap16(m.sp.Word() - 2)) == nn
  {
    var sp: int := m.sp.Word();
    StackSlotsAdjacent(sp);
    ReadBack(Push(m, nn).mem, Wrap16(sp - 2), Wrap16(sp - 1), nn);
  }

  /** Reading back the two bytes of a word stored low byte first. */
  lemma ReadBack(mem: Ram, lo: u16, hi: u16, nn: u16)
    requires hi == Wrap16(lo + 1)
    requires mem[lo] as int == nn % 256 && mem[hi] as int == nn / 256
    ensures ReadWord(mem, lo) == nn
  {
    SameBytes(ReadWord(mem, lo), nn);
  }

  /** POP after PUSH gives back the pushed word and the original SP. */
  lemma {:induction false} PopAfterPush(m: Machine, nn: u16)
    ensures Pop(Push(m, nn)) == Popped(nn, Push(m, nn).(sp := m.sp))
  {
    var sp: int := m.sp.Word();
    var pushed := Push(m, nn);
    ReadPushed(m, nn);
    StackSlotsAdjacent(sp);
    var top: int := pushed.sp.Word();
    assert top == Wrap16(sp - 2);
    PopRestores(pushed, m.sp);
  }

  /** POP moves SP to any pair whose word is two above it. */
  lemma PopRestores(p: Machine, sp: Register)
    requires Wrap16(p.sp.Word() + 2) == sp.Word()
    ensures Pop(p).m == p.(sp := sp)
  {
    WordRoundTrip(sp);
  }

  /** RET after CALL comes back to the calling PC with the original SP;
      the only trace left is the return address below SP. */
  lemma {:induction false} RetAfterCall(m: Machine, address: u16)
    ensures Ret(Call(m, address)) == Push(m, m.pc.Word()).(sp := m.sp, pc := m.pc)
  {
    PopAfterPush(m, m.pc.Word());
    WordRoundTrip(m.pc);
  }

  // --------------------------------------------------------------- opcodes

  /** The byte DoOpcode fetches: the one at PC. */
  function Opcode(m: Machine): bv8
  {
    m.mem[m.pc.Word()]
  }

  /** The signed value of a displacement byte, as the (sbyte) cast reads it. */
  function Signed(d: bv8): (v: int)
    ensures -128 <= v < 128
    ensures (v - d as int) % 256 == 0
  {
    if d < 0x80 then d as int else d as int - 256
  }

  /** The jump of JR from pc by displacement d. The source subtracts
      Math.Abs(d) when d is negative and adds it otherwise, which is adding
      the signed value (the method JumpBy keeps the two branches). Math.Abs
      throws on -128, so that displacement has no jump. */
  function Jump(pc: Register, d: bv8): (r: Register)
    requires d != 0x80
    ensures r.Word() == Wrap16(pc.Word() + Signed(d))
  {
    Register.FromWord(Wrap16(pc.Word() + Signed(d)))
  }

  /** JR n, JR NZ,n and JR Z,n before the trailing PC increment: the
      displacement is read at PC + 1, PC is left there, and the jump is
      applied when taken. The cost is 3 either way. */
  function RelativeJump(m: Machine, taken: bool): (e: Executed)
  {
    var pc1 := Incremented(m.pc);
    var d := m.mem[pc1.Word()];
    if !taken then Executed(m.(pc := pc1), Normal, 3)
    else if d == 0x80 then Executed(m.(pc := pc1), Threw(OverflowException), 0)
    else Executed(m.(pc := Jump(pc1, d)), Normal, 3)
  }

  /** The switch of DoOpcode on the byte at PC, before the trailing PC
      increment, taken eight opcodes at a time. Opcodes without a case
      (0x30 and up) cost 0 and change nothing. */
  function Dispatch(m: Machine): (e: Executed)
  {
    var op := Opcode(m);
    if op < 0x08 then Ops00(m)
    else if op < 0x10 then Ops08(m)
    else if op < 0x18 then Ops10(m)
    else if op < 0x20 then Ops18(m)
    else if op < 0x28 then Ops20(m)
    else if op < 0x30 then Ops28(m)
    else Executed(m, Normal, 0)
  }

  /** The switch never touches SP, IME, the countdowns or the frame count. */
  predicate KeepsControl(m: Machine, m': Machine)
  {
    m'.sp == m.sp && m'.ime == m.ime && m'.divCounter == m.divCounter &&
    m'.timaCounter == m.timaCounter && m'.cyclesRunThisFrame == m.cyclesRunThisFrame
  }

  /** The byte registers the switch names: the halves of BC, DE and HL. */
  datatype Half = B | C | D | E | H | L

  /** The register pairs the switch names besides AF, SP and PC. */
  datatype Pair = BC | DE | HL

  function GetHalf(m: Machine, h: Half): bv8
  {
    match h
    case B => m.bc.high
    case C => m.bc.low
    case D => m.de.high
    case E => m.de.low
    case H => m.hl.high
    case L => m.hl.low
  }

  function SetHalf(m: Machine, h: Half, v: bv8): Machine
  {
    match h
    case B => m.(bc := m.bc.(high := v))
    case C => m.(bc := m.bc.(low := v))
    case D => m.(de := m.de.(high := v))
    case E => m.(de := m.de.(low := v))
    case H => m.(hl := m.hl.(high := v))
    case L => m.(hl := m.hl.(low := v))
  }

  function GetPair(m: Machine, p: Pair): Register
  {
    match p
    case BC => m.bc
    case DE => m.de
    case HL => m.hl
  }

  function SetPair(m: Machine, p: Pair, r: Register): Machine
  {
    match p
    case BC => m.(bc := r)
    case DE => m.(de := r)
    case HL => m.(hl := r)
  }

  /** The cases that only cost a cycle: NOP and STOP. */
  function Idle(m: Machine): Executed
  {
    Executed(m, Normal, 1)
  }

  /** LD rr,nn: the operand word is read at PC + 1 and Z, N cleared. PC is
      left on the low operand byte, or moved past the high one as well when
      skipsOperand. */
  function LoadPair(m: Machine, p: Pair, skipsOperand: bool): Executed
  {
    var next := Incremented(m.pc);
    var loaded := SetPair(m, p, Register.FromWord(ReadWord(m.mem, next.Word())));
    Executed(loaded.(af := m.af.(low := ClearZN(m.af.low)),
                     pc := if skipsOperand then Incremented(next) else next), Normal, 3)
  }

  /** LD (BC),A and LD (DE),A: A is stored at BC, and Z, N are cleared. */
  function StoreAtBc(m: Machine): Executed
  {
    Executed(m.(af := m.af.(low := ClearZN(m.af.low)), mem := m.mem[m.bc.Word() := m.af.high]), Normal, 2)
  }

  /** INC rr (and the DEC BC, DEC DE cases, which increment): the wrapping
      increment of a pair, flags untouched. */
  function IncrementPair(m: Machine, p: Pair): Executed
  {
    Executed(SetPair(m, p, Incremented(GetPair(m, p))), Normal, 2)
  }

  /** DEC HL: the wrapping decrement of a pair, flags untouched. */
  function DecrementPair(m: Machine, p: Pair): Executed
  {
    Executed(SetPair(m, p, Decremented(GetPair(m, p))), Normal, 2)
  }

  /** INC r: INC_R8 on a byte register. */
  function IncrementHalf(m: Machine, h: Half): Executed
  {
    var r := Inc8(GetHalf(m, h), m.af.low);
    Executed(SetHalf(m, h, r.value).(af := m.af.(low := r.flags)), Normal, 1)
  }

  /** DEC r: DEC_R8 on a byte register. */
  function DecrementHalf(m: Machine, h: Half): Executed
  {
    var r := Dec8(GetHalf(m, h), m.af.low);
    Executed(SetHalf(m, h, r.value).(af := m.af.(low := r.flags)), Normal, 1)
  }

  /** LD r,n: the byte at PC + 1 is loaded and PC is left on it; the loads
      into B, C, D and E also clear Z and N. */
  function LoadHalf(m: Machine, h: Half, clearsFlags: bool): Executed
  {
    var next := Incremented(m.pc);
    var f := if clearsFlags then ClearZN(m.af.low) else m.af.low;
    Executed(SetHalf(m, h, m.mem[next.Word()]).(af := m.af.(low := f), pc := next), Normal, 2)
  }

  /** A new accumulator and flag byte: the rotates of A, DAA and CPL. */
  function SetAccumulator(m: Machine, r: ByteResult, cycles: int): Executed
  {
    Executed(m.(af := Register(r.value, r.flags)), Normal, cycles)
  }

  /** LD (nn),SP as written: PC moves onto each operand byte in turn and
      the low, then the high byte of SP is stored over it; F is zeroed. */
  function StoreSpOverOperand(m: Machine): Executed
  {
    var next := Incremented(m.pc);
    var next2 := Incremented(next);
    var mem' := m.mem[next.Word() := m.sp.low][next2.Word() := m.sp.high];
    Executed(m.(af := m.af.(low := 0), mem := mem', pc := next2), Normal, 5)
  }

  /** ADD HL,rr: ADD_R16_R16 into HL. */
  function AddToHl(m: Machine, p: Pair): Executed
  {
    var rr := GetPair(m, p);
    Executed(m.(hl := AddWord(m.hl, rr), af := m.af.(low := AddFlags(m.hl, rr, m.af.low))), Normal, 2)
  }

  /** AddToHl in terms of the new HL and AF it leaves. */
  lemma AddToHlLeaves(m: Machine, p: Pair, hl: Register, af: Register)
    requires hl == AddWord(m.hl, GetPair(m, p)) && af == m.af.(low := AddFlags(m.hl, GetPair(m, p), m.af.low))
    ensures AddToHl(m, p) == Executed(m.(hl := hl, af := af), Normal, 2)
  {
  }

  /** LD A,(rr): A is loaded from the address in a pair; the BC form also
      zeroes F. */
  function LoadAccumulator(m: Machine, p: Pair, zeroesFlags: bool): Executed
  {
    var f := if zeroesFlags then 0 else m.af.low;
    Executed(m.(af := Register(m.mem[GetPair(m, p).Word()], f)), Normal, 2)
  }

  /** LDI (HL),A: A is stored at HL, then HL goes up by one. */
  function StoreAndIncrement(m: Machine): Executed
  {
    Executed(m.(mem := m.mem[m.hl.Word() := m.af.high], hl := Incremented(m.hl)), Normal, 2)
  }

  /** LDI A,(HL): A is loaded from HL, then HL goes up by one. */
  function LoadAndIncrement(m: Machine): Executed
  {
    Executed(m.(af := m.af.(high := m.mem[m.hl.Word()]), hl := Incremented(m.hl)), Normal, 2)
  }

  /** Opcodes 0x00 to 0x07 (the last is the wildcard case). */
  function Ops00(m: Machine): (e: Executed)
    requires Opcode(m) < 0x08
    ensures e.status == Normal && e.cycles in {1, 2, 3}
    ensures KeepsControl(m, e.m)
  {
    match Opcode(m)
    case 0x00 => Idle(m)
    case 0x01 => LoadPair(m, BC, false)
    case 0x02 => StoreAtBc(m)
    case 0x03 => IncrementPair(m, BC)
    case 0x04 => IncrementHalf(m, B)
    case 0x05 => DecrementHalf(m, C)  // DEC B
    case 0x06 => LoadHalf(m, B, true)
    case _ => SetAccumulator(m, Rlc8(m.af.high, m.af.low), 2)  // 0x07
  }

  /** Opcodes 0x08 to 0x0F (the last is the wildcard case). */
  function Ops08(m: Machine): (e: Executed)
    requires 0x08 <= Opcode(m) < 0x10
    ensures e.status == Normal && e.cycles in {1, 2, 5}
    ensures KeepsControl(m, e.m)
  {
    match Opcode(m)
    case 0x08 => StoreSpOverOperand(m)
    case 0x09 => AddToHl(m, BC)
    case 0x0A => LoadAccumulator(m, BC, true)
    case 0x0B => IncrementPair(m, BC)  // DEC BC
    case 0x0C => IncrementHalf(m, C)
    case 0x0D => DecrementHalf(m, C)
    case 0x0E => LoadHalf(m, C, true)
    case _ => SetAccumulator(m, Rrc8(m.af.high, m.af.low), 2)  // 0x0F
  }

  /** Opcodes 0x10 to 0x17 (the last is the wildcard case). */
  function Ops10(m: Machine): (e: Executed)
    requires 0x10 <= Opcode(m) < 0x18
    ensures e.status == Normal && e.cycles in {1, 2, 3}
    ensures KeepsControl(m, e.m)
  {
    match Opcode(m)
    case 0x10 => Idle(m)
    case 0x11 => LoadPair(m, DE, true)
    case 0x12 => StoreAtBc(m)  // LD (DE),A
    case 0x13 => IncrementPair(m, BC)  // INC DE
    case 0x14 => IncrementHalf(m, D)
    case 0x15 => DecrementHalf(m, D)
    case 0x16 => LoadHalf(m, D, true)
    case _ => SetAccumulator(m, Rl8(m.af.high), 2)  // 0x17
  }

  /** Opcodes 0x18 to 0x1F (the last is the wildcard case); only the
      relative jump at 0x18 throws. */
  function Ops18(m: Machine): (e: Executed)
    requires 0x18 <= Opcode(m) < 0x20
    ensures e.status.Normal? ==> e.cycles in {1, 2, 3}
    ensures e.status.Threw? ==> e.status.fault == OverflowException && Opcode(m) == 0x18 &&
                                e.m == m.(pc := Incremented(m.pc))
    ensures KeepsControl(m, e.m)
  {
    match Opcode(m)
    case 0x18 => RelativeJump(m, true)
    case 0x19 => AddToHl(m, DE)
    case 0x1A => LoadAccumulator(m, DE, false)
    case 0x1B => IncrementPair(m, DE)  // DEC DE
    case 0x1C => IncrementHalf(m, E)
    case 0x1D => DecrementHalf(m, E)
    case 0x1E => LoadHalf(m, E, true)
    case _ => SetAccumulator(m, Rr8(m.af.high), 2)  // 0x1F
  }

  /** Opcodes 0x20 to 0x27 (the last is the wildcard case); only the
      relative jump at 0x20 throws. */
  function Ops20(m: Machine): (e: Executed)
    requires 0x20 <= Opcode(m) < 0x28
    ensures e.status.Normal? ==> e.cycles in {1, 2, 3}
    ensures e.status.Threw? ==> e.status.fault == OverflowException && Opcode(m) == 0x20 &&
                                e.m == m.(pc := Incremented(m.pc))
    ensures KeepsControl(m, e.m)
  {
    match Opcode(m)
    case 0x20 => RelativeJump(m, !FlagZ(m.af.low))
    case 0x21 => LoadPair(m, HL, true)
    case 0x22 => StoreAndIncrement(m)
    case 0x23 => IncrementPair(m, HL)
    case 0x24 => IncrementHalf(m, H)
    case 0x25 => DecrementHalf(m, L)  // DEC H
    case 0x26 => LoadHalf(m, H, false)
    case _ => SetAccumulator(m, Daa(m.af.high, m.af.low), 1)  // 0x27
  }

  /** Opcodes 0x28 to 0x2F (the last is the wildcard case); only the
      relative jump at 0x28 throws. */
  function Ops28(m: Machine): (e: Executed)
    requires 0x28 <= Opcode(m) < 0x30
    ensures e.status.Normal? ==> e.cycles in {1, 2, 3}
    ensures e.status.Threw? ==> e.status.fault == OverflowException && Opcode(m) == 0x28 &&
                                e.m == m.(pc := Incremented(m.pc))
    ensures KeepsControl(m, e.m)
  {
    match Opcode(m)
    case 0x28 => RelativeJump(m, FlagZ(m.af.low))
    case 0x29 => AddToHl(m, HL)
    case 0x2A => LoadAndIncrement(m)
    case 0x2B => DecrementPair(m, HL)
    case 0x2C => IncrementHalf(m, L)
    case 0x2D => DecrementHalf(m, L)
    case 0x2E => LoadHalf(m, L, false)
    case _ => SetAccumulator(m, Cpl(m.af.high, m.af.low), 1)  // 0x2F
  }

  /** DoOpcode: the switch, then one PC increment, unless the switch threw.
      The cost is one of 0, 1, 2, 3, 5; only the relative jumps can throw;
      and an opcode from 0x30 up costs 0, moves PC on by one and changes
      nothing else. */
  function Execute(m: Machine): (e: Executed)
    ensures e.status.Normal? ==> e.cycles in {0, 1, 2, 3, 5}
    ensures e.status.Threw? ==>
              e.status.fault == OverflowException && Opcode(m) in {0x18, 0x20, 0x28} &&
              e.m == m.(pc := Incremented(m.pc))
    ensures Opcode(m) >= 0x30 ==> e == Executed(m.(pc := Incremented(m.pc)), Normal, 0)
    ensures e.m.sp == m.sp && e.m.ime == m.ime && e.m.divCounter == m.divCounter
    ensures e.m.timaCounter == m.timaCounter && e.m.cyclesRunThisFrame == m.cyclesRunThisFrame
  {
    var d := Dispatch(m);
    if d.status.Threw? then d else d.(m := d.m.(pc := Incremented(d.m.pc)))
  }

  // ---------------------------------------------------------------- timers

  /** The TIMA countdown CYCLESPERSECOND / TIMA_Frequencies[TAC & 3]. */
  function TimaPeriod(tac: bv8): (p: int)
    ensures p == [1024, 16, 64, 256][(tac & 3) as int]
  {
    CYCLES_PER_SECOND / TIMA_FREQUENCIES[(tac & 3) as int]
  }

  /** UpdateSpecialRegisters: both countdowns go down by the cycles used;
      a countdown at or below zero gives its register one increment and
      restarts. The divider wraps at 0xFF; the timer counter, at 0xFF,
      reloads from TMA and requests the timer interrupt (bit 2 of IF). */
  function Timers(m: Machine, cycles: int): (r: Machine)
    ensures r == m.(mem := r.mem, divCounter := r.divCounter, timaCounter := r.timaCounter)
  {
    TimaTick(DivTick(m, cycles), cycles)
  }

  /** UpdateSpecialRegisters writes only DIV, TIMA and IF. */
  lemma TimersWriteOnlyTimerBytes(m: Machine, cycles: int, a: u16)
    requires a != DIV_REG && a != TIMA_REG && a != INTERRUPT_FLAG
    ensures Timers(m, cycles).mem[a] == m.mem[a]
  {
  }

  /** The divider: one increment (wrapping at 0xFF) and a restart at 256
      once its countdown reaches zero, else only the countdown moves. */
  lemma TimersDivider(m: Machine, cycles: int)
    ensures m.divCounter - cycles <= 0 ==>
              Timers(m, cycles).mem[DIV_REG] == m.mem[DIV_REG] + 1 && Timers(m, cycles).divCounter == 256
    ensures m.divCounter - cycles > 0 ==>
              Timers(m, cycles).mem[DIV_REG] == m.mem[DIV_REG] && Timers(m, cycles).divCounter == m.divCounter - cycles
  {
    var d := DivTick(m, cycles);
    assert Timers(m, cycles).mem[DIV_REG] == d.mem[DIV_REG];
  }

  /** The timer counter, once its countdown reaches zero: TIMA at 0xFF
      reloads from TMA and requests the timer interrupt, otherwise it goes
      up by one; the countdown restarts from the period TAC selects. While
      the countdown runs, only the countdown moves. */
  lemma TimersTimer(m: Machine, cycles: int)
    ensures m.timaCounter - cycles <= 0 && m.mem[TIMA_REG] == 0xFF ==>
              Timers(m, cycles).mem[TIMA_REG] == m.mem[TMA_REG] &&
              Timers(m, cycles).mem[INTERRUPT_FLAG] == SetBit(m.mem[INTERRUPT_FLAG], 2, true)
    ensures m.timaCounter - cycles <= 0 && m.mem[TIMA_REG] != 0xFF ==>
              Timers(m, cycles).mem[TIMA_REG] == m.mem[TIMA_REG] + 1 &&
              Timers(m, cycles).mem[INTERRUPT_FLAG] == m.mem[INTERRUPT_FLAG]
    ensures m.timaCounter - cycles <= 0 ==> Timers(m, cycles).timaCounter == TimaPeriod(m.mem[TAC_REG])
    ensures m.timaCounter - cycles > 0 ==>
              Timers(m, cycles).mem[TIMA_REG] == m.mem[TIMA_REG] &&
              Timers(m, cycles).mem[INTERRUPT_FLAG] == m.mem[INTERRUPT_FLAG] &&
              Timers(m, cycles).timaCounter == m.timaCounter - cycles
  {
    var d := DivTick(m, cycles);
    assert d.mem[TIMA_REG] == m.mem[TIMA_REG] && d.mem[TMA_REG] == m.mem[TMA_REG];
    assert d.mem[INTERRUPT_FLAG] == m.mem[INTERRUPT_FLAG] && d.mem[TAC_REG] == m.mem[TAC_REG];
  }

  /** The divider half of UpdateSpecialRegisters. */
  function DivTick(m: Machine, cycles: int): (r: Machine)
    ensures r == m.(mem := r.mem, divCounter := r.divCounter)
    ensures forall a: u16 :: a != DIV_REG ==> r.mem[a] == m.mem[a]
    ensures m.divCounter - cycles <= 0 ==> r.mem[DIV_REG] == m.mem[DIV_REG] + 1 && r.divCounter == 256
    ensures m.divCounter - cycles > 0 ==> r.mem[DIV_REG] == m.mem[DIV_REG] && r.divCounter == m.divCounter - cycles
  {
    var div := m.divCounter - cycles;
    if div <= 0 then
      m.(mem := m.mem[DIV_REG := if m.mem[DIV_REG] == 0xFF then 0 else m.mem[DIV_REG] + 1], divCounter := 256)
    else m.(divCounter := div)
  }

  /** The timer-counter half of UpdateSpecialRegisters. */
  function TimaTick(m: Machine, cycles: int): (r: Machine)
    ensures r == m.(mem := r.mem, timaCounter := r.timaCounter)
    ensures forall a: u16 :: a != TIMA_REG && a != INTERRUPT_FLAG ==> r.mem[a] == m.mem[a]
    ensures m.timaCounter - cycles <= 0 && m.mem[TIMA_REG] == 0xFF ==>
              r.mem[TIMA_REG] == m.mem[TMA_REG] &&
              r.mem[INTERRUPT_FLAG] == SetBit(m.mem[INTERRUPT_FLAG], 2, true)
    ensures m.timaCounter - cycles <= 0 && m.mem[TIMA_REG] != 0xFF ==>
              r.mem[TIMA_REG] == m.mem[TIMA_REG] + 1 && r.mem[INTERRUPT_FLAG] == m.mem[INTERRUPT_FLAG]
    ensures m.timaCounter - cycles <= 0 ==> r.timaCounter == TimaPeriod(m.mem[TAC_REG])
    ensures m.timaCounter - cycles > 0 ==> r == m.(timaCounter := m.timaCounter - cycles)
  {
    var tima := m.timaCounter - cycles;
    if tima <= 0 then
      var mem' := TimaBumped(m.mem);
      m.(mem := mem', timaCounter := TimaPeriod(mem'[TAC_REG]))
    else m.(timaCounter := tima)
  }

  /** The memory after one TIMA increment: at 0xFF it reloads from TMA and
      requests the timer interrupt. */
  function TimaBumped(mem: Ram): (r: Ram)
  {
    if mem[TIMA_REG] == 0xFF
    then mem[TIMA_REG := mem[TMA_REG]][INTERRUPT_FLAG := SetBit(mem[INTERRUPT_FLAG], 2, true)]
    else mem[TIMA_REG := mem[TIMA_REG] + 1]
  }

  // ------------------------------------------------------------ interrupts

  /** The lowest set bit of x at or above from, or 8 when there is none:
      the scan of the for loop in DoInterrupts. */
  function LowestSetBit(x: bv8, from: bv8): (i: bv8)
    requires from <= 8
    decreases 8 - from as int
    ensures from <= i <= 8
    ensures i < 8 ==> IsBitSet(x, i)
    ensures forall j: bv8 :: from <= j < i ==> !IsBitSet(x, j)
  {
    if from == 8 then 8
    else if IsBitSet(x, from) then from
    else LowestSetBit(x, from + 1)
  }

  /** A bit i that is set, with no set bit between from and i, is the one
      LowestSetBit finds; i = 8 stands for "no set bit from from on". */
  lemma {:induction false} LowestSetBitIs(x: bv8, from: bv8, i: bv8)
    requires from <= i <= 8
    requires i < 8 ==> IsBitSet(x, i)
    requires forall j: bv8 :: from <= j < i ==> !IsBitSet(x, j)
    ensures LowestSetBit(x, from) == i
    decreases i - from
  {
    if from < i {
      LowestSetBitIs(x, from + 1, i);
    }
  }

  /** What DoInterrupts does once it has found enabled bit i: clear bit i of
      IF, disable interrupts, and CALL the vector (InterruptAddresses[i],
      which throws for i >= 5, after the first two steps). */
  function Enter(m: Machine, i: bv8): (r: Outcome)
    requires i < 8
    ensures !r.m.ime && r.m.cyclesRunThisFrame == m.cyclesRunThisFrame
    ensures i < 5 ==> r.status == Normal && r.m.pc.Word() == 0x40 + 8 * i as int &&
                      r.m.sp.Word() == Wrap16(m.sp.Word() - 2) && ReadWord(r.m.mem, r.m.sp.Word()) == m.pc.Word()
    ensures i >= 5 ==> r.status == Threw(IndexOutOfRangeException) &&
                       r.m == m.(mem := m.mem[INTERRUPT_FLAG := SetBit(m.mem[INTERRUPT_FLAG], i, false)], ime := false)
    ensures i < 5 ==> r.m == m.(mem := r.m.mem, sp := r.m.sp, pc := r.m.pc, ime := false)
    ensures i < 5 ==> forall a: u16 :: a != INTERRUPT_FLAG && a != Wrap16(m.sp.Word() - 1) && a != Wrap16(m.sp.Word() - 2)
                                       ==> r.m.mem[a] == m.mem[a]
    ensures i < 5 && Wrap16(m.sp.Word() - 1) != INTERRUPT_FLAG && Wrap16(m.sp.Word() - 2) != INTERRUPT_FLAG
            ==> r.m.mem[INTERRUPT_FLAG] == SetBit(m.mem[INTERRUPT_FLAG], i, false)
  {
    var cleared := m.(mem := m.mem[INTERRUPT_FLAG := SetBit(m.mem[INTERRUPT_FLAG], i, false)], ime := false);
    if i < 5 then Outcome(Call(cleared, INTERRUPT_ADDRESSES[i as int]), Normal)
    else Outcome(cleared, Threw(IndexOutOfRangeException))
  }

  /** DoInterrupts: with IME set, the lowest set bit of the enable byte at
      0xFFFF is serviced; the request byte at 0xFF0F is only written, never
      consulted. Nothing happens with IME clear or no enable bit set. */
  function ServiceInterrupt(m: Machine): (r: Outcome)
    ensures r.m.cyclesRunThisFrame == m.cyclesRunThisFrame
    ensures !m.ime || m.mem[INTERRUPT_ENABLE] == 0 ==> r == Outcome(m, Normal)
    ensures m.ime && m.mem[INTERRUPT_ENABLE] != 0 ==> r == Enter(m, LowestSetBit(m.mem[INTERRUPT_ENABLE], 0))
  {
    if !m.ime then Outcome(m, Normal)
    else
      var i := LowestSetBit(m.mem[INTERRUPT_ENABLE], 0);
      if i == 8 then Outcome(m, Normal) else Enter(m, i)
  }

  // ----------------------------------------------------------------- steps

  /** DoStep: the opcode, then the timers, then the interrupts, then the
      cycle count is added; an exception cuts the sequence short. */
  function Step(m: Machine): (r: Outcome)
    ensures r.status.Normal? ==> r.m.cyclesRunThisFrame == m.cyclesRunThisFrame + Execute(m).cycles
    ensures r.status.Normal? ==> m.cyclesRunThisFrame <= r.m.cyclesRunThisFrame <= m.cyclesRunThisFrame + 5
  {
    var e := Execute(m);
    if e.status.Threw? then Outcome(e.m, e.status) else Settle(e.m, e.cycles)
  }

  /** The rest of DoStep once the opcode has run without an exception: the
      timers, then the interrupts, then the cycle count is added. */
  function Settle(m: Machine, cycles: int): (r: Outcome)
    ensures r.status.Normal? ==> r.m.cyclesRunThisFrame == m.cyclesRunThisFrame + cycles
  {
    var s := ServiceInterrupt(Timers(m, cycles));
    if s.status.Threw? then s
    else Outcome(s.m.(cyclesRunThisFrame := s.m.cyclesRunThisFrame + cycles), Normal)
  }

  /** n DoSteps in a row, stopping at the first exception. */
  function Run(m: Machine, n: nat): Outcome
  {
    if n == 0 then Outcome(m, Normal)
    else
      var p := Run(m, n - 1);
      if p.status.Threw? then p else Step(p.m)
  }

  // ------------------------------------------------------------ life cycle

  /** A copy of image over the start of before, element by element, gives
      image followed by the rest of before. */
  lemma CopiedOver(before: seq<bv8>, after: seq<bv8>, image: seq<bv8>)
    requires |after| == |before| && |image| <= |before|
    requires forall i :: 0 <= i < |image| ==> after[i] == image[i]
    requires forall i :: |image| <= i < |before| ==> after[i] == before[i]
    ensures after == image + before[|image|..]
  {
  }

  /** The state the constructor leaves: all pairs zero, counters zero,
      interrupts enabled, memory as the core handed it over. */
  function Initial(mem: Ram): (m: Machine)
  {
    var zero := Register(0, 0);
    Machine(zero, zero, zero, zero, zero, zero, mem, 0, 0, 0, true)
  }

  /** The register pairs as Reset sets them, before anything else: AF by
      its two halves, the others through the Word setter, written here as
      the two bytes that setter stores. */
  function BootRegisters(m: Machine): Machine
  {
    m.(af := Register(0x01, 0xB0), bc := Register(0x00, 0x13), de := Register(0x00, 0xD8),
       hl := Register(0x01, 0x4D), sp := Register(0xFF, 0xFE), pc := Register(0x00, 0x00))
  }

  /** Reset: the boot register values, then the boot image copied to the
      bottom of memory, then the countdowns and IME. Array.Copy refuses an
      image longer than memory, after the registers are already set. */
  function AfterReset(m: Machine, bios: seq<bv8>): (r: Outcome)
    ensures r.m.af.Word() == 0x01B0 && r.m.bc.Word() == 0x0013 && r.m.de.Word() == 0x00D8
    ensures r.m.hl.Word() == 0x014D && r.m.sp.Word() == 0xFFFE && r.m.pc.Word() == 0
    ensures |bios| <= 0x10000 ==>
              r.status == Normal && r.m.mem[..|bios|] == bios && r.m.mem[|bios|..] == m.mem[|bios|..] &&
              r.m.divCounter == 256 && r.m.timaCounter == 1024 && r.m.ime &&
              r.m.cyclesRunThisFrame == m.cyclesRunThisFrame
    ensures |bios| > 0x10000 ==>
              r.status == Threw(ArgumentException) &&
              r.m == m.(af := r.m.af, bc := r.m.bc, de := r.m.de, hl := r.m.hl, sp := r.m.sp, pc := r.m.pc)
  {
    var regs := BootRegisters(m);
    if |bios| > 0x10000 then Outcome(regs, Threw(ArgumentException))
    else Outcome(regs.(mem := bios + m.mem[|bios|..], divCounter := 256, timaCounter := 1024, ime := true), Normal)
  }
}
