/** Value and flag rules of the ALU helpers of CPU.cs, as pure functions on a
    byte (or a register pair) and the flag byte AF.Low. Each function follows
    the C# code step by step; its contract says what those steps amount to. */
module Alu {
  import opened Bits
  import opened Registers

  /** The new value of an 8-bit operand and the new flag byte. */
  datatype ByteResult = ByteResult(value: bv8, flags: bv8)

  /** Z and N cleared, everything else kept: the flag effect of LD_R16_NN and
      of the loads LD (BC),A, LD (DE),A, LD B,n, LD C,n, LD D,n and LD E,n. */
  function ClearZN(f: bv8): (g: bv8)
    ensures !FlagZ(g) && !FlagN(g)
    ensures FlagH(g) == FlagH(f) && FlagC(g) == FlagC(f)
    ensures g & 0x0F == f & 0x0F
  {
    SetBit(SetBit(f, FLAG_Z, false), FLAG_N, false)
  }

  /** INC_R8 on x with flag byte f. */
  function Inc8(x: bv8, f: bv8): (r: ByteResult)
    ensures r.value == x + 1
    ensures FlagZ(r.flags) == (r.value == 0)
    ensures FlagH(r.flags) == (x & 0x0F == 0x0F)
    ensures !FlagN(r.flags)
    ensures FlagC(r.flags) == FlagC(f)
    ensures r.flags & 0x0F == f & 0x0F
  {
    var f1 := SetBit(f, FLAG_H, x & 0x0F == 0x0F);
    var f2 := SetBit(f1, FLAG_N, false);
    if x == 0xFF then ByteResult(0, SetBit(f2, FLAG_Z, true))
    else ByteResult(x + 1, SetBit(f2, FLAG_Z, false))
  }

  /** DEC_R8 on x with flag byte f. Z is only touched when x is 0 (cleared)
      or 1 (set); otherwise it keeps its previous value. */
  function Dec8(x: bv8, f: bv8): (r: ByteResult)
    ensures r.value == x - 1
    ensures FlagZ(r.flags) == (if x == 0 then false else if x == 1 then true else FlagZ(f))
    ensures FlagH(r.flags) == (x & 0x0F == 0)
    ensures FlagN(r.flags)
    ensures FlagC(r.flags) == FlagC(f)
    ensures r.flags & 0x0F == f & 0x0F
  {
    var f1 := if x == 0 then SetBit(f, FLAG_Z, false) else f;
    var f2 := SetBit(f1, FLAG_H, x & 0x0F == 0);
    var f3 := SetBit(f2, FLAG_N, true);
    if x == 0 then ByteResult(0xFF, f3)
    else
      var v := x - 1;
      ByteResult(v, if v == 0 then SetBit(f3, FLAG_Z, true) else f3)
  }

  /** Flag byte left by a rotate: all bits zero except C (the bit shifted
      out) and Z (the result is zero). */
  function RotateFlags(value: bv8, out: bool): (g: bv8)
    ensures FlagC(g) == out && FlagZ(g) == (value == 0)
    ensures !FlagN(g) && !FlagH(g) && g & 0x0F == 0
  {
    var f1 := if out then SetBit(0, FLAG_C, true) else 0;
    if value == 0 then SetBit(f1, FLAG_Z, true) else f1
  }

  /** RLC_R8 as written: shift left, the previous carry enters bit 0. */
  function Rlc8(x: bv8, f: bv8): (r: ByteResult)
    ensures r.value == (x << 1) | (if FlagC(f) then 1 else 0)
    ensures FlagC(r.flags) == IsBitSet(x, 7)
    ensures FlagZ(r.flags) == (r.value == 0)
    ensures !FlagN(r.flags) && !FlagH(r.flags) && r.flags & 0x0F == 0
  {
    var carrySet := FlagC(f);
    var msbSet := IsBitSet(x, 7);
    var shifted := x << 1;
    var v := if carrySet then SetBit(shifted, 0, true) else shifted;
    ByteResult(v, RotateFlags(v, msbSet))
  }

  /** RRC_R8 as written: shift right, the previous carry enters bit 7. */
  function Rrc8(x: bv8, f: bv8): (r: ByteResult)
    ensures r.value == (x >> 1) | (if FlagC(f) then 0x80 else 0)
    ensures FlagC(r.flags) == IsBitSet(x, 0)
    ensures FlagZ(r.flags) == (r.value == 0)
    ensures !FlagN(r.flags) && !FlagH(r.flags) && r.flags & 0x0F == 0
  {
    var carrySet := FlagC(f);
    var lsbSet := IsBitSet(x, 0);
    var shifted := x >> 1;
    var v := if carrySet then SetBit(shifted, 7, true) else shifted;
    ByteResult(v, RotateFlags(v, lsbSet))
  }

  /** RL_R8 as written: rotate left, bit 7 goes to both C and bit 0; the
      previous flags play no part. */
  function Rl8(x: bv8): (r: ByteResult)
    ensures r.value == (x << 1) | (x >> 7)
    ensures FlagC(r.flags) == IsBitSet(x, 7)
    ensures FlagZ(r.flags) == (x == 0)
    ensures !FlagN(r.flags) && !FlagH(r.flags) && r.flags & 0x0F == 0
  {
    var msbSet := IsBitSet(x, 7);
    var shifted := x << 1;
    var v := if msbSet then SetBit(shifted, 0, true) else shifted;
    ByteResult(v, RotateFlags(v, msbSet))
  }

  /** RR_R8 as written: rotate right, bit 0 goes to both C and bit 7; the
      previous flags play no part. */
  function Rr8(x: bv8): (r: ByteResult)
    ensures r.value == (x >> 1) | (x << 7)
    ensures FlagC(r.flags) == IsBitSet(x, 0)
    ensures FlagZ(r.flags) == (x == 0)
    ensures !FlagN(r.flags) && !FlagH(r.flags) && r.flags & 0x0F == 0
  {
    var lsbSet := IsBitSet(x, 0);
    var shifted := x >> 1;
    var v := if lsbSet then SetBit(shifted, 7, true) else shifted;
    ByteResult(v, RotateFlags(v, lsbSet))
  }

  /** The word ADD_R16_R16 returns for operands a and b: the sum, and on a
      carry out of bit 15 the sum less 0xFFFF (not 0x10000), written here
      without a branch; AddWordOnCarry and AddWordNoCarry give the two cases of the code. */
  function AddWord(a: Register, b: Register): Register
  {
    var sum := a.Word() + b.Word();
    Register.FromWord(sum % 0x10000 + sum / 0x10000)
  }

  /** The carry branch of ADD_R16_R16: the sum less 0xFFFF. */
  lemma AddWordOnCarry(a: Register, b: Register)
    requires a.Word() + b.Word() > 0xFFFF
    ensures AddWord(a, b) == Register.FromWord(a.Word() + b.Word() - 0xFFFF)
  {
    CarryFold(a.Word() + b.Word());
  }

  /** The other branch of ADD_R16_R16: the sum itself. */
  lemma AddWordNoCarry(a: Register, b: Register)
    requires a.Word() + b.Word() <= 0xFFFF
    ensures AddWord(a, b) == Register.FromWord(a.Word() + b.Word())
  {
    var sum: int := a.Word() + b.Word();
    CarryFold(sum);
    var folded: int := sum % 0x10000 + sum / 0x10000;
    assert folded == sum;
    assert AddWord(a, b) == Register.FromWord(folded);
  }

  /** Folding the carry back in: the sum less 0xFFFF on a carry. */
  lemma CarryFold(sum: int)
    requires 0 <= sum <= 2 * 0xFFFF
    ensures sum > 0xFFFF ==> sum % 0x10000 + sum / 0x10000 == sum - 0xFFFF
    ensures sum <= 0xFFFF ==> sum % 0x10000 + sum / 0x10000 == sum
  {
  }

  /** The flag byte ADD_R16_R16 leaves from flag byte f: N cleared, H from
      HalfCarry16, C set on a carry out of bit 15. */
  function AddFlags(a: Register, b: Register, f: bv8): bv8
  {
    CarryFlags(f, HalfCarry16(a, b), a.Word() + b.Word() > 0xFFFF)
  }

  /** The three SetFlag calls of ADD_R16_R16, given the half-carry and
      carry tests. */
  function CarryFlags(f: bv8, half: bool, carry: bool): bv8
  {
    var f2 := SetBit(SetBit(f, FLAG_N, false), FLAG_H, half);
    if carry then SetBit(f2, FLAG_C, true) else f2
  }

  /** On a carry the stored word is the 16-bit sum plus one. */
  lemma AddWordIsSum(a: Register, b: Register)
    ensures AddWord(a, b).Word() == (a.Word() + b.Word()) % 0x10000 + (if a.Word() + b.Word() > 0xFFFF then 1 else 0)
  {
    CarriedSum(a.Word(), b.Word());
  }

  /** N is cleared; H is set when either high byte has a non-zero low
      nibble; C is set on a carry out of bit 15 and otherwise kept; Z and the
      unused low bits are kept. */
  lemma AddFlagBits(a: Register, b: Register, f: bv8)
    ensures !FlagN(AddFlags(a, b, f))
    ensures FlagH(AddFlags(a, b, f)) == (a.high & 0x0F != 0 || b.high & 0x0F != 0)
    ensures FlagC(AddFlags(a, b, f)) == (FlagC(f) || a.Word() + b.Word() > 0xFFFF)
    ensures FlagZ(AddFlags(a, b, f)) == FlagZ(f) && AddFlags(a, b, f) & 0x0F == f & 0x0F
  {
    CarryFlagBits(f, HalfCarry16(a, b), a.Word() + b.Word() > 0xFFFF);
  }

  /** The bits CarryFlags sets, clears and keeps. */
  lemma CarryFlagBits(f: bv8, half: bool, carry: bool)
    ensures !FlagN(CarryFlags(f, half, carry)) && FlagH(CarryFlags(f, half, carry)) == half
    ensures FlagC(CarryFlags(f, half, carry)) == (FlagC(f) || carry)
    ensures FlagZ(CarryFlags(f, half, carry)) == FlagZ(f)
    ensures CarryFlags(f, half, carry) & 0x0F == f & 0x0F
  {
    var f1 := SetBit(f, FLAG_N, false);
    var f2 := SetBit(f1, FLAG_H, half);
    KeepsLowNibble(f, FLAG_N, false);
    KeepsLowNibble(f1, FLAG_H, half);
    KeepsLowNibble(f2, FLAG_C, true);
  }

  /** Setting or clearing one of the four flag bits keeps the low nibble. */
  lemma KeepsLowNibble(x: bv8, i: bv8, on: bool)
    requires 4 <= i < 8
    ensures SetBit(x, i, on) & 0x0F == x & 0x0F
  {
  }

  /** The half-carry test of ADD_R16_R16: the low nibbles of the two high
      bytes added (at most 30, so the byte sum does not wrap) are not zero,
      which is the case exactly when either nibble is not zero. */
  function HalfCarry16(a: Register, b: Register): (h: bool)
    ensures h == (a.high & 0x0F != 0 || b.high & 0x0F != 0)
  {
    (a.high & 0x0F) + (b.high & 0x0F) != 0
  }

  /** What ADD_R16_R16 stores, in terms of the true sum. */
  lemma CarriedSum(x: u16, y: u16)
    ensures x + y > 0xFFFF ==> Wrap16(x + y - 0xFFFF) == (x + y) % 0x10000 + 1
    ensures x + y <= 0xFFFF ==> x + y == (x + y) % 0x10000
  {
  }

  /** The DAA case of DoOpcode on accumulator a with flag byte f. After a
      subtraction (N set) the low correction is gated on the low nibble or
      the H flag, and the high one on the high nibble or bit 4 of the
      accumulator; after an addition the low correction is gated on the low
      nibble or bit 5 of the accumulator, and the high one on the high
      nibble or C. Z is recomputed from the final accumulator; N, H
      and the unused low bits are kept. */
  function Daa(a: bv8, f: bv8): (r: ByteResult)
    ensures FlagZ(r.flags) == (r.value == 0)
    ensures FlagN(r.flags) == FlagN(f) && FlagH(r.flags) == FlagH(f)
    ensures r.flags & 0x0F == f & 0x0F
    ensures (FlagN(f) && a & 0x0F <= 9 && !FlagH(f)) || (!FlagN(f) && a & 0x0F <= 9 && a & 0x20 == 0)
            ==> FlagC(r.flags) == FlagC(f)
    // after a low correction, C tells whether the corrected high nibble is 0xF (subtraction) or 0 (addition)
    ensures FlagN(f) && (a & 0x0F > 9 || FlagH(f)) ==> FlagC(r.flags) == ((a - 0x06) & 0xF0 == 0xF0)
    ensures !FlagN(f) && (a & 0x0F > 9 || a & 0x20 != 0) ==> FlagC(r.flags) == ((a + 0x06) & 0xF0 == 0)
    // the value: 0x06 and then 0x60 taken off (subtraction) or added (addition), each under its gate
    ensures FlagN(f) ==>
              var a1 := if a & 0x0F > 9 || FlagH(f) then a - 0x06 else a;
              r.value == if a1 & 0xF0 > 0x90 || a1 & 0x10 != 0 then a1 - 0x60 else a1
    ensures !FlagN(f) ==>
              var a1 := if a & 0x0F > 9 || a & 0x20 != 0 then a + 0x06 else a;
              r.value == if a1 & 0xF0 > 0x90 || FlagC(r.flags) then a1 + 0x60 else a1
  {
    var c := if FlagN(f) then DaaAfterSubtract(a, f) else DaaAfterAdd(a, f);
    ByteResult(c.value, SetBit(c.flags, FLAG_Z, c.value == 0))
  }

  /** The N-set branch of DAA, before Z is recomputed. */
  function DaaAfterSubtract(a: bv8, f: bv8): (r: ByteResult)
    ensures r.flags & 0xEF == f & 0xEF
    ensures a & 0x0F <= 9 && !FlagH(f) ==> r.flags == f
    ensures a & 0x0F > 9 || FlagH(f) ==> FlagC(r.flags) == ((a - 0x06) & 0xF0 == 0xF0)
    // 0x06 off under the low gate, then 0x60 off when the high nibble exceeds 9 or bit 4 is set
    ensures var a1 := if a & 0x0F > 9 || FlagH(f) then a - 0x06 else a;
            r.value == if a1 & 0xF0 > 0x90 || a1 & 0x10 != 0 then a1 - 0x60 else a1
  {
    var low := a & 0x0F > 0x09 || f & 0x20 != 0;
    var a1 := if low then a - 0x06 else a;
    var f1 := if low then SetBit(f, FLAG_C, a1 & 0xF0 == 0xF0) else f;
    ByteResult(if a1 & 0xF0 > 0x90 || a1 & 0x10 != 0 then a1 - 0x60 else a1, f1)
  }

  /** The N-clear branch of DAA, before Z is recomputed. */
  function DaaAfterAdd(a: bv8, f: bv8): (r: ByteResult)
    ensures r.flags & 0xEF == f & 0xEF
    ensures a & 0x0F <= 9 && a & 0x20 == 0 ==> r.flags == f
    // 0x06 on under the low gate, then 0x60 on when the high nibble exceeds 9 or C is now set
    ensures var a1 := if a & 0x0F > 9 || a & 0x20 != 0 then a + 0x06 else a;
            r.value == if a1 & 0xF0 > 0x90 || FlagC(r.flags) then a1 + 0x60 else a1
  {
    var low := a & 0x0F > 9 || a & 0x20 != 0;
    var a1 := if low then a + 0x06 else a;
    var f1 := if low then SetBit(f, FLAG_C, a1 & 0xF0 == 0) else f;
    ByteResult(if a1 & 0xF0 > 0x90 || FlagC(f1) then a1 + 0x60 else a1, f1)
  }

  /** The CPL case of DoOpcode: the accumulator is complemented, N and H are
      set, Z, C and the unused low bits are kept. */
  function Cpl(a: bv8, f: bv8): (r: ByteResult)
    ensures r.value ^ a == 0xFF
    ensures FlagN(r.flags) && FlagH(r.flags)
    ensures FlagZ(r.flags) == FlagZ(f) && FlagC(r.flags) == FlagC(f)
    ensures r.flags & 0x0F == f & 0x0F
  {
    ByteResult(!a, SetBit(SetBit(f, FLAG_N, true), FLAG_H, true))
  }
}
