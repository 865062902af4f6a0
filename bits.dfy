/** Single-bit operations on bytes, standing in for Utility.IsBitSet and
    Utility.SetBit, and the layout of the four flags in the low byte of AF. */
module Bits {

  /** Bit positions of the flags in AF.Low (FLAG_Z .. FLAG_C in CPU.cs). */
  const FLAG_Z: bv8 := 7
  const FLAG_N: bv8 := 6
  const FLAG_H: bv8 := 5
  const FLAG_C: bv8 := 4

  /** Bit i of x is one. */
  predicate IsBitSet(x: bv8, i: bv8)
    requires i < 8
  {
    (x >> i) & 1 == 1
  }

  /** x with bit i switched on (on) or off (!on); every other bit is kept. */
  function SetBit(x: bv8, i: bv8, on: bool): (r: bv8)
    requires i < 8
    ensures IsBitSet(r, i) == on
    ensures forall j: bv8 :: j < 8 && j != i ==> IsBitSet(r, j) == IsBitSet(x, j)
  {
    if on then x | (1 << i) else x & !(1 << i)
  }

  predicate FlagZ(f: bv8) { IsBitSet(f, FLAG_Z) }
  predicate FlagN(f: bv8) { IsBitSet(f, FLAG_N) }
  predicate FlagH(f: bv8) { IsBitSet(f, FLAG_H) }
  predicate FlagC(f: bv8) { IsBitSet(f, FLAG_C) }
}
