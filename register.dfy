/** The Register struct: a pair of bytes with a derived 16-bit view, and the
    16-bit increment and decrement helpers that touch nothing but the pair. */
module Registers {

  /** An unsigned 16-bit value (ushort). */
  type u16 = x: int | 0 <= x < 0x10000

  /** Truncation of an int to ushort, as the (ushort) cast and ushort
      compound assignment do. */
  function Wrap16(x: int): u16
  {
    x % 0x10000
  }

  /** A register pair. The 16-bit view is never stored, so the two views
      cannot disagree. */
  datatype Register = Register(high: bv8, low: bv8) {

    /** The Word getter, (High << 8) + Low: High is the upper byte, Low the lower. */
    function Word(): (w: u16)
      ensures w / 256 == high as int && w % 256 == low as int
    {
      high as int * 256 + low as int
    }

    /** The Word setter: Low = value & 0xFF, High = (value & 0xFF00) >> 8. */
    static function FromWord(v: u16): (r: Register)
      ensures r.Word() == v
    {
      ByteOfInt(v / 256);
      ByteOfInt(v % 256);
      Register((v / 256) as bv8, (v % 256) as bv8)
    }
  }

  /** Converting a value below 256 to a byte and back loses nothing. */
  lemma ByteOfInt(x: int)
    requires 0 <= x < 256
    ensures (x as bv8) as int == x
  {
    assert x % 256 == x;
  }

  /** The two bytes the Word setter stores. */
  lemma FromWordBytes(v: u16)
    ensures Register.FromWord(v).high as int == v / 256 && Register.FromWord(v).low as int == v % 256
  {
    ByteOfInt(v / 256);
    ByteOfInt(v % 256);
  }

  /** Writing back the word just read leaves the pair as it was. */
  lemma WordRoundTrip(r: Register)
    ensures Register.FromWord(r.Word()) == r
  {
    assert Register.FromWord(r.Word()).high == r.high;
  }

  /** The property increment ++R.Word on a ushort: wraps 0xFFFF to 0. */
  function Incremented(r: Register): (s: Register)
    ensures s.Word() == (r.Word() + 1) % 0x10000
  {
    Register.FromWord(Wrap16(r.Word() + 1))
  }

  /** The property decrement --R.Word on a ushort: wraps 0 to 0xFFFF. */
  function Decremented(r: Register): (s: Register)
    ensures s.Word() == (r.Word() - 1) % 0x10000
  {
    Register.FromWord(Wrap16(r.Word() - 1))
  }

  /** The increment of 0xFFFF is the pair 0. */
  lemma IncrementWraps(r: Register)
    requires r.Word() == 0xFFFF
    ensures Incremented(r) == Register(0, 0)
  {
    WrapSucc(r.Word());
    SameWord(Incremented(r), Register(0, 0));
  }

  /** The decrement of 0 is the pair 0xFFFF. */
  lemma DecrementWraps(r: Register)
    requires r.Word() == 0
    ensures Decremented(r) == Register(0xFF, 0xFF)
  {
    WrapPred(r.Word());
    SameWord(Decremented(r), Register(0xFF, 0xFF));
  }

  /** One below w, on ushort. */
  lemma WrapPred(w: u16)
    ensures (w - 1) % 0x10000 == if w == 0 then 0xFFFF else w - 1
  {
  }

  /** One above w, on ushort. */
  lemma WrapSucc(w: u16)
    ensures (w + 1) % 0x10000 == if w == 0xFFFF then 0 else w + 1
  {
  }

  /** The 16-bit increment and decrement undo each other, on every pair. */
  lemma {:induction false} IncDecInverse(r: Register)
    ensures Decremented(Incremented(r)) == r
    ensures Incremented(Decremented(r)) == r
  {
    DecAfterInc(r);
    IncAfterDec(r);
  }

  lemma {:induction false} DecAfterInc(r: Register)
    ensures Decremented(Incremented(r)) == r
  {
    UpDownWord(r);
    SameWord(Decremented(Incremented(r)), r);
  }

  lemma {:induction false} IncAfterDec(r: Register)
    ensures Incremented(Decremented(r)) == r
  {
    DownUpWord(r);
    SameWord(Incremented(Decremented(r)), r);
  }

  /** The word of an increment followed by a decrement. */
  lemma UpDownWord(r: Register)
    ensures Decremented(Incremented(r)).Word() == r.Word()
  {
    WrapBack(r.Word());
  }

  /** The word of a decrement followed by an increment. */
  lemma DownUpWord(r: Register)
    ensures Incremented(Decremented(r)).Word() == r.Word()
  {
    WrapBack(r.Word());
  }

  /** One up and one down, in either order, on ushort. */
  lemma WrapBack(w: u16)
    ensures ((w + 1) % 0x10000 - 1) % 0x10000 == w
    ensures ((w - 1) % 0x10000 + 1) % 0x10000 == w
  {
    WrapSucc(w);
    WrapPred(w);
  }

  /** A pair is determined by its word. */
  lemma SameWord(a: Register, b: Register)
    requires a.Word() == b.Word()
    ensures a == b
  {
  }
}
