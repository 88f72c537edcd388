/** The four-limb, 128-bit, signed fixed-point number of the limb backend:
    64 integer bits (`ihi`, `ilo`) and 64 fraction bits (`fhi`, `flo`). */
module BigGuyValue {

  /** 2^32: one limb. */
  const BASE: int := 0x1_0000_0000
  /** 2^31: the sign bit of `ihi`, and the magnitude bound of a C `int`. */
  const SIGN_BIT: int := 0x8000_0000
  /** Largest limb, `BIT_32_UMAX` of machdefs.h. */
  const WORD_MAX: int := 0xffff_ffff
  /** Largest signed 32-bit value, `BIT_32_SMAX` of machdefs.h. */
  const INT_MAX: int := 0x7fff_ffff
  const TWO64: int := 0x1_0000_0000_0000_0000
  const TWO96: int := 0x1_0000_0000_0000_0000_0000_0000
  const TWO127: int := 0x8000_0000_0000_0000_0000_0000_0000_0000
  const TWO128: int := 0x1_0000_0000_0000_0000_0000_0000_0000_0000

  /** An `unsigned int` limb. */
  type Word = w: int | 0 <= w < 0x1_0000_0000
  /** A C `int` (32 bits). */
  type Int32 = i: int | -0x8000_0000 <= i < 0x8000_0000
  /** A C `long int` (64 bits). */
  predicate IsLong(v: int) {
    -0x8000_0000_0000_0000 <= v < 0x8000_0000_0000_0000
  }

  datatype BigGuy = BigGuy(ihi: Word, ilo: Word, fhi: Word, flo: Word)

  const MINBIGGUY: BigGuy := BigGuy(0x8000_0000, 0, 0, 1)
  const MAXBIGGUY: BigGuy := BigGuy(0x7fff_ffff, 0xffff_ffff, 0xffff_ffff, 0xffff_ffff)
  const ZERO: BigGuy := BigGuy(0, 0, 0, 0)
  const ONE: BigGuy := BigGuy(0, 1, 0, 0)
  /** The bit pattern one unit below MINBIGGUY, the only one `bigguy_neg`
      refuses to negate. */
  const RESERVED: BigGuy := BigGuy(0x8000_0000, 0, 0, 0)

  /** The 128-bit pattern read as an unsigned number. */
  function Bits(x: BigGuy): (u: int)
    ensures 0 <= u < TWO128
  {
    x.ihi * TWO96 + x.ilo * TWO64 + x.fhi * BASE + x.flo
  }

  /** The sign is bit 31 of `ihi`. */
  predicate IsNegative(x: BigGuy) {
    x.ihi >= SIGN_BIT
  }

  /** Values a 128-bit two's-complement pattern can hold. */
  predicate InRange(v: int) {
    -TWO127 <= v < TWO127
  }

  /** The number `x` stands for, in units of 2^-64: `Val(x) / 2^64` is the
      fixed-point value. */
  function Val(x: BigGuy): (v: int)
    ensures InRange(v)
    ensures v < 0 <==> IsNegative(x)
    ensures v % BASE == x.flo
  {
    if IsNegative(x) then Bits(x) - TWO128 else Bits(x)
  }

  /** The limbs of an unsigned 128-bit number. */
  function FromBits(u: int): (x: BigGuy)
    requires 0 <= u < TWO128
    ensures Bits(x) == u
  {
    var q1 := u / BASE;
    var q2 := q1 / BASE;
    var q3 := q2 / BASE;
    assert u == q1 * BASE + u % BASE;
    assert q1 == q2 * BASE + q1 % BASE;
    assert q2 == q3 * BASE + q2 % BASE;
    assert q3 < BASE;
    BigGuy(q3, q2 % BASE, q1 % BASE, u % BASE)
  }

  /** The bigguy that stands for `v`. */
  function FromVal(v: int): (x: BigGuy)
    requires InRange(v)
    ensures Val(x) == v
  {
    FromBits(if v < 0 then v + TWO128 else v)
  }

  /** A higher limb outweighs all the limbs below it, so the unsigned
      reading orders bit patterns lexicographically by limb. */
  lemma BitsLexicographic(x: BigGuy, y: BigGuy)
    ensures x.ihi < y.ihi ==> Bits(x) < Bits(y)
    ensures x.ihi == y.ihi && x.ilo < y.ilo ==> Bits(x) < Bits(y)
    ensures x.ihi == y.ihi && x.ilo == y.ilo && x.fhi < y.fhi ==> Bits(x) < Bits(y)
    ensures x.ihi == y.ihi && x.ilo == y.ilo && x.fhi == y.fhi && x.flo < y.flo ==> Bits(x) < Bits(y)
  {
  }

  /** Different bit patterns have different unsigned readings. */
  lemma BitsInjective(x: BigGuy, y: BigGuy)
    requires Bits(x) == Bits(y)
    ensures x == y
  {
    BitsLexicographic(x, y);
    BitsLexicographic(y, x);
  }

  /** Every bit pattern is a different number: `Val` is one-to-one. */
  lemma ValInjective(x: BigGuy, y: BigGuy)
    requires Val(x) == Val(y)
    ensures x == y
  {
    BitsInjective(x, y);
  }

  /** `FromVal` undoes `Val`, so `Val` is a bijection between bigguys and
      the integers in `[-2^127, 2^127)`. */
  lemma FromValOfVal(x: BigGuy)
    ensures FromVal(Val(x)) == x
  {
    ValInjective(FromVal(Val(x)), x);
  }
}
