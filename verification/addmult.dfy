/** Scaled accumulation `x += y * m` (`CCbigguy_addmult`), and addition and
    subtraction, which are that operation with `m = 1` and `m = -1`. */
module ScaledAccumulate {
  import opened Outcomes
  import opened BigGuyValue
  import Negation
  import IntConversion

  /** What `x += y * m` means: the exact result when it fits in 128 bits,
      otherwise an overflow. INT_MIN as multiplier (check (1)) and the
      reserved pattern as `y` (which cannot be negated) are refused first. */
  function AddMultSpec(x: BigGuy, y: BigGuy, m: Int32): Result<BigGuy> {
    if m == IntConversion.INT_MIN then Err(InAddMult(1))
    else if y == RESERVED then Err(InNeg)
    else
      var t := Val(x) + m * Val(y);
      if InRange(t) then Ok(FromVal(t)) else Err(InAddMult(4))
  }

  /** C's `/` on signed integers: the quotient is truncated toward zero. */
  function TruncDiv(a: int, b: int): int
    requires b > 0
  {
    if a >= 0 then a / b else -((-a) / b)
  }

  /** Multiplication by a non-negative number is monotonic. */
  lemma MulMonotonic(a: int, b: int, c: int)
    requires a <= b && c >= 0
    ensures a * c <= b * c
  {
    var d := b - a;
    assert d * c >= 0;
    assert b * c == a * c + d * c;
  }

  /** A C `int` times a limb stays strictly inside 2^31 limbs. */
  lemma ProductBounds(a: int, w: Word)
    requires -SIGN_BIT <= a < SIGN_BIT
    ensures -SIGN_BIT * WORD_MAX <= a * w <= INT_MAX * WORD_MAX
  {
    MulMonotonic(a, INT_MAX, w);
    MulMonotonic(-SIGN_BIT, a, w);
    MulMonotonic(w, WORD_MAX, INT_MAX);
    MulMonotonic(w, WORD_MAX, SIGN_BIT);
  }

  /** A sum within 2^31 limbs either side of zero has a carry that fits a
      C `int`. */
  lemma CarryBounds(s: int)
    requires -SIGN_BIT * BASE <= s < SIGN_BIT * BASE
    ensures -SIGN_BIT <= s / BASE < SIGN_BIT
  {
  }

  /** Truncating division of a multiple of 2^32 is exact. */
  lemma ExactTruncDiv(q: int)
    ensures TruncDiv(q * BASE, BASE) == q
  {
    if q < 0 {
      assert -(q * BASE) == (-q) * BASE;
    }
  }

  /** One unrolled step of a pass:
      `carry = carry + limb + mul * ylimb; limb = carry & 0xffffffff;
       carry -= limb; carry /= 2^32`.
      The stored limb and the carry passed upward together make up the sum,
      no intermediate leaves the range of a 64-bit `long`, and the carry
      stays within a C `int`. */
  method LimbStep(carryIn: int, limb: Word, mul: int, ylimb: Word) returns (stored: Word, carryOut: int)
    requires -SIGN_BIT <= mul < SIGN_BIT
    requires -SIGN_BIT <= carryIn < SIGN_BIT
    ensures stored + BASE * carryOut == carryIn + limb + mul * ylimb
    ensures IsLong(carryIn + limb + mul * ylimb)
    ensures -SIGN_BIT <= carryOut < SIGN_BIT
    ensures mul == 0 && carryIn == 0 ==> stored == limb && carryOut == 0
  {
    ProductBounds(mul, ylimb);
    var product := mul * ylimb;
    var carry := carryIn + limb + product;
    assert -SIGN_BIT * BASE <= carry < SIGN_BIT * BASE;
    // `&` on the two's-complement `long` keeps the non-negative remainder.
    stored := carry % BASE;
    ghost var q := carry / BASE;
    CarryBounds(carry);
    carry := carry - stored;
    assert carry == q * BASE;
    // `carry` is now a multiple of 2^32, so C's truncating division is exact.
    ExactTruncDiv(q);
    carry := TruncDiv(carry, BASE);
    carryOut := carry;
  }

  /** Splits the multiplier into `mhi * 2^32 + mlo` with `mlo` a signed
      32-bit value, moving one 2^32 between the parts when the remainder is
      out of that range, and refusing parts that do not fit (checks (2) and
      (3)). For a C `int` the high part is always 0 and no check fires. */
  method SplitMultiplier(m: Int32) returns (r: Result<(int, int)>)
    ensures r.Ok?
    ensures r.value.0 * BASE + r.value.1 == m
    ensures -SIGN_BIT <= r.value.1 < SIGN_BIT
    ensures r.value.0 == 0
  {
    var mhi := TruncDiv(m, BASE);
    var mlo := m - mhi * BASE;
    if mlo < -SIGN_BIT {
      mlo := mlo + BASE;
      mhi := mhi - 1;
    }
    if mlo > INT_MAX {
      mlo := mlo - BASE;
      mhi := mhi + 1;
    }
    if mlo < -SIGN_BIT || mlo > INT_MAX {
      return Err(InAddMult(2));
    }
    if mhi < -SIGN_BIT || mhi > INT_MAX {
      return Err(InAddMult(3));
    }
    r := Ok((mhi, mlo));
  }

  /** The sign as the C code keeps it: -1 for negative, 1 otherwise. */
  function SignOf(ihi: Word): int {
    if ihi >= SIGN_BIT then -1 else 1
  }

  /** The overflow test after a pass: the carry out of `ihi` must be -1, 0
      or 1, and -1 only with a change from non-negative to negative, 1 only
      with a change from negative to non-negative, 0 only with no change. */
  predicate SignCheckFails(carry: int, oldsgn: int, sgn: int) {
    || carry < -1 || carry > 1
    || (carry == -1 && !(oldsgn == 1 && sgn == -1))
    || (carry == 0 && oldsgn != sgn)
    || (carry == 1 && !(oldsgn == -1 && sgn == 1))
  }

  /** 1 for the sign -1, 0 for the sign 1. */
  function NegFlag(sgn: int): int {
    if sgn == -1 then 1 else 0
  }

  /** The sign check accepts exactly when the carry equals the old sign bit
      minus the new one. */
  lemma SignCheckMeaning(carry: int, oldsgn: int, sgn: int)
    requires oldsgn == -1 || oldsgn == 1
    requires sgn == -1 || sgn == 1
    ensures !SignCheckFails(carry, oldsgn, sgn) <==> carry == NegFlag(oldsgn) - NegFlag(sgn)
  {
  }

  /** When the new limbs and the carry out of `ihi` together hold `Bits(x) + d`,
      the sign check accepts exactly when `Val(x) + d` fits in 128 bits, and
      then the new limbs stand for it. */
  lemma SignCheckExact(x: BigGuy, x': BigGuy, carry: int, d: int)
    requires Bits(x') + TWO128 * carry == Bits(x) + d
    ensures !SignCheckFails(carry, SignOf(x.ihi), SignOf(x'.ihi)) <==> InRange(Val(x) + d)
    ensures !SignCheckFails(carry, SignOf(x.ihi), SignOf(x'.ihi)) ==> Val(x') == Val(x) + d
  {
    var s0, s1 := NegFlag(SignOf(x.ihi)), NegFlag(SignOf(x'.ihi));
    SignCheckMeaning(carry, SignOf(x.ihi), SignOf(x'.ihi));
    var k := carry + s1 - s0;
    assert Val(x) + d == Val(x') + TWO128 * k;
    if k > 0 {
      assert TWO128 * k >= TWO128;
    } else if k < 0 {
      assert TWO128 * k <= -TWO128;
    }
  }

  /** Flipping the sign of both factors leaves the product alone. */
  lemma NegatedProduct(a: int, b: int)
    ensures (-a) * (-b) == a * b
  {
  }

  /** `k * Bits(y)` spread over the limbs of `y`. */
  lemma ScaledBits(k: int, y: BigGuy)
    ensures k * Bits(y) == k * y.flo + BASE * (k * y.fhi) + TWO64 * (k * y.ilo) + TWO96 * (k * y.ihi)
  {
  }

  /** The three steps of the high pass and its last product, chained, add
      `2^32 * k * Bits(y)` to `Bits(x)`; `flo` is not touched. */
  lemma HighPassSum(x: BigGuy, x': BigGuy, k: int, y: BigGuy, c1: int, c2: int, c3: int, c: int)
    requires x'.flo == x.flo
    requires x'.fhi + BASE * c1 == x.fhi + k * y.flo
    requires x'.ilo + BASE * c2 == c1 + x.ilo + k * y.fhi
    requires x'.ihi + BASE * c3 == c2 + x.ihi + k * y.ilo
    requires c == c3 + k * y.ihi
    ensures Bits(x') + TWO128 * c == Bits(x) + BASE * (k * Bits(y))
  {
    ScaledBits(k, y);
  }

  /** The four steps of the low pass, chained, add `k * Bits(y)` to `Bits(x)`,
      leaving the overflow in the carry out of `ihi`. */
  lemma LowPassSum(x: BigGuy, x': BigGuy, k: int, y: BigGuy, c1: int, c2: int, c3: int, c4: int)
    requires x'.flo + BASE * c1 == x.flo + k * y.flo
    requires x'.fhi + BASE * c2 == c1 + x.fhi + k * y.fhi
    requires x'.ilo + BASE * c3 == c2 + x.ilo + k * y.ilo
    requires x'.ihi + BASE * c4 == c3 + x.ihi + k * y.ihi
    ensures Bits(x') + TWO128 * c4 == Bits(x) + k * Bits(y)
  {
    ScaledBits(k, y);
  }

  /** The low pass (`CCbigguy_addmult`'s first four steps): `flo`, `fhi`,
      `ilo`, `ihi` each take `mlo` times the same limb of `y`, the carry
      climbing one limb at a time. The new limbs and the carry out of `ihi`
      hold `Bits(x) + mlo * Bits(y)`. */
  method LowPass(x: BigGuy, y: BigGuy, mlo: int) returns (x': BigGuy, carry: int)
    requires -SIGN_BIT <= mlo < SIGN_BIT
    ensures Bits(x') + TWO128 * carry == Bits(x) + mlo * Bits(y)
  {
    var ihi, ilo, fhi, flo;
    flo, carry := LimbStep(0, x.flo, mlo, y.flo);
    ghost var c1 := carry;
    fhi, carry := LimbStep(carry, x.fhi, mlo, y.fhi);
    ghost var c2 := carry;
    ilo, carry := LimbStep(carry, x.ilo, mlo, y.ilo);
    ghost var c3 := carry;
    ihi, carry := LimbStep(carry, x.ihi, mlo, y.ihi);
    x' := BigGuy(ihi, ilo, fhi, flo);
    LowPassSum(x, x', mlo, y, c1, c2, c3, carry);
  }

  /** The high pass, one limb up: `fhi`, `ilo`, `ihi` take `mhi` times
      `flo`, `fhi`, `ilo` of `y`, and `mhi` times `y`'s `ihi` goes straight
      into the carry. The new limbs and that carry hold
      `Bits(x) + 2^32 * mhi * Bits(y)`; with `mhi == 0` the limbs are written
      back unchanged and the carry is 0. */
  method HighPass(x: BigGuy, y: BigGuy, mhi: int) returns (x': BigGuy, carry: int)
    requires -SIGN_BIT <= mhi < SIGN_BIT
    ensures Bits(x') + TWO128 * carry == Bits(x) + BASE * (mhi * Bits(y))
    ensures x'.flo == x.flo
    ensures mhi == 0 ==> x' == x && carry == 0
  {
    var ihi, ilo, fhi;
    fhi, carry := LimbStep(0, x.fhi, mhi, y.flo);
    ghost var c1 := carry;
    ilo, carry := LimbStep(carry, x.ilo, mhi, y.fhi);
    ghost var c2 := carry;
    ihi, carry := LimbStep(carry, x.ihi, mhi, y.ilo);
    ghost var c3 := carry;
    carry := carry + mhi * y.ihi;
    x' := BigGuy(ihi, ilo, fhi, x.flo);
    HighPassSum(x, x', mhi, y, c1, c2, c3, carry);
  }

  /** `x += y * m` with overflow detection: makes `y` non-negative (flipping
      `m` to match), splits `m`, runs the low pass with `mlo` and the high
      pass with `mhi`, and after each checks the carry out of `ihi` against
      the change of sign. */
  method AddMult(x: BigGuy, y: BigGuy, m: Int32) returns (r: Result<BigGuy>)
    ensures r == AddMultSpec(x, y, m)
    ensures r.Ok? ==> Val(r.value) == Val(x) + m * Val(y)
    ensures r.Err? <==> m == IntConversion.INT_MIN || y == RESERVED || !InRange(Val(x) + m * Val(y))
  {
    if IntConversion.WrapNeg32(m) == m && m != 0 {
      return Err(InAddMult(1));
    }

    var mag := y;
    var mult := m;
    if y.ihi >= SIGN_BIT {
      var n := Negation.Neg(y);
      if n.Err? {
        return n;
      }
      mag := n.value;
      mult := -m;
      NegatedProduct(m, Val(y));
    }
    assert Val(mag) == Bits(mag);

    // The range checks (2) and (3) inside the split never fire for an `int`.
    var split := SplitMultiplier(mult);
    var mhi, mlo := split.value.0, split.value.1;

    var oldsgn := SignOf(x.ihi);
    var low, carry := LowPass(x, mag, mlo);
    SignCheckExact(x, low, carry, mlo * Bits(mag));
    var sgn := SignOf(low.ihi);
    if SignCheckFails(carry, oldsgn, sgn) {
      return Err(InAddMult(4));
    }

    oldsgn := sgn;
    var high;
    high, carry := HighPass(low, mag, mhi);
    SignCheckExact(low, high, carry, BASE * (mhi * Bits(mag)));
    sgn := SignOf(high.ihi);
    if SignCheckFails(carry, oldsgn, sgn) {
      return Err(InAddMult(4));
    }

    assert Val(high) == Val(x) + m * Val(y);
    FromValOfVal(high);
    r := Ok(high);
  }
}
