/** Conversion from a C `int` (`CCbigguy_itobigguy`). */
module IntConversion {
  import opened Outcomes
  import opened BigGuyValue
  import Negation

  const INT_MIN: int := -0x8000_0000

  /** `-d` on a 32-bit `int` with two's-complement wrap-around: INT_MIN is its
      own negation. */
  function WrapNeg32(d: Int32): Int32 {
    if d == INT_MIN then d else -d
  }

  /** What the conversion means: `i` whole units, or an overflow for the one
      `int` whose magnitude does not fit in a C `int`. */
  function IntSpec(i: Int32): Result<BigGuy> {
    if i == INT_MIN then Err(InIntToBigGuy) else Ok(FromVal(i * TWO64))
  }

  /** Places `|i|` in `ilo` and negates when `i` was negative. The check
      `(d >> 16) >= 32768` cannot fire for a non-negative `int`, so INT_MIN,
      whose negation stays negative, is the only abort. */
  method IntToBigGuy(i: Int32) returns (r: Result<BigGuy>)
    ensures r == IntSpec(i)
    ensures r.Ok? ==> r.value.fhi == 0 && r.value.flo == 0
    ensures r.Ok? && i >= 0 ==> r.value.ihi == 0 && r.value.ilo == i
  {
    var d := i;
    var sgn := 1;
    if d < 0 {
      d := WrapNeg32(d);
      sgn := -1;
    }
    if d < 0 || d / 0x1_0000 >= 0x8000 {
      return Err(InIntToBigGuy);
    }
    // `d & 0xffffffff` is `d` itself for a non-negative `int`.
    var x := BigGuy(0, d, 0, 0);
    assert Val(x) == d * TWO64;
    if sgn == -1 {
      var n := Negation.Neg(x);
      if n.Err? {
        return n;
      }
      x := n.value;
    }
    assert Val(x) == i * TWO64;
    FromValOfVal(x);
    r := Ok(x);
  }
}
