/** Rounding up to an integer (`CCbigguy_ceil`). */
module Rounding {
  import opened Outcomes
  import opened BigGuyValue

  /** The fraction limbs hold something. */
  predicate HasFraction(x: BigGuy) {
    x.fhi != 0 || x.flo != 0
  }

  /** What rounding up means: the least multiple of 2^64 at or above `Val(x)`,
      or an overflow when that multiple is 2^127. */
  function CeilSpec(x: BigGuy): Result<BigGuy> {
    var v := Val(x);
    if v % TWO64 == 0 then Ok(x)
    else
      var c := (v / TWO64 + 1) * TWO64;
      if c < TWO127 then Ok(FromVal(c)) else Err(InCeil)
  }

  /** A multiple of 2^64 has no fraction. */
  lemma MultipleHasNoFraction(k: int)
    ensures (k * TWO64) % TWO64 == 0
  {
  }

  /** The fraction lives in the two low limbs, whatever the sign. */
  lemma FractionIsLowLimbs(x: BigGuy)
    ensures Val(x) % TWO64 == x.fhi * BASE + x.flo
    ensures HasFraction(x) <==> Val(x) % TWO64 != 0
  {
    var k := if IsNegative(x) then x.ihi * BASE + x.ilo - BASE * BASE else x.ihi * BASE + x.ilo;
    assert Val(x) == k * TWO64 + (x.fhi * BASE + x.flo);
  }

  /** Clears a nonzero fraction and adds one to `ilo`, carrying into `ihi`
      with 32-bit wrap-around; an integer input comes back unchanged. */
  method Ceil(x: BigGuy) returns (r: Result<BigGuy>)
    ensures r == CeilSpec(x)
    ensures r.Ok? ==> r.value.fhi == 0 && r.value.flo == 0
    ensures r.Err? <==> HasFraction(x) && x.ihi == INT_MAX && x.ilo == WORD_MAX
  {
    FractionIsLowLimbs(x);
    var c := x;
    if c.fhi != 0 || c.flo != 0 {
      c := c.(fhi := 0, flo := 0);
      c := c.(ilo := (c.ilo + 1) % BASE);
      if c.ilo == 0 {
        if c.ihi == INT_MAX {
          return Err(InCeil);
        }
        c := c.(ihi := (c.ihi + 1) % BASE);
      }
      assert Val(c) == (Val(x) / TWO64 + 1) * TWO64;
      FromValOfVal(c);
    }
    r := Ok(c);
  }

  /** A successful ceiling is an integer no smaller than `x` and less than
      one unit above it. */
  lemma CeilIsLeastInteger(x: BigGuy)
    requires CeilSpec(x).Ok?
    ensures Val(CeilSpec(x).value) % TWO64 == 0
    ensures Val(x) <= Val(CeilSpec(x).value) < Val(x) + TWO64
  {
    var v := Val(x);
    if v % TWO64 != 0 {
      MultipleHasNoFraction(v / TWO64 + 1);
    }
  }

  /** Rounding up an integer changes nothing, so `ceil` is idempotent. */
  lemma CeilIdempotent(x: BigGuy)
    requires CeilSpec(x).Ok?
    ensures CeilSpec(CeilSpec(x).value) == CeilSpec(x)
  {
    CeilIsLeastInteger(x);
  }
}
