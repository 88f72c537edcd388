/** Two's-complement negation across the four limbs (`bigguy_neg`). */
module Negation {
  import opened Outcomes
  import opened BigGuyValue

  /** What negation means: the bigguy standing for `-Val(x)`, or an overflow
      for the one pattern whose negation, 2^127, does not fit. */
  function NegSpec(x: BigGuy): Result<BigGuy> {
    if x == RESERVED then Err(InNeg) else Ok(FromVal(-Val(x)))
  }

  /** Complements every limb, then adds one with a carry that climbs from
      `flo` only while the complemented limb is all ones. */
  method Neg(x: BigGuy) returns (r: Result<BigGuy>)
    ensures r == NegSpec(x)
    ensures r.Err? <==> x == RESERVED
    ensures r.Ok? ==> Val(r.value) == -Val(x)
  {
    var ihi: Word := WORD_MAX - x.ihi;
    var ilo: Word := WORD_MAX - x.ilo;
    var fhi: Word := WORD_MAX - x.fhi;
    var flo: Word := WORD_MAX - x.flo;

    if flo < WORD_MAX {
      flo := flo + 1;
    } else {
      flo := 0;
      if fhi < WORD_MAX {
        fhi := fhi + 1;
      } else {
        fhi := 0;
        if ilo < WORD_MAX {
          ilo := ilo + 1;
        } else {
          ilo := 0;
          if ihi == INT_MAX {
            return Err(InNeg);
          } else if ihi < WORD_MAX {
            ihi := ihi + 1;
          } else {
            ihi := 0;
          }
        }
      }
    }
    var n := BigGuy(ihi, ilo, fhi, flo);
    assert Val(n) == -Val(x);
    FromValOfVal(n);
    r := Ok(n);
  }

  /** Negating twice gives back the original bit pattern. */
  lemma NegInvolutive(x: BigGuy)
    requires x != RESERVED
    ensures NegSpec(NegSpec(x).value) == Ok(x)
  {
    var n := NegSpec(x).value;
    assert n != RESERVED by {
      assert Val(RESERVED) == -TWO127;
    }
    FromValOfVal(x);
  }

  /** ZERO is its own negation; MINBIGGUY and MAXBIGGUY are each other's. */
  lemma NegConstants()
    ensures NegSpec(ZERO) == Ok(ZERO)
    ensures NegSpec(MINBIGGUY) == Ok(MAXBIGGUY)
    ensures NegSpec(MAXBIGGUY) == Ok(MINBIGGUY)
  {
    FromValOfVal(ZERO);
    FromValOfVal(MINBIGGUY);
    FromValOfVal(MAXBIGGUY);
  }
}
