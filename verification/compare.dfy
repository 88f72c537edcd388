/** The sign-aware total order on bigguys (`CCbigguy_cmp`). */
module Compare {
  import opened BigGuyValue

  /** -1, 0 or 1 as the difference is negative, zero or positive. */
  function Sign(d: int): int {
    if d < 0 then -1 else if d == 0 then 0 else 1
  }

  /** Sign bits first (a set bit is the smaller number), then the limbs
      `ihi`, `ilo`, `fhi`, `flo` as unsigned words; the first difference
      decides. */
  function Cmp(x: BigGuy, y: BigGuy): (r: int)
    ensures -1 <= r <= 1
    ensures r == 0 <==> x == y
  {
    if x.ihi >= SIGN_BIT && y.ihi < SIGN_BIT then -1
    else if x.ihi < SIGN_BIT && y.ihi >= SIGN_BIT then 1
    else if x.ihi < y.ihi then -1
    else if x.ihi > y.ihi then 1
    else if x.ilo < y.ilo then -1
    else if x.ilo > y.ilo then 1
    else if x.fhi < y.fhi then -1
    else if x.fhi > y.fhi then 1
    else if x.flo < y.flo then -1
    else if x.flo > y.flo then 1
    else 0
  }

  /** The limb-by-limb comparison orders bigguys exactly as the numbers they
      stand for. */
  lemma CmpAgreesWithVal(x: BigGuy, y: BigGuy)
    ensures Cmp(x, y) == Sign(Val(x) - Val(y))
  {
    BitsLexicographic(x, y);
    BitsLexicographic(y, x);
  }

  /** Swapping the operands flips the answer. */
  lemma CmpAntisymmetric(x: BigGuy, y: BigGuy)
    ensures Cmp(x, y) == -Cmp(y, x)
  {
    CmpAgreesWithVal(x, y);
    CmpAgreesWithVal(y, x);
  }

  /** The order is transitive. */
  lemma CmpTransitive(x: BigGuy, y: BigGuy, z: BigGuy)
    requires Cmp(x, y) <= 0 && Cmp(y, z) <= 0
    ensures Cmp(x, z) <= 0
  {
    CmpAgreesWithVal(x, y);
    CmpAgreesWithVal(y, z);
    CmpAgreesWithVal(x, z);
  }
}
