/** `CCbigguy_add` (x += y) and `CCbigguy_sub` (x -= y): scaled accumulation
    with the multipliers 1 and -1. */
module AddSub {
  import opened Outcomes
  import opened BigGuyValue
  import opened ScaledAccumulate

  /** `x += y`. */
  method Add(x: BigGuy, y: BigGuy) returns (r: Result<BigGuy>)
    ensures r == AddMultSpec(x, y, 1)
    ensures r.Ok? ==> Val(r.value) == Val(x) + Val(y)
    ensures r.Err? <==> y == RESERVED || !InRange(Val(x) + Val(y))
  {
    r := AddMult(x, y, 1);
  }

  /** `x -= y`. */
  method Sub(x: BigGuy, y: BigGuy) returns (r: Result<BigGuy>)
    ensures r == AddMultSpec(x, y, -1)
    ensures r.Ok? ==> Val(r.value) == Val(x) - Val(y)
    ensures r.Err? <==> y == RESERVED || !InRange(Val(x) - Val(y))
  {
    r := AddMult(x, y, -1);
  }

  /** Adding ZERO gives `x` back. */
  lemma AddZero(x: BigGuy)
    ensures AddMultSpec(x, ZERO, 1) == Ok(x)
  {
    FromValOfVal(x);
  }

  /** A zero multiplier leaves `x` alone, even for a negative `y` whose sign
      flip turns the multiplier into "-0". */
  lemma AddMultByZero(x: BigGuy, y: BigGuy)
    requires y != RESERVED
    ensures AddMultSpec(x, y, 0) == Ok(x)
  {
    FromValOfVal(x);
  }

  /** Addition commutes, apart from the reserved pattern, which is refused
      as the added operand but not as the accumulator. */
  lemma AddCommutes(a: BigGuy, b: BigGuy)
    requires a != RESERVED && b != RESERVED
    ensures AddMultSpec(a, b, 1) == AddMultSpec(b, a, 1)
  {
  }

  /** The reserved pattern breaks commutativity: RESERVED + ONE is fine,
      ONE + RESERVED is refused. */
  lemma AddReservedNotCommutative()
    ensures AddMultSpec(RESERVED, ONE, 1).Ok?
    ensures AddMultSpec(ONE, RESERVED, 1) == Err(InNeg)
  {
  }

  /** Addition associates whenever neither grouping overflows on the way. */
  lemma AddAssociates(a: BigGuy, b: BigGuy, c: BigGuy)
    requires b != RESERVED && c != RESERVED
    requires InRange(Val(a) + Val(b)) && InRange(Val(b) + Val(c))
    requires InRange(Val(a) + Val(b) + Val(c)) && Val(b) + Val(c) != -TWO127
    ensures AddMultSpec(a, AddMultSpec(b, c, 1).value, 1) == AddMultSpec(AddMultSpec(a, b, 1).value, c, 1)
  {
  }

  /** Adding back what was subtracted restores `x`. */
  lemma SubThenAdd(x: BigGuy, y: BigGuy)
    requires y != RESERVED && InRange(Val(x) - Val(y))
    ensures AddMultSpec(AddMultSpec(x, y, -1).value, y, 1) == Ok(x)
  {
    FromValOfVal(x);
  }

  /** Accumulation can land on the reserved pattern one unit below
      MINBIGGUY: MINBIGGUY minus one unit is accepted. */
  lemma ReservedIsReachable()
    ensures AddMultSpec(MINBIGGUY, BigGuy(0, 0, 0, 1), -1) == Ok(RESERVED)
  {
    FromValOfVal(RESERVED);
  }
}
