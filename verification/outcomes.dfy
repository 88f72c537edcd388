/** Error outcomes of the bigguy operations.

    Every `abort()` of the C code becomes an `Err` carrying the place that
    reported the overflow, so that a caller can decide what to do with it. */
module Outcomes {

  /** Where an overflow was detected; the tags follow the diagnostics the C
      code prints before aborting ("OVERFLOW in CCbigguy_addmult (4)", ...). */
  datatype Overflow =
    | InNeg                 // bigguy_neg
    | InIntToBigGuy         // CCbigguy_itobigguy
    | InCeil                // CCbigguy_ceil
    | InAddMult(site: int)  // CCbigguy_addmult, checks (1) to (4)

  datatype Result<+T> = Ok(value: T) | Err(error: Overflow)
}
