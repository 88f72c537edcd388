/** The expected results of the bigguy test program, with every operand
    written as limbs `BigGuy(ihi, ilo, fhi, flo)`. Each method runs the
    operation the test runs and states the limbs the test compares with. */
module TestVectors {
  import opened Outcomes
  import opened BigGuyValue
  import opened ScaledAccumulate
  import opened AddSub

  /** `n` whole units, for `0 <= n < 2^32`. */
  function Int(n: Word): BigGuy {
    BigGuy(0, n, 0, 0)
  }

  /** 0x7fff0000 + 0xffff = 0x7fffffff: no carry, up to the top of `ilo`. */
  method AddToMaxIlo() returns (r: Result<BigGuy>)
    ensures r == Ok(Int(0x7fff_ffff))
  {
    r := Add(Int(0x7fff_0000), Int(0xffff));
  }

  /** 0x7f000000 + 0xff0000 = 0x7fff0000. */
  method AddHighHalves() returns (r: Result<BigGuy>)
    ensures r == Ok(Int(0x7fff_0000))
  {
    r := Add(Int(0x7f00_0000), Int(0xff_0000));
  }

  /** 0xff + 0xff00 = 0xffff. */
  method AddLowHalves() returns (r: Result<BigGuy>)
    ensures r == Ok(Int(0xffff))
  {
    r := Add(Int(0xff), Int(0xff00));
  }

  /** 0xffff + 0xffff = 0x1fffe. */
  method AddWithCarry() returns (r: Result<BigGuy>)
    ensures r == Ok(Int(0x1_fffe))
  {
    r := Add(Int(0xffff), Int(0xffff));
  }

  /** 0x10000 - 1 = 0xffff. */
  method SubWithBorrow() returns (r: Result<BigGuy>)
    ensures r == Ok(Int(0xffff))
  {
    r := Sub(Int(0x1_0000), Int(1));
  }

  /** 0 + 0xffff * 2 = 131070. */
  method MultiplyWithCarry() returns (r: Result<BigGuy>)
    ensures r == Ok(Int(131070))
  {
    r := AddMult(ZERO, Int(0xffff), 2);
  }

  /** 0 + 0x0.0000ffff * 2 = 0x0.0001fffe. */
  method MultiplyFractionLow() returns (r: Result<BigGuy>)
    ensures r == Ok(BigGuy(0, 0, 0x1_fffe, 0))
  {
    r := AddMult(ZERO, BigGuy(0, 0, 0xffff, 0), 2);
  }

  /** 0 + 0x0.ffff * 2 = 0x1.fffe: carry from `fhi` into `ilo`. */
  method MultiplyFractionHigh() returns (r: Result<BigGuy>)
    ensures r == Ok(BigGuy(0, 1, 0xfffe_0000, 0))
  {
    r := AddMult(ZERO, BigGuy(0, 0, 0xffff_0000, 0), 2);
  }

  /** 0 + (-1) * 0 = 0: the multiplier flipped to "-0" changes nothing. */
  method NegativeZeroMultiplier() returns (r: Result<BigGuy>)
    ensures r == Ok(ZERO)
  {
    r := AddMult(ZERO, BigGuy(0xffff_ffff, 0xffff_ffff, 0, 0), 0);
  }

  /** 0 + 0 * (-1) = 0. */
  method NegativeZeroOperand() returns (r: Result<BigGuy>)
    ensures r == Ok(ZERO)
  {
    r := AddMult(ZERO, ZERO, -1);
  }

  /** 0 + 0xfffff.fffff * (-1) = -0xfffff.fffff. */
  method SignChange() returns (r: Result<BigGuy>)
    ensures r == Ok(BigGuy(0xffff_ffff, 0xfff0_0000, 0x1000, 0))
  {
    r := AddMult(ZERO, BigGuy(0, 0xf_ffff, 0xffff_f000, 0), -1);
  }

  /** 0x0.ffff + 0x0.00ff = 0x1.00fe: carry from `fhi` into `ilo`. */
  method AddFractionCarry() returns (r: Result<BigGuy>)
    ensures r == Ok(BigGuy(0, 1, 0x00fe_0000, 0))
  {
    r := Add(BigGuy(0, 0, 0xffff_0000, 0), BigGuy(0, 0, 0x00ff_0000, 0));
  }

  /** 0x0.0000ffff + 0x0.00000001 = 0x0.00010000. */
  method AddFractionLow() returns (r: Result<BigGuy>)
    ensures r == Ok(BigGuy(0, 0, 0x1_0000, 0))
  {
    r := Add(BigGuy(0, 0, 0xffff, 0), BigGuy(0, 0, 1, 0));
  }

  /** 0xffff.ffffffff + 2^-32 = 0x10000: a carry through the fraction into
      the integer part. */
  method AddCarryThrough() returns (r: Result<BigGuy>)
    ensures r == Ok(Int(0x1_0000))
  {
    r := Add(BigGuy(0, 0xffff, 0xffff_ffff, 0), BigGuy(0, 0, 1, 0));
  }

  /** 0xfffff - 0x1fffff = -0x100000, and adding 0x1fffff back gives
      0xfffff: across zero both ways. */
  method AcrossZero() returns (d: Result<BigGuy>, s: Result<BigGuy>)
    ensures d == Ok(BigGuy(0xffff_ffff, 0xfff0_0000, 0, 0))
    ensures s == Ok(Int(0xf_ffff))
  {
    d := Sub(Int(0xf_ffff), Int(0x1f_ffff));
    s := Add(BigGuy(0xffff_ffff, 0xfff0_0000, 0, 0), Int(0x1f_ffff));
  }

  /** 0 + 0x7fffffff * (-1) = -0x7fffffff. */
  method MaxIntToMinusMaxInt() returns (r: Result<BigGuy>)
    ensures r == Ok(BigGuy(0xffff_ffff, 0x8000_0001, 0, 0))
  {
    r := AddMult(ZERO, Int(0x7fff_ffff), -1);
  }
}
