# bigguy: a Dafny model of Concorde's 128-bit fixed-point number

This project models the limb backend of `CCbigguy` from `bigguy.c`: a signed
fixed-point number held in four unsigned 32-bit limbs, `ihi` and `ilo` for
64 integer bits and `fhi` and `flo` for 64 fraction bits. It also models the
16-bit-slice serialization of the alternate backend, where the number is one
64-bit integer.

The meaning of a bigguy is `Val(x)`. Let `Bits(x) = ihi*2^96 + ilo*2^64 + fhi*2^32 + flo`.
Then `Val(x)` is `Bits(x)` when bit 31 of `ihi` is clear and `Bits(x) - 2^128` when it is set.
The fixed-point value is `Val(x) / 2^64`. `Val` maps the bit patterns one-to-one onto
the integers in `[-2^127, 2^127)`. Every operation is proved against a reference
definition stated over `Val`:

- `NegSpec`: negation.
- `CeilSpec`: the least multiple of 2^64 at or above the input.
- `IntSpec`: conversion from `int`.
- `AddMultSpec`: the exact result of `x + m*y`, or an overflow.

Each C function that works through a pointer (`bigguy_neg`, `CCbigguy_addmult`,
`CCbigguy_sread`) is a method. It takes the struct by value and returns the
updated struct, and its locals are updated step by step as the C code does.
Each `abort()` becomes an `Err` that names the check that fired. Add and
subtract are `AddMult` with `m = 1` and `m = -1`.

Modules:

- `Outcomes`: the result and overflow types.
- `BigGuyValue`: the limbs, the constants, `Val`, and its inverse `FromVal`.
- `Negation`, `Compare`, `Rounding` and `IntConversion`.
- `ScaledAccumulate`: `CCbigguy_addmult`.
- `AddSub`: add, subtract, and the algebraic laws.
- `Streams`: the abstract word streams.
- `LimbCodec` and `SliceCodec`: the two serializations.
- `TestVectors`: the expected results of `128bg_test.c`.

Assumptions about the platform and the unseen headers:

- `long int` has 64 bits.
- `BIT_32_UMAX` is `2^32 - 1` and `BIT_32_SMAX` is `2^31 - 1`.
- `BIT_32_UMAX+1` evaluates to `2^32` in signed 64-bit arithmetic.
- Negating `INT_MIN` wraps to `INT_MIN`.
- The `unsigned long` sums of a limb step are read back as the signed `long` they stand for. `LimbStep` proves that each sum fits in a `long`, so exact integers model them.

Three facts about `bigguy.c` shape the model:

- The sign check after a pass accepts a carry of -1 only with a change from non-negative to negative, and +1 only with a change from negative to non-negative (bigguy.c:366-369).
- `CCbigguy_itobigguy` aborts only on `INT_MIN`. Its test `(d >> 16) >= 32768` cannot fire for a non-negative `int` (bigguy.c:214).
- `CCbigguy_addmult` accepts a result of exactly `-2^127`. That result is the pattern `{0x80000000,0,0,0}` one unit below `CCbigguy_MINBIGGUY`, which `bigguy_neg` refuses. So `ReservedIsReachable` shows that accumulation can produce it, and `AddReservedNotCommutative` shows that addition does not commute when it is an operand.

## Model

| member | source | states |
|---|---|---|
| `BigGuyValue.Val` | bigguy.c:185-198 | the value of the limbs lies in `[-2^127, 2^127)`, is negative exactly when bit 31 of `ihi` is set, and has `flo` as its lowest 32 bits |
| `BigGuyValue.FromValOfVal` | bigguy.c:185-198 | every bit pattern is the unique bigguy standing for its value |
| `Negation.Neg` | bigguy.c:133-164 | complement-and-increment gives the bigguy for `-Val(x)`; it aborts exactly on `{0x80000000,0,0,0}` |
| `Negation.NegInvolutive` | bigguy.c:133-164 | negating a successfully negated bigguy gives back the original limbs |
| `Negation.NegConstants` | bigguy.c:125-164 | ZERO negates to ZERO, MINBIGGUY to MAXBIGGUY and MAXBIGGUY to MINBIGGUY, without an abort |
| `Compare.Cmp` | bigguy.c:283-296 | the result is -1, 0 or 1, and 0 exactly when all four limbs are equal |
| `Compare.CmpAgreesWithVal` | bigguy.c:283-296 | the sign-bit-then-limbs comparison equals the sign of `Val(x) - Val(y)` |
| `Compare.CmpAntisymmetric` | bigguy.c:283-296 | `cmp(x, y) == -cmp(y, x)` |
| `Compare.CmpTransitive` | bigguy.c:283-296 | the order is transitive |
| `Rounding.FractionIsLowLimbs` | bigguy.c:264-266 | the test on `fhi` and `flo` is exactly the test that `Val(x)` is not a multiple of 2^64 |
| `Rounding.Ceil` | bigguy.c:264-281 | it returns `fhi == flo == 0`, the least multiple of 2^64 at or above the input, and an integer input unchanged; it aborts exactly when `ilo` wraps with `ihi == 0x7fffffff` |
| `Rounding.CeilIsLeastInteger` | bigguy.c:264-281 | a successful ceiling is an integer in `[Val(x), Val(x) + 2^64)` |
| `Rounding.CeilIdempotent` | bigguy.c:264-281 | ceiling twice equals ceiling once |
| `IntConversion.IntToBigGuy` | bigguy.c:200-229 | for every `int` other than INT_MIN the result has no fraction and `Val == i * 2^64`, and a non-negative `i` lands wholly in `ilo`; INT_MIN is the only abort |
| `ScaledAccumulate.LimbStep` | bigguy.c:344-347 | the stored limb plus `2^32` times the outgoing carry equals the incoming sum; the sum fits in a 64-bit `long`; the carry stays within an `int`; a zero multiplier with no incoming carry stores the limb unchanged with carry 0 |
| `ScaledAccumulate.SplitMultiplier` | bigguy.c:317-336 | `mhi * 2^32 + mlo == m` with `mlo` in `[-2^31, 2^31)`; for an `int`, `mhi == 0` and neither range check fires |
| `ScaledAccumulate.SignCheckMeaning` | bigguy.c:366-369 | the check accepts exactly when the carry equals the old sign bit minus the new one |
| `ScaledAccumulate.SignCheckExact` | bigguy.c:361-373 | after a pass the check accepts exactly when the true sum fits in 128 bits, and then the new limbs stand for it |
| `ScaledAccumulate.LowPassSum` | bigguy.c:344-359 | the four chained low-pass steps add `mlo * Bits(y)` to the limbs, the overflow going to the final carry |
| `ScaledAccumulate.LowPass` | bigguy.c:344-359 | the new limbs and the carry out of `ihi` hold `Bits(x) + mlo * Bits(y)` |
| `ScaledAccumulate.HighPassSum` | bigguy.c:377-389 | the chained high-pass steps add `2^32 * mhi * Bits(y)` and leave `flo` alone |
| `ScaledAccumulate.HighPass` | bigguy.c:377-389 | the new limbs and the final carry hold `Bits(x) + 2^32 * mhi * Bits(y)` with `flo` untouched; with `mhi == 0` the limbs come back unchanged and the carry is 0 |
| `ScaledAccumulate.AddMult` | bigguy.c:298-404 | `Val(x') == Val(x) + m * Val(y)` exactly; it aborts exactly for `m == INT_MIN`, for `y == {0x80000000,0,0,0}`, or when the true result leaves `[-2^127, 2^127)` |
| `AddSub.Add` | bigguy.c:32 | `Val(x') == Val(x) + Val(y)`; it aborts exactly for the reserved `y` or a sum out of range |
| `AddSub.Sub` | bigguy.c:33 | `Val(x') == Val(x) - Val(y)`; it aborts exactly for the reserved `y` or a difference out of range |
| `AddSub.AddZero` | bigguy.c:32 | adding ZERO gives `x` back |
| `AddSub.AddMultByZero` | 128bg_test.c:150-159 | a zero multiplier leaves `x` unchanged, even with a negative `y` |
| `AddSub.AddCommutes` | bigguy.c:32 | `x + y == y + x` when neither operand is the reserved pattern |
| `AddSub.AddReservedNotCommutative` | bigguy.c:312-315 | `RESERVED + ONE` succeeds while `ONE + RESERVED` aborts in the negation |
| `AddSub.AddAssociates` | bigguy.c:32 | `(a + b) + c == a + (b + c)` when no step overflows |
| `AddSub.SubThenAdd` | 128bg_test.c:216-236 | adding back what was subtracted restores `x` |
| `AddSub.ReservedIsReachable` | bigguy.c:366-373 | `MINBIGGUY - 2^-64` is accepted and yields `{0x80000000,0,0,0}` |
| `LimbCodec.DecodeEncode` | bigguy.c:166-183 | decoding the four written words gives the bigguy back |
| `LimbCodec.EncodeDecode` | bigguy.c:166-183 | encoding a decoded bigguy gives the words back |
| `LimbCodec.SWrite` | bigguy.c:166-174 | it returns 0 exactly when all four writes succeed, and -1 otherwise; the words written are the prefix of `ihi, ilo, fhi, flo` up to the first failing write, and the room left drops by as many |
| `LimbCodec.SRead` | bigguy.c:176-183 | it returns 0 and the bigguy of the first four words when four are available; otherwise it returns -1 with the limbs read so far written and the rest untouched |
| `LimbCodec.WriteThenRead` | bigguy.c:166-183 | writing then reading returns 0 and the same bigguy |
| `LimbCodec.EncodeAll` | bigguy.c:166-174 | the records of a run of bigguys: four words per bigguy, the `i`-th four being the `ihi, ilo, fhi, flo` of the `i`-th bigguy |
| `LimbCodec.DecodeAllEncodeAll` | bigguy.c:166-183 | decoding the records of a run of bigguys, four words at a time, gives the run back |
| `LimbCodec.DecodeAllAppend` | bigguy.c:176-183 | one more whole record read appends its bigguy to those already read |
| `LimbCodec.SWriteAll` | 128bg_test.c:36-39 | one `CCbigguy_swrite` per bigguy, stopping at the first failure: 0 exactly when the sink has room for four words per bigguy, and the room used is what was written |
| `LimbCodec.SWriteAllEncodes` | 128bg_test.c:36-39 | the successive writes emit the prefix of the run's records that fits in the sink, and all of them when it has room |
| `LimbCodec.SReadAll` | 128bg_test.c:48-55 | `n` reads into the same target, stopping at the first failure: 0 exactly when `4n` words are there, giving the bigguys of the first `n` records and leaving the words after them; on failure, the bigguys of the whole records that were there |
| `LimbCodec.WriteAllThenReadAll` | 128bg_test.c:27-56 | a run of bigguys written one after another to a sink with room for them is read back, as many reads as writes, with every read succeeding and every bigguy equal to the one written |
| `SliceCodec.SlicesReassemble` | bigguy.c:98-121 | shifting and or-ing the four 16-bit slices rebuilds the 64-bit pattern |
| `SliceCodec.AssembleSlices` | bigguy.c:98-121 | slicing an assembled value gives the slices back |
| `SliceCodec.SWrite` | bigguy.c:98-106 | it returns 0 exactly when all four writes succeed, and -1 otherwise; the words written are the prefix of the slices up to the first failing write |
| `SliceCodec.SRead` | bigguy.c:108-121 | it returns 0 and the reassembled pattern when four slices are available; otherwise it returns -1 at the first failed read, with `x` holding exactly the slices read so far (or unchanged if none was read) |
| `SliceCodec.WriteThenRead` | bigguy.c:98-121 | writing then reading returns 0 and the same 64-bit pattern |
| `TestVectors.AddToMaxIlo` | 128bg_test.c:61-70 | `0x7fff0000 + 0xffff == 0x7fffffff` |
| `TestVectors.AddHighHalves` | 128bg_test.c:72-81 | `0x7f000000 + 0xff0000 == 0x7fff0000` |
| `TestVectors.AddLowHalves` | 128bg_test.c:83-92 | `0xff + 0xff00 == 0xffff` |
| `TestVectors.AddWithCarry` | 128bg_test.c:95-104 | `0xffff + 0xffff == 0x1fffe` |
| `TestVectors.SubWithBorrow` | 128bg_test.c:106-115 | `0x10000 - 1 == 0xffff` |
| `TestVectors.MultiplyWithCarry` | 128bg_test.c:117-126 | `0 + 0xffff * 2 == 131070` |
| `TestVectors.MultiplyFractionLow` | 128bg_test.c:128-137 | `0 + 0x0.0000ffff * 2 == 0x0.0001fffe` |
| `TestVectors.MultiplyFractionHigh` | 128bg_test.c:139-148 | `0 + 0x0.ffff * 2 == 0x1.fffe` |
| `TestVectors.NegativeZeroMultiplier` | 128bg_test.c:150-159 | `0 + (-1) * 0 == 0` |
| `TestVectors.NegativeZeroOperand` | 128bg_test.c:161-170 | `0 + 0 * (-1) == 0` |
| `TestVectors.SignChange` | 128bg_test.c:172-181 | `0 + 0xfffff.fffff * (-1) == -0xfffff.fffff` |
| `TestVectors.AddFractionCarry` | 128bg_test.c:183-192 | `0x0.ffff + 0x0.00ff == 0x1.00fe` |
| `TestVectors.AddFractionLow` | 128bg_test.c:194-203 | `0x0.0000ffff + 0x0.00000001 == 0x0.00010000` |
| `TestVectors.AddCarryThrough` | 128bg_test.c:205-214 | `0xffff.ffffffff + 2^-32 == 0x10000` |
| `TestVectors.AcrossZero` | 128bg_test.c:216-236 | `0xfffff - 0x1fffff == -0x100000`, and `-0x100000 + 0x1fffff == 0xfffff` |
| `TestVectors.MaxIntToMinusMaxInt` | 128bg_test.c:238-247 | `0 + 0x7fffffff * (-1) == -0x7fffffff` |

## Left out

- `CCbigguy_dtobigguy` and `CCbigguy_bigguytod` (bigguy.c:185-262) work in floating point. The test operands they build are written as limbs instead.
- The stream primitives `CCutil_swrite_uint`, `CCutil_sread_uint`, `CCutil_swrite_ushort`, `CCutil_sread_ushort`, `CCutil_sopen` and `CCutil_sclose` do I/O and are not part of this model. A write stream is the words written so far plus the number of writes that will still succeed. A read stream is the words still to be read, and a read fails at its end. Byte order belongs to those primitives.
- `fprintf` diagnostics and process termination are left out. Each `abort()` is an `Err` naming the check that fired.
- Update through the pointer argument is modelled as a returned value. The struct has copy semantics, and `y` is passed by value, so no aliasing is lost. On an abort the partly updated limbs are not kept, because the C process ends there.
- `CCbigguy_add` and `CCbigguy_sub` are defined in `bigguy.h`, which is not part of this model. They are modelled as `CCbigguy_addmult` with `m = 1` and `m = -1`.
- The arithmetic, comparison and conversion macros of the 64-bit builtin backend live in `bigguy.h`, which is not part of this model. Only that backend's codec is modelled.
- Undefined or implementation-defined C behaviour is modelled by its intended meaning. Negating `INT_MIN` wraps. Products are exact integers, and each is proved to fit in a `long`. The `unsigned long` wrap-around is read back as `long`.
- The seven-value write and read loop of `128bg_test.c` (lines 27-56) builds its values with `CCbigguy_dtobigguy`. `LimbCodec.WriteAllThenReadAll` states the round trip for every run of bigguys instead. It returns the bigguys read where the test compares each with `CCbigguy_cmp`.
- `SliceCodec.SRead` models `((CCbigguy) y) << 48` (bigguy.c:113-117) as a shift of the 64-bit pattern. In C, shifting a set bit into the sign bit of a signed 64-bit value is undefined behaviour.
- `LimbCodec.SRead` assumes that a failed `CCutil_sread_uint` leaves its target limb unwritten. That primitive is not part of this model, so "the limbs after the failure are untouched" rests on this assumption.
