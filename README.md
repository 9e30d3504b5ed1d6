# Angle: a fixed-point signed angle

A model of `src/angle.rs` from the `jord` geodesy crate. An `Angle` stores one exact `i64` count of
microarcseconds (one degree is 3,600,000,000 µas). The crate builds angles from decimal degrees and
from degrees/minutes/seconds (DMS). It reads them back as the raw count, as decimal degrees, or as
the four DMS components. It orders them by the count. It also implements the four conversion
primitives of its `Measure` contract.

Files:

- `numerics.dfy` (module `Numerics`): Rust's `i64` range; `f64::round` over exact reals (nearest
  integer, ties away from zero); the saturating `as i64` cast; helper facts about division.
- `angle.dfy` (module `Angles`): the `Angle` and `DmsError` datatypes, the constructors, the
  accessors, the shared `field` helper, the derived order and the `Measure` primitives.
- `angle_properties.dfy` (module `AngleProperties`): the lemmas, listed below.

Floating-point values are modelled as exact reals. The only rounding left is the one the source
performs, `(dec * 3.6e9).round() as i64` (`src/angle.rs:46`). It is written out as
round-half-away-from-zero, followed by a clamp to the `i64` bounds (Rust's float-to-int `as` cast
saturates). The DMS components use integer `/` and `%` on the absolute count. The lemma
`FieldMatchesRealArithmetic` proves that this equals the source's float expression
`(|µas| / div % modu) as u64`, evaluated over exact reals.

Where the documentation and the code disagree, the model follows the code:

- The comments at `src/angle.rs:26` and `src/angle.rs:53` say that seconds lie in [0, 60]. The code
  rejects `secs >= 60.0` (`src/angle.rs:62`), so 60 is an error in the model too.
- `whole_degrees` passes modulus 360 to `field` (`src/angle.rs:106`). Its magnitude is therefore
  `(|µas| div 3.6e9) mod 360`, which wraps past a full turn (`WholeDegreesWrapsAtFullTurn`).

One consequence of the sign convention is proved rather than assumed. Rebuilding an angle from its
own components with `FromDms` gives it back whenever the angle is below a full turn and its sign
survives in the whole degrees (`DmsRoundTrip`). A negative angle above -1° has 0 whole degrees, so the rebuilt angle is positive
(`SubDegreeNegativeLosesSign`, with -0.5° as the example).

## Model

| member | source | states |
|---|---|---|
| `Numerics.RoundHalfAwayFromZero` | src/angle.rs:46 | `f64::round`: the result is within 1/2 of the input, a tie goes away from zero, and the sign is kept |
| `Numerics.RoundUnique` | src/angle.rs:46 | the three rounding properties determine the rounded integer uniquely |
| `Numerics.RoundOfInteger` | src/angle.rs:46 | rounding an exact integer returns it unchanged |
| `Numerics.RoundNegation` | src/angle.rs:46 | rounding commutes with negation |
| `Numerics.RoundMonotone` | src/angle.rs:46 | rounding preserves order |
| `Numerics.SaturatingCast` | src/angle.rs:46 | `as i64`: a value in range is unchanged; a value out of range becomes the `i64` bound on its own side |
| `Angles.FromDecimalDegrees` | src/angle.rs:44-50 | when the count fits `i64`, it is within 1/2 µas of `dec * 3.6e9` with ties away from zero; otherwise it saturates at the bound of the input's sign; the count has the sign of `dec` |
| `Angles.Zero` | src/angle.rs:34-42 | the zero angle equals `from_decimal_degrees(0.0)` and has count 0 |
| `Angles.FromDms` | src/angle.rs:52-72 | `InvalidArcMinutes` exactly when mins is outside [0, 59]; `InvalidArcSeconds` exactly when mins is valid and secs is outside [0, 60); success otherwise; the errors are returned for every `degs`, `i64::MIN` included; the sign comes from `degs` alone; when it fits `i64`, the magnitude is the nearest integer to `(abs(degs) + mins/60 + secs/3600) * 3.6e9`, a tie going up (within [-1/2, 1/2) of it); beyond that it saturates |
| `Angles.FromResolutionUnit` | src/angle.rs:154-158 | the angle holds exactly the given count |
| `Angles.Microarcseconds` | src/angle.rs:79-87 | rebuilding an angle from its count gives the same angle |
| `Angles.AsResolutionUnit` | src/angle.rs:164-166 | `from_resolution_unit` inverts the raw reading |
| `Angles.AsDecimalDegrees` | src/angle.rs:94-97 | the decimal degrees times 3.6e9 equal the count exactly, with the same sign |
| `Angles.FromDefaultUnit` | src/angle.rs:150-152 | when the count fits `i64`, reading the result back as decimal degrees differs from the input by at most 0.5/3.6e9 degrees, a tie going away from zero; otherwise the count saturates at the bound of the input's sign |
| `Angles.AsDefaultUnit` | src/angle.rs:160-162 | the result is the decimal degrees of the angle (times 3.6e9 it equals the count exactly), and converting it back gives the same angle |
| `Angles.Field` | src/angle.rs:144-146 | the field lies in [0, modu) |
| `Angles.WholeDegrees` | src/angle.rs:99-112 | lies in (-360, 360); its magnitude is `(abs(µas) div 3.6e9) mod 360`; when non-zero it has the sign of the angle |
| `Angles.Arcminutes` | src/angle.rs:114-122 | lies in [0, 59] |
| `Angles.Arcseconds` | src/angle.rs:124-132 | lies in [0, 59] |
| `Angles.Arcmilliseconds` | src/angle.rs:134-142 | lies in [0, 999] |
| `Angles.Compare` | src/angle.rs:14-18 | the derived order is Less, Equal or Greater exactly as the counts compare; Equal exactly when the angles are equal |
| `AngleProperties.ZeroIsResolutionUnitZero` | src/angle.rs:40-42 | `zero()` equals `from_resolution_unit(0)`, and both raw readings of it are 0 |
| `AngleProperties.ResolutionUnitRoundTrip` | src/angle.rs:154-166 | `from_resolution_unit(n)` read back by `as_resolution_unit` or `microarcseconds` gives `n`, and the reverse holds too |
| `AngleProperties.DefaultUnitRoundTrip` | src/angle.rs:150-162 | `from_default_unit(as_default_unit(a)) == a` |
| `AngleProperties.FromDecimalDegreesNegation` | src/angle.rs:46 | when the magnitude fits, negating the degrees negates the count |
| `AngleProperties.FromDecimalDegreesMonotone` | src/angle.rs:44-50 | more degrees never give a smaller angle |
| `AngleProperties.DecimalDegreesVectors` | src/angle.rs:176-186 | 1° is 3,600,000,000 µas; 60 and 59.9999999999 give the same angle; 60 and 59.999999998 give different angles |
| `AngleProperties.FromDmsMinutesCheckedFirst` | src/angle.rs:60-63 | when minutes and seconds are both invalid, the error is `InvalidArcMinutes` |
| `AngleProperties.FromDmsBoundaries` | src/angle.rs:60-63 | 60 minutes and 60 seconds are rejected for every `degs`, `i64::MIN` included; 59 minutes with 59.999999 seconds is accepted |
| `AngleProperties.FromDmsIsSignedDecimalDegrees` | src/angle.rs:64-70 | a valid triple gives `from_decimal_degrees` of `abs(degs) + mins/60 + secs/3600`, negated when `degs < 0` |
| `AngleProperties.FromDmsNegation` | src/angle.rs:65-70 | for k > 0 and valid minutes and seconds, `from_dms(-k, m, s)` is the negation of `from_dms(k, m, s)` |
| `AngleProperties.FromDmsDocTest` | src/angle.rs:55-58 | `from_dms(10, 30, 45.0) == Ok(from_decimal_degrees(10.5125))` |
| `AngleProperties.FieldMatchesRealArithmetic` | src/angle.rs:144-146 | integer div/mod on the absolute count equals the float expression: divide, take the float remainder, truncate |
| `AngleProperties.ComponentsIgnoreSign` | src/angle.rs:105-146 | negating an angle leaves minutes, seconds and milliseconds unchanged and negates whole degrees |
| `AngleProperties.WholeDegreesTruncatesTowardZero` | src/angle.rs:99-112 | below a full turn, whole degrees are the count divided by 3.6e9 truncated toward zero |
| `AngleProperties.WholeDegreesWrapsAtFullTurn` | src/angle.rs:105-106 | adding 360° to a non-negative angle leaves whole degrees unchanged |
| `AngleProperties.DmsDecomposition` | src/angle.rs:105-146 | full turns·360·3.6e9 + abs(wd)·3.6e9 + min·6e7 + sec·1e6 + ms·1000 + (abs(µas) mod 1000) == abs(µas) |
| `AngleProperties.DmsDecompositionWithinFullTurn` | src/angle.rs:105-146 | below 360°, abs(wd)·3.6e9 + min·6e7 + sec·1e6 + ms·1000 + (abs(µas) mod 1000) == abs(µas) |
| `AngleProperties.DmsRoundTrip` | src/angle.rs:59-146 | below a full turn, and when the sign survives in the whole degrees, `from_dms` applied to an angle's components returns the angle |
| `AngleProperties.SubDegreeNegativeLosesSign` | src/angle.rs:59-146 | -0.5° decomposes to 0° 30′ 0″, and `from_dms` rebuilds that as +0.5° |
| `AngleProperties.ComponentVectors` | src/angle.rs:188-240 | the unit-test vectors: the decimal degrees give these counts, and the counts give these components (154°54′54.108″, -154°54′54.000″, 1 ms, 1″, 1′, 1°) |
| `AngleProperties.DmsDocTests` | src/angle.rs:99-142 | `from_dms(-154, 3, 42.5)` has whole degrees -154; `from_dms(-154, 45, 42.5)` has 45′, 42″ and 500 ms |
| `AngleProperties.OrderFollowsMicroarcseconds` | src/angle.rs:14-17 | two angles are equal exactly when their counts are equal; `a < b` exactly when `a.microarcseconds() < b.microarcseconds()` |
| `AngleProperties.CompareIsTotalOrder` | src/angle.rs:14 | the derived order is antisymmetric, transitive and total |

## Left out

- `from_radians` and `as_radians` (`src/angle.rs:74-92`): they go through `PI` and produce lossy `f64` values, so they have no exact contract.
- `f64` detail: NaN and infinite inputs, and the rounding of `dec * 3.6e9`, `mins / 60.0` and `secs / 3600.0` to the nearest double. The model computes these products and quotients exactly over reals and rounds once.
- AsDecimalDegrees: the count divided by 3.6e9 is exact in the model; the source rounds it to an `f64`.
- Field: computed with integer division. The source's `f64` division loses precision once the count nears 2^53 µas (about 2,500,000°), far beyond geodetic angles.
- FromDms: requires `degs != i64::MIN` only when minutes and seconds are valid. On that path `degs.abs()` (`src/angle.rs:65`) overflows: a debug build panics and a release build wraps. Both error paths are modelled for every `degs`.
- Field: requires the count to differ from `i64::MIN`, where `abs()` overflows (`src/angle.rs:145`).
- WholeDegrees: requires the count to differ from `i64::MIN`, where `abs()` overflows (`src/angle.rs:145`).
- Arcminutes: requires the count to differ from `i64::MIN`, where `abs()` overflows (`src/angle.rs:145`).
- Arcseconds: requires the count to differ from `i64::MIN`, where `abs()` overflows (`src/angle.rs:145`).
- Arcmilliseconds: requires the count to differ from `i64::MIN`, where `abs()` overflows (`src/angle.rs:145`).
- The `as u8`, `as u16` and `as i64` casts of the component accessors are lossless, because the component bounds are proved. They are therefore not modelled separately.
- The arithmetic operators `Add`, `Sub`, `Mul`, `Div` and `Neg`: they come from the `impl_measure!` macro (`src/angle.rs:169`) and from the `Measure` trait, which live in the crate root. The crate root is not part of this model.
- `Display`/`FromStr`: marked unimplemented in the source (`src/angle.rs:13`, `src/angle.rs:32`). The `Clone`, `Copy` and `Debug` derives carry no behaviour to model.
