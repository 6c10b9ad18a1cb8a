# noise: a verified model of the core of the `noise` crate

This project models, in Dafny, the deterministic logic at the heart of the
Rust `noise` crate (noise-rs), a library of coherent-noise generators for
procedural content. `real` stands in for `f64` throughout. Where the
library panics (a failed `assert!`, `unreachable!`, `unwrap`), the model
returns `None` from an `Option`.

- **Seed tables.**
  - `PermutationTable` is a shuffled table of the 256 byte values.
  - `Seed` is the older 512-entry doubled table.
  - Both hash lattice coordinates with masks, xor and bounded indexing.
- **Math helpers.** The fixed-size vectors and their `floor_to_isize`, linear and cubic interpolation, the quintic and cubic S-curves, and the gradient tables.
- **Lattice noise functions.**
  - Perlin, value, simplex, OpenSimplex and SuperSimplex noise: corner selection, region branches, table-index bounds and final clamps.
  - Worley and cell noise: the nearest-seed searches, modelled as the imperative searches they are, with the invariant that the best distance never grows.
  - Checkerboard and spheres noise.
- **The node graph.**
  - The fractal generators (`Fbm`, `RidgedMulti`, `HybridMulti`): their setters and octave loops.
  - The `Terrace` and `Curve` sorted control-point lists.
  - The `Select` selector and the `Clamp` modifier.
  - The `CyclePoint` and `Turbulence` transformers.
- **Utility buffers.**
  - `ColorGradient`: sorted insertion of colour points inside a growing domain, and colour lookup.
  - `NoiseMap`: a row-major grid with bounds-checked reads and writes.

Each core file becomes one module. Pure code becomes datatypes, functions
and lemmas. Code that loops or mutates becomes methods with loop invariants,
proved against specification functions:
- the seed-table shuffle and fill;
- the octave loops;
- the Worley and cell searches;
- the OpenSimplex and SuperSimplex accumulations;
- the `ColorGradient`, `NoiseMap`, `Terrace` and `Curve` objects.

Noise sources, the random-number generator and the hasher enter as
function parameters.

## Model

| member | source | states |
|---|---|---|
| Numeric.Trunc | src/math/vectors.rs:158-160 | `NumCast` from `f64` to `isize` truncates toward zero: the result is within one below a non-negative input and within one above a negative one |
| Numeric.Clamp | src/util.rs:35-43 | the lower bound is tested first: below it gives the lower bound, above the upper gives the upper, a value between them passes through, and ordered bounds bound the result |
| Numeric.Low8 | src/permutationtable.rs:58 | `x & 0xff` is the low byte: in [0, 256) and congruent to `x` modulo 256, negative `x` included |
| Numeric.Xor8 | src/permutationtable.rs:65 | the exclusive or of two bytes is a byte |
| Numeric.WrappingAddU32 | src/noise_fns/generators/fractals/mod.rs:80 | a `u32` seed sum wraps at 2^32: below it the plain sum, otherwise the sum less 2^32 |
| Interpolate.Linear | src/math/interpolate.rs:5-10 | `linear` gives `a` at alpha 0 and `b` at alpha 1, and for alpha in [0, 1] stays between `a` and `b` |
| Interpolate.Cubic | src/math/interpolate.rs:25-34 | `cubic` passes through `n1` at alpha 0 and `n2` at alpha 1, as its doc comment promises |
| SCurve.QuinticExpanded | src/math/s_curve/quintic.rs:4-9 | the nested evaluation is the polynomial 6x⁵ − 15x⁴ + 10x³ the trait documents |
| SCurve.QuinticEndpoints | src/math/s_curve/quintic.rs:7-8 | the quintic curve has endpoints (0, 0) and (1, 1) |
| SCurve.QuinticBounds | src/math/s_curve/quintic.rs:27-35 | the quintic maps [0, 1] into [0, 1] |
| SCurve.MapQuintic | src/math/s_curve/quintic.rs:27-35 | `map_quintic` succeeds exactly on [0, 1] (the two asserts), lands in [0, 1], and fixes 0 and 1 |
| SCurve.MapQuinticAll | src/math/s_curve/quintic.rs:37-98 | the array and vector versions succeed exactly when every component is in [0, 1], and then map each component by the scalar version |
| SCurve.CubicExpanded | src/math/s_curve/cubic.rs:3-7 | the evaluation is the polynomial 3x² − 2x³ |
| SCurve.CubicBounds | src/math/s_curve/cubic.rs:25-33 | the cubic maps [0, 1] into [0, 1] |
| SCurve.MapCubic | src/math/s_curve/cubic.rs:25-33 | `map_cubic` succeeds exactly on [0, 1], lands in [0, 1], and fixes 0 and 1 |
| SCurve.MapCubicAll | src/math/s_curve/cubic.rs:35-69 | the array versions succeed exactly when every component is in [0, 1], and then map each component by the scalar version |
| Vectors.FloorToIsize | src/math/vectors.rs:152-163 | `floor_to_isize` is within one below its input; it is the floor except at whole numbers at or below zero, where it is one less |
| Vectors.FloorToIsizeOfZero | src/math/vectors.rs:157-158 | 0.0 maps to −1, because zero takes the `<= 0` branch |
| Vectors.FloorAllDistance | src/math/vectors.rs:152-163 | componentwise, every point lies within [0, 1] of its `floor_to_isize` corner |
| Vectors.CellDistance | src/math/vectors.rs:152-163 | the offset of a point from its `floor_to_isize` corner lies in [0, 1] in every component |
| Vectors.Floor | src/math/vectors/vector2.rs:138-146 | `floor()` on every component (the same in `vector3.rs` and `vector4.rs`) followed by `numcast()` (src/math/vectors.rs:25-33) gives the exact floor of every component |
| Vectors.NumCast | src/math/vectors.rs:25-33 | `numcast` to `isize` truncates every component toward zero |
| Vectors.Sum | src/math/vectors.rs:166-173 | the accumulator loop of `sum` computes the left-to-right sum of the components |
| Vectors.Dot | src/math/vectors.rs:64-71 | the accumulator loop of `dot` computes the sum of the componentwise products |
| Vectors.MagnitudeSquared | src/math/vectors.rs:74-79 | `magnitude_squared` is the dot product of the vector with itself and is never negative |
| Vectors.DotSelfNonNegative | src/math/vectors.rs:74-79 | the dot product of a vector with itself is never negative |
| Vectors.MagnitudeSquaredUnrolled | src/math/vectors.rs:412-414 | for `Vector2`, `Vector3` and `Vector4` the squared length is the sum of the squared components |
| Vectors.AddSubCancel | src/math/vectors.rs:206-266 | adding a vector and then subtracting it gives back the original |
| Vectors.SumOfBroadcast | src/math/vectors.rs:37-40 | the sum of a broadcast vector is N times the value |
| Vectors.SumOfAdd | src/math/vectors.rs:166-173 | `sum` is additive over vector addition |
| Vectors.SumOfSub | src/math/vectors.rs:166-173 | `sum` distributes over vector subtraction |
| Vectors.DotWithZero | src/math/vectors.rs:64-71 | the dot product with the zero vector is zero |
| Vectors.DotWithOnes | src/math/vectors.rs:64-71 | the dot product with the one vector is the component sum |
| Vectors.AddAssign | src/math/vectors.rs:234-242 | `add_assign` with a vector increases each component by the matching component, in place |
| Vectors.SubAssign | src/math/vectors.rs:282-290 | `sub_assign` with a vector decreases each component by the matching component, in place |
| Vectors.MulAssignScalar | src/math/vectors.rs:340-348 | `mul_assign` with a scalar multiplies every component, in place |
| Vectors.DivAssignScalar | src/math/vectors.rs:364-372 | `div_assign` with a scalar divides every component, in place |
| Vectors.Apply | src/math/vectors.rs:113-119 | `apply` replaces every component by `f` of its old value |
| PermTable.Identity | src/permutationtable.rs:31 | `(0..TABLE_SIZE).collect()` holds entry `i` at index `i` |
| PermTable.BytePermutationEntries | src/permutationtable.rs:24-26 | every entry of a table holding each byte value once is a byte value |
| PermTable.Swap | src/permutationtable.rs:32 | one swap of the shuffle exchanges two entries and keeps every other one |
| PermTable.SwapPermutes | src/permutationtable.rs:32 | a swap keeps the multiset of entries |
| PermTable.ShuffleStepsPermutes | src/permutationtable.rs:32 | any number of shuffle steps keeps the length and the multiset of entries |
| PermTable.ShuffledIdentityIsPermutation | src/permutationtable.rs:31-32 | the shuffled identity holds each byte value exactly once, whatever the random draws |
| PermTable.CopyValues | src/permutationtable.rs:37-41 | the zip-and-copy loop copies the shuffled sequence into the table entry by entry |
| PermTable.Rand | src/permutationtable.rs:30-43 | `rand` yields a valid table whose entries are the shuffled identity |
| PermTable.New | src/permutationtable.rs:51-54 | `new(seed)` is `rand` driven by the generator seeded with `[1, seed, seed, seed]`, so equal seeds give equal tables |
| PermTable.Get1 | src/permutationtable.rs:57-60 | `get1` reads the entry at `x & 0xff`, a byte value |
| PermTable.Get2 | src/permutationtable.rs:63-66 | `get2` reads the entry at `get1(x) ^ (y & 0xff)`, a byte value |
| PermTable.Get3 | src/permutationtable.rs:69-72 | `get3` chains `get2` with `z & 0xff` and yields a byte value |
| PermTable.Get4 | src/permutationtable.rs:75-78 | `get4` chains `get3` with `w & 0xff` and yields a byte value |
| PermTable.Hash | src/permutationtable.rs:57-78 | the chained hash of a lattice point of any dimension is a byte value |
| PermTable.HashAgreesWithGet | src/permutationtable.rs:57-78 | the chained hash agrees with `get1`, `get2`, `get3` and `get4` in one to four dimensions |
| PermTable.HashPeriodic | src/permutationtable.rs:58-77 | only the low eight bits of each coordinate matter: coordinates congruent modulo 256 hash alike |
| PermTable.LowBitsAgree | src/permutationtable.rs:58 | numbers congruent modulo 256 have the same low byte |
| PermTable.Get1Periodic | src/permutationtable.rs:57-60 | `get1` repeats with period 256 |
| SeedTable.SwapRounds | src/seed.rs:31-37 | each round of the swap loop keeps the table at 256 entries |
| SeedTable.SwapRoundsPermute | src/seed.rs:31-37 | the swap rounds keep the multiset of entries |
| SeedTable.SwapLoop | src/seed.rs:31-37 | the in-place swap loop leaves the array equal to the swap rounds applied to its old contents |
| SeedTable.DoubleTable | src/seed.rs:42-47 | the fill loop sets `values[i] = seq[i % 256]` for all 512 entries |
| SeedTable.Rand | src/seed.rs:29-50 | `rand` yields a valid seed: the identity permuted by the swap loop, then doubled |
| SeedTable.IdentityArray | src/seed.rs:30 | `range(0, TABLE_SIZE).collect()` holds entry `i` at index `i` |
| SeedTable.SignedModulus | src/seed.rs:59 | the lookups' `signed_modulus(x, 256)` gives an index in [0, 256) |
| SeedTable.SeedEntries | src/seed.rs:23-25 | every entry of a valid seed is a byte value |
| SeedTable.Get1 | src/seed.rs:58-60 | `get1` reads an entry in [0, 256) |
| SeedTable.Get2 | src/seed.rs:62-64 | `get2` reads an entry in [0, 256) |
| SeedTable.Get3 | src/seed.rs:66-68 | `get3` reads an entry in [0, 256) |
| SeedTable.Get4 | src/seed.rs:70-72 | `get4` reads an entry in [0, 256) |
| SeedTable.Get2Wraps | src/seed.rs:62-64 | because the table is doubled, `get2(x, y)` reads the permutation at `(y mod 256 + get1(x)) mod 256` |
| SeedTable.New | src/seed.rs:53-56 | `new(seed)` is `rand` driven by the generator seeded with `[1, seed, seed, seed]` |
| Gradient.Grad2 | src/gradient.rs:3-20 | `grad2` never reaches its panic arm: `index % 8` always picks one of the eight two-component directions |
| Gradient.Grad3 | src/gradient.rs:23-54 | `grad3` never reaches its panic arm: `index % 32` always picks a three-component vector |
| Gradient.Grad4 | src/gradient.rs:57-116 | `grad4` never reaches its panic arm: `index % 64` always picks a four-component vector |
| Gradient.Grad4Edge | src/gradient.rs:65-96 | arms 0..31 of `grad4` are four-component vectors |
| Gradient.Grad4Corner | src/gradient.rs:97-112 | arms 32..63 of `grad4` are four-component vectors |
| Gradient.Grad3Periodic | src/gradient.rs:29 | only `index % 32` matters to `grad3` |
| Gradient.Grad3EdgesRepeat | src/gradient.rs:30-42 | the twelve cube edges are listed twice: entries `i` and `i + 12` agree |
| Gradient.Grad3CornersHaveNoZero | src/gradient.rs:43-50 | entries 24..31 are cube corners, with no zero component |
| Gradient.Grad4CornersRepeat | src/gradient.rs:97-112 | the 16 corners of the 4-cube are listed twice: entries `i` and `i + 16` agree from 32 on |
| Gradient.Grad4EdgesHaveOneZero | src/gradient.rs:64-96 | entries below 32 are edges of the 4-cube, with exactly one zero component |
| Gradient.Grad4EdgeLowHasOneZero | src/gradient.rs:65-80 | edges 0..15 have exactly one zero component |
| Gradient.Grad4EdgeHighHasOneZero | src/gradient.rs:81-96 | edges 16..31 have exactly one zero component |
| Perlin.Grad1Dot | src/core/perlin.rs:26-37 | the 1D gradient switch never reaches `unreachable!`: it gives the offset or its negation |
| Perlin.Grad2Dot | src/core/perlin.rs:67-80 | the 2D switch on `hash & 0b11` covers every value, so `unreachable!` is never reached |
| Perlin.Grad3Dot | src/core/perlin.rs:119-140 | the 3D switch on `hash & 0b1111` covers all sixteen values, so `unreachable!` is never reached |
| Perlin.Grad4Dot | src/core/perlin.rs:186-223 | the 4D switch on `hash & 0b11111` covers all 32 values, so `unreachable!` is never reached |
| Perlin.GradDotOfZero | src/core/perlin.rs:67-223 | every gradient switch gives 0 for a zero offset, whatever the hash |
| Perlin.Grad4Arm26UsesFourComponents | src/core/perlin.rs:197-217 | as written, arm 26 of the 4D switch uses all four components, and arm 6 repeats arm 5's formula rather than its comment's (−1, −1, −1, 0) |
| Perlin.Curve | src/core/perlin.rs:87 | `distance.map_quintic()` does not panic for in-cell distances and gives the quintic of each component, in [0, 1] |
| Perlin.Perlin1D | src/core/perlin.rs:12-50 | `perlin_1d` as written: it panics exactly when the truncated corner leaves a negative distance, and otherwise lies in [−1, 1] |
| Perlin.Perlin1DPanicsOnNegative | src/core/perlin.rs:23-42 | at −0.5 the corner `point as isize` is 0, the distance is −0.5, and `map_quintic` panics |
| Perlin.Perlin1DPanicsBelowZero | src/core/perlin.rs:23-42 | every negative non-integer point makes `perlin_1d` panic |
| Perlin.Perlin1DFloored | src/core/perlin.rs:64-65 | `perlin_1d` with the corner taken by `floor_to_isize`, as the 2D to 4D versions take it, never panics and lies in [−1, 1] |
| Perlin.Perlin1DFlooredAtLattice | src/core/perlin.rs:39-44 | the floored `perlin_1d` is 0 at every lattice point |
| Perlin.Perlin2D | src/core/perlin.rs:53-99 | `perlin_2d` never panics (the distance is in [0, 1], so `map_quintic`'s asserts hold) and its clamped result lies in [−1, 1] |
| Perlin.Perlin2DAtLattice | src/core/perlin.rs:64-98 | `perlin_2d` is 0 at every lattice point |
| Perlin.LatticeWeights | src/core/perlin.rs:64-87 | at a lattice point every distance component is 0 or 1, and its quintic weight equals it |
| Perlin.CornerGradAtZeroOffset | src/core/perlin.rs:70-79 | the corner whose offset equals the distance contributes 0 |
| Perlin.BilinearAtCorner | src/core/perlin.rs:89-93 | the nested `linear` blend with weights 0 or 1 returns one of its four corners |
| Perlin.Perlin3D | src/core/perlin.rs:102-171 | `perlin_3d` never panics and its clamped result lies in [−1, 1] |
| Perlin.Perlin4D | src/core/perlin.rs:174-278 | `perlin_4d` never panics and its clamped result lies in [−1, 1] |
| ValueNoise.Weights | src/core/value.rs:12-14 | `(point - floored).map_quintic()` does not panic: the in-cell position lies in [0, 1), and each weight is the quintic of it |
| ValueNoise.CornerValue | src/core/value.rs:16-22 | `hash(corner + offset) as f64 / 255.0` lies in [0, 1] |
| ValueNoise.LinearInUnit | src/core/value.rs:29-31 | a `linear` blend of two values in [0, 1] with a weight in [0, 1] stays in [0, 1] |
| ValueNoise.Value2D | src/core/value.rs:6-34 | `value_2d` lies in [−1, 1] without a clamp, because the blended `d` lies in [0, 1] |
| ValueNoise.Value2DAtLattice | src/core/value.rs:12-33 | at a lattice point `value_2d` is the hashed corner value mapped to [−1, 1] |
| ValueNoise.Value3D | src/core/value.rs:36-72 | `value_3d` lies in [−1, 1] |
| ValueNoise.Value4D | src/core/value.rs:74-126 | `value_4d` lies in [−1, 1] |
| Simplex.Bit3 | src/core/simplex.rs:11 | `h & 8` is 0 or 8, never 1 |
| Simplex.Grad1 | src/core/simplex.rs:8-16 | `grad1` as written returns exactly when bit 3 of the hash is clear, and then gives −(1 + (h & 7)); a hash with bit 3 set reaches `unreachable!` |
| Simplex.Grad1PanicsOnBit3 | src/core/simplex.rs:11-14 | the byte 8 makes `grad1` panic |
| Simplex.Grad1Fixed | src/core/simplex.rs:10-13 | the corrected `grad1` (second arm on 8) gives a magnitude from 1 to 8, negative exactly when bit 3 is clear, as the comments promise |
| Simplex.Grad1FixedAgrees | src/core/simplex.rs:8-16 | where `grad1` does not panic it agrees with the corrected version, and flipping bit 3 flips the corrected sign |
| Simplex.Index1 | src/core/simplex.rs:101 | the 1D gradient index `(gi % 0xff) as u8` is the hash modulo 255, below 255 |
| Simplex.Simplex1D | src/core/simplex.rs:71-140 | `simplex_1d` as written returns exactly when neither corner's gradient index has bit 3 set |
| Simplex.Simplex1DPanicsSomewhere | src/core/simplex.rs:81-101 | every permutation table holds the byte 8, so some input makes `simplex_1d` panic |
| Simplex.Simplex1DFixed | src/core/simplex.rs:71-127 | with the corrected `grad1`, `simplex_1d` is 0 at every lattice point |
| Simplex.Simplex1DAgrees | src/core/simplex.rs:71-127 | where `simplex_1d` does not panic it equals the corrected version |
| Simplex.RootAboveOne | src/core/simplex.rs:29 | the square root of n + 1 is above 1 for n ≥ 1 |
| Simplex.SkewFactor | src/core/simplex.rs:18-30 | `skew_factor(n)` is positive and satisfies 1 + n·F = √(n + 1) |
| Simplex.UnskewFactor | src/core/simplex.rs:32-44 | `unskew_factor(n)` is positive and satisfies G·√(n + 1) = F |
| Simplex.UnskewBelowHalf | src/core/simplex.rs:180 | in 2D, 2·G < 1, so the last corner's offset `1 + 2·g2` stays below 2 |
| Simplex.Skew | src/core/simplex.rs:153-154 | skewing adds the same amount, `sum · F`, to every coordinate |
| Simplex.Unskew | src/core/simplex.rs:157-159 | unskewing subtracts the same amount, `sum · G`, from every coordinate |
| Simplex.FactorsOfRoot | src/core/simplex.rs:18-44 | the skew and unskew factors of one dimension match: G·(1 + n·F) = F |
| Simplex.SumOfSkew | src/core/simplex.rs:153-154 | skewing adds n times the shift to the coordinate sum |
| Simplex.SumOfUnskew | src/core/simplex.rs:157-159 | unskewing subtracts n times the shift from the coordinate sum |
| Simplex.ShiftOfSkew | src/core/simplex.rs:153-159 | with matching factors, unskewing a skewed point subtracts exactly what the skew added |
| Simplex.ShiftOfUnskew | src/core/simplex.rs:153-159 | with matching factors, skewing an unskewed point adds exactly what the unskew subtracted |
| Simplex.SkewUnskewInverse | src/core/simplex.rs:152-161 | skewing and unskewing with matching factors are inverse maps, both ways round |
| Simplex.SkewOfSub | src/core/simplex.rs:152-161 | skewing distributes over subtraction |
| Simplex.SimplexCell | src/core/simplex.rs:153-155 | the cell `skewed.floor().numcast()` has one coordinate per input coordinate |
| Simplex.SimplexDistance | src/core/simplex.rs:157-161 | `point - unskewed` has one coordinate per input coordinate |
| Simplex.SkewedDistance | src/core/simplex.rs:153-161 | skewing the distance gives the skewed point relative to the cell |
| Simplex.CellContainsPoint | src/core/simplex.rs:153-161 | with the floored cell, the skewed distance lies in the unit cube [0, 1)ⁿ, so the point lies in the cell its corners come from |
| Simplex.SkewKeepsOrder | src/core/simplex.rs:291-314 | skewing keeps the order of the distance components, so the comparisons choose the same simplex in either space |
| Simplex.Surflet | src/core/simplex.rs:207-227 | a corner farther than the radius, or a zero distance, contributes nothing |
| Simplex.MiddleOffset2D | src/core/simplex.rs:165-172 | the middle corner's offset is (1, 0) exactly when `distance.x > distance.y`, and (0, 1) otherwise |
| Simplex.Offsets2D | src/core/simplex.rs:161-180 | the three corner distances of `simplex_2d` are two-component vectors |
| Simplex.Corners2DAsWritten | src/core/simplex.rs:183-185 | the three lattice points `simplex_2d` hashes as written are two-component points |
| Simplex.Corners2D | src/core/simplex.rs:165-185 | the corrected corners are the cell, the cell plus the middle offset, and the cell plus (1, 1) |
| Simplex.MiddleCornerIsCellAsWritten | src/core/simplex.rs:178-184 | as written, the middle corner is hashed at the cell itself for every input: `distance1` lies strictly between −1 and 1, so its truncation is zero |
| Simplex.MiddleDistance2D | src/core/simplex.rs:178 | `distance1` is `distance - offset + g2`, component by component |
| Simplex.Corners2DEnclosePoint | src/core/simplex.rs:163-185 | the corrected three corners are distinct and trace the triangle that holds the point, stepping first along the larger skewed coordinate |
| Simplex.Simplex2DAsWritten | src/core/simplex.rs:143-235 | as written, `simplex_2d` sums the surflets of the cell twice and never hashes the middle corner |
| Simplex.Noise2D | src/core/simplex.rs:207-235 | the noise value of `simplex_2d`: 40 times the sum of the three corner surflets of radius 0.5, each taking the 2D gradient of its corner's hash |
| Simplex.Simplex2D | src/core/simplex.rs:143-235 | `simplex_2d` with the middle corner hashed at `cell + offset`: the noise of the corrected corners and their distances to the point |
| Simplex.Orders3D | src/core/simplex.rs:291-314 | `order1` is a unit step along a largest distance component; `order2` adds a second step, and its zero marks a smallest component |
| Simplex.Offsets3D | src/core/simplex.rs:321-323 | the four corner distances of `simplex_3d` are three-component vectors |
| Simplex.Corners3D | src/core/simplex.rs:326-329 | the four lattice points `simplex_3d` hashes are three-component points |
| Simplex.Corners3DPath | src/core/simplex.rs:291-329 | the four corners are distinct, each one unit step after the previous |
| Simplex.Noise3D | src/core/simplex.rs:351-380 | the noise value of `simplex_3d`: 28 times the sum of the four corner surflets of radius 0.5 with 3D gradients |
| Simplex.Simplex3D | src/core/simplex.rs:266-380 | `simplex_3d`: the noise of the four corners the comparisons choose and their distances to the point |
| Simplex.SimplexTable | src/core/simplex.rs:616-625 | every row of the `SIMPLEX` table has four entries |
| Simplex.RankIndex | src/core/simplex.rs:456-462 | the six comparison bits are distinct, so `c1 \| ... \| c6` is their sum and indexes the 64-row table |
| Simplex.Rank | src/core/simplex.rs:456-462 | each coordinate outranks at most three others |
| Simplex.Threshold | src/core/simplex.rs:473-486 | `if SIMPLEX[c][i] >= k { 1 } else { 0 }` marks exactly the coordinates whose entry is at least `k` |
| Simplex.SimplexLookupIsRank | src/core/simplex.rs:456-486 | the comparison index always selects a row holding the rank of each coordinate, never one of the all-zero rows |
| Simplex.RankRowThresholds | src/core/simplex.rs:473-486 | in a row of ranks, thresholds 3, 2 and 1 mark one, two and three coordinates, each set containing the previous one |
| Simplex.TopRankIsLargest | src/core/simplex.rs:456-476 | a coordinate of rank 3 is a largest distance component |
| Simplex.Orders4D | src/core/simplex.rs:473-491 | `order1`, `order2` and `order3` are unit steps with one, two and three ones, each containing the previous, and `order1` lies along a largest component |
| Simplex.Cell4DAsWritten | src/core/simplex.rs:435 | the 4D cell as written is `skewed.numcast()`, a truncation, with four coordinates |
| Simplex.Cell4DAgreesWhenNonNegative | src/core/simplex.rs:435 | where no skewed coordinate is negative, the truncated cell is the floored cell |
| Simplex.Cell4DAsWrittenMissesPoint | src/core/simplex.rs:433-446 | at (−0.1, −0.1, −0.1, −0.1) the truncated cell is the origin and the skewed point lies below it, outside the cell its corners come from |
| Simplex.Offsets4D | src/core/simplex.rs:494-500 | the five corner distances of `simplex_4d` are four-component vectors |
| Simplex.Corners4DAsWritten | src/core/simplex.rs:503-507 | as written, the fourth corner is hashed at `cell + order2`, repeating the third |
| Simplex.Corners4D | src/core/simplex.rs:503-507 | the corrected corners start at the floored cell and hash the fourth at `cell + order3` |
| Simplex.Corners4DPath | src/core/simplex.rs:489-507 | each corrected corner is one unit step after the previous |
| Simplex.Corners4DDistinct | src/core/simplex.rs:489-507 | the five corrected corners are distinct: corner k has coordinate sum k above the cell's |
| Simplex.Noise4D | src/core/simplex.rs:529-559 | the noise value of `simplex_4d`: 27 times the sum of the five corner surflets of radius 0.6 with 4D gradients |
| Simplex.Simplex4DAsWritten | src/core/simplex.rs:422-559 | `simplex_4d` as written: the truncated cell, and the fourth corner hashed at `cell + order2` |
| Simplex.Simplex4D | src/core/simplex.rs:422-559 | `simplex_4d` with the floored cell and the fourth corner hashed at `cell + order3` |
| OpenSimplex.VertexGradient | src/core/open_simplex.rs:12-22 | a vertex whose offset lies at or beyond the radius, so that `attn = 2 − |pos|² ≤ 0`, contributes nothing |
| OpenSimplex.Stretch | src/core/open_simplex.rs:27-28 | stretching adds `sum · STRETCH_CONSTANT` to every coordinate |
| OpenSimplex.Squish | src/core/open_simplex.rs:34-35 | squishing a lattice point adds `sum · SQUISH_CONSTANT` to every coordinate |
| OpenSimplex.RegionSumBounds | src/core/open_simplex.rs:38-41 | the in-cell coordinates lie in [0, 1), so `region_sum` lies in [0, n) and picks one of the regions |
| OpenSimplex.DposRelativeToVertex | src/core/open_simplex.rs:44-53 | `dpos = rel_pos − squish·offset.sum() − offset` is the point relative to the squished vertex `stretched_floor + offset`, so every contribution is evaluated at the point's offset from its own vertex |
| OpenSimplex.Vertices2D | src/core/open_simplex.rs:60-80 | the 2D vertices are (1, 0), (0, 1), then (1, 1) in region B (`region_sum > 1`) and (0, 0) in region A |
| OpenSimplex.Vertices3D | src/core/open_simplex.rs:140-188 | the 3D regions use four vertices for the two tetrahedra and six for the octahedron |
| OpenSimplex.Vertices4D | src/core/open_simplex.rs:252-350 | the 4D regions use five vertices for the two pentachora and ten for the two dispentachora |
| OpenSimplex.Vertices2DLayer | src/core/open_simplex.rs:60-80 | the 2D vertices are three distinct 0/1 vectors |
| OpenSimplex.Vertices3DLayer | src/core/open_simplex.rs:140-188 | each 3D region's vertices are distinct 0/1 vectors: at most one 1 at the origin tetrahedron, one or two in the octahedron, two or more at the far tetrahedron |
| OpenSimplex.Vertices4DLayer | src/core/open_simplex.rs:252-350 | each 4D region's vertices are distinct 0/1 vectors of layers 0–1, 1–2, 2–3 and 3–4 in the order the branches test `region_sum` |
| OpenSimplex.MiddleLayersComplete | src/core/open_simplex.rs:168-188 | the octahedron and the two dispentachora use every 0/1 vector of their layers, none missing |
| OpenSimplex.OpenSimplex2D | src/core/open_simplex.rs:7-83 | `open_simplex_2d` is the sum of the contributions of the region's three vertices, in the source's order, times `NORM_CONSTANT` |
| OpenSimplex.OpenSimplex3D | src/core/open_simplex.rs:85-191 | `open_simplex_3d` is the sum of the contributions of the region's vertices times `NORM_CONSTANT` |
| OpenSimplex.Tetrahedron3DAtOrigin | src/core/open_simplex.rs:140-154 | the branch `region_sum <= 1` adds the contributions of the four vertices of the tetrahedron at the origin |
| OpenSimplex.Tetrahedron3DAtOne | src/core/open_simplex.rs:154-168 | the branch `region_sum >= 2` adds the contributions of the four vertices of the tetrahedron at (1, 1, 1) |
| OpenSimplex.Octahedron3D | src/core/open_simplex.rs:168-188 | the remaining branch adds the contributions of the octahedron's six vertices |
| OpenSimplex.OpenSimplex4D | src/core/open_simplex.rs:193-353 | `open_simplex_4d` is the sum of the contributions of the region's vertices times `NORM_CONSTANT` |
| OpenSimplex.Pentachoron4DAtOrigin | src/core/open_simplex.rs:252-269 | the branch `region_sum <= 1` adds the contributions of the five vertices of the pentachoron at the origin |
| OpenSimplex.Pentachoron4DAtOne | src/core/open_simplex.rs:269-286 | the branch `region_sum >= 3` adds the contributions of the five vertices of the pentachoron at (1, 1, 1, 1) |
| OpenSimplex.FirstDispentachoron4D | src/core/open_simplex.rs:286-318 | the branch `region_sum <= 2` adds the contributions of the first dispentachoron's ten vertices |
| OpenSimplex.SecondDispentachoron4D | src/core/open_simplex.rs:318-350 | the last branch adds the contributions of the second dispentachoron's ten vertices |
| SuperSimplex.CellOf | src/core/super_simplex.rs:96-99 | the base point is the floor and the in-cell coordinates are the point minus it, each in [0, 1) |
| SuperSimplex.RegionSum2DIsBit | src/core/super_simplex.rs:102 | `region_sum = rel.sum().floor()` is 0 or 1, and 1 exactly when the in-cell coordinates sum to at least 1 |
| SuperSimplex.Index2D | src/core/super_simplex.rs:103-109 | the 2D index is a multiple of 4 whose bits 2, 3 and 4 are exactly the three comparisons, so `index..index + 4` lies inside the 32-entry table |
| SuperSimplex.Lattice2DGroupsStartOnDiagonal | src/core/super_simplex.rs:26-65 | every group of four 2D entries begins with (0, 0) and (1, 1), the two ends of the cell's long diagonal |
| SuperSimplex.Lattice2DRealOffsets | src/core/super_simplex.rs:26-65 | the real-space column of every 2D entry is the negated unskewed lattice offset, to within 1e-16 |
| SuperSimplex.Contribution2D | src/core/super_simplex.rs:118-125 | an entry whose `dpos` lies at or beyond the radius (`attn = 2/3 − |dpos|² ≤ 0`) adds nothing |
| SuperSimplex.LatticeSum2DOutsideRadius | src/core/super_simplex.rs:117-126 | when every selected entry lies outside the radius the loop adds nothing |
| SuperSimplex.SimplexPoint2D | src/core/super_simplex.rs:93-94 | the simplex-space point has two coordinates |
| SuperSimplex.EntryContribution2D | src/core/super_simplex.rs:118-125 | the loop body computes exactly that entry's contribution |
| SuperSimplex.AddEntry2D | src/core/super_simplex.rs:117-126 | one pass of the loop adds entry `index + k` to the sum of the entries before it |
| SuperSimplex.SuperSimplex2D | src/core/super_simplex.rs:86-129 | `super_simplex_2d` is the sum of the contributions of the four entries the index selects, times `NORM_CONSTANT_2D` |
| SuperSimplex.SimplexPoint3D | src/core/super_simplex.rs:138-139 | every coordinate of the 3D simplex point is `-(v + sum · TO_SIMPLEX_CONSTANT_3D)` |
| SuperSimplex.Index3D | src/core/super_simplex.rs:151-159 | the 3D index is a multiple of 4 whose bits 2 to 5 are exactly the four comparisons, so `index..index + 4` lies inside the table |
| SuperSimplex.Slice3D | src/core/super_simplex.rs:180 | the selected slice holds four corners |
| SuperSimplex.Lattice3DGroups | src/core/super_simplex.rs:68-84 | each 3D group holds one corner of each pair of opposite cube corners, bit k of the group number choosing within pair k |
| SuperSimplex.Lookup3DPicksNearer | src/core/super_simplex.rs:151-159 | every corner the index selects is at least as near to the point as the corner opposite it, so the loop visits the nearer corner of each pair |
| SuperSimplex.Contribution3D | src/core/super_simplex.rs:181-188 | a corner whose `dpos` lies at or beyond the radius (`attn = 0.75 − |dpos|² ≤ 0`) adds nothing |
| SuperSimplex.Surflet3D | src/core/super_simplex.rs:182-187 | a zero `attn` or a negative one yields zero |
| SuperSimplex.FirstCell3D | src/core/super_simplex.rs:143-145 | the first lattice's cell has three coordinates |
| SuperSimplex.SecondCell3D | src/core/super_simplex.rs:140-148 | the second lattice's cell has three coordinates |
| SuperSimplex.SecondLatticeIsHalfCellShift | src/core/super_simplex.rs:140-148 | the second lattice is the first moved by half a cell: its in-cell coordinates are those of the point plus 0.5, and its base point is 512 further along every axis |
| SuperSimplex.SecondLatticeSum | src/core/super_simplex.rs:191-201 | since 512 is a whole number of hash periods, the second loop adds what the first would add at the point moved by half a cell |
| SuperSimplex.EntryContribution3D | src/core/super_simplex.rs:181-188 | the loop body computes exactly that corner's contribution |
| SuperSimplex.SuperSimplex3D | src/core/super_simplex.rs:131-204 | `super_simplex_3d` is the sum over the four corners of each lattice, times `NORM_CONSTANT_3D` |
| Worley.Differences | src/core/worley.rs:20-22 | `p1.iter().zip(p2).map(a - b)` stops at the shorter point and holds the component differences |
| Worley.Magnitudes | src/core/worley.rs:34 | `map(a.abs())` holds the absolute value of each component |
| Worley.EuclideanSquared | src/core/worley.rs:23-29 | `euclidean_squared`: the sum of the squared component differences, stopping at the shorter point |
| Worley.Manhattan | src/core/worley.rs:31-37 | `manhattan`: the sum of the absolute component differences |
| Worley.SumOfNonNegative | src/core/worley.rs:24-27 | a `fold(0.0, +)` over terms that are never negative is never negative, and zero exactly when every term is |
| Worley.EuclideanSquaredIsNonNegative | src/core/worley.rs:23-29 | `euclidean_squared` is never negative and is zero from a point to itself |
| Worley.ManhattanIsZeroIff | src/core/worley.rs:31-37 | `manhattan` is never negative, and for points of one dimension it is zero exactly when they are equal |
| Worley.MaxFromBounds | src/core/worley.rs:43 | a `fold(init, max)` is at least its start and every element, and equals its start or one of the elements |
| Worley.Chebyshev | src/core/worley.rs:39-45 | `chebyshev`: the largest absolute component difference, folded from `f64::MIN` |
| Worley.ChebyshevIsLargestDifference | src/core/worley.rs:39-45 | `chebyshev` is the largest absolute component difference; with no components it is `f64::MIN` |
| Worley.RowSumIsProduct | src/core/worley.rs:53-58 | one pass of the inner loop adds its factor times the sum of the differences |
| Worley.RowsSumIsProduct | src/core/worley.rs:53-59 | the outer loop's first `i` passes add the sum of the first `i` differences times the whole sum |
| Worley.Quadratic | src/core/worley.rs:47-62 | the double loop of `quadratic` computes the square of the summed differences |
| Worley.QuadraticVanishesOffDiagonal | src/core/worley.rs:47-62 | `quadratic` is never negative, yet it is no distance: (1, 0) and (0, 1) are at quadratic distance zero |
| Worley.GetVec2 | src/core/worley.rs:133-148 | `get_vec2` always yields a two-component offset: `index & 0x07` never reaches the `unreachable!` arm |
| Worley.Direction2 | src/core/worley.rs:137-146 | the match has an arm exactly for the directions 0 to 7 |
| Worley.Direction2Short | src/core/worley.rs:134-145 | with a length of at most 0.5, a diagonal direction is at most `c²/2` long squared and an axis direction at most `length²` |
| Worley.GetVec3 | src/core/worley.rs:230-257 | `get_vec3` always yields a three-component offset: `index % 18` never reaches the `unreachable!` arm |
| Worley.Direction3 | src/core/worley.rs:236-255 | the match has an arm exactly for the directions 0 to 17 |
| Worley.Direction3Short | src/core/worley.rs:237-254 | an edge direction is at most `2 (length·c)²` long squared, an axis direction at most `length²` |
| Worley.GetVec4 | src/core/worley.rs:367-406 | `get_vec4` always yields a four-component offset: `index % 32` never reaches the `unreachable!` arm |
| Worley.Direction4 | src/core/worley.rs:371-404 | the match has an arm exactly for the directions 0 to 31 |
| Worley.Direction4Shape | src/core/worley.rs:371-403 | direction `k` is zero on axis `3 − k/8` and `±diag` on the other three |
| Worley.Direction4Short | src/core/worley.rs:371-403 | every 4D direction is `3·diag²` long squared |
| Worley.GetVec2Short | src/core/worley.rs:133-148 | every 2D offset is at most 0.5 long |
| Worley.GetVec3Short | src/core/worley.rs:230-257 | every 3D offset is at most 0.5 long, up to the rounding of the diagonal constant |
| Worley.GetVec4Short | src/core/worley.rs:367-406 | every 4D offset is at most 0.5 long, up to the rounding of the diagonal constant |
| Worley.DiagonalShort | src/core/worley.rs:368-369 | a 4D offset `length · diag` on three axes with `length ≤ 0.5` stays within the squared offset bound, `diag²` being one third up to rounding |
| Worley.GetVec | src/core/worley.rs:77-79 | the offset has as many components as the cell |
| Worley.FeaturePoint | src/core/worley.rs:77-79 | `get_point(hash(cell), cell)` has as many components as the cell |
| Worley.FeaturePointNearCorner | src/core/worley.rs:77-79 | the feature point of a cell lies within 0.5 of the cell's corner |
| Worley.OffsetDistance | src/core/worley.rs:23-29 | a point moved by `v` is at squared euclidean distance `|v|²` from where it started |
| Worley.Frac | src/core/worley.rs:81-83 | `frac = point − floor(point)` lies in [0, 1) on every axis |
| Worley.NearAndFar | src/core/worley.rs:85-88 | `near` is the integer nearest the point on every axis, ties at 0.5 going down, and `far` is its neighbour on the other side |
| Worley.Range | src/core/worley.rs:95 | `range` has one entry per axis |
| Worley.TestPoint | src/core/worley.rs:97-110 | `test_point!` replaces the best cell only when the candidate is strictly nearer: the distance never grows, ties keep the earlier cell, and the result is no farther than the candidate |
| Worley.FarOn | src/core/worley.rs:112-122 | the cell a guarded test names is far on the chosen axes and near on the others |
| Worley.TestFarAxes | src/core/worley.rs:112-122 | the `k`-th guarded test runs exactly when every axis of the `k`-th far-axis set has its `range` below the best distance so far, and then leaves a best distance no larger than the far cell's; otherwise nothing changes; what the earlier tests guarantee survives, since the distance only falls |
| Worley.FarAxis | src/core/worley.rs:112-122 | the `k`-th far-axis set of the search, in the order `worley_2d` lists its tests (and `worley_3d` at 198-220, `worley_4d` at 308-355): one per axis, then each pair, triple and all; every set has one entry per axis and at least one far axis |
| Worley.AllBelowShrinks | src/core/worley.rs:112 | a test guard that holds at a smaller best distance holds at a larger one |
| Worley.TestedUpToShrinks | src/core/worley.rs:97-122 | what the first `count` tests guarantee for one best distance holds for any smaller one |
| Worley.TestedUpToExtends | src/core/worley.rs:112-122 | the guarantee of the next test joins those of the tests before it |
| Worley.OneFarAxis3D | src/core/worley.rs:198-206 | the three tests of `worley_3d` with one far axis keep the search state, never increase the distance and extend the guarantee from none to three tests |
| Worley.MoreFarAxes3D | src/core/worley.rs:208-220 | the four tests with two or three far axes extend the guarantee from three to seven tests |
| Worley.OneFarAxis4D | src/core/worley.rs:308-319 | the four tests of `worley_4d` with one far axis extend the guarantee from none to four tests |
| Worley.TwoFarAxes4D | src/core/worley.rs:321-338 | the six tests with two far axes extend the guarantee from four to ten tests |
| Worley.MoreFarAxes4D | src/core/worley.rs:340-355 | the five tests with three or four far axes extend the guarantee from ten to fifteen tests |
| Worley.Output | src/core/worley.rs:124-129 | `Distance` returns `distance · 2 − 1`; `Value` maps `hash / 255` into [−1, 1] |
| Worley.FarTests2D | src/core/worley.rs:112-122 | the three guarded tests of `worley_2d` keep the search state, never increase the distance, and leave it no larger than the distance to any cell whose test guard holds at the final distance |
| Worley.Worley2D | src/core/worley.rs:65-130 | `worley_2d` chooses a cell between `near` and `far` on every axis, its distance is to that cell's feature point, no larger than the near cell's nor than that of any far cell whose guard (every far axis's `range` below the distance) holds, and the output is computed from that cell |
| Worley.FarTests3D | src/core/worley.rs:198-220 | the seven guarded tests of `worley_3d` keep the search state, never increase the distance, and leave it no larger than the distance to any cell whose test guard holds at the final distance |
| Worley.Worley3D | src/core/worley.rs:151-228 | `worley_3d` chooses a cell between `near` and `far`, no farther than the near cell nor than any of the seven far cells whose guard holds at the final distance, and outputs from it |
| Worley.FarTests4D | src/core/worley.rs:308-355 | the fifteen guarded tests of `worley_4d` keep the search state, never increase the distance, and leave it no larger than the distance to any cell whose test guard holds at the final distance |
| Worley.Worley4D | src/core/worley.rs:261-363 | `worley_4d` chooses a cell between `near` and `far`, no farther than the near cell nor than any of the fifteen far cells whose guard holds at the final distance, and outputs from it |
| Cell.LatticeHash | src/cell.rs:19-51 | the hash `get2`..`get4` gives a cell is a table index below 256 |
| Cell.Jitter | src/cell.rs:24-26 | a nibble scaled by `1.0 / 15.0` lies in [0, 1] |
| Cell.Jitters | src/cell.rs:19-51 | the jitter has one component per axis, taken from two nibbles of the cell's hash and in 3D and 4D of a second hash with the last coordinate moved by 128 |
| Cell.JitteredPoint | src/cell.rs:19-51 | `get_cell_pointN` has one component per axis |
| Cell.JitteredPointInCell | src/cell.rs:19-51 | a jittered point never leaves its cell: every component lies between the corner and the corner plus one |
| Cell.GetVec2 | src/cell.rs:93-109 | `get_vec2` always yields a two-component offset: `index & 0x07` never reaches the `unreachable!` arm |
| Cell.GetVec3 | src/cell.rs:113-139 | `get_vec3` always yields a three-component offset: `index % 18` never reaches the panicking arm |
| Cell.GetVec4 | src/cell.rs:143-182 | `get_vec4` always yields a four-component offset: `index % 32` never reaches the panicking arm |
| Cell.GetVec | src/cell.rs:93-182 | the offset has as many components as the cell |
| Cell.GetVec2Short | src/cell.rs:93-109 | every 2D offset is at most 0.5 long |
| Cell.GetVec3Short | src/cell.rs:113-139 | every 3D offset is at most 0.5 long |
| Cell.GetVec4Short | src/cell.rs:143-182 | every 4D offset is at most 0.5 long, up to the rounding of `0.57735026919` |
| Cell.SeedPoint | src/cell.rs:193-197 | `get_point` of `cellN_seed` has one component per axis |
| Cell.DistanceIsNonNegative | src/cell.rs:56-90 | `range_sqr_euclidianN` and `range_manhattanN` are never negative and are zero from a point to itself |
| Cell.Distance | src/cell.rs:56-90 | the range a metric selects: `range_sqr_euclidianN` or `range_manhattanN` |
| Cell.TestPoint | src/cell.rs:218-230 | `test_point!` replaces the seed only when the candidate is strictly nearer: the range never grows, ties keep the earlier cell, and the result is no farther than the candidate |
| Cell.TestFarAxes | src/cell.rs:232-241 | the `k`-th guarded test runs exactly when every axis of the `k`-th far-axis set has its squared distance to the center line below the range so far, and then leaves a range no larger than the far cell's; otherwise nothing changes; what the earlier tests guarantee survives |
| Cell.TestedUpToShrinks | src/cell.rs:218-241 | what the first `count` tests of `cellN_seed` guarantee for one range holds for any smaller one |
| Cell.TestedUpToExtends | src/cell.rs:232-241 | the guarantee of the next test joins those of the tests before it |
| Cell.OneFarAxis3D | src/cell.rs:297-305 | the three tests of `cell3_seed` with one far axis keep the search state, never increase the range and extend the guarantee from none to three tests |
| Cell.MoreFarAxes3D | src/cell.rs:307-319 | the four tests with two or three far axes extend the guarantee from three to seven tests |
| Cell.OneFarAxis4D | src/cell.rs:382-393 | the four tests of `cell4_seed` with one far axis extend the guarantee from none to four tests |
| Cell.TwoFarAxes4D | src/cell.rs:395-412 | the six tests with two far axes extend the guarantee from four to ten tests |
| Cell.MoreFarAxes4D | src/cell.rs:414-429 | the five tests with three or four far axes extend the guarantee from ten to fifteen tests |
| Cell.FarTests2D | src/cell.rs:232-241 | the three guarded tests of `cell2_seed` keep the search state, never increase the range, and leave it no larger than the range to any cell whose test guard holds at the final range |
| Cell.Cell2Seed | src/cell.rs:185-244 | `cell2_seed` picks a cell between `near` and `far` on every axis, returns that cell's point and its range, and the range is no larger than the near cell's nor than that of any far cell whose guard holds at that range |
| Cell.FarTests3D | src/cell.rs:297-319 | the seven guarded tests of `cell3_seed` keep the search state, never increase the range, and leave it no larger than the range to any cell whose test guard holds at the final range |
| Cell.Cell3Seed | src/cell.rs:247-322 | `cell3_seed` picks a cell between `near` and `far`, no farther than the near cell nor than any of the seven far cells whose guard holds at its range, and returns its point and range |
| Cell.FarTests4D | src/cell.rs:382-429 | the fifteen guarded tests of `cell4_seed` keep the search state, never increase the range, and leave it no larger than the range to any cell whose test guard holds at the final range |
| Cell.Cell4Seed | src/cell.rs:325-432 | `cell4_seed` picks a cell between `near` and `far`, no farther than the near cell nor than any of the fifteen far cells whose guard holds at its range, and returns its point and range |
| Cell.ChainPrecedes | src/cell.rs:498-529 | in a table where each entry precedes the next, every entry precedes every later one: they are distinct and the number of moved axes never decreases |
| Cell.Cell2Neighbours | src/cell.rs:590-600 | `cell2_seed_2_points` tests eight offsets |
| Cell.SearchOrder2 | src/cell.rs:590-600 | the eight offsets of `cell2_seed_2_points` are distinct, other than the origin, face cells before corner cells, and include every neighbour |
| Cell.Cell3SearchOrder | src/cell.rs:498-505 | `CELL3_SEARCH_ORDER` holds 26 offsets |
| Cell.SearchOrder3 | src/cell.rs:498-505 | `CELL3_SEARCH_ORDER` holds 26 distinct offsets other than the origin, ordered by the number of axes they move along, and every neighbour of a cell is among them |
| Cell.Cell4SearchOrder | src/cell.rs:508-529 | `CELL4_SEARCH_ORDER` holds 80 offsets |
| Cell.SearchOrder4 | src/cell.rs:508-529 | `CELL4_SEARCH_ORDER` holds 80 distinct offsets other than the origin, ordered by the number of axes they move along, and every neighbour of a cell is among them |
| Cell.Consider | src/cell.rs:576-585 | a strictly nearer candidate becomes the nearest and the old nearest moves to second place; otherwise a candidate strictly nearer than the second replaces it; the two ranges stay ordered |
| Cell.StepRanges | src/cell.rs:563-564 | `dx2` and its siblings hold three squared step distances per axis |
| Cell.CandidateAt | src/cell.rs:570-575 | a candidate point has one component per axis |
| Cell.VisitAllStep | src/cell.rs:629-647 | one more loop pass is one more candidate visited |
| Cell.TestCell | src/cell.rs:570-586 | the macro body and the loop body visit one candidate: a cell whose lower bound `x_range + y_range + ...` is not below `range1` is skipped, otherwise it is considered |
| Cell.TestFourCells2D | src/cell.rs:590-600 | four `test_point!` calls visit four candidates in order |
| Cell.VisitAllAppend | src/cell.rs:590-600 | visiting two runs of candidates one after the other is visiting them together |
| Cell.Cell2Seed2Points | src/cell.rs:544-604 | `cell2_seed_2_points` returns the two-nearest state of visiting its eight neighbours in order from the own cell |
| Cell.TestCells | src/cell.rs:629-647 | the loop of `cell3_seed_2_points` and `cell4_seed_2_points` visits one candidate per offset in order |
| Cell.Cell3Seed2Points | src/cell.rs:606-650 | `cell3_seed_2_points` returns the two-nearest state of visiting `CELL3_SEARCH_ORDER` from the own cell |
| Cell.Cell4Seed2Points | src/cell.rs:653-699 | `cell4_seed_2_points` returns the two-nearest state of visiting `CELL4_SEARCH_ORDER` from the own cell |
| Cell.TwoNearest | src/cell.rs:544-699 | what `cellN_seed_2_points` returns: the two-nearest state after visiting the search order of the point's dimension, starting from the own cell |
| Cell.DistanceIsSumOfTerms | src/cell.rs:56-90 | either range is a sum of per-axis terms: squares for the euclidean range, magnitudes for the Manhattan range |
| Cell.StepBelowTerm | src/cell.rs:562-572 | along one axis, the step distance `dx2[o + 1]` never exceeds the term of any point of the cell at offset `o`, for either range |
| Cell.LowerBoundBelowDistance | src/cell.rs:570-572 | the bound the search prunes with never exceeds the range to the feature point it stands for, so pruning never skips a nearer point, for either range function |
| Cell.UnitTermsBound | src/cell.rs:56-90 | components of at most one in magnitude give a range of at most the dimension |
| Cell.HomeIsNear | src/cell.rs:557-560 | the own cell's point is within range 4, below the `max_value` placeholder, so the initial state is ordered |
| Cell.VisitAllFinds | src/cell.rs:570-586 | over candidates whose bounds never exceed their ranges, the two ranges stay ordered and never grow, the first is no larger than any candidate's range, and both belong to the start or to visited candidates |
| Cell.CandidatesPrune | src/cell.rs:562-586 | the bounds of all candidates never exceed their ranges |
| Cell.AttainedInBlock | src/cell.rs:557-586 | apart from the placeholder, whatever the search keeps is a feature point of the block around the point, at its own range |
| Cell.VisitAllFindsSecond | src/cell.rs:570-586 | over candidates whose bounds never exceed their ranges, the second range ends no larger than the larger range of the start's first entry and any candidate, or of any two distinct candidates |
| Cell.SearchIsSecondNearest | src/cell.rs:557-604 | a search over offsets covering the block ends with a second range no larger than the larger range of any two distinct cells of the block |
| Cell.BelowBlockPair | src/cell.rs:557-604 | a range bounded by the larger range of every pair the search saw is bounded by the larger range of every two distinct cells of the block, the own cell included |
| Cell.SearchIsNearest | src/cell.rs:557-604 | a search over offsets covering the block ends with a first range no larger than the range to any feature point of the block |
| Cell.SearchStaysInBlock | src/cell.rs:557-604 | both results of the search are feature points of the block at their ranges, or the second is still the placeholder |
| Cell.TwoNearestIsNearestInBlock | src/cell.rs:544-699 | `cellN_seed_2_points` finds the two nearest feature points of the 3ⁿ block: the first range is no larger than the range of any cell of the block; the second is no smaller, is no larger than the larger range of any two distinct cells of the block, and belongs to a point of the block or to the placeholder |
| Cell.CellSeed | src/cell.rs:185-432 | `cellN_seed` for the point's own dimension picks a cell between `near` and `far`, no farther than the near cell nor than any far cell whose guard holds at its range |
| Cell.CellRange | src/cell.rs:701-714 | `cellN_range` and `cellN_manhattan` are never negative, are the range to some cell between `near` and `far`, and are no larger than the near cell's range nor than that of any far cell whose guard holds at that range |
| Cell.CellRangeInv | src/cell.rs:716-729 | `cellN_range_inv` and `cellN_manhattan_inv` are the second range minus the first, never negative |
| Cell.CellValue | src/cell.rs:731-744 | `cellN_value` and `cellN_manhattan_value` are the hash, scaled into [0, 1], of a cell between `near` and `far` whose range is no larger than the near cell's nor than that of any far cell whose guard holds at it |
| Checkerboard.LowBit | src/core/checkerboard.rs:6 | `c & 1` is 0 or 1 and has the parity of `c`, negative `c` included |
| Checkerboard.XorBit | src/core/checkerboard.rs:6 | `^` on two bits is 0 exactly when they are equal |
| Checkerboard.XorLowBits | src/core/checkerboard.rs:16 | the exclusive or of the low bits is a bit |
| Checkerboard.Colour | src/core/checkerboard.rs:6-10 | a cell is coloured −1 or 1 |
| Checkerboard.Checkerboard | src/core/checkerboard.rs:4-31 | `checkerboard_2d`..`checkerboard_4d` output −1 or 1 |
| Checkerboard.XorLowBitsIsParity | src/core/checkerboard.rs:26 | the exclusive or of the low bits is the parity of the sum of the coordinates |
| Checkerboard.ColourIsParity | src/core/checkerboard.rs:24-31 | a cell is −1 exactly when its coordinate sum is even, so neighbours along any axis have opposite colours |
| Checkerboard.CheckerboardIsParity | src/core/checkerboard.rs:24-31 | a point is −1 exactly when the sum of its `floor_to_isize` coordinates is even |
| Checkerboard.Checkerboard2D | src/core/checkerboard.rs:4-11 | in 2D the output is −1 exactly when the two low bits are equal |
| Checkerboard.IntSumIncrement | src/core/checkerboard.rs:24-31 | raising one coordinate by one raises the sum by one |
| Checkerboard.NeighbourCellFlips | src/core/checkerboard.rs:4-31 | a step of `grid_size` along any axis from a point off the cell boundaries lands on the other colour |
| Checkerboard.ZeroAndOneStepShareColour | src/core/checkerboard.rs:5 | because `floor_to_isize` sends 0.0 to cell −1, the points at 0 and at one grid step along an axis share a colour |
| Spheres.NearestShell | src/core/spheres.rs:9-12 | `nearest_dist` lies in [0, 0.5], is 0 exactly on a shell and 0.5 exactly halfway between shells |
| Spheres.Spheres | src/core/spheres.rs:5-15 | the output lies in [−1, 1], is 1 exactly at a whole distance from the origin and −1 exactly halfway between |
| Spheres.RootIsUnique | src/core/spheres.rs:8 | a non-negative magnitude is fixed by its square |
| Spheres.SpheresDependsOnMagnitude | src/core/spheres.rs:5-15 | two points at the same distance from the origin after scaling give the same output |
| Spheres.SpheresAtOrigin | src/core/spheres.rs:5-15 | the origin lies on a shell and outputs 1 |
| Spheres.SpheresScalesFirst | src/core/spheres.rs:6 | the output at `frequency` is the output of the scaled point at frequency 1 |
| Fractals.OctaveSeed | src/noise_fns/generators/fractals/mod.rs:80 | `seed + x as u32` stays a `u32`, wrapping on overflow |
| Fractals.BuildSources | src/noise_fns/generators/fractals/mod.rs:77-83 | `build_sources` returns one source per octave, in order, octave `x` seeded with `seed + x` |
| Fractals.SourcesDistinct | src/noise_fns/generators/fractals/mod.rs:77-83 | while there are no more than 2³² octaves, no two octaves share a seed |
| Fractals.ClampOctaves | src/noise_fns/generators/fractals/fbm.rs:101 | `math::clamp(octaves, 1, FBM_MAX_OCTAVES)` lies in [1, 32] and keeps a count already in range |
| Fractals.OctavePoint | src/noise_fns/generators/fractals/fbm.rs:154-167 | the point octave `x` samples has the input's dimension |
| Fractals.OctavePointIsGeometric | src/noise_fns/generators/fractals/fbm.rs:154-167 | octave `x` samples the point scaled by `frequency · lacunarity^x` |
| Fractals.PowI | src/noise_fns/generators/fractals/fbm.rs:171 | `powi` with a negative exponent is the reciprocal of the positive power, and is infinite (`None`) only for a zero base |
| Fractals.HalfGeometricSum | src/noise_fns/generators/fractals/fbm.rs:161-172 | the first `n` powers of 1/2 sum to `2 − (1/2)^(n−1)`: the scale is the largest sum the octaves can reach |
| Fractals.HalfScaleBounds | src/noise_fns/generators/fractals/fbm.rs:171 | for one octave or more the scale `2 − (1/2)^(octaves−1)` lies in [1, 2) |
| Fractals.DivWithinUnit | src/noise_fns/generators/fractals/fbm.rs:172 | dividing a sum by a scale at least as large lands in [−1, 1] |
| Fbm.Fbm.New | src/noise_fns/generators/fractals/fbm.rs:77-86 | `Fbm::new` holds the default seed 0, six octaves, frequency 1, lacunarity 2 and persistence 1/2, with its sources built |
| Fbm.Fbm.SetOctaves | src/noise_fns/generators/fractals/fbm.rs:96-107 | the current count returns the generator unchanged; any other is clamped to [1, 32] and the sources are rebuilt for it; nothing else changes |
| Fbm.Fbm.SetFrequency | src/noise_fns/generators/fractals/fbm.rs:109-114 | only the frequency changes |
| Fbm.Fbm.SetLacunarity | src/noise_fns/generators/fractals/fbm.rs:116-121 | only the lacunarity changes |
| Fbm.Fbm.SetPersistence | src/noise_fns/generators/fractals/fbm.rs:123-128 | only the persistence changes |
| Fbm.Fbm.SetSeed | src/noise_fns/generators/fractals/fbm.rs:132-142 | the current seed returns the generator unchanged; any other seed rebuilds the sources for the same octave count |
| Fbm.Fbm.Get | src/noise_fns/generators/fractals/fbm.rs:150-228 | the octave loop adds source `x` at `point · frequency · lacunarity^x` times `persistence^x`, and the sum is divided by `2 − persistence^(octaves−1)` |
| Fbm.Fbm.SingleOctave | src/noise_fns/generators/fractals/fbm.rs:150-173 | with one octave the scale is 1 and `get` is the first source at `point · frequency` |
| Fbm.Fbm.OctaveSumBounded | src/noise_fns/generators/fractals/fbm.rs:156-168 | with source values in [−1, 1] and a non-negative persistence, `n` octaves sum to at most `Σ persistence^x` in magnitude |
| Fbm.Fbm.OctaveAdds | src/noise_fns/generators/fractals/fbm.rs:158-164 | octave `x` adds at most `persistence^x` in magnitude |
| Fbm.Fbm.HalfPersistenceInRange | src/noise_fns/generators/fractals/fbm.rs:150-173 | with persistence 1/2 and source values in [−1, 1], `get` returns a value in [−1, 1] |
| Fbm.DefaultInRange | src/noise_fns/generators/fractals/fbm.rs:77-86 | the default generator's output lies in [−1, 1] for sources in [−1, 1] |
| RidgedMulti.Ridge | src/noise_fns/generators/fractals/ridgedmulti.rs:177-181 | the ridge `(1 − |v|)²` of a source value is never negative, and at most 1 for a value in [-1, 1] |
| RidgedMulti.SignalBounds | src/noise_fns/generators/fractals/ridgedmulti.rs:177-186 | weighting the ridge of a value in [-1, 1] by a weight in [0, 1] gives a signal in [0, weight] |
| RidgedMulti.RidgedMulti.New | src/noise_fns/generators/fractals/ridgedmulti.rs:84-94 | `new` gives seed 0, 6 octaves, frequency 1, lacunarity 2, persistence 1, attenuation 2 and one source per octave |
| RidgedMulti.RidgedMulti.SetAttenuation | src/noise_fns/generators/fractals/ridgedmulti.rs:96-101 | only the attenuation changes |
| RidgedMulti.RidgedMulti.SetOctaves | src/noise_fns/generators/fractals/ridgedmulti.rs:111-122 | the current count returns the generator unchanged; any other count is clamped to [1, 32] and the sources are rebuilt for it; every other field is kept |
| RidgedMulti.RidgedMulti.SetFrequency | src/noise_fns/generators/fractals/ridgedmulti.rs:124-129 | only the frequency changes |
| RidgedMulti.RidgedMulti.SetLacunarity | src/noise_fns/generators/fractals/ridgedmulti.rs:131-136 | only the lacunarity changes |
| RidgedMulti.RidgedMulti.SetPersistence | src/noise_fns/generators/fractals/ridgedmulti.rs:138-143 | only the persistence changes |
| RidgedMulti.RidgedMulti.SetSeed | src/noise_fns/generators/fractals/ridgedmulti.rs:147-157 | the current seed returns the generator unchanged; any other seed rebuilds the sources, octave `x` seeded `seed + x`; every other field is kept |
| RidgedMulti.RidgedMulti.Accumulate | src/noise_fns/generators/fractals/ridgedmulti.rs:165-202 | `result` and `weight` after `n` octaves from 0 and 1: each octave adds its weighted ridge times `persistence^x` and turns it, divided or multiplied by the attenuation and clamped to [0, 1], into the next weight |
| RidgedMulti.RidgedMulti.Value | src/noise_fns/generators/fractals/ridgedmulti.rs:165-300 | what `get` returns: the accumulated result through `scale_shift` with `2 / (2 − 0.5^(octaves−1))`; a panic when there are fewer sources than octaves or when the scale is zero |
| RidgedMulti.RidgedMulti.Get | src/noise_fns/generators/fractals/ridgedmulti.rs:165-300 | the octave loop computes the folded, weighted and attenuated sum of the sources, then hands it to `scale_shift` with the factor `2 / (2 − 0.5^(octaves−1))`; a panic when there are fewer sources than octaves; the 2D and 3D `get` divide the signal by the attenuation, the 4D `get` multiplies by it |
| RidgedMulti.RidgedMulti.Octave | src/noise_fns/generators/fractals/ridgedmulti.rs:174-198 | one pass of the loop body: ridge, weight, divide (2D, 3D) or multiply (4D, line 281) by the attenuation and clamp into the next weight, scale by `persistence^x` into the result |
| RidgedMulti.RidgedMulti.ResultBounded | src/noise_fns/generators/fractals/ridgedmulti.rs:172-202 | for sources in [-1, 1] and a non-negative persistence the unscaled result of `n` octaves lies in [0, Σ persistence^x] and every weight lies in [0, 1] — the clamp keeps the sum from diverging |
| RidgedMulti.RidgedMulti.OctaveAdds | src/noise_fns/generators/fractals/ridgedmulti.rs:186-198 | each octave adds between 0 and `persistence^x` and leaves a weight in [0, 1] |
| RidgedMulti.RidgedMulti.NextAdds | src/noise_fns/generators/fractals/ridgedmulti.rs:189-198 | a signal in [0, 1] adds at most its amplitude; the clamped next weight lies in [0, 1] whatever the signal |
| RidgedMulti.RidgedMulti.AccumulateStep | src/noise_fns/generators/fractals/ridgedmulti.rs:172-202 | octave `x + 1`'s state is octave `x`'s state updated by one loop pass |
| RidgedMulti.RidgedMulti.ScaleFactor | src/noise_fns/generators/fractals/ridgedmulti.rs:205-206 | with at least one octave the scale lies in [1, 2), so the factor passed to `scale_shift` lies in (1, 2] |
| RidgedMulti.MultipliedWeightGrows | src/noise_fns/generators/fractals/ridgedmulti.rs:281 | as written the 4D loop multiplies by the attenuation: a signal of 1/4 gives a next weight of 1/2, where dividing gives 1/8 |
| RidgedMulti.MultipliedWeightKeepsFullRidges | src/noise_fns/generators/fractals/ridgedmulti.rs:257-300 | with the defaults and two sources reading 0, the 4D loop as written sums to 2 |
| RidgedMulti.DividedWeightHalvesSecondRidge | src/noise_fns/generators/fractals/ridgedmulti.rs:165-254 | for the same generator and sources the 2D and 3D loops sum to 3/2 |
| RidgedMulti.DividedWeightAttenuates | src/noise_fns/generators/fractals/ridgedmulti.rs:189-192 | dividing by an attenuation of at least 1 never lets the next weight exceed the signal |
| HybridMulti.GuardedBounds | src/noise_fns/generators/fractals/hybridmulti.rs:148 | raising the weight to at least 1 gives exactly 1 for any weight up to 1; capping it at 1 never exceeds 1 or the weight |
| HybridMulti.HybridMulti.New | src/noise_fns/generators/fractals/hybridmulti.rs:65-76 | `new` gives seed 0, 6 octaves, frequency 2, lacunarity 2, persistence 0.25 and one source per octave |
| HybridMulti.HybridMulti.SetOctaves | src/noise_fns/generators/fractals/hybridmulti.rs:84-95 | the current count returns the generator unchanged; any other count is clamped to [1, 32] and the sources are rebuilt for it |
| HybridMulti.HybridMulti.SetFrequency | src/noise_fns/generators/fractals/hybridmulti.rs:97-102 | only the frequency changes |
| HybridMulti.HybridMulti.SetLacunarity | src/noise_fns/generators/fractals/hybridmulti.rs:104-109 | only the lacunarity changes |
| HybridMulti.HybridMulti.SetPersistence | src/noise_fns/generators/fractals/hybridmulti.rs:111-116 | only the persistence changes |
| HybridMulti.HybridMulti.SetSeed | src/noise_fns/generators/fractals/hybridmulti.rs:120-130 | the current seed returns the generator unchanged; any other seed rebuilds the sources, octave `x` seeded `seed + x` |
| HybridMulti.HybridMulti.Accumulate | src/noise_fns/generators/fractals/hybridmulti.rs:139-164 | `result` and `weight` after `n` octaves: the first octave times the persistence sets both; each later octave adds its `persistence^x`-scaled value times the guarded weight and makes that product the weight |
| HybridMulti.HybridMulti.Value | src/noise_fns/generators/fractals/hybridmulti.rs:139-235 | what `get` returns: three times the result of `max(octaves, 1)` octaves; a panic when there are no sources or fewer than the octaves |
| HybridMulti.HybridMulti.Get | src/noise_fns/generators/fractals/hybridmulti.rs:139-235 | the first octave times the persistence starts result and weight; each later octave adds its weighted, `persistence^x`-scaled signal and multiplies the weight by it; the result is tripled; the weight is guarded by `max(1.0)` as written or capped at 1 as intended; a panic when there are fewer sources than octaves |
| HybridMulti.HybridMulti.AccumulateStep | src/noise_fns/generators/fractals/hybridmulti.rs:146-164 | octave `x + 1`'s state is octave `x`'s state updated by one loop pass |
| HybridMulti.HybridMulti.Octave | src/noise_fns/generators/fractals/hybridmulti.rs:146-164 | one pass of the loop body for octave `x`: guard the weight, scale the source value by `persistence^x`, add it times the guarded weight to the result and make that product the next weight |
| HybridMulti.HybridMulti.Step | src/noise_fns/generators/fractals/hybridmulti.rs:146-164 | one later octave's update of `result` and `weight`, the same for the loop and for the octave sum |
| HybridMulti.HybridMulti.SingleOctave | src/noise_fns/generators/fractals/hybridmulti.rs:139-168 | with one octave the loop does not run: `get` is three times the persistence times the first source at `point · frequency` |
| HybridMulti.HybridMulti.RaisedWeightIsOne | src/noise_fns/generators/fractals/hybridmulti.rs:148 | as written, `weight.max(1.0)` turns every weight into exactly 1 for sources in [-1, 1], so the result is the plain unweighted octave sum |
| HybridMulti.HybridMulti.RaisedOctave | src/noise_fns/generators/fractals/hybridmulti.rs:146-164 | one later octave under the raised guard adds its unweighted amount and keeps the weight in [-1, 1] |
| HybridMulti.HybridMulti.FirstOctaveBounded | src/noise_fns/generators/fractals/hybridmulti.rs:142 | the first octave's value lies within ± the persistence |
| HybridMulti.HybridMulti.CappedWeightBounded | src/noise_fns/generators/fractals/hybridmulti.rs:146-164 | with the weight capped at 1, for sources in [-1, 1] and persistence in [0, 1], every weight stays in [-1, 1] and the result of `n` octaves lies within ± Σ persistence^x |
| HybridMulti.HybridMulti.CappedOctaveAdds | src/noise_fns/generators/fractals/hybridmulti.rs:146-164 | under the cap each later octave adds at most `persistence^x` in magnitude and keeps the weight in [-1, 1] |
| HybridMulti.HybridMulti.SampleBounded | src/noise_fns/generators/fractals/hybridmulti.rs:154 | each octave's source value of a bounded source lies in [-1, 1] |
| HybridMulti.RaisedWeightExample | src/noise_fns/generators/fractals/hybridmulti.rs:139-168 | with every source reading 1/2, persistence 1 and two octaves, the code as written gives 3 and the capped weight gives 9/4 |
| Turbulence.SamplePoint | src/noise_fns/transformers/turbulence.rs:127-196 | the point distort function `k` samples has the input's dimension |
| Turbulence.OffsetInUnit | src/noise_fns/transformers/turbulence.rs:127-196 | every offset `n / 65536` lies strictly between 0 and 1 |
| Turbulence.SampleOffLattice | src/noise_fns/transformers/turbulence.rs:124-128 | an integer coordinate is sampled strictly inside the next unit interval, away from the lattice where Perlin noise is zero |
| Turbulence.NewDistort | src/noise_fns/transformers/turbulence.rs:52-67 | each distort function is a default `Fbm` with the given seed, 3 octaves and frequency 1 |
| Turbulence.Turbulence.New | src/noise_fns/transformers/turbulence.rs:45-69 | `new` gives seed 0, frequency 1, power 1, roughness 3 and distort functions seeded 0, 1, 2, 3 |
| Turbulence.Turbulence.SetFrequency | src/noise_fns/transformers/turbulence.rs:71-80 | the turbulence and all four distort functions take the frequency; nothing else changes |
| Turbulence.Turbulence.SetPower | src/noise_fns/transformers/turbulence.rs:82-84 | only the power changes |
| Turbulence.Turbulence.SetRoughness | src/noise_fns/transformers/turbulence.rs:86-95 | the roughness becomes the octave count of all four distort functions |
| Turbulence.Turbulence.SetSeed | src/noise_fns/transformers/turbulence.rs:102-111 | distort function `k` is reseeded with `seed + k`, wrapping as a `u32` |
| Turbulence.Turbulence.Value | src/noise_fns/transformers/turbulence.rs:123-205 | `get` in 2 to 4 dimensions: the source read at the point displaced along each axis by its distort function; `None` when a distort function panics |
| Turbulence.Turbulence.DisplacementBounded | src/noise_fns/transformers/turbulence.rs:133-201 | for sources in [-1, 1] no distort function fails and every coordinate moves by at most the power |
| Turbulence.Turbulence.ZeroPowerReadsPoint | src/noise_fns/transformers/turbulence.rs:123-205 | with power 0 `get` reads the source at the point itself |
| ControlPoints.Position | src/noise_fns/modifiers/terrace.rs:106-110 | the index of the first control point at least the key: every earlier point is smaller, and the length when there is none |
| ControlPoints.InsertAt | src/noise_fns/modifiers/terrace.rs:76 | `Vec::insert`: the new point lands at the index, earlier points stay, later points move up by one, and nothing is lost |
| ControlPoints.AddKey | src/noise_fns/modifiers/terrace.rs:60-81 | the control points after `add_control_point`: unchanged when a point within `f64::EPSILON` is present, otherwise the point inserted before the first point at or above it |
| ControlPoints.AddKeySpaced | src/noise_fns/modifiers/terrace.rs:60-81 | adding a control point keeps the list ascending with neighbours at least `f64::EPSILON` apart |
| ControlPoints.AddKeyContents | src/noise_fns/modifiers/terrace.rs:62-77 | a point within `f64::EPSILON` of one present leaves the list unchanged; any other point is added exactly once and nothing else changes |
| ControlPoints.AddKeyNear | src/noise_fns/modifiers/terrace.rs:60-81 | after adding a point, a point near it is present |
| ControlPoints.AddKeyIdempotent | src/noise_fns/modifiers/terrace.rs:60-81 | adding the same point twice is adding it once |
| ControlPoints.SpacedUnique | src/noise_fns/modifiers/terrace.rs:60-81 | a spaced list is determined by its points: two spaced lists with the same points are equal |
| ControlPoints.AddKeyCommutes | src/noise_fns/modifiers/terrace.rs:60-81 | adding two points at least `f64::EPSILON` apart gives the same list in either order |
| ControlPoints.AddTwoMultiset | src/noise_fns/modifiers/terrace.rs:60-81 | adding two far-apart points adds each unless a point near it was already present |
| ControlPoints.AnyNearAfterAdd | src/noise_fns/modifiers/terrace.rs:62-66 | adding a point does not change whether a point far from it has a near neighbour |
| ControlPoints.PositionOfKey | src/noise_fns/modifiers/terrace.rs:106-110 | in a spaced list the search finds a present point at its own index |
| ControlPoints.PositionAboveLast | src/noise_fns/modifiers/terrace.rs:106-110 | a value above the last point is past every point |
| ControlPoints.SpacedBetweenEnds | src/noise_fns/modifiers/terrace.rs:38 | every point of a spaced list lies between the first and the last |
| Terrace.ClampIndex | src/noise_fns/modifiers/terrace.rs:143-145 | `isize::clamp` stays within [min, max] and keeps an index already inside |
| Terrace.Terraced | src/noise_fns/modifiers/terrace.rs:125-139 | between two neighbouring points: `alpha` is the position between them, inverted with the points swapped when the terraces are inverted, squared and used to interpolate linearly |
| Terrace.Value | src/noise_fns/modifiers/terrace.rs:97-140 | `get` panics exactly when there are fewer than two control points |
| Terrace.TerracedBetween | src/noise_fns/modifiers/terrace.rs:125-139 | between two neighbouring points the squared-alpha curve, inverted or not, stays between them and reaches the upper one at its end |
| Terrace.ValueBelowFirst | src/noise_fns/modifiers/terrace.rs:114-123 | a value at or below the lowest point returns that point |
| Terrace.ValueAboveLast | src/noise_fns/modifiers/terrace.rs:114-123 | a value above the highest point returns that point |
| Terrace.ValueInRange | src/noise_fns/modifiers/terrace.rs:97-140 | every output lies between the lowest and the highest control point |
| Terrace.ValueAtControlPoint | src/noise_fns/modifiers/terrace.rs:97-140 | every control point maps to itself, inverted or not |
| Terrace.Terrace.constructor | src/noise_fns/modifiers/terrace.rs:45-51 | `new`: no control points, not inverted |
| Terrace.Terrace.AddControlPoint | src/noise_fns/modifiers/terrace.rs:60-81 | the points become the list with the new point added and stay spaced; the inversion flag is kept |
| Terrace.Terrace.InvertTerraces | src/noise_fns/modifiers/terrace.rs:85-90 | only the inversion flag changes |
| Curve.Inputs | src/noise_fns/modifiers/curve.rs:35-38 | the input values of the control points, in order |
| Curve.ClampIndex | src/noise_fns/modifiers/curve.rs:118-120 | `math::clamp` with the lower bound tested first: within [min, max] when min ≤ max, and an index already inside is kept |
| Curve.Spline | src/noise_fns/modifiers/curve.rs:104-114 | between two neighbouring points: the cubic interpolation of the four points' outputs at the position between the middle two inputs |
| Curve.AddPointInputs | src/noise_fns/modifiers/curve.rs:48-71 | adding a point adds its input exactly as a terrace adds a value, so the inputs stay sorted and spaced |
| Curve.AddPointContents | src/noise_fns/modifiers/curve.rs:48-71 | a point whose input is near a present input is ignored, whatever its output; any other point is added exactly once |
| Curve.SplineAtUpper | src/noise_fns/modifiers/curve.rs:104-114 | the cubic spline reaches the upper point's output at its input |
| Curve.Value | src/noise_fns/modifiers/curve.rs:75-115 | `get` panics exactly when there are fewer than four control points |
| Curve.ValueBelowFirst | src/noise_fns/modifiers/curve.rs:89-102 | a value at or below the lowest input returns the first point's output |
| Curve.ValueAboveLast | src/noise_fns/modifiers/curve.rs:89-102 | a value above the highest input returns the last point's output |
| Curve.ValueAtControlPoint | src/noise_fns/modifiers/curve.rs:75-115 | the curve passes through every control point |
| Curve.Curve.constructor | src/noise_fns/modifiers/curve.rs:41-46 | `new`: no control points |
| Curve.Curve.AddControlPoint | src/noise_fns/modifiers/curve.rs:48-71 | the points become the list with the new point added, and the inputs stay spaced |
| ClampModifier.Clamp.New | src/noise_fns/modifiers/clamp.rs:23-28 | `new` gives bounds (−1, 1) |
| ClampModifier.Clamp.SetLowerBound | src/noise_fns/modifiers/clamp.rs:30-35 | only `bounds.0` changes |
| ClampModifier.Clamp.SetUpperBound | src/noise_fns/modifiers/clamp.rs:37-42 | only `bounds.1` changes |
| ClampModifier.Clamp.SetBounds | src/noise_fns/modifiers/clamp.rs:44-49 | both bounds take the given values |
| ClampModifier.Clamp.Value | src/noise_fns/modifiers/clamp.rs:53-57 | `get`: the source's value passed through `math::clamp` with the two bounds |
| ClampModifier.Clamp.ValueInBounds | src/noise_fns/modifiers/clamp.rs:52-57 | with ordered bounds the output lies within them, a value already inside passes through unchanged, and clamping twice is clamping once |
| ClampModifier.Clamp.CrossedBounds | src/noise_fns/modifiers/clamp.rs:52-57 | with crossed bounds `math::clamp` gives the lower bound below it and the upper bound everywhere else |
| Select.Select.New | src/noise_fns/selectors/select.rs:38-51 | `new` gives bounds (0, 1) and no falloff |
| Select.Select.SetBounds | src/noise_fns/selectors/select.rs:53-59 | both bounds change and the falloff is kept |
| Select.Select.SetEdgeFalloff | src/noise_fns/selectors/select.rs:61-66 | only the falloff changes |
| Select.Select.Value | src/noise_fns/selectors/select.rs:73-109 | `get` given the control value and both sources' values: with a falloff, `source1` outside the bounds and `source2` inside, blended by an S-curve across a band of the falloff's width around each bound; without one, `source2` exactly inside the closed bounds |
| Select.Select.SharpSelection | src/noise_fns/selectors/select.rs:104-108 | without a positive falloff the output is `source2` exactly when the control value lies in the closed range, `source1` otherwise |
| Select.Select.FalloffSelection | src/noise_fns/selectors/select.rs:76-103 | with a falloff, a control value below `lower − falloff` gives `source1`, one in `[lower + falloff, upper − falloff)` gives `source2`, and one at or above both `lower + falloff` and `upper + falloff` gives `source1` |
| Select.Select.ValueBetweenSources | src/noise_fns/selectors/select.rs:73-109 | every output lies between the two source values: the bands blend them with a weight in [0, 1] |
| Select.Select.LowerBandStartsAtSource1 | src/noise_fns/selectors/select.rs:81-89 | the lower band starts at `source1`: at `lower − falloff` the S-curve weight is 0 |
| Select.BandAlphaInUnit | src/noise_fns/selectors/select.rs:82-86 | inside a band the `s_curve3` weight of the normalised position lies in [0, 1] |
| CyclePoint.Lerp | src/noise_fns/transformers/cycle_point.rs:3-5 | the two fused multiply-adds compute the linear blend from `start` to `end`: `start` at 0 and `end` at 1 |
| CyclePoint.FmodAsWritten | src/noise_fns/transformers/cycle_point.rs:61 | `f64`'s `%` truncates the quotient: the remainder is `x − period·trunc(x / period)` |
| CyclePoint.FmodNonNegative | src/noise_fns/transformers/cycle_point.rs:61 | for a non-negative coordinate the remainder lies in `[0, period)` |
| CyclePoint.FmodNegative | src/noise_fns/transformers/cycle_point.rs:63 | for a negative coordinate the remainder lies in `(−period, 0]` |
| CyclePoint.FmodOdd | src/noise_fns/transformers/cycle_point.rs:60-64 | the remainder is an odd function of the coordinate |
| CyclePoint.WrapRange | src/noise_fns/transformers/cycle_point.rs:60-66 | for a positive period `x0` lies in `[0, period)` for a non-negative coordinate and in `(0, period]` for a negative one, `x0 + x1 = period`, and `xt` lies in [0, 1] |
| CyclePoint.WrapPeriodic | src/noise_fns/transformers/cycle_point.rs:60-66 | moving a non-negative coordinate on by its period gives the same `x0`, `x1` and `xt` |
| CyclePoint.BlendBounded | src/noise_fns/transformers/cycle_point.rs:92-96 | nested blends with weights in [0, 1] stay within the bounds of the source |
| CyclePoint.CyclePoint.New | src/noise_fns/transformers/cycle_point.rs:28-36 | `new` sets every period to 1 |
| CyclePoint.CyclePoint.SetXPeriod | src/noise_fns/transformers/cycle_point.rs:38-40 | only the x period changes |
| CyclePoint.CyclePoint.SetYPeriod | src/noise_fns/transformers/cycle_point.rs:42-44 | only the y period changes |
| CyclePoint.CyclePoint.SetZPeriod | src/noise_fns/transformers/cycle_point.rs:46-48 | only the z period changes |
| CyclePoint.CyclePoint.SetUPeriod | src/noise_fns/transformers/cycle_point.rs:50-52 | only the u period changes |
| CyclePoint.CyclePoint.Value | src/noise_fns/transformers/cycle_point.rs:59-259 | `get` in 1 to 4 dimensions: the nested blends of the source at the wrapped coordinates of each axis; `None` when a period is zero, where the remainder is NaN |
| CyclePoint.CyclePoint.ValueBounded | src/noise_fns/transformers/cycle_point.rs:59-259 | with positive periods `get` in 1 to 4 dimensions stays within the bounds of the source |
| CyclePoint.CyclePoint.ValuePeriodic | src/noise_fns/transformers/cycle_point.rs:59-259 | the output repeats along every axis: moving a non-negative coordinate on by its period does not change it |
| CyclePoint.CyclePoint.SeamJoins | src/noise_fns/transformers/cycle_point.rs:59-68 | in one dimension the coordinate `−period` wraps to `period` and reads the same as 0 |
| ColorGradient.AsU8 | src/utils/color_gradient.rs:150 | `as u8` truncates toward zero and saturates at 0 and 255 |
| ColorGradient.BlendValueLinear | src/utils/color_gradient.rs:146-151 | scaling both channels down by 255 and the blend back up by 255 is the linear blend of the two channels |
| ColorGradient.BlendChannelsBetween | src/utils/color_gradient.rs:146-151 | with a weight in [0, 1] the blended channel lies between the two channels, equal to the first at 0 and to the second at 1 |
| ColorGradient.BlendChannelsExamples | src/utils/color_gradient.rs:166-194 | `blend_channels(0, 255, α)` is 0, 127 and 255 for α = 0, 0.5 and 1 |
| ColorGradient.LinerpColorBetween | src/utils/color_gradient.rs:153-160 | the colour blend is the first colour at weight 0 and the second at 1, and every channel lies between theirs |
| ColorGradient.LinerpColorExample | src/utils/color_gradient.rs:196-202 | `linerp_color([0, 0, 255, 0], [0, 255, 255, 0], 0.5)` is `[0, 127, 255, 0]` |
| ColorGradient.Positions | src/utils/color_gradient.rs:4-7 | the positions of the gradient points, in order |
| ColorGradient.FindInsertionPoint | src/utils/color_gradient.rs:77-82 | the index of the first point at or above the position, every earlier point lying below it; the length when there is none |
| ColorGradient.ColorAt | src/utils/color_gradient.rs:123-143 | `get_color`: the first point's colour below the domain, the last point's above it (a panic without points), otherwise the blend of the last window that takes the position, or `[0; 4]` |
| ColorGradient.AddedOrdered | src/utils/color_gradient.rs:45-75 | adding a point keeps the points strictly ascending and inside the grown domain |
| ColorGradient.PrependOrdered | src/utils/color_gradient.rs:50-54 | a point below the domain, put first with the minimum lowered to it, keeps the points ordered |
| ColorGradient.AppendOrdered | src/utils/color_gradient.rs:55-59 | a point above the domain, put last with the maximum raised to it, keeps the points ordered |
| ColorGradient.InsertOrdered | src/utils/color_gradient.rs:60-72 | a point inside the domain and far from every point, inserted at its insertion point, keeps the points ordered |
| ColorGradient.InsertIncreasing | src/utils/color_gradient.rs:68-71 | inserting a position far from every position at its insertion point keeps the positions strictly ascending |
| ColorGradient.AddedContents | src/utils/color_gradient.rs:45-75 | below the domain the point is prepended and becomes the minimum; above it the point is appended and becomes the maximum; inside it the domain is kept, a point near one present is dropped, and any other is added exactly once at its insertion point |
| ColorGradient.ColorOutsideDomain | src/utils/color_gradient.rs:126-129 | below the domain the colour is the first point's and above it the last point's; with no points either one panics |
| ColorGradient.ScanSelects | src/utils/color_gradient.rs:131-139 | when window `k` takes the position and every later window starts above it, the scan ends with window `k`'s blend |
| ColorGradient.ScanNone | src/utils/color_gradient.rs:124-139 | when no window takes the position the scan leaves `[0; 4]` |
| ColorGradient.ColorBetweenPoints | src/utils/color_gradient.rs:123-143 | from a point up to but not including the next, the colour is the two points' blend and each channel lies between theirs |
| ColorGradient.ColorAtPoint | src/utils/color_gradient.rs:123-143 | with the upper point taken as intended, the gradient passes through every point |
| ColorGradient.ColorAtLowerPoint | src/utils/color_gradient.rs:131-139 | at the lower point of a window the blend weight is 0, so the colour is that point's |
| ColorGradient.ColorAtLastPoint | src/utils/color_gradient.rs:131-139 | with the upper point taken as intended, the last window gives the last point's colour at its position |
| ColorGradient.LastPointAsWritten | src/utils/color_gradient.rs:131-139 | as written no window takes the last point's position, so the colour there is `[0, 0, 0, 0]` |
| ColorGradient.GrayscaleAtOne | src/utils/color_gradient.rs:36-43 | `ColorGradient::new().get_color(1.0)` is `[0, 0, 0, 0]` as written and white when the upper point is taken |
| ColorGradient.ColorGradient.constructor | src/utils/color_gradient.rs:36-43 | `new` starts from the domain (0, 1) and builds the grayscale gradient: black at −1 and white at 1, domain (−1, 1) |
| ColorGradient.ColorGradient.AddGradientPoint | src/utils/color_gradient.rs:45-75 | the points and the domain become those of the added point, and stay ordered |
| ColorGradient.ColorGradient.ClearGradient | src/utils/color_gradient.rs:84-88 | no points remain and the domain is kept |
| ColorGradient.ColorGradient.BuildGrayscaleGradient | src/utils/color_gradient.rs:90-94 | the points are black at −1 then white at 1, and the domain grows to take both in |
| ColorGradient.ColorGradient.GetColor | src/utils/color_gradient.rs:123-143 | the loop over the windows computes the colour of the position, each window open above as written or also taking its upper point as intended; a panic when the position is outside the domain and there are no points |
| ColorGradient.MidGrayExample | src/utils/color_gradient.rs:204-214 | with black at 0 and white at 1 the colour at 0.5 is 127 in every channel |
| NoiseMap.RowStep | src/utils/noise_map.rs:71 | one row further down is `width` further along the buffer |
| NoiseMap.CellInBounds | src/utils/noise_map.rs:70-71 | cell `(x, y)` inside the size lies inside a buffer of `width·height` values, so the write and the read never index past it |
| NoiseMap.CellInjective | src/utils/noise_map.rs:71 | distinct cells have distinct indices `x + y·width` |
| NoiseMap.NoiseMap.Initialize | src/utils/noise_map.rs:119-125 | size (0, 0), border value 0, an empty buffer |
| NoiseMap.NoiseMap.constructor | src/utils/noise_map.rs:18-20 | `new` is an initialized map resized: size (0, 0) when either side is zero, otherwise the given size, and every read gives 0 |
| NoiseMap.NoiseMap.SetSize | src/utils/noise_map.rs:22-50 | both sides must be below 32767; a zero side resets the map to its initial state; otherwise the size changes, a buffer too small is replaced by zeros, and a large enough buffer keeps its values |
| NoiseMap.NoiseMap.SetBorderValue | src/utils/noise_map.rs:56-61 | only the border value changes |
| NoiseMap.NoiseMap.GetValue | src/utils/noise_map.rs:77-85 | `get_value`: the cell at `x + y·width` inside the grid, the border value outside it |
| NoiseMap.NoiseMap.SetValue | src/utils/noise_map.rs:67-85 | inside the grid the cell at `x + y·width` takes the value and every other cell keeps its own, so a read of that cell returns the value; outside the grid nothing changes; reads outside give the border value |

## Left out

- Floating point: `f64` rounding, NaN and infinities are not modelled; every computation is exact over `real`. The model does not bound the unclamped sums (simplex, OpenSimplex, SuperSimplex, fractal outputs) to [-1, 1], does not check their normalisation constants, and does not prove continuity.
- Machine integers: `isize` and `usize` are unbounded, so an `as isize` cast out of range is not modelled. `u32` seed additions wrap modulo 2³² explicitly.
- Fractals.OctaveSeed: `seed + x` is modelled as a wrapping addition, as in a release build. A debug build panics on that overflow.
- Turbulence.Turbulence.SetSeed: `seed + k` is modelled as a wrapping addition, as in a release build. A debug build panics on that overflow.
- Square roots: `f64::sqrt` has no counterpart over `real`.
  - Simplex noise takes the root of n + 1 as a parameter characterised by `IsRoot`.
  - Spheres noise takes the point's magnitude as a parameter.
  - Worley's `euclidean` distance (a square root) is not modelled; `euclidean_squared`, `manhattan`, `chebyshev` and `quadratic` are.
- Simplex noise: the derivative outputs (`dnoise`) are not modelled. The corner, table and surflet logic that produces the value is.
- Trigonometry is not modelled: `rotate_point`, the latitude/longitude helpers and the light source.
- The random-number generator: `XorShiftRng` and `Rng::shuffle` are not modelled.
  - The shuffle is a Fisher–Yates pass driven by an arbitrary stream of draws.
  - `new(seed)` is deterministic because that stream is a function of the seed.
- `NoiseHasher::hash` is not part of this model. Its `PermutationTable` implementation is modelled as the `get1`..`get4` chain, generalised to any number of coordinates.
- `signed_modulus` (used by `Seed::get2`) is not part of this model. It is taken to return the Euclidean remainder, in [0, 256).
- `scale_shift` (used by `RidgedMulti::get`) is not part of this model. It is a function parameter of `RidgedMulti.RidgedMulti.Get`.
- RidgedMulti.RidgedMulti.Get: when it divides by the attenuation (the 2D and 3D `get`) it requires a non-zero attenuation. The infinite weight that an `f64` division by zero gives (and then clamps) is not modelled.
- Fbm.Fbm.Get: returns `None` where the scale is zero or the persistence power is unbounded. That stands for the non-finite `f64` quotient, which is not modelled.
- Noise sources are function parameters.
  - Each `Select`, `Clamp`, `Terrace` and `Curve` evaluation is given its source value(s).
  - The forwarding of `Seedable` and `MultiFractal` setters to a wrapped source (for example terrace.rs:147-202) is therefore not modelled.
  - The `MultiFractal` trait itself is not modelled: each generator's setters are.
- Same-shape siblings are not modelled: they restate the modelled logic.
  - `Billow` and `BasicMulti` share `Fbm`'s octave loop.
  - The one-line combiners and modifiers: add, min, max, multiply, power, abs, negate, invert, exponent and scale_bias.
  - The scale_point, translate_point and displace transformers.
  - `noise_image.rs`.
  - `perlin_surflet`.
  - The older module and generator generations of the same algorithms.
- `ColorGradient::build_terrain_gradient` and `build_rainbow_gradient` are not modelled: they are fixed sequences of `add_gradient_point` calls, and that call is modelled.
- ColorGradient.BlendChannelsExamples: the channel round trip `(c / 255) · 255` is exact over `real`. The crate's tests rely on it holding in `f64` as well.
- ColorGradient.ColorAt: requires strictly ascending positions. The class invariant `Valid` guarantees them for every gradient built through `add_gradient_point`.
- NoiseMap:
  - `write_to_file` (image I/O) is not modelled.
  - The `eprintln!` on an out-of-bounds write is not modelled.
  - The `size` and `border_value` accessors are the fields themselves.
  - The `Vec`'s capacity is modelled as the buffer's length.
- NoiseMap.NoiseMap.SetSize: the two `assert!`s on the size are preconditions, not a modelled panic.
- Worley.Worley2D, Worley.Worley3D and Worley.Worley4D return the chosen cell and its distance as ghost results, used only in their contracts.
- Perlin.Grad4Dot: the 4D gradient arms are modelled as written, repeated and four-component arms included. No intended table is reconstructed, because the source states none.
- CyclePoint.Lerp: the two fused multiply-adds are exact over `real`, so their single rounding is not modelled.
- Vectors: `From<[T; N]>` and `into_array` are the identity, since a vector and an array are both the same `seq`.

## Findings

| source | as written | input that shows it | evidently intended | confidence | as-written member | corrected member |
|---|---|---|---|---|---|---|
| src/core/simplex.rs:8-16 | `grad1` matches `h & 8` against 0 and 1, but the masked value is 0 or 8, so every hash with bit 3 set reaches `unreachable!` | a hash of 8 | the second arm matches 8 and gives the positive gradient `1 + (h & 7)` | not executed | Simplex.Grad1PanicsOnBit3 | Simplex.Grad1Fixed |
| src/core/perlin.rs:23-42 | `perlin_1d` takes its corner with `as isize`, which truncates toward zero, so a negative point gets a negative distance and `map_quintic` panics | the point −0.5 | the corner is floored, as in `perlin_2d` to `perlin_4d` | not executed | Perlin.Perlin1DPanicsOnNegative | Perlin.Perlin1DFloored |
| src/core/simplex.rs:178-184 | the middle corner is hashed at `cell + distance1.numcast()`; `distance1` lies strictly between −1 and 1, so its truncation is zero and the cell is hashed twice | any point, for example (0.3, 0.1) | the middle corner is hashed at `cell + offset` | not executed | Simplex.MiddleCornerIsCellAsWritten | Simplex.Corners2D |
| src/core/simplex.rs:433-436 | the 4D cell is `skewed.numcast()`, which truncates, so for negative skewed coordinates the cell does not contain the point | the point (−0.1, −0.1, −0.1, −0.1) | the cell is `skewed.floor()`, as in 2D and 3D | not executed | Simplex.Cell4DAsWrittenMissesPoint | Simplex.SimplexCell |
| src/core/simplex.rs:503-507 | `gi3` hashes `cell + order2`, repeating `gi2` | any point | `gi3` hashes `cell + order3` | not executed | Simplex.Corners4DAsWritten | Simplex.Corners4D |
| src/noise_fns/generators/fractals/ridgedmulti.rs:281 | the 4D `get` sets `weight = signal * attenuation`, where 2D and 3D divide; with the default attenuation 2 the weight grows instead of being attenuated | a 4D point where the first two octaves read 0, for example the origin under Perlin sources: the first two octaves sum to 2 instead of 3/2 | `weight = signal / attenuation` | not executed | RidgedMulti.MultipliedWeightKeepsFullRidges | RidgedMulti.DividedWeightHalvesSecondRidge |
| src/noise_fns/generators/fractals/hybridmulti.rs:148 | the "prevent divergence" step is `weight.max(1.0)`, which raises every weight to at least 1, so for sources in [-1, 1] the weighting is switched off | two octaves, persistence 1, every source reading 1/2: `get` gives 3 | the weight is capped at 1 (`weight.min(1.0)`), which gives 9/4 | not executed | HybridMulti.RaisedWeightExample | HybridMulti.HybridMulti.CappedWeightBounded |
| src/utils/color_gradient.rs:131-139 | each window asks for `points[1].pos > pos`, so no window takes the last point's position and the colour there stays `[0, 0, 0, 0]` | `ColorGradient::new().get_color(1.0)` | white, the colour of the point at 1.0 | not executed | ColorGradient.GrayscaleAtOne | ColorGradient.ColorAtPoint |
