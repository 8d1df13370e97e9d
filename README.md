# Simplex noise: the discrete skeleton

A Dafny model of the integer and order-theoretic core of a Go port of Stefan
Gustavson's simplex noise (`simplex.go`). It covers:

- **Permutation-table construction** (`New`). A 256-entry table starts as
  the identity. Slot `i` is then swapped with slot `j = draw & 0xFF` for
  `i = 0..254`, but only when `j > i`. The model is a method over an array,
  proved against a specification function `Shuffled`.
- **Hash lookups** (`getPerm`, `getPermMod12`). Also the nested hash chains
  that turn a lattice cell and a corner into an index into the 12-entry
  `g3` or the 32-entry `g4` gradient table.
- **Simplex corner selection**. In 2D this is one comparison, in 3D a
  six-way decision tree, and in 4D rank counting followed by thresholding
  through `ifexpr`.
  The rank counting, which updates four counters, is the method `Rank4`.
  It is proved equal to the function `RanksOf`. The 4D corners and cell are
  built from `RanksOf`, since a function cannot call a method.

Modules:

- `Permutation` (permutation.dfy): the table, `New`, the shuffle
  specification, and the permutation lemmas.
- `Hash` (hash.dfy): `GetPerm`, `GetPermMod12`, the gradient tables and the
  periodicity and collision lemmas.
- `Corners` (corners.dfy): the lattice offsets of the intermediate simplex
  corners, chosen from the offsets of the sample inside its cell.
- `Lattice` (lattice.dfy): per dimension, the corners a sample's simplex
  visits and the gradient each corner hashes to.

Modelling choices:

- The table entries are a `uint8` newtype, matching Go's `[256]uint8`.
- Go's `k & 0xff` on a two's-complement integer equals the Euclidean
  remainder `k % 256`, so it is written that way. This holds for negative
  cell coordinates too.
- The random source is a caller-supplied sequence of 255 integers, one per
  shuffle iteration.
- The cell coordinates `i, j, k, l` are arbitrary integers.
- The offsets `x0, y0, z0, w0` are reals, because the corner selection only
  compares them.
- The gradient components are integers: every entry of `g3` and `g4` is
  -1, 0 or 1.

Tie-breaking follows the code exactly, and it is not uniform across
dimensions. In 2D and 4D a tie favours the later axis (`x0 > y0` is strict).
In 3D a tie favours the earlier axis (the tree starts with `x0 >= y0`).

## Model

| member | source | states |
|---|---|---|
| `Permutation.New` | simplex.go:45-59 | after the identity fill and the 255 conditional swaps, the table equals `Shuffled(draws)` (all 255 iterations of `ShuffleUpTo`) and holds each of 0..255 exactly once |
| `Permutation.Draw` | simplex.go:53 | the drawn slot lies in [0,255] and is congruent to the draw modulo 256, so it is its low byte |
| `Permutation.Step` | simplex.go:54-56 | one iteration swaps slots `i` and `j` when `j > i` and is the identity otherwise; no other slot changes |
| `Permutation.StepIsPermutation` | simplex.go:54-56 | a conditional swap keeps a permutation table a permutation |
| `Permutation.ShuffleUpTo` | simplex.go:52-57 | the table after the first `n` iterations still has 256 slots |
| `Permutation.IdentityIsPermutation` | simplex.go:47-50 | the identity fill (`Identity`, slot `i` holds `i`) is a permutation of 0..255 |
| `Permutation.ShuffledIsPermutation` | simplex.go:41-59 | the table is a permutation of 0..255 after every iteration of the shuffle loop |
| `Permutation.SlotSettled` | simplex.go:52-57 | once iteration `i` is over, slot `i` keeps its value through every later iteration |
| `Permutation.PermutationIsInjective` | simplex.go:41-42 | a permutation table has no repeated entry |
| `Permutation.PermutationIsSurjective` | simplex.go:41-42 | a permutation table contains every value 0..255 |
| `Hash.GetPerm` | simplex.go:113-115 | the lookup lies in [0,255] for every integer, including negative ones |
| `Hash.GetPermPeriodic` | simplex.go:113-115 | the lookup depends on its argument only modulo 256: `getPerm(k + 256*d) == getPerm(k)` for every integer `d` |
| `Hash.GetPermCollision` | simplex.go:113-115 | on a permutation table two arguments give the same hash if and only if they are congruent modulo 256 |
| `Hash.GetPermOnto` | simplex.go:113-115 | on a permutation table every value 0..255 is the hash of some argument in 0..255 |
| `Hash.GetPermMod12` | simplex.go:117-119 | the result is a valid index into the 12-entry `g3` for every integer argument |
| `Hash.Grad3Shape` | simplex.go:85-100 | `g3` has 12 entries, each with two components of ±1 and one zero |
| `Hash.Grad4Shape` | simplex.go:102-111 | `g4` has 32 entries, each with three components of ±1 and one zero |
| `Lattice.GradIndex2` | simplex.go:169-173 | the 2D gradient index of a corner, after masking the cell to 0..255, is inside `g3` for any integer cell |
| `Lattice.GradIndex3` | simplex.go:290-293 | the 3D gradient index of a corner, hashed from the raw cell coordinates, is inside `g3` for any integer cell |
| `Lattice.GradIndex4` | simplex.go:438-445 | the 4D gradient index, from four nested lookups reduced modulo 32, is inside `g4` for any integer cell |
| `Lattice.GradIndex2Unmasked` | simplex.go:169-173 | masking the 2D cell first selects the same gradient as hashing the raw coordinates, which is what 3D and 4D do |
| `Lattice.GradIndex2Periodic` | simplex.go:169-173 | the 2D gradient of a corner repeats every 256 cells along each axis |
| `Lattice.GradIndex3Periodic` | simplex.go:290-293 | the 3D gradient of a corner repeats every 256 cells along each axis |
| `Lattice.GradIndex4Periodic` | simplex.go:433-445 | the 4D gradient of a corner repeats every 256 cells along each axis |
| `Lattice.Gradients2` | simplex.go:181-197 | every gradient a 2D corner reads is a cube-edge midpoint: components in -1..1, exactly two of them non-zero |
| `Lattice.Gradients3` | simplex.go:301-322 | every gradient a 3D corner reads is a cube-edge midpoint: components in -1..1, exactly two of them non-zero |
| `Lattice.Gradients4` | simplex.go:454-486 | every gradient a 4D corner reads is a tesseract-edge midpoint: components in -1..1, exactly three of them non-zero |
| `Lattice.Gradients2Periodic` | simplex.go:169-173 | for any list of corners, the 2D gradients read repeat every 256 cells along each axis |
| `Lattice.Gradients3Periodic` | simplex.go:290-293 | for any list of corners, the 3D gradients read repeat every 256 cells along each axis |
| `Lattice.Gradients4Periodic` | simplex.go:433-445 | for any list of corners, the 4D gradients read repeat every 256 cells along each axis |
| `Lattice.Noise2Cell` | simplex.go:151-173 | the three corners `Noise2` visits go from the origin to (1,1); corner n has offsets summing to n, and offsets only grow along the walk; each corner's gradient is read in bounds and is an edge midpoint of the cube |
| `Lattice.Noise3Cell` | simplex.go:224-293 | the four corners `Noise3` visits form such a walk from (0,0,0) to (1,1,1); the two middle corners are those of `Corners3`; each gradient is read in bounds and is an edge midpoint of the cube |
| `Lattice.Noise4Cell` | simplex.go:358-445 | the five corners `Noise4` visits form such a walk from (0,0,0,0) to (1,1,1,1); the three middle corners are those of `Corners4`, so they follow the ranking of `x0..w0`; each gradient is read in bounds from `g4` and is an edge midpoint of the tesseract |
| `Lattice.Noise2CellPeriodic` | simplex.go:151-173 | shifting the 2D cell by multiples of 256 leaves its corners and gradients unchanged |
| `Lattice.Noise3CellPeriodic` | simplex.go:224-293 | shifting the 3D cell by multiples of 256 leaves its corners and gradients unchanged |
| `Lattice.Noise4CellPeriodic` | simplex.go:358-445 | shifting the 4D cell by multiples of 256 leaves its corners and gradients unchanged |
| `Corners.Corner2` | simplex.go:151-159 | exactly one offset is 1; it is `i1` exactly when `x0 > y0`, so a tie gives `(0,1)` |
| `Corners.Corners3` | simplex.go:224-272 | `i1+j1+k1 = 1`, `i2+j2+k2 = 2`, and corner 1 is componentwise below corner 2. Both corners step along larger coordinates before smaller ones. The axis set at corner 1 is maximal and the axis left out at corner 2 is minimal, each stated as an if-and-only-if with the code's tie-breaking |
| `Corners.RanksOf` | simplex.go:358-392 | the ranks, defined per axis as the number of other axes it beats (a later axis wins ties), are a permutation of 0..3 that sums to 6; for each pair of axes, the earlier one ranks higher if and only if its offset is strictly larger |
| `Corners.Rank4` | simplex.go:358-392 | the six pairwise comparisons, each crediting one counter, produce exactly the ranks `RanksOf` defines |
| `Corners.Threshold4` | simplex.go:399-414 | thresholding a rank permutation at `t`, one `ifexpr` (lines 329-335) per axis, gives 0/1 offsets that sum to `4 - t` |
| `Corners.Threshold4StepsLargestFirst` | simplex.go:399-414 | for any threshold, when the corner steps along one axis and not another, the offset of the first is at least that of the second |
| `Corners.Threshold4Monotone` | simplex.go:399-414 | a lower threshold only adds steps, so `i1 <= i2 <= i3` (and likewise for j, k, l) |
| `Corners.Threshold4Extremes` | simplex.go:399-414 | thresholding at 3 picks exactly the top-ranked axis, and thresholding at 1 leaves out exactly the bottom-ranked axis, stated in terms of the offsets with the code's tie-breaking |
| `Corners.Corners4` | simplex.go:358-414 | corners 1, 2, 3 have offsets summing to 1, 2, 3 and grow componentwise. Every corner steps along larger coordinates before smaller ones. The axis of corner 1 is the largest coordinate and the axis missing from corner 3 is the smallest, each stated as an if-and-only-if with the code's tie-breaking |

## Left out

- Floating-point evaluation is not modelled: the skew and unskew factors
  built from square roots, the offset arithmetic, the radial falloff, the
  `dot`/`dot3` products and the final 70/32/27 scaling. Only the
  comparisons that choose corners are modelled, on exact reals. The offsets
  `x0, y0, ...` and the cell `i, j, ...` are therefore independent inputs,
  and nothing relates them to the sample point.
  Exact reals have no NaN. In Go every comparison with a NaN offset is
  false, which can break the rank permutation `RanksOf` guarantees (for
  example ranks (1,1,1,3) for offsets 1, NaN, 0, 2). Non-finite input is
  outside what the model promises.
- `fastfloor` is not modelled. It wraps the floating-point floor, and the
  cell coordinates it yields are taken as arbitrary integers.
- The random generator is not modelled: it is a foreign pseudo-random
  source. Its 255 draws are a parameter, so the model does not reproduce
  the values a particular seed gives.
- The [-1,1] output bound and the seed-101 reference value checked by the
  tests are not modelled. They are empirical floating-point facts that
  depend on the foreign random bit stream.
- Two's-complement masking is not modelled bit by bit. `& 0xFF` and
  `& 255` are written as the Euclidean remainder modulo 256, which agrees
  with masking for every integer, negative ones included.
- The generator keeps its table as an immutable value after construction,
  not as a pointer to a struct. The Go code never mutates the table after
  `New`, so nothing observable changes.
