# Package sorter, modelled in Dafny

The package sorter sends a package to one of three stacks from its width,
height and length (centimetres) and its mass (kilograms):

- a package is **bulky** when its volume `width * height * length` is at least
  1,000,000 cm³ or any single dimension is at least 150 cm;
- it is **heavy** when its mass is at least 20 kg;
- it goes to `REJECTED` when it is both, `SPECIAL` when it is exactly one of
  the two and `STANDARD` when it is neither;
- a negative measurement is a validation error (`ValueError` in the
  original), never a stack.

`package_sorter.dfy` (module `PackageSorter`) models the rule `sort` as a
total function `Sort` over exact reals returning
`Outcome = Ok(Category) | InvalidMeasurement`, where `Category` is
`STANDARD | SPECIAL | REJECTED` and `Label` gives the string the original
returns for each. Its contract says that the error occurs exactly when some
measurement is negative, and that otherwise the rank of the stack
(STANDARD 0, SPECIAL 1, REJECTED 2) is the number of conditions the package
triggers. Lemmas state the decision table, the inclusive thresholds (and that
they are sharp), invariance under any permutation of the three dimensions,
the zero-dimension baseline and monotonicity: growing any measurements never
moves a package to a less restrictive stack.

`test_package_sorter.dfy` (module `PackageSorterExamples`) states the
concrete cases of the original unit tests as lemmas about `Sort`, one lemma
per test method.

## Model

| member | source | states |
|---|---|---|
| `PackageSorter.Sort` | package_sorter.py:1-43 | The outcome is the validation error exactly when width, height, length or mass is negative (so every non-negative input yields a stack); otherwise the stack's rank equals the number of conditions (heavy, bulky) the package triggers. |
| `PackageSorter.Label` | package_sorter.py:12 | Each stack is reported as one of the three strings "STANDARD", "SPECIAL", "REJECTED". |
| `PackageSorter.LabelInjective` | package_sorter.py:37-43 | Two stacks have the same label only if they are the same stack. |
| `PackageSorter.Volume` | package_sorter.py:25 | The volume of non-negative dimensions is non-negative, and it is zero when any dimension is zero. |
| `PackageSorter.IsBulky` | package_sorter.py:27-31 | The package is bulky when the volume reaches 1,000,000, and when any dimension reaches 150; if it is not bulky, the volume is below 1,000,000 and every dimension below 150. The flag's start value and its two guarded assignments become one disjunction. |
| `PackageSorter.IsHeavy` | package_sorter.py:33-35 | The package is heavy when the mass reaches 20; if it is not heavy, the mass is below 20. The flag's start value and its guarded assignment become one comparison. |
| `PackageSorter.SortDecisionTable` | package_sorter.py:14-43 | For non-negative inputs: REJECTED iff mass >= 20 and (volume >= 1,000,000 or some dimension >= 150); SPECIAL iff exactly one of heavy and bulky holds; STANDARD iff neither holds. |
| `PackageSorter.SortPermutationInvariant` | package_sorter.py:25-31 | Every permutation of width, height and length gives the same outcome as the original order. |
| `PackageSorter.DimensionThresholdInclusive` | package_sorter.py:30-38 | A dimension of exactly 150, in any of the three positions and whatever the other dimensions, makes the package bulky: REJECTED at any mass of 20 or more, SPECIAL below 20. |
| `PackageSorter.DimensionThresholdSharp` | package_sorter.py:27-31 | With the other dimensions below 150, the volume below 1,000,000 and the mass below 20, the package is SPECIAL if the width is at least 150 and STANDARD otherwise. |
| `PackageSorter.VolumeThresholdInclusive` | package_sorter.py:28-29 | A volume of exactly 1,000,000 makes the package bulky: SPECIAL below 20 kg, REJECTED from 20 kg. |
| `PackageSorter.VolumeThresholdSharp` | package_sorter.py:25-31 | With every dimension below 150 and the mass below 20, the package is SPECIAL iff the volume is at least 1,000,000, and STANDARD otherwise. |
| `PackageSorter.MassThresholdInclusive` | package_sorter.py:33-35 | A mass of exactly 20 makes the package heavy (REJECTED if bulky, SPECIAL otherwise); below 20 the stack is SPECIAL if bulky and STANDARD otherwise. |
| `PackageSorter.ZeroDimensionIsStandard` | package_sorter.py:25-43 | A zero dimension gives volume 0, so with every dimension below 150 and the mass below 20 the package is STANDARD. |
| `PackageSorter.VolumeMonotone` | package_sorter.py:25 | Over non-negative dimensions, growing any dimensions never shrinks the volume. |
| `PackageSorter.SortMonotone` | package_sorter.py:25-43 | For non-negative inputs, growing any of the four measurements keeps a valid outcome and never lowers the stack's rank along STANDARD < SPECIAL < REJECTED. |
| `PackageSorter.SortMonotoneStacks` | package_sorter.py:37-43 | Under such growth a REJECTED package stays REJECTED, and a package that is STANDARD after growing was STANDARD before. |
| `PackageSorterExamples.StandardPackages` | test_package_sorter.py:10-18 | The small and all-zero packages of the tests are STANDARD. |
| `PackageSorterExamples.BulkyByVolume` | test_package_sorter.py:20-26 | The tests' packages bulky by volume alone are SPECIAL. |
| `PackageSorterExamples.BulkyByDimension` | test_package_sorter.py:28-40 | The tests' packages with one dimension of at least 150, in each position, are SPECIAL. |
| `PackageSorterExamples.HeavyPackages` | test_package_sorter.py:42-47 | The tests' packages heavy by mass alone are SPECIAL. |
| `PackageSorterExamples.RejectedPackages` | test_package_sorter.py:49-57 | The tests' heavy and bulky packages are REJECTED. |
| `PackageSorterExamples.EdgeCases` | test_package_sorter.py:59-72 | The tests' threshold, tiny and zero-dimension cases get the stacks the tests expect. |
| `PackageSorterExamples.InputValidation` | test_package_sorter.py:74-89 | A negative value in any single position, or in all four, is the validation error. |
| `PackageSorterExamples.NearThresholdValues` | test_package_sorter.py:91-97 | Values just below and just above 150 cm and 20 kg fall on the expected side. |

## Left out

- `main` (package_sorter.py:46-70): it prints a fixed table of demonstration packages to standard output; it has no logic beyond calling `sort`.
- `run_performance_test` and the test module's entry point (test_package_sorter.py:100-124): wall-clock timing and printing.
- Floating-point semantics: measurements are exact reals, so the IEEE-754 rounding of `width * height * length` and of the comparisons is not modelled. The tests' near-threshold values fall on the same side either way.
- Non-numeric or NaN arguments: the original does not handle them, and they are outside the modelled domain.
- The error message text of the `ValueError` is not modelled; the error is the single `InvalidMeasurement` outcome.
