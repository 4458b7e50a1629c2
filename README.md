# string-compare: the metric catalogue, in Dafny

`string-compare` compares two strings under 22 string-distance algorithms
from the `textdistance` crate and charts the scores. The part modelled here
is the catalogue in `string-compare/src/methods.rs`, plus the draft trait in
`src/methods.rs`:

- `Methods` is the closed enumeration of the 22 algorithms. They come in four
  families: edit-based, token-based, sequence-based and naive.
- `calculate(m, s1, s2)` dispatches to the library function behind `m`. It
  wraps the result into `Distance`, either `Normalized(f64)` or
  `Unnormalized(usize)`, through the two `From` conversions.
- `all()` is the fixed, ordered list of the variants.
  `normalized()` and `unnormalized()` are order-preserving filters of it.
- `is_normalized()` tells whether the library function behind a variant
  returns `f64`.
- `normalize(value, max)` is the default method of the `Method` trait. It
  returns `value` unchanged for a normalized implementor. Otherwise it
  returns `value / max`. The draft trait has the same rule as a static
  function.

Files and modules:

- `textdistance.dfy` (`TextDistance`): the library as a record of the 22
  functions the catalogue calls. Each field is typed by the crate's return type:
  `nat` for `usize`, `real` for `f64`.
- `methods.dfy` (`StringCompare`): `Distance`, the `From` conversions,
  `Methods`, `Calculate`, `All`, the two views, `IsNormalized`, and the
  trait's `Normalize`.
- `sequences.dfy` (`Sequences`): the order-preserving `Filter` that models
  `Iterator::filter`, with its lemmas: membership, complement length, order
  preservation, and uniqueness of a sequence sorted by a key.
- `draft.dfy` (`Draft`): the static `normalize` of the draft trait.
- `naive.dfy` (`Naive`): textbook definitions of common prefix length,
  common suffix length and length difference. These are NOT taken from the
  crate's code, which is not part of this model. They are kept apart, and
  they are used only through `WithTextbookNaive`, which puts them into an
  otherwise arbitrary library.

Two points of the code that the model keeps as written:

- The code has no zero-scale guard: `value / max` is computed unconditionally
  (string-compare/src/methods.rs:10, src/methods.rs:11). So the unnormalized
  branch of `Normalize` requires `max != 0`, and no zero-scale result is
  promised.
- Bag is grouped with the token-based metrics, but the crate's `bag` returns
  `usize`. So `is_normalized` classifies it as unnormalized, and so does the
  model.

## Model

| member | source | states |
|---|---|---|
| `StringCompare.Normalize` | string-compare/src/methods.rs:6-12 | For a normalized receiver the value comes back unchanged, whatever the scale. Otherwise the result times `max` gives the value back, i.e. it is `value / max`. A nonzero scale is needed on that branch only. |
| `StringCompare.NormalizeIdempotentWhenNormalized` | string-compare/src/methods.rs:6-9 | For a normalized receiver the scale has no effect, and normalising twice equals normalising once. |
| `StringCompare.FromF64` | string-compare/src/methods.rs:20-24 | Converting an `f64` always gives a `Normalized` distance carrying that same value. |
| `StringCompare.FromUsize` | string-compare/src/methods.rs:26-30 | Converting a `usize` always gives an `Unnormalized` distance carrying that same count. |
| `StringCompare.FromConversionsAreInjectiveAndDisjoint` | string-compare/src/methods.rs:15-30 | Both conversions are injective, and a converted real never equals a converted count, so the tag and payload identify the source value. |
| `Sequences.Filter` | string-compare/src/methods.rs:121-131 | The `filter` over `all().into_iter()`: the result is no longer than the input and every entry satisfies the predicate. Membership, order and complement length are proved in `Sequences.FilterMembership`, `Sequences.FilterPreservesOrder` and `Sequences.FilterComplementLength`. |
| `StringCompare.FamilyOf` | string-compare/src/methods.rs:32-62 | Each family is one block of declaration positions: edit-based 0-7, token-based 8-15, sequence-based 16-18, naive 19-21. |
| `StringCompare.IsNormalized` | string-compare/src/methods.rs:133-166 | The per-variant table of library return types: true exactly for the ten variants of `NormalizedTable`, whose library functions return `f64`. `Calculate`'s ensures ties the table to the `Library` field types. |
| `StringCompare.Ordinal` | string-compare/src/methods.rs:32-62 | Each variant has a declaration position in 0..21. |
| `StringCompare.Calculate` | string-compare/src/methods.rs:65-91 | Defined for every variant and every pair of strings, empty ones included, with no precondition. The result is `Normalized` exactly when `IsNormalized(m)` holds. |
| `StringCompare.CalculateDispatchEdit` | string-compare/src/methods.rs:69-76 | Each edit-based variant passes `s1` and `s2`, in that order, to the library function of the same name and returns its result unchanged, tagged `Normalized` for the `f64` functions and `Unnormalized` for the `usize` ones. |
| `StringCompare.CalculateDispatchToken` | string-compare/src/methods.rs:77-84 | Each token-based variant passes `s1` and `s2`, in that order, to the library function of the same name and returns its result unchanged, tagged `Normalized` for the `f64` functions and `Unnormalized` for the `usize` ones. |
| `StringCompare.CalculateDispatchSequence` | string-compare/src/methods.rs:85-87 | Each sequence-based variant passes `s1` and `s2`, in that order, to the library function of the same name and returns its result unchanged, tagged `Normalized` for the `f64` functions and `Unnormalized` for the `usize` ones. |
| `StringCompare.CalculateDispatchNaive` | string-compare/src/methods.rs:88-90 | Prefix, Suffix and Length pass `s1` and `s2`, in that order, to `prefix`, `suffix` and `length`, and return the count tagged `Unnormalized`. |
| `StringCompare.All` | string-compare/src/methods.rs:94-119 | `all` has 22 entries, and entry `i` is the variant declared at position `i`. |
| `StringCompare.AllListsEachVariantOnce` | string-compare/src/methods.rs:94-119 | Every variant occurs in `all`, at its declaration position and at no other index. |
| `StringCompare.AllInDeclarationOrder` | string-compare/src/methods.rs:94-119 | `all` is strictly increasing in declaration position. |
| `StringCompare.AllGroupedByFamily` | string-compare/src/methods.rs:32-62 | `all` lists 8 edit-based, then 8 token-based, then 3 sequence-based, then 3 naive variants, and the family order never goes back. |
| `StringCompare.UnnormalizedMethods` | string-compare/src/methods.rs:121-125 | Every entry of `unnormalized` is a variant that is not normalized. |
| `StringCompare.NormalizedMethods` | string-compare/src/methods.rs:127-131 | Every entry of `normalized` is a normalized variant. |
| `StringCompare.UnnormalizedMethodsExact` | string-compare/src/methods.rs:121-125 | A variant is in `unnormalized` if and only if it is not normalized. The view keeps the order of `all`, with no repeats. |
| `StringCompare.NormalizedMethodsExact` | string-compare/src/methods.rs:127-131 | A variant is in `normalized` if and only if it is normalized. The view keeps the order of `all`, with no repeats. |
| `StringCompare.ViewsPartitionAll` | string-compare/src/methods.rs:121-131 | Every variant is in exactly one of the two views, and their lengths add up to the 22 of `all`. |
| `StringCompare.NormalizedTableCharacterised` | string-compare/src/methods.rs:133-166 | The ten `f64` variants (Jaro, JaroWinkler, Cosine, EntropyNCD, Jaccard, Overlap, Roberts, SorensenDice, Tversky, RatcliffObershelp) are exactly the variants `is_normalized` accepts. They are listed in declaration order. |
| `StringCompare.UnnormalizedTableCharacterised` | string-compare/src/methods.rs:133-166 | The twelve `usize` variants (the edit counts, Bag, LCSSeq, LCSStr, Prefix, Suffix, Length) are exactly the variants `is_normalized` rejects. They are listed in declaration order. |
| `StringCompare.NormalizedMethodsListed` | string-compare/src/methods.rs:127-131 | `normalized` is exactly the ten-variant table, in order. |
| `StringCompare.UnnormalizedMethodsListed` | string-compare/src/methods.rs:121-125 | `unnormalized` is exactly the twelve-variant table, in order. |
| `StringCompare.ViewsAgreeWithCalculate` | string-compare/src/methods.rs:65-166 | On any pair of strings, every variant of `normalized` calculates to a `Normalized` value and every variant of `unnormalized` to an `Unnormalized` one. |
| `Draft.Normalize` | src/methods.rs:7-13 | The static draft takes no receiver: its result depends only on the type's flag, the value and the scale. It returns the value unchanged when the flag is set. Otherwise the result times `max` gives the value back. |
| `Draft.NormalizeIdempotent` | src/methods.rs:7-9 | For a normalized type the scale is ignored, and normalising twice equals normalising once. |
| `Draft.NormalizeWithinUnitInterval` | src/methods.rs:10-12 | For an unnormalized type, a value between 0 and a positive scale normalises into [0, 1]. |
| `Draft.AgreesWithCrateNormalize` | src/methods.rs:7-13 | The static draft, given the receiver's `is_normalized`, gives the same result as the crate's `normalize`. |
| `Naive.CommonPrefixLength` | string-compare/src/methods.rs:88 | Textbook model of `prefix`. The result is at most either length, the first `n` characters agree, and the next ones differ where both strings continue. |
| `Naive.CommonSuffixLength` | string-compare/src/methods.rs:89 | Textbook model of `suffix`. The result is at most either length, the last `n` characters agree, and the ones before them differ where both strings continue. |
| `Naive.LengthDifference` | string-compare/src/methods.rs:90 | Textbook model of `length`: one length is the other plus the result. |
| `Naive.CommonPrefixSymmetric` | string-compare/src/methods.rs:88 | The common prefix length does not depend on the argument order. |
| `Naive.CommonSuffixSymmetric` | string-compare/src/methods.rs:89 | The common suffix length does not depend on the argument order. |
| `Naive.LengthDifferenceSymmetric` | string-compare/src/methods.rs:90 | The length difference is symmetric, and it is zero exactly for equal lengths. |
| `Naive.IdenticalStrings` | string-compare/src/methods.rs:88-90 | A string compared with itself has its whole length as common prefix and common suffix, and a length difference of 0. |
| `Naive.EmptyAgainstAbc` | string-compare/src/methods.rs:88-90 | With textbook naive metrics, comparing "" with "abc" gives Prefix 0, Suffix 0 and Length 3. |
| `Naive.AgainstItself` | string-compare/src/methods.rs:88-90 | With textbook naive metrics, comparing a string with itself gives Prefix and Suffix equal to its length, and Length 0. |

## Left out

- `StringCompare.Normalize` requires `max != 0` on the unnormalized branch. The source divides an `f32` without a guard, which gives an infinity or NaN that `real` cannot represent.
- `Draft.Normalize` requires `max != 0` on the unnormalized branch, for the same reason.
- Floating point: `f32` and `f64` are modelled as `real`. There is no rounding, infinity or NaN.
- Integer width: `usize` is modelled as `nat`. No library count comes near the width bound.
- The algorithms of the `textdistance` crate are not modelled. Their code is not part of this model, so the library is a parameter (`TextDistance.Library`) typed only by each function's result type. As a result, the per-algorithm properties cannot be stated for the 19 non-naive metrics: identical strings giving 0 or 1.0, symmetry, Levenshtein("kitten", "sitting") = 3, Hamming("night", "nacht") = 2. For Prefix, Suffix and Length, `naive.dfy` gives textbook definitions, which are not the crate's code.
- The run-time `TypeId` comparison inside `is_normalized` is not modelled. Only its outcome is, as the static table `IsNormalized`.
- The `Method` trait's `name` and `distance` are not modelled, in either file: they have no default body, and no implementor is shown.
- The `String` to `Methods` conversion and its reverse are not modelled. Both bodies are `todo!()`, so there is no behaviour to model. Display names do not exist in the code either.
- The wasm exports `calculate_normalized` and `calculate_unnormalized` used by `src/main.ts` are not modelled, and neither is the batch computation of named scores. Their Rust bodies are not part of this model.
- The user interface is not modelled: the Leptos components and mounting (`string-compare/src/lib.rs`, `string-compare/src/main.rs`), the chart.js bindings (`string-compare/src/chartjs.rs`), the TypeScript event handling and chart rendering (`src/main.ts`, `src/charts.ts`), and the build configuration (`postcss.config.js`). They are I/O and DOM work.
