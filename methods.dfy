/**
  The metric catalogue of the `string-compare` crate: the closed set of string
  distance algorithms, their dispatch into the `textdistance` library, the
  two-way `Distance` value that dispatch produces, the classification of each
  algorithm as normalized or not, the filtered views over the catalogue, and
  the default normalisation rule of the `Method` trait.
 */
module StringCompare {
  import opened Sequences
  import opened TextDistance

  // ---------------------------------------------------------------------------
  // Trait `Method`: the default `normalize`
  // ---------------------------------------------------------------------------

  /** The default `normalize` of the `Method` trait, for an implementor `self`
      whose `is_normalized` is `isNormalized`. A raw value of a normalized
      method is returned as it is; any other value is divided by the scale
      `max`. The source has no guard against a zero scale, so the unnormalized
      branch needs `max != 0`. */
  function Normalize<S>(isNormalized: S -> bool, self: S, value: real, max: real): (r: real)
    requires isNormalized(self) || max != 0.0
    ensures isNormalized(self) ==> r == value
    ensures !isNormalized(self) ==> r * max == value
  {
    if isNormalized(self) then value else value / max
  }

  /** The scale is ignored for a normalized implementor, and normalising twice
      is the same as normalising once. */
  lemma NormalizeIdempotentWhenNormalized<S>(isNormalized: S -> bool, self: S, value: real, max: real, other: real)
    requires isNormalized(self)
    ensures Normalize(isNormalized, self, value, max) == Normalize(isNormalized, self, value, other)
    ensures Normalize(isNormalized, self, Normalize(isNormalized, self, value, max), max)
         == Normalize(isNormalized, self, value, max)
  {
  }

  // ---------------------------------------------------------------------------
  // `Distance` and its `From` conversions
  // ---------------------------------------------------------------------------

  /** The result of one algorithm on one pair of strings: a real ratio, or a
      non-negative count. */
  datatype Distance = Normalized(value: real) | Unnormalized(count: nat)

  /** `From<f64> for Distance`. */
  function FromF64(value: real): (d: Distance)
    ensures d.Normalized? && d.value == value
  {
    Normalized(value)
  }

  /** `From<usize> for Distance`. */
  function FromUsize(value: nat): (d: Distance)
    ensures d.Unnormalized? && d.count == value
  {
    Unnormalized(value)
  }

  /** The two conversions lose nothing: each is injective, and no real is ever
      converted to the same `Distance` as a count. */
  lemma FromConversionsAreInjectiveAndDisjoint(a: real, b: real, m: nat, n: nat)
    ensures FromF64(a) == FromF64(b) ==> a == b
    ensures FromUsize(m) == FromUsize(n) ==> m == n
    ensures FromF64(a) != FromUsize(m)
  {
  }

  // ---------------------------------------------------------------------------
  // The catalogue
  // ---------------------------------------------------------------------------

  /** The four families the algorithms are grouped into. */
  datatype Families = EditBased | TokenBased | SequenceBased | NaiveFamily

  /** The closed set of algorithms, in declaration order. */
  datatype Methods =
      // Edit-based
    | DamerauLevenshtein
    | Hamming
    | Jaro
    | JaroWinkler
    | Levenshtein
    | Sift4Common
    | Sift4Simple
    | SmithWaterman
      // Token-based
    | Bag
    | Cosine
    | EntropyNCD
    | Jaccard
    | Overlap
    | Roberts
    | SorensenDice
    | Tversky
      // Sequence-based
    | LCSSeq
    | LCSStr
    | RatcliffObershelp
      // Naive
    | Prefix
    | Suffix
    | Length

  /** The position of a variant in the declaration of `Methods`. */
  function Ordinal(m: Methods): (i: int)
    ensures 0 <= i < 22
  {
    match m
    case DamerauLevenshtein => 0
    case Hamming => 1
    case Jaro => 2
    case JaroWinkler => 3
    case Levenshtein => 4
    case Sift4Common => 5
    case Sift4Simple => 6
    case SmithWaterman => 7
    case Bag => 8
    case Cosine => 9
    case EntropyNCD => 10
    case Jaccard => 11
    case Overlap => 12
    case Roberts => 13
    case SorensenDice => 14
    case Tversky => 15
    case LCSSeq => 16
    case LCSStr => 17
    case RatcliffObershelp => 18
    case Prefix => 19
    case Suffix => 20
    case Length => 21
  }

  /** The family a variant is declared under: each family is one block of
      consecutive declaration positions. */
  function FamilyOf(m: Methods): (f: Families)
    ensures f == EditBased <==> Ordinal(m) < 8
    ensures f == TokenBased <==> 8 <= Ordinal(m) < 16
    ensures f == SequenceBased <==> 16 <= Ordinal(m) < 19
    ensures f == NaiveFamily <==> 19 <= Ordinal(m)
  {
    match m
    case DamerauLevenshtein | Hamming | Jaro | JaroWinkler | Levenshtein
       | Sift4Common | Sift4Simple | SmithWaterman => EditBased
    case Bag | Cosine | EntropyNCD | Jaccard | Overlap | Roberts
       | SorensenDice | Tversky => TokenBased
    case LCSSeq | LCSStr | RatcliffObershelp => SequenceBased
    case Prefix | Suffix | Length => NaiveFamily
  }

  /** The order in which the families are declared. */
  function FamilyRank(f: Families): nat {
    match f
    case EditBased => 0
    case TokenBased => 1
    case SequenceBased => 2
    case NaiveFamily => 3
  }

  /** `is_normalized`: whether the library function behind a variant returns an
      `f64` (normalized) rather than a `usize`. The source finds this by
      comparing type identities at run time; here it is the table of those
      return types, the same ones the fields of `Library` carry. The variants
      it accepts are those listed in `NormalizedTable`, the others those listed
      in `UnnormalizedTable`. */
  function IsNormalized(m: Methods): (b: bool)
    ensures b <==> m in NormalizedTable
  {
    match m
    case Jaro | JaroWinkler | Cosine | EntropyNCD | Jaccard | Overlap
       | Roberts | SorensenDice | Tversky | RatcliffObershelp => true
    case DamerauLevenshtein | Hamming | Levenshtein | Sift4Common | Sift4Simple
       | SmithWaterman | Bag | LCSSeq | LCSStr | Prefix | Suffix | Length => false
  }

  /** The negation of `is_normalized`, the predicate `unnormalized` filters by. */
  predicate IsUnnormalized(m: Methods) {
    !IsNormalized(m)
  }

  /** `calculate`: runs the library algorithm of `m` on `s1` and `s2` and wraps
      its result with the matching `From` conversion. It is defined for every
      variant and every pair of strings, empty ones included, and its result
      is `Normalized` exactly when `m` is classified as normalized. */
  function Calculate(lib: Library, m: Methods, s1: string, s2: string): (d: Distance)
    ensures d.Normalized? <==> IsNormalized(m)
  {
    match m
    case DamerauLevenshtein => FromUsize(lib.damerauLevenshtein(s1, s2))
    case Hamming => FromUsize(lib.hamming(s1, s2))
    case Jaro => FromF64(lib.jaro(s1, s2))
    case JaroWinkler => FromF64(lib.jaroWinkler(s1, s2))
    case Levenshtein => FromUsize(lib.levenshtein(s1, s2))
    case Sift4Common => FromUsize(lib.sift4Common(s1, s2))
    case Sift4Simple => FromUsize(lib.sift4Simple(s1, s2))
    case SmithWaterman => FromUsize(lib.smithWaterman(s1, s2))
    case Bag => FromUsize(lib.bag(s1, s2))
    case Cosine => FromF64(lib.cosine(s1, s2))
    case EntropyNCD => FromF64(lib.entropyNcd(s1, s2))
    case Jaccard => FromF64(lib.jaccard(s1, s2))
    case Overlap => FromF64(lib.overlap(s1, s2))
    case Roberts => FromF64(lib.roberts(s1, s2))
    case SorensenDice => FromF64(lib.sorensenDice(s1, s2))
    case Tversky => FromF64(lib.tversky(s1, s2))
    case LCSSeq => FromUsize(lib.lcsseq(s1, s2))
    case LCSStr => FromUsize(lib.lcsstr(s1, s2))
    case RatcliffObershelp => FromF64(lib.ratcliffObershelp(s1, s2))
    case Prefix => FromUsize(lib.prefix(s1, s2))
    case Suffix => FromUsize(lib.suffix(s1, s2))
    case Length => FromUsize(lib.length(s1, s2))
  }

  /** Each edit-based variant runs the library function of the same name on the
      two strings, in the order given, and keeps its result unchanged. */
  lemma CalculateDispatchEdit(lib: Library, s1: string, s2: string)
    ensures Calculate(lib, DamerauLevenshtein, s1, s2) == Unnormalized(lib.damerauLevenshtein(s1, s2))
    ensures Calculate(lib, Hamming, s1, s2) == Unnormalized(lib.hamming(s1, s2))
    ensures Calculate(lib, Jaro, s1, s2) == Normalized(lib.jaro(s1, s2))
    ensures Calculate(lib, JaroWinkler, s1, s2) == Normalized(lib.jaroWinkler(s1, s2))
    ensures Calculate(lib, Levenshtein, s1, s2) == Unnormalized(lib.levenshtein(s1, s2))
    ensures Calculate(lib, Sift4Common, s1, s2) == Unnormalized(lib.sift4Common(s1, s2))
    ensures Calculate(lib, Sift4Simple, s1, s2) == Unnormalized(lib.sift4Simple(s1, s2))
    ensures Calculate(lib, SmithWaterman, s1, s2) == Unnormalized(lib.smithWaterman(s1, s2))
  {
  }

  /** Each token-based variant runs the library function of the same name on the
      two strings, in the order given, and keeps its result unchanged. */
  lemma CalculateDispatchToken(lib: Library, s1: string, s2: string)
    ensures Calculate(lib, Bag, s1, s2) == Unnormalized(lib.bag(s1, s2))
    ensures Calculate(lib, Cosine, s1, s2) == Normalized(lib.cosine(s1, s2))
    ensures Calculate(lib, EntropyNCD, s1, s2) == Normalized(lib.entropyNcd(s1, s2))
    ensures Calculate(lib, Jaccard, s1, s2) == Normalized(lib.jaccard(s1, s2))
    ensures Calculate(lib, Overlap, s1, s2) == Normalized(lib.overlap(s1, s2))
    ensures Calculate(lib, Roberts, s1, s2) == Normalized(lib.roberts(s1, s2))
    ensures Calculate(lib, SorensenDice, s1, s2) == Normalized(lib.sorensenDice(s1, s2))
    ensures Calculate(lib, Tversky, s1, s2) == Normalized(lib.tversky(s1, s2))
  {
  }

  /** Each sequence-based variant runs the library function of the same name on the
      two strings, in the order given, and keeps its result unchanged. */
  lemma CalculateDispatchSequence(lib: Library, s1: string, s2: string)
    ensures Calculate(lib, LCSSeq, s1, s2) == Unnormalized(lib.lcsseq(s1, s2))
    ensures Calculate(lib, LCSStr, s1, s2) == Unnormalized(lib.lcsstr(s1, s2))
    ensures Calculate(lib, RatcliffObershelp, s1, s2) == Normalized(lib.ratcliffObershelp(s1, s2))
  {
  }

  /** Each naive variant runs the library function of the same name on the
      two strings, in the order given, and keeps its result unchanged. */
  lemma CalculateDispatchNaive(lib: Library, s1: string, s2: string)
    ensures Calculate(lib, Prefix, s1, s2) == Unnormalized(lib.prefix(s1, s2))
    ensures Calculate(lib, Suffix, s1, s2) == Unnormalized(lib.suffix(s1, s2))
    ensures Calculate(lib, Length, s1, s2) == Unnormalized(lib.length(s1, s2))
  {
  }

  /** `all`: the 22 variants, each at the position it is declared at, so every
      variant occurs and none twice. */
  function All(): (r: seq<Methods>)
    ensures |r| == 22
    ensures forall i :: 0 <= i < |r| ==> Ordinal(r[i]) == i
  {
    var r := [
      DamerauLevenshtein, Hamming, Jaro, JaroWinkler, Levenshtein,
      Sift4Common, Sift4Simple, SmithWaterman,
      Bag, Cosine, EntropyNCD, Jaccard, Overlap, Roberts, SorensenDice, Tversky,
      LCSSeq, LCSStr, RatcliffObershelp,
      Prefix, Suffix, Length
    ];
    r
  }

  /** Each variant sits in `all` exactly at its declaration position and
      nowhere else. */
  lemma AllListsEachVariantOnce(m: Methods)
    ensures All()[Ordinal(m)] == m
    ensures m in All()
    ensures forall i :: 0 <= i < |All()| && All()[i] == m ==> i == Ordinal(m)
  {
  }

  /** `all` is listed in strictly increasing declaration position. */
  lemma AllInDeclarationOrder()
    ensures StrictlyIncreasing(All(), Ordinal)
  {
    var a := All();
    forall i, j | 0 <= i < j < |a| ensures Ordinal(a[i]) < Ordinal(a[j]) {
      assert Ordinal(a[i]) == i && Ordinal(a[j]) == j;
    }
  }

  /** `all` lists the edit-based algorithms first, then the token-based, the
      sequence-based and finally the naive ones; the families have 8, 8, 3 and
      3 members. */
  lemma AllGroupedByFamily()
    ensures forall i, j :: 0 <= i < j < |All()| ==>
      FamilyRank(FamilyOf(All()[i])) <= FamilyRank(FamilyOf(All()[j]))
    ensures forall i :: 0 <= i < 8 ==> FamilyOf(All()[i]) == EditBased
    ensures forall i :: 8 <= i < 16 ==> FamilyOf(All()[i]) == TokenBased
    ensures forall i :: 16 <= i < 19 ==> FamilyOf(All()[i]) == SequenceBased
    ensures forall i :: 19 <= i < 22 ==> FamilyOf(All()[i]) == NaiveFamily
  {
  }

  /** `unnormalized`: the variants of `all` that are not normalized. */
  function UnnormalizedMethods(): (r: seq<Methods>)
    ensures forall i :: 0 <= i < |r| ==> IsUnnormalized(r[i])
  {
    Filter(All(), IsUnnormalized)
  }

  /** `normalized`: the variants of `all` that are normalized. */
  function NormalizedMethods(): (r: seq<Methods>)
    ensures forall i :: 0 <= i < |r| ==> IsNormalized(r[i])
  {
    Filter(All(), IsNormalized)
  }

  /** `unnormalized` holds exactly the variants that are not normalized, in
      the order of `all`, each once. */
  lemma UnnormalizedMethodsExact()
    ensures forall m :: m in UnnormalizedMethods() <==> !IsNormalized(m)
    ensures StrictlyIncreasing(UnnormalizedMethods(), Ordinal)
  {
    forall m ensures m in UnnormalizedMethods() <==> !IsNormalized(m) {
      AllListsEachVariantOnce(m);
      FilterMembership(All(), IsUnnormalized, m);
    }
    AllInDeclarationOrder();
    FilterPreservesOrder(All(), IsUnnormalized, Ordinal);
  }

  /** `normalized` holds exactly the normalized variants, in the order of
      `all`, each once. */
  lemma NormalizedMethodsExact()
    ensures forall m :: m in NormalizedMethods() <==> IsNormalized(m)
    ensures StrictlyIncreasing(NormalizedMethods(), Ordinal)
  {
    forall m ensures m in NormalizedMethods() <==> IsNormalized(m) {
      AllListsEachVariantOnce(m);
      FilterMembership(All(), IsNormalized, m);
    }
    AllInDeclarationOrder();
    FilterPreservesOrder(All(), IsNormalized, Ordinal);
  }

  /** The two views partition `all`: every variant is in exactly one of them,
      and their lengths add up to the 22 of the catalogue. */
  lemma ViewsPartitionAll()
    ensures forall m :: m in NormalizedMethods() <==> m !in UnnormalizedMethods()
    ensures |NormalizedMethods()| + |UnnormalizedMethods()| == |All()| == 22
  {
    NormalizedMethodsExact();
    UnnormalizedMethodsExact();
    FilterComplementLength(All(), IsNormalized, IsUnnormalized);
  }

  /** The ten variants whose library function returns `f64`, in catalogue order. */
  const NormalizedTable: seq<Methods> := [
    Jaro, JaroWinkler, Cosine, EntropyNCD, Jaccard, Overlap, Roberts,
    SorensenDice, Tversky, RatcliffObershelp
  ]

  /** `NormalizedTable` is in declaration order and holds exactly the
      variants `IsNormalized` accepts. */
  lemma NormalizedTableCharacterised()
    ensures StrictlyIncreasing(NormalizedTable, Ordinal)
    ensures forall m :: m in NormalizedTable <==> IsNormalized(m)
  {
    StepwiseIncreasing(NormalizedTable, Ordinal);
  }

  /** The view spelled out: it is exactly `NormalizedTable`. */
  lemma NormalizedMethodsListed()
    ensures NormalizedMethods() == NormalizedTable
    ensures |NormalizedMethods()| == 10
  {
    NormalizedTableCharacterised();
    NormalizedMethodsExact();
    StrictlyIncreasingUnique(NormalizedMethods(), NormalizedTable, Ordinal);
  }

  /** The twelve variants whose library function returns `usize`, in catalogue order. */
  const UnnormalizedTable: seq<Methods> := [
    DamerauLevenshtein, Hamming, Levenshtein, Sift4Common, Sift4Simple,
    SmithWaterman, Bag, LCSSeq, LCSStr, Prefix, Suffix, Length
  ]

  /** `UnnormalizedTable` is in declaration order and holds exactly the
      variants `IsUnnormalized` accepts. */
  lemma UnnormalizedTableCharacterised()
    ensures StrictlyIncreasing(UnnormalizedTable, Ordinal)
    ensures forall m :: m in UnnormalizedTable <==> IsUnnormalized(m)
  {
    StepwiseIncreasing(UnnormalizedTable, Ordinal);
  }

  /** The view spelled out: it is exactly `UnnormalizedTable`. */
  lemma UnnormalizedMethodsListed()
    ensures UnnormalizedMethods() == UnnormalizedTable
    ensures |UnnormalizedMethods()| == 12
  {
    UnnormalizedTableCharacterised();
    UnnormalizedMethodsExact();
    StrictlyIncreasingUnique(UnnormalizedMethods(), UnnormalizedTable, Ordinal);
  }

  /** Every variant of `normalized` calculates to a ratio and every variant of
      `unnormalized` to a count, on any pair of strings. */
  lemma ViewsAgreeWithCalculate(lib: Library, s1: string, s2: string)
    ensures forall m :: m in NormalizedMethods() ==> Calculate(lib, m, s1, s2).Normalized?
    ensures forall m :: m in UnnormalizedMethods() ==> Calculate(lib, m, s1, s2).Unnormalized?
  {
    NormalizedMethodsExact();
    UnnormalizedMethodsExact();
  }
}
