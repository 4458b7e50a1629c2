/**
  Textbook definitions of the three naive metrics the catalogue dispatches to
  (`prefix`, `suffix` and `length` of the `textdistance` crate). The crate's
  own code is not part of this model: these definitions are the usual ones,
  kept apart from the catalogue, and `IsTextbookNaive` says when a library
  value uses them.
 */
module Naive {
  import opened TextDistance
  import opened StringCompare

  /** The length of the longest common prefix: the first `n` characters agree
      and, where both strings go on, the next one differs. */
  function CommonPrefixLength(s1: string, s2: string): (n: nat)
    ensures n <= |s1| && n <= |s2|
    ensures s1[..n] == s2[..n]
    ensures n < |s1| && n < |s2| ==> s1[n] != s2[n]
    decreases |s1|
  {
    if s1 == [] || s2 == [] || s1[0] != s2[0] then 0
    else
      var n := 1 + CommonPrefixLength(s1[1..], s2[1..]);
      assert s1[..n] == [s1[0]] + s1[1..][..n - 1];
      assert s2[..n] == [s2[0]] + s2[1..][..n - 1];
      n
  }

  /** The length of the longest common suffix: the last `n` characters agree
      and, where both strings go on, the one before them differs. */
  function CommonSuffixLength(s1: string, s2: string): (n: nat)
    ensures n <= |s1| && n <= |s2|
    ensures forall k :: |s1| - n <= k < |s1| ==> s1[k] == s2[k - |s1| + |s2|]
    ensures n < |s1| && n < |s2| ==> s1[|s1| - 1 - n] != s2[|s2| - 1 - n]
    decreases |s1|
  {
    if s1 == [] || s2 == [] || s1[|s1| - 1] != s2[|s2| - 1] then 0
    else 1 + CommonSuffixLength(s1[..|s1| - 1], s2[..|s2| - 1])
  }

  /** The absolute difference of the two lengths. */
  function LengthDifference(s1: string, s2: string): (n: nat)
    ensures |s1| == |s2| + n || |s2| == |s1| + n
  {
    if |s1| >= |s2| then |s1| - |s2| else |s2| - |s1|
  }

  /** The common prefix does not depend on the order of the two strings: the
      contract of `CommonPrefixLength` determines its result. */
  lemma CommonPrefixSymmetric(s1: string, s2: string)
    ensures CommonPrefixLength(s1, s2) == CommonPrefixLength(s2, s1)
  {
  }

  /** The common suffix does not depend on the order of the two strings: the
      contract of `CommonSuffixLength` determines its result. */
  lemma CommonSuffixSymmetric(s1: string, s2: string)
    ensures CommonSuffixLength(s1, s2) == CommonSuffixLength(s2, s1)
  {
  }

  /** The length difference is symmetric, and zero exactly for strings of
      equal length. */
  lemma LengthDifferenceSymmetric(s1: string, s2: string)
    ensures LengthDifference(s1, s2) == LengthDifference(s2, s1)
    ensures LengthDifference(s1, s2) == 0 <==> |s1| == |s2|
  {
  }

  /** A string shares all of itself as prefix and as suffix with itself. */
  lemma IdenticalStrings(s: string)
    ensures CommonPrefixLength(s, s) == |s|
    ensures CommonSuffixLength(s, s) == |s|
    ensures LengthDifference(s, s) == 0
  {
  }

  /** `lib` with its naive metrics replaced by the textbook ones. */
  function WithTextbookNaive(lib: Library): Library {
    lib.(prefix := CommonPrefixLength, suffix := CommonSuffixLength, length := LengthDifference)
  }

  /** With textbook naive metrics, comparing the empty string with "abc"
      gives a common prefix and suffix of 0 and a length difference of 3. */
  lemma EmptyAgainstAbc(lib: Library)
    ensures Calculate(WithTextbookNaive(lib), Prefix, "", "abc") == Unnormalized(0)
    ensures Calculate(WithTextbookNaive(lib), Suffix, "", "abc") == Unnormalized(0)
    ensures Calculate(WithTextbookNaive(lib), Length, "", "abc") == Unnormalized(3)
  {
  }

  /** With textbook naive metrics, a string compared with itself has its whole
      length as common prefix and suffix and a length difference of 0. */
  lemma AgainstItself(lib: Library, s: string)
    ensures Calculate(WithTextbookNaive(lib), Prefix, s, s) == Unnormalized(|s|)
    ensures Calculate(WithTextbookNaive(lib), Suffix, s, s) == Unnormalized(|s|)
    ensures Calculate(WithTextbookNaive(lib), Length, s, s) == Unnormalized(0)
  {
    var l := WithTextbookNaive(lib);
    CalculateDispatchNaive(l, s, s);
    IdenticalStrings(s);
  }
}
