/**
  The interface of the `textdistance::str` functions the catalogue calls.

  The algorithms themselves live in a library whose source is not part of this
  model, so the library is a parameter: a value of `Library` holds one total
  function per algorithm, typed by the algorithm's return type in the crate.
  A `usize` result becomes a `nat`, an `f64` result becomes a `real`.
 */
module TextDistance {

  datatype Library = Library(
    // Edit-based
    damerauLevenshtein: (string, string) -> nat,
    hamming: (string, string) -> nat,
    jaro: (string, string) -> real,
    jaroWinkler: (string, string) -> real,
    levenshtein: (string, string) -> nat,
    sift4Common: (string, string) -> nat,
    sift4Simple: (string, string) -> nat,
    smithWaterman: (string, string) -> nat,
    // Token-based
    bag: (string, string) -> nat,
    cosine: (string, string) -> real,
    entropyNcd: (string, string) -> real,
    jaccard: (string, string) -> real,
    overlap: (string, string) -> real,
    roberts: (string, string) -> real,
    sorensenDice: (string, string) -> real,
    tversky: (string, string) -> real,
    // Sequence-based
    lcsseq: (string, string) -> nat,
    lcsstr: (string, string) -> nat,
    ratcliffObershelp: (string, string) -> real,
    // Naive
    prefix: (string, string) -> nat,
    suffix: (string, string) -> nat,
    length: (string, string) -> nat
  )
}
