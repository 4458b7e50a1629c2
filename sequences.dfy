/**
  Order-preserving filtering of a sequence, the model of an iterator passed
  through `filter`: the elements are visited front to back and those that the
  predicate accepts are kept, in their original order.
 */
module Sequences {

  /** The elements of `s` that satisfy `p`, in the order they appear in `s`. */
  function Filter<T>(s: seq<T>, p: T -> bool): (r: seq<T>)
    ensures |r| <= |s|
    ensures forall i :: 0 <= i < |r| ==> p(r[i])
    decreases |s|
  {
    if s == [] then []
    else if p(s[0]) then [s[0]] + Filter(s[1..], p)
    else Filter(s[1..], p)
  }

  /** `s` is listed in strictly increasing order of `key`. */
  ghost predicate StrictlyIncreasing<T>(s: seq<T>, key: T -> int) {
    forall i, j :: 0 <= i < j < |s| ==> key(s[i]) < key(s[j])
  }

  /** An element is kept exactly when it occurs in `s` and `p` accepts it. */
  lemma {:induction false} FilterMembership<T>(s: seq<T>, p: T -> bool, x: T)
    ensures x in Filter(s, p) <==> x in s && p(x)
    decreases |s|
  {
    if s != [] {
      FilterMembership(s[1..], p, x);
      assert s == [s[0]] + s[1..];
    }
  }

  /** Filtering by a predicate and by its negation splits `s` without loss:
      the two results together are as long as `s`. */
  lemma {:induction false} FilterComplementLength<T>(s: seq<T>, p: T -> bool, q: T -> bool)
    requires forall x :: q(x) == !p(x)
    ensures |Filter(s, p)| + |Filter(s, q)| == |s|
    decreases |s|
  {
    if s != [] {
      FilterComplementLength(s[1..], p, q);
    }
  }

  /** Filtering keeps the relative order of the elements it retains: a sequence
      listed in increasing order of `key` stays so after filtering. */
  lemma {:induction false} FilterPreservesOrder<T>(s: seq<T>, p: T -> bool, key: T -> int)
    requires StrictlyIncreasing(s, key)
    ensures StrictlyIncreasing(Filter(s, p), key)
    decreases |s|
  {
    if s != [] {
      var tail := s[1..];
      TailStrictlyIncreasing(s, key);
      FilterPreservesOrder(tail, p, key);
      if p(s[0]) {
        var rest := Filter(tail, p);
        var r := [s[0]] + rest;
        forall j | 0 <= j < |rest| ensures key(s[0]) < key(rest[j]) {
          FilterMembership(tail, p, rest[j]);
          var k :| 0 <= k < |tail| && tail[k] == rest[j];
          assert tail[k] == s[k + 1];
        }
        forall i, j | 0 <= i < j < |r| ensures key(r[i]) < key(r[j]) {
          if i > 0 {
            assert r[i] == rest[i - 1] && r[j] == rest[j - 1];
          } else {
            assert r[j] == rest[j - 1];
          }
        }
      }
    }
  }

  /** The first element of a non-empty sequence is one of its elements. */
  lemma HeadIsMember<T>(t: seq<T>)
    requires t != []
    ensures t[0] in t
  {
  }

  /** Dropping the first element of a sequence keeps it in order. */
  lemma TailStrictlyIncreasing<T>(s: seq<T>, key: T -> int)
    requires s != [] && StrictlyIncreasing(s, key)
    ensures StrictlyIncreasing(s[1..], key)
  {
    var tail := s[1..];
    forall i, j | 0 <= i < j < |tail| ensures key(tail[i]) < key(tail[j]) {
      assert tail[i] == s[i + 1] && tail[j] == s[j + 1];
    }
  }

  /** Two sequences in strictly increasing order of `key` with the same
      elements start with the same element, and their tails have the same
      elements. */
  lemma SameHeadSameTailElements<T>(s: seq<T>, t: seq<T>, key: T -> int)
    requires s != [] && t != []
    requires StrictlyIncreasing(s, key) && StrictlyIncreasing(t, key)
    requires forall x :: x in s <==> x in t
    ensures s[0] == t[0]
    ensures forall x :: x in s[1..] <==> x in t[1..]
  {
    assert s[0] in t;
    var k :| 0 <= k < |t| && t[k] == s[0];
    assert t[0] in s;
    var l :| 0 <= l < |s| && s[l] == t[0];
    assert key(s[0]) <= key(s[l]) == key(t[0]);
    assert key(t[0]) <= key(t[k]) == key(s[0]);
    assert s[0] == t[0];
    forall x ensures x in s[1..] <==> x in t[1..] {
      if x in s[1..] {
        var i :| 0 <= i < |s| - 1 && s[1..][i] == x;
        assert key(s[0]) < key(s[i + 1]);
        assert x in t;
        var j :| 0 <= j < |t| && t[j] == x;
        assert j > 0 && t[1..][j - 1] == x;
      }
      if x in t[1..] {
        var j :| 0 <= j < |t| - 1 && t[1..][j] == x;
        assert key(t[0]) < key(t[j + 1]);
        assert x in s;
        var i :| 0 <= i < |s| && s[i] == x;
        assert i > 0 && s[1..][i - 1] == x;
      }
    }
  }

  /** A sequence listed in strictly increasing order of `key` is determined by
      its elements: two such sequences with the same elements are equal. */
  lemma {:induction false} StrictlyIncreasingUnique<T>(s: seq<T>, t: seq<T>, key: T -> int)
    requires StrictlyIncreasing(s, key) && StrictlyIncreasing(t, key)
    requires forall x :: x in s <==> x in t
    ensures s == t
    decreases |s|
  {
    if s == [] {
      if t != [] {
        HeadIsMember(t);
        assert false;
      }
    } else {
      assert s[0] in t;
      SameHeadSameTailElements(s, t, key);
      TailStrictlyIncreasing(s, key);
      TailStrictlyIncreasing(t, key);
      StrictlyIncreasingUnique(s[1..], t[1..], key);
      assert s == [s[0]] + s[1..] && t == [t[0]] + t[1..];
    }
  }

  /** Increasing from each element to the next is enough for strictly
      increasing throughout. */
  lemma {:induction false} StepwiseIncreasing<T>(s: seq<T>, key: T -> int)
    requires forall i :: 0 <= i < |s| - 1 ==> key(s[i]) < key(s[i + 1])
    ensures StrictlyIncreasing(s, key)
    decreases |s|
  {
    if |s| > 1 {
      var tail := s[1..];
      forall i | 0 <= i < |tail| - 1 ensures key(tail[i]) < key(tail[i + 1]) {
        assert tail[i] == s[i + 1] && tail[i + 1] == s[i + 2];
      }
      StepwiseIncreasing(tail, key);
      forall i, j | 0 <= i < j < |s| ensures key(s[i]) < key(s[j]) {
        if i > 0 {
          assert s[i] == tail[i - 1] && s[j] == tail[j - 1];
        } else if j > 1 {
          assert s[1] == tail[0] && s[j] == tail[j - 1];
        }
      }
    }
  }
}
