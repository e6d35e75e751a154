/** Array.prototype.filter over sequences, and the subsequence order its results
    keep. Both the score directory and the per-voice member sections are filters. */
module Sequences {

  /** The elements of s that satisfy keep, in their original order. */
  function Filter<T>(s: seq<T>, keep: T -> bool): (r: seq<T>)
    ensures |r| <= |s|
    ensures forall i :: 0 <= i < |r| ==> keep(r[i])
    decreases |s|
  {
    if s == [] then []
    else (if keep(s[0]) then [s[0]] else []) + Filter(s[1..], keep)
  }

  /** An element is in the filter's result exactly when it is in the input and kept. */
  lemma {:induction false} FilterMembers<T>(s: seq<T>, keep: T -> bool, x: T)
    ensures x in Filter(s, keep) <==> x in s && keep(x)
    decreases |s|
  {
    if s != [] {
      FilterMembers(s[1..], keep, x);
      assert s == [s[0]] + s[1..];
    }
  }

  /** sub is obtained from s by deleting elements (order preserved). */
  predicate IsSubsequence<T(==)>(sub: seq<T>, s: seq<T>)
    decreases |s|
  {
    if sub == [] then true
    else if s == [] then false
    else (sub[0] == s[0] && IsSubsequence(sub[1..], s[1..])) || IsSubsequence(sub, s[1..])
  }

  /** A filter keeps its input's order. */
  lemma {:induction false} FilterIsSubsequence<T>(s: seq<T>, keep: T -> bool)
    ensures IsSubsequence(Filter(s, keep), s)
    decreases |s|
  {
    if s != [] {
      FilterIsSubsequence(s[1..], keep);
      var r := Filter(s, keep);
      if keep(s[0]) {
        assert r == [s[0]] + Filter(s[1..], keep);
        assert r[1..] == Filter(s[1..], keep);
      } else {
        assert r == Filter(s[1..], keep);
      }
    }
  }

  /** One step of a filter over the suffix of s from position k. */
  lemma FilterFrom<T>(s: seq<T>, keep: T -> bool, k: nat)
    requires k < |s|
    ensures Filter(s[k..], keep) == (if keep(s[k]) then [s[k]] else []) + Filter(s[k + 1..], keep)
  {
    assert s[k..][1..] == s[k + 1..];
  }

  /** A filter keeps a prefix whose elements all satisfy its predicate. */
  lemma {:induction false} FilterKeptPrefix<T>(s: seq<T>, keep: T -> bool, k: nat)
    requires k <= |s|
    requires forall i :: 0 <= i < k ==> keep(s[i])
    ensures Filter(s, keep) == s[..k] + Filter(s[k..], keep)
    decreases k
  {
    if k == 0 {
      assert s[k..] == s;
    } else {
      FilterKeptPrefix(s, keep, k - 1);
      FilterFrom(s, keep, k - 1);
      assert s[..k - 1] + [s[k - 1]] == s[..k];
    }
  }

  /** A filter whose predicate holds of every element returns its input. */
  lemma {:induction false} FilterAll<T>(s: seq<T>, keep: T -> bool)
    requires forall i :: 0 <= i < |s| ==> keep(s[i])
    ensures Filter(s, keep) == s
    decreases |s|
  {
    if s != [] {
      FilterAll(s[1..], keep);
      assert s == [s[0]] + s[1..];
    }
  }

  /** Two filters whose predicates agree on every element of s give the same result. */
  lemma {:induction false} FilterCongruent<T>(s: seq<T>, p: T -> bool, q: T -> bool)
    requires forall i :: 0 <= i < |s| ==> (p(s[i]) <==> q(s[i]))
    ensures Filter(s, p) == Filter(s, q)
    decreases |s|
  {
    if s != [] {
      FilterCongruent(s[1..], p, q);
    }
  }

  /** Pairwise distinctness of a sequence. */
  predicate Distinct<T(==)>(s: seq<T>)
  {
    forall i, j :: 0 <= i < j < |s| ==> s[i] != s[j]
  }
}
