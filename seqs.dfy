/** Small facts about sequences shared by the spawn helpers and the managers. */
module Seqs {

  function Min(a: int, b: int): (m: int)
    ensures m <= a && m <= b && (m == a || m == b)
  {
    if a <= b then a else b
  }

  function Max(a: int, b: int): (m: int)
    ensures m >= a && m >= b && (m == a || m == b)
  {
    if a >= b then a else b
  }

  predicate Distinct<T(==)>(s: seq<T>) {
    forall i, j :: 0 <= i < j < |s| ==> s[i] != s[j]
  }

  /** `s` can be obtained from `t` by deleting elements: same order, nothing new. */
  predicate IsSubsequence<T(==)>(s: seq<T>, t: seq<T>)
    decreases |t|
  {
    if s == [] then true
    else if t == [] then false
    else if s[0] == t[0] then IsSubsequence(s[1..], t[1..])
    else IsSubsequence(s, t[1..])
  }

  /** A sub-multiset of a sequence without repetitions has no repetitions either. */
  lemma {:induction false} SubMultisetOfDistinct<T>(r: seq<T>, pool: seq<T>)
    requires Distinct(pool)
    requires multiset(r) <= multiset(pool)
    ensures Distinct(r)
  {
    forall i, j | 0 <= i < j < |r|
      ensures r[i] != r[j]
    {
      if r[i] == r[j] {
        var v := r[i];
        assert r == r[..i] + [v] + r[i+1..j] + [v] + r[j+1..];
        assert multiset(r)[v] >= 2;
        DistinctCountsOnce(pool, v);
        assert false;
      }
    }
  }

  lemma {:induction false} DistinctCountsOnce<T>(s: seq<T>, v: T)
    requires Distinct(s)
    ensures multiset(s)[v] <= 1
  {
    if s != [] {
      assert s == [s[0]] + s[1..];
      DistinctCountsOnce(s[1..], v);
      if s[0] == v {
        assert v !in s[1..];
      }
    }
  }

  /** A subsequence of a sequence's tail is a subsequence of the whole sequence. */
  lemma SubsequenceOfTail<T>(s: seq<T>, t: seq<T>)
    requires t != [] && IsSubsequence(s, t[1..])
    ensures IsSubsequence(s, t)
    decreases |t|, 1
  {
    if s != [] && s[0] == t[0] {
      if |t| > 1 {
        SubsequenceDropFront(s, t[1..]);
      }
      assert IsSubsequence(s[1..], t[1..]);
    }
  }

  /** Dropping the first element of a subsequence leaves a subsequence. */
  lemma SubsequenceDropFront<T>(s: seq<T>, t: seq<T>)
    requires s != [] && IsSubsequence(s, t)
    ensures IsSubsequence(s[1..], t)
    decreases |t|, 2
  {
    if s[0] == t[0] {
      assert IsSubsequence(s[1..], t[1..]);
      if s[1..] != [] {
        SubsequenceOfTail(s[1..], t);
      }
    } else {
      SubsequenceDropFront(s, t[1..]);
      if s[1..] != [] {
        SubsequenceOfTail(s[1..], t);
      }
    }
  }
}
