/**
 Generic facts about sequences used by the letter-matching predicates and by
 the list comprehensions that build the "possible words" listings.
 */
module Seqs {

  /**
   `l` is a subsequence of `w`, decided by the greedy left-to-right scan:
   the first character of `w` that equals the next wanted one is taken.
   Nothing longer than `w` fits into it.
   */
  predicate IsSubsequence<T(==)>(l: seq<T>, w: seq<T>)
    ensures IsSubsequence(l, w) ==> |l| <= |w|
    decreases |w|
  {
    if l == [] then true
    else if w == [] then false
    else if w[0] == l[0] then IsSubsequence(l[1..], w[1..])
    else IsSubsequence(l, w[1..])
  }

  /**
   The declarative meaning of "subsequence": `idx` lists, for every element
   of `l`, a position of `w` holding it, and the positions strictly increase.
   */
  ghost predicate IsEmbedding<T>(idx: seq<int>, l: seq<T>, w: seq<T>)
  {
    && |idx| == |l|
    && (forall k :: 0 <= k < |idx| ==> 0 <= idx[k] < |w| && w[idx[k]] == l[k])
    && (forall k :: 0 <= k < |idx| - 1 ==> idx[k] < idx[k + 1])
  }

  /** Moves every position of an embedding `d` places to the right. */
  ghost function Shift(idx: seq<int>, d: int): (r: seq<int>)
    ensures |r| == |idx| && forall k :: 0 <= k < |idx| ==> r[k] == idx[k] + d
  {
    seq(|idx|, k requires 0 <= k < |idx| => idx[k] + d)
  }

  /** When the greedy scan succeeds, it yields increasing positions: a witness embedding. */
  ghost function Witness<T>(l: seq<T>, w: seq<T>): (idx: seq<int>)
    requires IsSubsequence(l, w)
    ensures IsEmbedding(idx, l, w)
    ensures |idx| > 0 ==> idx[0] >= 0
    decreases |w|
  {
    if l == [] then []
    else if w[0] == l[0] then
      var rest := Witness(l[1..], w[1..]);
      [0] + Shift(rest, 1)
    else
      Shift(Witness(l, w[1..]), 1)
  }

  /** Every embedding can be found by the greedy scan: passing over a match never loses. */
  lemma {:induction false} EmbeddingIsSubsequence<T>(idx: seq<int>, l: seq<T>, w: seq<T>)
    requires IsEmbedding(idx, l, w)
    ensures IsSubsequence(l, w)
    decreases |w|
  {
    if l != [] {
      assert w != [] by { assert 0 <= idx[0] < |w|; }
      if w[0] == l[0] {
        var rest := Shift(idx[1..], -1);
        forall k | 0 <= k < |rest| ensures 0 <= rest[k] < |w| - 1 && w[1..][rest[k]] == l[1..][k] {
          assert idx[0] < idx[1];
          if k > 0 {
            Increasing(idx, 0, k + 1);
          }
        }
        EmbeddingIsSubsequence(rest, l[1..], w[1..]);
      } else {
        assert idx[0] != 0;
        var rest := Shift(idx, -1);
        forall k | 0 <= k < |rest| ensures 0 <= rest[k] < |w| - 1 && w[1..][rest[k]] == l[k] {
          if k > 0 {
            Increasing(idx, 0, k);
          }
        }
        EmbeddingIsSubsequence(rest, l, w[1..]);
      }
    }
  }

  /** Consecutive increases give a strict increase between any two positions. */
  lemma {:induction false} Increasing(idx: seq<int>, i: int, j: int)
    requires 0 <= i < j < |idx|
    requires forall k :: 0 <= k < |idx| - 1 ==> idx[k] < idx[k + 1]
    ensures idx[i] < idx[j]
    decreases j - i
  {
    if i + 1 < j {
      Increasing(idx, i + 1, j);
    }
  }

  /** The greedy scan and the declarative definition agree in both directions. */
  lemma SubsequenceIffEmbedding<T>(l: seq<T>, w: seq<T>)
    ensures IsSubsequence(l, w) <==> exists idx :: IsEmbedding(idx, l, w)
  {
    if IsSubsequence(l, w) {
      var idx := Witness(l, w);
      assert IsEmbedding(idx, l, w);
    }
    if exists idx :: IsEmbedding(idx, l, w) {
      var idx :| IsEmbedding(idx, l, w);
      EmbeddingIsSubsequence(idx, l, w);
    }
  }

  /** The elements of `s` satisfying `p`, in their original order: `[x for x in s if p(x)]`. */
  function Filter<T(==)>(s: seq<T>, p: T -> bool): (r: seq<T>)
    ensures forall x :: x in r ==> x in s && p(x)
    ensures forall x :: x in s && p(x) ==> x in r && multiset(r)[x] == multiset(s)[x]
    ensures IsSubsequence(r, s)
  {
    if s == [] then []
    else
      var rest := Filter(s[1..], p);
      assert s == [s[0]] + s[1..];
      if p(s[0]) then
        assert ([s[0]] + rest)[1..] == rest;
        [s[0]] + rest
      else
        assert rest == [] || rest[0] != s[0];
        rest
  }

  /** `sum(1 for x in s if p(x))`. */
  function Count<T>(s: seq<T>, p: T -> bool): (n: nat)
    ensures n <= |s|
  {
    if s == [] then 0 else (if p(s[0]) then 1 else 0) + Count(s[1..], p)
  }

  /** Counting the matches and listing them agree on how many there are. */
  lemma {:induction false} CountIsFilterLength<T>(s: seq<T>, p: T -> bool)
    ensures Count(s, p) == |Filter(s, p)|
  {
    if s != [] {
      CountIsFilterLength(s[1..], p);
    }
  }
}
