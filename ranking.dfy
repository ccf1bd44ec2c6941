/**
  The last stage of the recommender: the candidate table is sorted by final
  score, highest first, and its first `top_n` rows are returned
  (recommendation.py:114, 118, 123, 127-128).
*/
module Ranking {

  /** One returned record: song id, name, composer, crowd difficulty and final score. */
  datatype Recommendation = Recommendation(id: int, name: string, composer: string, difficulty: real, score: real)

  /** Scores never increase along the sequence. */
  predicate SortedByScore(s: seq<Recommendation>)
  {
    forall i, j :: 0 <= i < j < |s| ==> s[i].score >= s[j].score
  }

  /**
    Number of rows a table of `len` rows keeps under `head(n)`: the first `n`
    rows when `n` is not negative, and every row but the last `-n` otherwise.
  */
  function HeadCount(n: int, len: nat): (k: nat)
    ensures k <= len
    ensures 0 <= n ==> k <= n && (k == n || k == len)
    ensures n < 0 ==> k + -n >= len && (k == 0 || k + -n == len)
  {
    if 0 <= n then (if n < len then n else len)
    else if len + n > 0 then len + n else 0
  }

  /**
    `r` is what taking the head of `cands`, sorted by descending score, can
    yield: the right number of rows, in score order, each a distinct row of
    `cands`, and no left-out candidate scoring above a kept one.
  */
  ghost predicate IsTopN(r: seq<Recommendation>, cands: seq<Recommendation>, n: int)
  {
    && |r| == HeadCount(n, |cands|)
    && SortedByScore(r)
    && multiset(r) <= multiset(cands)
    && forall c :: c in multiset(cands) - multiset(r) ==> forall i :: 0 <= i < |r| ==> c.score <= r[i].score
  }

  /** Exchanges two neighbouring rows. */
  method SwapDown(a: array<Recommendation>, j: nat)
    requires 0 < j < a.Length
    modifies a
    ensures a[..] == old(a[..])[j - 1 := old(a[j])][j := old(a[j - 1])]
    ensures multiset(a[..]) == multiset(old(a[..]))
  {
    a[j - 1], a[j] := a[j], a[j - 1];
  }

  /**
    Moves the row at index `i` left past every lower-scoring row, so that the
    first `i + 1` rows are in score order.
  */
  method InsertAt(a: array<Recommendation>, i: nat)
    requires i < a.Length
    requires SortedByScore(a[..i])
    modifies a
    ensures SortedByScore(a[..i + 1])
    ensures a[i + 1..] == old(a[i + 1..])
    ensures multiset(a[..]) == multiset(old(a[..]))
  {
    var j := i;
    while 0 < j && a[j - 1].score < a[j].score
      invariant 0 <= j <= i
      invariant a[i + 1..] == old(a[i + 1..])
      invariant multiset(a[..]) == multiset(old(a[..]))
      invariant forall k, l :: 0 <= k < l <= i && k != j && l != j ==> a[k].score >= a[l].score
      invariant forall l :: j < l <= i ==> a[j].score >= a[l].score
      invariant 0 < j < i ==> a[j - 1].score >= a[j + 1].score
    {
      SwapDown(a, j);
      j := j - 1;
    }
  }

  /** Insertion sort of the candidate table by descending score, in place. */
  method SortByScore(a: array<Recommendation>)
    modifies a
    ensures SortedByScore(a[..])
    ensures multiset(a[..]) == multiset(old(a[..]))
  {
    var i := 0;
    while i < a.Length
      invariant 0 <= i <= a.Length
      invariant SortedByScore(a[..i])
      invariant multiset(a[..]) == multiset(old(a[..]))
    {
      InsertAt(a, i);
      i := i + 1;
    }
    assert a[..a.Length] == a[..];
  }

  /** What is left of a sequence once its first `k` rows are taken away is its tail. */
  lemma {:induction false} RemoveHead(s: seq<Recommendation>, k: nat)
    requires k <= |s|
    ensures multiset(s) - multiset(s[..k]) == multiset(s[k..])
  {
    assert s == s[..k] + s[k..];
  }

  /** In a score-sorted sequence, no row past index `k` scores above a row before it. */
  lemma TailBelowHead(s: seq<Recommendation>, k: nat, c: Recommendation)
    requires SortedByScore(s)
    requires k <= |s| && c in multiset(s[k..])
    ensures forall i :: 0 <= i < k ==> c.score <= s[i].score
  {
    var j :| 0 <= j < |s[k..]| && s[k..][j] == c;
    assert s[k + j] == c;
  }

  /** The head of a score-sorted permutation of `cands` is a top-N selection of `cands`. */
  lemma HeadOfSortedIsTopN(s: seq<Recommendation>, cands: seq<Recommendation>, n: int)
    requires SortedByScore(s)
    requires multiset(s) == multiset(cands)
    ensures IsTopN(s[..HeadCount(n, |s|)], cands, n)
  {
    var k := HeadCount(n, |s|);
    var r := s[..k];
    assert |cands| == |s| by {
      assert |multiset(cands)| == |multiset(s)|;
    }
    assert multiset(r) <= multiset(cands) by {
      assert s == r + s[k..];
    }
    RemoveHead(s, k);
    forall c | c in multiset(cands) - multiset(r)
      ensures forall i :: 0 <= i < |r| ==> c.score <= r[i].score
    {
      TailBelowHead(s, k, c);
    }
  }

  /** Every kept row is one of the candidates. */
  lemma TopNRowsAreCandidates(r: seq<Recommendation>, cands: seq<Recommendation>, n: int)
    requires IsTopN(r, cands, n)
    ensures forall i :: 0 <= i < |r| ==> r[i] in cands
  {
    forall i | 0 <= i < |r|
      ensures r[i] in cands
    {
      assert r[i] in multiset(r);
    }
  }
}
