/**
  Vectors, metrics and scored offsets, and the top-k selection that the
  storage's scoring paths apply to their candidate scores.

  Vector elements are single-precision floats in the system; here they are
  `real`s that nothing computes with: a metric's `preprocess` and
  `similarity` are function values supplied by the caller.
*/
module Scoring {

  type Vector = seq<real>

  /** A metric: a one-time query preprocessing step and a similarity where higher is better. */
  datatype Metric = Metric(preprocess: Vector -> Vector, similarity: (Vector, Vector) -> real)

  /** A point offset paired with its score. */
  datatype ScoredPointOffset = ScoredPointOffset(idx: nat, score: real)

  /** The offsets of a sequence of scored points, in the same order. */
  function Ids(s: seq<ScoredPointOffset>): (ids: seq<nat>)
    ensures |ids| == |s|
    ensures forall i :: 0 <= i < |s| ==> ids[i] == s[i].idx
  {
    if s == [] then [] else [s[0].idx] + Ids(s[1..])
  }

  /** Scores never increase along `s`. */
  predicate SortedByScore(s: seq<ScoredPointOffset>)
  {
    forall i, j :: 0 <= i < j < |s| ==> s[i].score >= s[j].score
  }

  /**
    Inserts `x` into a sequence sorted by descending score, after every
    element whose score is at least `x`'s, so equal scores keep their
    arrival order.
  */
  function InsertByScore(x: ScoredPointOffset, s: seq<ScoredPointOffset>): (r: seq<ScoredPointOffset>)
    requires SortedByScore(s)
    ensures SortedByScore(r)
    ensures multiset(r) == multiset(s) + multiset{x}
    ensures |r| == |s| + 1
    ensures forall i :: 0 <= i < |r| ==> r[i] == x || r[i] in s
  {
    if s == [] then [x]
    else if s[0].score >= x.score then
      var rest := InsertByScore(x, s[1..]);
      assert s == [s[0]] + s[1..];
      HeadDominates(s, x, rest);
      [s[0]] + rest
    else
      [x] + s
  }

  /** The head of a sorted sequence scores at least as high as anything inserted behind it. */
  lemma HeadDominates(s: seq<ScoredPointOffset>, x: ScoredPointOffset, rest: seq<ScoredPointOffset>)
    requires s != [] && SortedByScore(s) && s[0].score >= x.score
    requires SortedByScore(rest)
    requires forall i :: 0 <= i < |rest| ==> rest[i] == x || rest[i] in s[1..]
    ensures SortedByScore([s[0]] + rest)
    ensures forall i :: 0 <= i < |rest| + 1 ==> ([s[0]] + rest)[i] == x || ([s[0]] + rest)[i] in s
  {
    var r := [s[0]] + rest;
    forall k | 0 <= k < |rest|
      ensures s[0].score >= rest[k].score
      ensures rest[k] == x || rest[k] in s
    {
      if rest[k] != x {
        var j :| 0 <= j < |s[1..]| && s[1..][j] == rest[k];
        assert s[1 + j] == rest[k];
      }
    }
    forall i, j | 0 <= i < j < |r|
      ensures r[i].score >= r[j].score
    {
      assert r[j] == rest[j - 1];
      if i > 0 {
        assert r[i] == rest[i - 1];
      }
    }
  }

  /** A stable sort of `s` by descending score. */
  function SortByScore(s: seq<ScoredPointOffset>): (r: seq<ScoredPointOffset>)
    ensures SortedByScore(r)
    ensures multiset(r) == multiset(s)
    ensures |r| == |s|
  {
    if s == [] then []
    else
      assert s == s[..|s| - 1] + [s[|s| - 1]];
      InsertByScore(s[|s| - 1], SortByScore(s[..|s| - 1]))
  }

  function Min(a: nat, b: nat): nat
  {
    if a <= b then a else b
  }

  /**
    The `top` highest-scoring entries of `scores`, in descending score
    order; all of them when there are fewer than `top`.
  */
  function PeekTopScores(scores: seq<ScoredPointOffset>, top: nat): (r: seq<ScoredPointOffset>)
    ensures |r| == Min(top, |scores|)
    ensures SortedByScore(r)
    ensures multiset(r) <= multiset(scores)
    ensures forall x, y :: x in r && y in multiset(scores) - multiset(r) ==> x.score >= y.score
  {
    var sorted := SortByScore(scores);
    var n := Min(top, |scores|);
    SortedPrefixDominates(sorted, n);
    sorted[..n]
  }

  /**
    Cutting a sorted sequence at `n`: the prefix and the rest split its
    multiset, and the prefix scores at least as high as all of the rest.
  */
  lemma SortedPrefixDominates(sorted: seq<ScoredPointOffset>, n: nat)
    requires SortedByScore(sorted) && n <= |sorted|
    ensures multiset(sorted) - multiset(sorted[..n]) == multiset(sorted[n..])
    ensures forall x, y :: x in sorted[..n] && y in multiset(sorted[n..]) ==> x.score >= y.score
  {
    assert sorted == sorted[..n] + sorted[n..];
    assert multiset(sorted) == multiset(sorted[..n]) + multiset(sorted[n..]);
    forall x, y | x in sorted[..n] && y in multiset(sorted[n..])
      ensures x.score >= y.score
    {
      var i :| 0 <= i < n && sorted[..n][i] == x;
      assert y in sorted[n..];
      var j :| 0 <= j < |sorted| - n && sorted[n..][j] == y;
      assert sorted[i] == x && sorted[n + j] == y;
    }
  }
}
