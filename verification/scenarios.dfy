/**
  The two storage scenarios of the memory-mapped storage's own tests,
  replayed against the model, with the dot-product metric they use.
*/
module Scenarios {
  import opened Wrappers
  import opened Sequences
  import opened Scoring
  import opened MemmapStorage

  function DotProduct(a: Vector, b: Vector): real
    requires |a| == |b|
  {
    if a == [] then 0.0 else a[0] * b[0] + DotProduct(a[1..], b[1..])
  }

  /** Dot product: no preprocessing, similarity is the sum of elementwise products. */
  function Dot(): Metric
  {
    Metric(v => v, (a: Vector, b: Vector) => if |a| == |b| then DotProduct(a, b) else 0.0)
  }

  const Vec1: Vector := [1.0, 0.0, 1.0, 1.0]
  const Vec2: Vector := [1.0, 0.0, 1.0, 0.0]
  const Vec3: Vector := [1.0, 1.0, 1.0, 1.0]
  const Vec4: Vector := [1.0, 1.0, 0.0, 1.0]
  const Vec5: Vector := [1.0, 0.0, 0.0, 0.0]

  /** A freshly filled storage with no deleted vector: its offsets are all live, in order. */
  function FilledSource(vectors: seq<Vector>): (image: StorageImage)
    ensures image.vectors == vectors && image.deleted == Zeros(|vectors|)
    ensures image.IterIds() == Span(0, |vectors|)
  {
    AppendZerosKeepsDeleted([], |vectors|);
    assert [] + Zeros(|vectors|) == Zeros(|vectors|);
    StorageImage(vectors, Zeros(|vectors|))
  }

  /** After deleting offset 2 of five, four of the candidates 0..4 are live. */
  lemma FourLiveCandidates(flags: seq<bool>)
    requires |flags| == 5 && flags[2] && !flags[0] && !flags[1] && !flags[3] && !flags[4]
    ensures LiveCandidates(flags, [0, 1, 2, 3, 4]) == [0, 1, 3, 4]
  {
    LastTwoLive(flags);
    assert LiveCandidates(flags, [2, 3, 4]) == [3, 4] by {
      assert [2, 3, 4][1..] == [3, 4];
    }
    assert LiveCandidates(flags, [1, 2, 3, 4]) == [1, 3, 4] by {
      assert [1, 2, 3, 4][1..] == [2, 3, 4];
    }
    assert [0, 1, 2, 3, 4][1..] == [1, 2, 3, 4];
  }

  lemma LastTwoLive(flags: seq<bool>)
    requires |flags| == 5 && !flags[3] && !flags[4]
    ensures LiveCandidates(flags, [3, 4]) == [3, 4]
  {
    assert LiveCandidates(flags, [4]) == [4] by {
      assert [4][1..] == [];
    }
    assert [3, 4][1..] == [4];
  }

  /** Ingesting three vectors into an empty storage: three live, none deleted, offset 1 holds the second. */
  method IngestThree() returns (storage: MemmapVectorStorage)
    ensures fresh(storage) && storage.Valid() && storage.mapped && storage.dim == 4
    ensures storage.vectors == [Vec1, Vec2, Vec3] && storage.deleted == Zeros(3)
    ensures storage.VectorCount() == 3 && storage.DeletedCount() == 0
    ensures storage.GetVector(1) == Some(Vec2) && storage.IterIds() == [0, 1, 2]
  {
    var open := MemmapVectorStorage.Open(4, [], [], false);
    storage := open.value;
    var source := FilledSource([Vec1, Vec2, Vec3]);
    var first := storage.UpdateFrom(source, NoFault);
    assert source.IterIds()[0] == 0 && source.IterIds()[1] == 1 && source.IterIds()[2] == 2;
    assert storage.vectors == [Vec1, Vec2, Vec3];
    assert storage.deleted == [] + Zeros(3);
    assert Span(0, 3) == [0, 1, 2];
  }

  /** Deleting offset 2 of the three: offsets 0 and 1 remain live. */
  method IngestThreeDeleteOne() returns (storage: MemmapVectorStorage)
    ensures fresh(storage) && storage.Valid() && storage.mapped && storage.dim == 4
    ensures storage.vectors == [Vec1, Vec2, Vec3] && storage.deleted == [false, false, true]
    ensures storage.IterIds() == [0, 1]
  {
    storage := IngestThree();
    var deleted := storage.Delete(2);
    DropLastOfThree();
  }

  lemma DropLastOfThree()
    ensures Filter([0, 1, 2], IsNot(2)) == [0, 1]
  {
    assert [0, 1, 2][1..] == [1, 2] && [1, 2][1..] == [2] && [2][1..] == [];
  }

  /** Ingesting two more after the deletion: offsets 3 and 4 are new and live, 2 stays deleted. */
  method IngestTwoMore() returns (storage: MemmapVectorStorage)
    ensures fresh(storage) && storage.Valid() && storage.mapped && storage.dim == 4
    ensures storage.deleted == [false, false, true, false, false]
    ensures storage.IterIds() == [0, 1, 3, 4] && storage.VectorCount() == 4
  {
    storage := IngestThreeDeleteOne();
    var second := storage.UpdateFrom(FilledSource([Vec4, Vec5]), NoFault);
    assert second.value == OffsetRange(3, 5);
    assert Span(3, 5) == [3, 4];
    assert storage.IterIds() == [0, 1] + [3, 4];
    assert storage.deleted == [false, false, true] + Zeros(2);
  }

  /** Scanning all live vectors for the top two never yields the deleted offset 2. */
  method ScoreAllSkipsDeleted(storage: MemmapVectorStorage) returns (all: seq<ScoredPointOffset>)
    requires storage.Valid() && storage.mapped
    requires storage.deleted == [false, false, true, false, false]
    ensures |all| == 2 && forall i :: 0 <= i < |all| ==> all[i].idx != 2
  {
    OneOfFiveDeleted(storage.deleted);
    assert storage.VectorCount() == 4;
    all := storage.ScoreAll(Vec3, 2, Dot());
  }

  lemma OneOfFiveDeleted(flags: seq<bool>)
    requires flags == [false, false, true, false, false]
    ensures CountTrue(flags) == 1
  {
    assert flags == Zeros(5)[2 := true];
    SetFlagCount(Zeros(5), 2);
    AppendZerosCount([], 5);
    assert [] + Zeros(5) == Zeros(5);
  }

  /** Scoring the candidates 0..4 for the top two never yields the deleted offset 2. */
  method ScorePointsSkipsDeleted(storage: MemmapVectorStorage) returns (some: seq<ScoredPointOffset>)
    requires storage.Valid() && storage.mapped
    requires storage.deleted == [false, false, true, false, false]
    ensures |some| == 2 && forall i :: 0 <= i < |some| ==> some[i].idx != 2
  {
    FourLiveCandidates(storage.deleted);
    some := storage.ScorePoints(Vec3, [0, 1, 2, 3, 4], 2, Dot());
  }

  /**
    Ingest three vectors, delete offset 2, ingest two more: four live
    vectors remain, iteration skips offset 2, and neither scoring path
    returns it.
  */
  method BasicPersistence() returns (ids: seq<nat>, all: seq<ScoredPointOffset>, some: seq<ScoredPointOffset>)
    ensures ids == [0, 1, 3, 4]
    ensures |all| == 2 && forall i :: 0 <= i < |all| ==> all[i].idx != 2
    ensures |some| == 2 && forall i :: 0 <= i < |some| ==> some[i].idx != 2
  {
    var storage := IngestTwoMore();
    ids := storage.IterIds();
    all := ScoreAllSkipsDeleted(storage);
    some := ScorePointsSkipsDeleted(storage);
  }

  /** Under the dot product, [1, 0, 0, 0] picks out the first component. */
  lemma DotWithVec5(q: Vector)
    requires |q| == 4
    ensures DotProduct(q, Vec5) == q[0]
  {
    assert DotProduct(q[3..], Vec5[3..]) == 0.0 by {
      assert q[3..][1..] == [] && Vec5[3..][1..] == [];
    }
    assert q[2..][1..] == q[3..] && Vec5[2..][1..] == Vec5[3..];
    assert DotProduct(q[2..], Vec5[2..]) == 0.0;
    assert q[1..][1..] == q[2..] && Vec5[1..][1..] == Vec5[2..];
    assert DotProduct(q[1..], Vec5[1..]) == 0.0;
  }

  /**
    A raw scorer over five live vectors, the fifth being [1, 0, 0, 0],
    with the query [-1, -1, -1, -1] under the dot product: candidates
    [0, 2, 4] come out in that order and the last scores -1.
  */
  lemma RawScorerKeepsOrder(scorer: MemmapRawScorer)
    requires scorer.Valid() && scorer.deleted == Zeros(5) && scorer.vectors[4] == Vec5
    requires scorer.query == [-1.0, -1.0, -1.0, -1.0] && scorer.metric == Dot()
    ensures Ids(scorer.ScorePoints([0, 2, 4])) == [0, 2, 4]
    ensures scorer.ScorePoints([0, 2, 4])[2].score == -1.0
  {
    assert scorer.CheckPoint(0) && scorer.CheckPoint(2) && scorer.CheckPoint(4);
    scorer.KeepsCandidateOrder([0, 2, 4]);
    assert scorer.ScorePoints([0, 2, 4])[2] == scorer.Score(4);
    DotWithVec5(scorer.query);
  }

  /** Five vectors ingested in one bulk ingest into an empty storage. */
  method IngestFive() returns (storage: MemmapVectorStorage)
    ensures storage.Valid() && storage.mapped
    ensures storage.deleted == Zeros(5) && |storage.vectors| == 5 && storage.vectors[4] == Vec5
  {
    var open := MemmapVectorStorage.Open(4, [], [], false);
    storage := open.value;
    var source := FilledSource([Vec1, Vec2, Vec3, Vec4, Vec5]);
    var ingested := storage.UpdateFrom(source, NoFault);
    assert source.IterIds()[4] == 4;
    assert storage.deleted == [] + Zeros(5);
  }

  /** The raw scorer scenario on a storage filled by one bulk ingest. */
  method RawScorerOrder() returns (scored: seq<ScoredPointOffset>)
    ensures Ids(scored) == [0, 2, 4]
    ensures scored[2].score == -1.0
  {
    var storage := IngestFive();
    var scorer := storage.RawScorer([-1.0, -1.0, -1.0, -1.0], Dot());
    RawScorerKeepsOrder(scorer);
    scored := scorer.ScorePoints([0, 2, 4]);
  }
}
