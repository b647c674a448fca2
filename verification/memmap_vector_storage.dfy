/**
  The memory-mapped vector storage with the files and maps set aside.

  What remains is a table of fixed-dimension vectors indexed by point
  offset, a parallel table of deletion flags, a cached count of set flags,
  and whether the memory map is currently open. A slot is never reused:
  deleting sets its flag and keeps its vector.
*/
module MemmapStorage {
  import opened Wrappers
  import opened Sequences
  import opened Scoring

  /** Typed failures of the storage operations. */
  datatype StorageError =
    | Unsupported  // the operation is not available on a memory-mapped storage
    | OutOfRange   // the offset is not a slot of the storage
    | IoFailure    // a file could not be opened, written, flushed or mapped

  /** The half-open range `start..end` of offsets assigned by a bulk ingest. */
  datatype OffsetRange = OffsetRange(start: nat, end: nat)

  /** Where a bulk ingest fails, if it does: the file system is an input of the model. */
  datatype IngestFault =
    | NoFault
    | VectorsFileFault  // the vectors file cannot be opened, written or flushed
    | DeletedFileFault  // the deletion-flag file cannot be opened, written or flushed
    | RemapFault        // the grown files cannot be mapped again

  // ---------------------------------------------------------------------
  // Deletion flags

  /** Number of set deletion flags. */
  function CountTrue(flags: seq<bool>): (n: nat)
    ensures n <= |flags|
  {
    if flags == [] then 0
    else CountTrue(flags[..|flags| - 1]) + (if flags[|flags| - 1] then 1 else 0)
  }

  predicate StrictlyIncreasing(s: seq<nat>)
  {
    forall i, j :: 0 <= i < j < |s| ==> s[i] < s[j]
  }

  /**
    The offsets whose flag is clear, ascending: what iterating the live
    offsets yields. Together with the deleted slots they account for
    every slot.
  */
  function LiveOffsets(deleted: seq<bool>): (ids: seq<nat>)
    ensures StrictlyIncreasing(ids)
    ensures forall i :: 0 <= i < |ids| ==> ids[i] < |deleted| && !deleted[ids[i]]
    ensures forall p {:trigger p in ids} :: 0 <= p < |deleted| && !deleted[p] ==> p in ids
    ensures |ids| + CountTrue(deleted) == |deleted|
  {
    if deleted == [] then []
    else
      var last := |deleted| - 1;
      var prefix := deleted[..last];
      var ids := LiveOffsets(prefix);
      assert forall i :: 0 <= i < |ids| ==> ids[i] < last;
      if deleted[last] then ids else ids + [last]
  }

  /** A candidate offset is live when it has a flag and the flag is clear. */
  predicate IsLive(deleted: seq<bool>, point: nat)
  {
    point < |deleted| && !deleted[point]
  }

  /** The liveness test as a predicate value to filter candidates with. */
  function LiveTest(deleted: seq<bool>): nat -> bool
  {
    (p: nat) => IsLive(deleted, p)
  }

  /** The live candidates among `points`, in candidate order. */
  function LiveCandidates(deleted: seq<bool>, points: seq<nat>): seq<nat>
  {
    if points == [] then []
    else (if IsLive(deleted, points[0]) then [points[0]] else []) + LiveCandidates(deleted, points[1..])
  }

  /** The live candidates are the candidates filtered by the liveness test. */
  lemma {:induction false} LiveCandidatesFilter(deleted: seq<bool>, points: seq<nat>)
    ensures LiveCandidates(deleted, points) == Filter(points, LiveTest(deleted))
  {
    if points != [] {
      LiveCandidatesFilter(deleted, points[1..]);
    }
  }

  /** `k` clear flags. */
  function Zeros(k: nat): (flags: seq<bool>)
    ensures |flags| == k && forall i :: 0 <= i < k ==> !flags[i]
  {
    seq(k, _ => false)
  }

  /** The offsets `start, start + 1, ..., end - 1`. */
  function Span(start: nat, end: nat): (ids: seq<nat>)
    requires start <= end
    ensures |ids| == end - start && forall i :: 0 <= i < |ids| ==> ids[i] == start + i
  {
    seq(end - start, i => start + i)
  }

  /**
    Appending clear flags adds no deleted slot and makes every new slot
    live, after the live offsets already there.
  */
  lemma AppendZerosKeepsDeleted(deleted: seq<bool>, k: nat)
    ensures CountTrue(deleted + Zeros(k)) == CountTrue(deleted)
    ensures LiveOffsets(deleted + Zeros(k)) == LiveOffsets(deleted) + Span(|deleted|, |deleted| + k)
  {
    AppendZerosCount(deleted, k);
    AppendZerosLive(deleted, k);
  }

  lemma {:induction false} AppendZerosCount(deleted: seq<bool>, k: nat)
    ensures CountTrue(deleted + Zeros(k)) == CountTrue(deleted)
  {
    var longer := deleted + Zeros(k);
    if k == 0 {
      assert longer == deleted;
    } else {
      assert longer[..|longer| - 1] == deleted + Zeros(k - 1);
      assert !longer[|longer| - 1];
      AppendZerosCount(deleted, k - 1);
    }
  }

  lemma {:induction false} AppendZerosLive(deleted: seq<bool>, k: nat)
    ensures LiveOffsets(deleted + Zeros(k)) == LiveOffsets(deleted) + Span(|deleted|, |deleted| + k)
  {
    if k == 0 {
      assert deleted + Zeros(k) == deleted;
      assert Span(|deleted|, |deleted|) == [];
    } else {
      var shorter := deleted + Zeros(k - 1);
      ZerosSnoc(deleted, k - 1);
      AppendZerosLive(deleted, k - 1);
      LiveOffsetsAppendClear(shorter);
      SpanSnoc(|deleted|, |shorter|);
    }
  }

  lemma ZerosSnoc(deleted: seq<bool>, k: nat)
    ensures deleted + Zeros(k + 1) == (deleted + Zeros(k)) + [false]
  {
  }

  lemma SpanSnoc(start: nat, end: nat)
    requires start <= end
    ensures Span(start, end) + [end] == Span(start, end + 1)
  {
  }

  /** One more clear flag adds its slot as the last live offset. */
  lemma LiveOffsetsAppendClear(deleted: seq<bool>)
    ensures LiveOffsets(deleted + [false]) == LiveOffsets(deleted) + [|deleted|]
  {
    var longer := deleted + [false];
    assert longer != [] && |longer| - 1 == |deleted|;
    assert longer[..|deleted|] == deleted && !longer[|deleted|];
  }

  /** The test "is not `k`", as a predicate value to filter offsets with. */
  function IsNot(k: nat): nat -> bool
  {
    p => p != k
  }

  /** Setting flag `k` adds one deleted slot unless it was set already. */
  lemma {:induction false} SetFlagCount(deleted: seq<bool>, k: nat)
    requires k < |deleted|
    ensures CountTrue(deleted[k := true]) == CountTrue(deleted) + (if deleted[k] then 0 else 1)
  {
    var last := |deleted| - 1;
    var updated := deleted[k := true];
    if k == last {
      assert updated[..last] == deleted[..last];
    } else {
      assert updated[..last] == deleted[..last][k := true];
      SetFlagCount(deleted[..last], k);
    }
  }

  /** Setting flag `k` removes exactly `k` from the live offsets and keeps the rest in order. */
  lemma {:induction false} SetFlagLive(deleted: seq<bool>, k: nat)
    requires k < |deleted|
    ensures LiveOffsets(deleted[k := true]) == Filter(LiveOffsets(deleted), IsNot(k))
  {
    var last := |deleted| - 1;
    var prefix := deleted[..last];
    var updated := deleted[k := true];
    var tail: seq<nat> := if deleted[last] then [] else [last];
    var updatedTail: seq<nat> := if k == last then [] else tail;
    assert updated[..last] == if k == last then prefix else prefix[k := true];
    assert updated[last] == (k == last || deleted[last]);
    assert LiveOffsets(deleted) == LiveOffsets(prefix) + tail;
    assert LiveOffsets(updated) == LiveOffsets(updated[..last]) + updatedTail;
    FilterAppend(LiveOffsets(prefix), tail, IsNot(k));
    assert Filter(tail, IsNot(k)) == updatedTail;
    if k == last {
      FilterKeepsAll(LiveOffsets(prefix), IsNot(k));
    } else {
      SetFlagLive(prefix, k);
    }
  }

  // ---------------------------------------------------------------------
  // Another storage, as seen by a bulk ingest

  /**
    The observable state of the storage a bulk ingest reads from: its
    vectors and deletion flags. Its live offsets and its random access
    follow the storage contract.
  */
  datatype StorageImage = StorageImage(vectors: seq<Vector>, deleted: seq<bool>) {

    /** Consistent, and every vector has `dim` elements. */
    ghost predicate Valid(dim: nat)
    {
      |vectors| == |deleted| && forall i :: 0 <= i < |vectors| ==> |vectors[i]| == dim
    }

    function IterIds(): (ids: seq<nat>)
      ensures forall i :: 0 <= i < |ids| ==> ids[i] < |deleted| && !deleted[ids[i]]
      ensures forall p {:trigger p in ids} :: 0 <= p < |deleted| && !deleted[p] ==> p in ids
    {
      LiveOffsets(deleted)
    }

    /** The live vectors in iteration order: the i-th is the one stored at the i-th live offset. */
    function LiveVectors(): (vs: seq<Vector>)
      requires |vectors| == |deleted|
      ensures |vs| == |IterIds()|
      ensures forall i :: 0 <= i < |vs| ==> vs[i] == vectors[IterIds()[i]]
    {
      var ids := IterIds();
      seq(|ids|, i requires 0 <= i < |ids| => vectors[ids[i]])
    }

    function GetVector(key: nat): (v: Option<Vector>)
      ensures v.Some? <==> key < |vectors|
      ensures v.Some? ==> v.value == vectors[key]
    {
      if key < |vectors| then Some(vectors[key]) else None
    }
  }

  // ---------------------------------------------------------------------
  // Raw scorer

  /**
    A scorer bound to one preprocessed query and, read-only, to the
    vectors and deletion flags of one storage.
  */
  datatype MemmapRawScorer = MemmapRawScorer(query: Vector, metric: Metric, vectors: seq<Vector>, deleted: seq<bool>) {

    ghost predicate Valid()
    {
      |vectors| == |deleted|
    }

    /** Liveness: in range and not deleted. An offset with no flag counts as deleted. */
    predicate CheckPoint(point: nat): (ok: bool)
      ensures ok ==> point < |deleted|
      ensures ok <==> point in LiveOffsets(deleted)
    {
      IsLive(deleted, point)
    }

    /** The similarity of the query to the vector stored at `point`. */
    function Score(point: nat): ScoredPointOffset
      requires point < |vectors|
    {
      ScoredPointOffset(point, metric.similarity(query, vectors[point]))
    }

    /**
      Streams the candidates: each live candidate is scored, in candidate
      order; every other candidate is skipped without error.
    */
    function ScorePoints(points: seq<nat>): (r: seq<ScoredPointOffset>)
      requires Valid()
      ensures |r| <= |points|
      ensures forall i :: 0 <= i < |r| ==> CheckPoint(r[i].idx) && r[i] == Score(r[i].idx)
      ensures forall i :: 0 <= i < |r| ==> r[i].idx in points
    {
      if points == [] then []
      else if CheckPoint(points[0]) then [Score(points[0])] + ScorePoints(points[1..])
      else ScorePoints(points[1..])
    }

    /** The scored offsets are exactly the live candidates, in candidate order. */
    lemma {:induction false} ScorePointsIds(points: seq<nat>)
      requires Valid()
      ensures Ids(ScorePoints(points)) == LiveCandidates(deleted, points)
    {
      if points != [] {
        ScorePointsIds(points[1..]);
        var rest := ScorePoints(points[1..]);
        if CheckPoint(points[0]) {
          assert Ids([Score(points[0])] + rest) == [points[0]] + Ids(rest);
        }
      }
    }

    /** When every candidate is live, the output follows the candidates one for one. */
    lemma KeepsCandidateOrder(points: seq<nat>)
      requires Valid()
      requires forall i :: 0 <= i < |points| ==> CheckPoint(points[i])
      ensures Ids(ScorePoints(points)) == points
    {
      ScorePointsIds(points);
      LiveCandidatesFilter(deleted, points);
      FilterKeepsAll(points, LiveTest(deleted));
    }

    /**
      Pre-filtering the candidates by `keep` is filtering the scored
      output by `keep` on offsets: scoring commutes with filtering.
    */
    lemma {:induction false} ScoreAfterFilter(points: seq<nat>, keep: nat -> bool)
      requires Valid()
      ensures ScorePoints(Filter(points, keep)) == Filter(ScorePoints(points), (s: ScoredPointOffset) => keep(s.idx))
    {
      if points != [] {
        ScoreAfterFilter(points[1..], keep);
        var rest := ScorePoints(points[1..]);
        if CheckPoint(points[0]) {
          FilterAppend([Score(points[0])], rest, (s: ScoredPointOffset) => keep(s.idx));
        }
      }
    }
  }

  // ---------------------------------------------------------------------
  // The storage

  /** A vectors file and a flags file that describe the same slots, each vector of `dim` elements. */
  predicate TablesAgree(dim: nat, vectors: seq<Vector>, deleted: seq<bool>)
  {
    |vectors| == |deleted| && forall i :: 0 <= i < |vectors| ==> |vectors[i]| == dim
  }

  /**
    Reads the live vectors of `other` in its iteration order, as a bulk
    ingest copies them.
  */
  method ReadLive(other: StorageImage) returns (written: seq<Vector>)
    requires |other.vectors| == |other.deleted|
    ensures written == other.LiveVectors()
  {
    var ids := other.IterIds();
    written := [];
    ghost var live := other.LiveVectors();
    for i := 0 to |ids|
      invariant written == live[..i]
    {
      var vector := other.GetVector(ids[i]);
      written := written + [vector.value];
      assert live[..i + 1] == live[..i] + [live[i]];
    }
    assert live[..|ids|] == live;
  }

  /**
    Appending vectors of the right dimension with clear flags keeps the
    table consistent, adds no deleted slot, and makes every new slot
    live after the live slots already there.
  */
  lemma GrowKeepsValid(vectors: seq<Vector>, deleted: seq<bool>, dim: nat, added: seq<Vector>)
    requires |vectors| == |deleted|
    requires forall i :: 0 <= i < |vectors| ==> |vectors[i]| == dim
    requires forall i :: 0 <= i < |added| ==> |added[i]| == dim
    ensures |vectors + added| == |deleted + Zeros(|added|)|
    ensures CountTrue(deleted + Zeros(|added|)) == CountTrue(deleted)
    ensures LiveOffsets(deleted + Zeros(|added|)) == LiveOffsets(deleted) + Span(|deleted|, |deleted| + |added|)
    ensures forall i :: 0 <= i < |vectors + added| ==> |(vectors + added)[i]| == dim
  {
    AppendZerosKeepsDeleted(deleted, |added|);
    forall i | 0 <= i < |vectors + added| ensures |(vectors + added)[i]| == dim {
      if i >= |vectors| {
        assert (vectors + added)[i] == added[i - |vectors|];
      }
    }
  }

  class MemmapVectorStorage {
    var dim: nat
    var vectors: seq<Vector>
    var deleted: seq<bool>
    var deletedCount: nat
    /** Whether the memory map is open; it is closed while a bulk ingest grows the files. */
    var mapped: bool

    /** One flag per slot, the cached count agrees with the flags, every vector has `dim` elements. */
    ghost predicate Valid()
      reads this
    {
      && |vectors| == |deleted|
      && deletedCount == CountTrue(deleted)
      && forall i :: 0 <= i < |vectors| ==> |vectors[i]| == dim
    }

    /** The storage with its files mapped, holding `vectors` and `deleted`. */
    constructor Mapped(dim: nat, vectors: seq<Vector>, deleted: seq<bool>)
      requires TablesAgree(dim, vectors, deleted)
      ensures Valid() && mapped
      ensures this.dim == dim && this.vectors == vectors && this.deleted == deleted
    {
      this.dim := dim;
      this.vectors := vectors;
      this.deleted := deleted;
      this.deletedCount := CountTrue(deleted);
      this.mapped := true;
    }

    /**
      Opens the storage whose files hold `vectors` and `deleted` (empty
      sequences for a new directory). Fails when the directory cannot be
      created or the files cannot be mapped (`fsFails`), and when the two
      files do not describe the same slots of `dim` elements each.
    */
    static method Open(dim: nat, vectors: seq<Vector>, deleted: seq<bool>, fsFails: bool)
      returns (r: Result<MemmapVectorStorage, StorageError>)
      ensures r.Success? <==> !fsFails && TablesAgree(dim, vectors, deleted)
      ensures r.Failure? ==> r.error == IoFailure
      ensures r.Success? ==> fresh(r.value) && r.value.Valid() && r.value.mapped
      ensures r.Success? ==> r.value.dim == dim && r.value.vectors == vectors && r.value.deleted == deleted
    {
      if fsFails || !TablesAgree(dim, vectors, deleted) {
        return Failure(IoFailure);
      }
      var storage := new MemmapVectorStorage.Mapped(dim, vectors, deleted);
      r := Success(storage);
    }

    function VectorDim(): (d: nat)
      reads this
      requires Valid() && mapped
      ensures forall i :: 0 <= i < |vectors| ==> |vectors[i]| == d
    {
      dim
    }

    /** Live slots: the total number of slots minus the deleted ones. */
    function VectorCount(): (n: nat)
      reads this
      requires Valid() && mapped
      ensures n + DeletedCount() == |vectors|
      ensures n == |IterIds()|
    {
      |vectors| - deletedCount
    }

    function DeletedCount(): (n: nat)
      reads this
      requires Valid() && mapped
      ensures n == CountTrue(deleted) && n <= |vectors|
    {
      deletedCount
    }

    /**
      Raw random access: the vector at `key` whenever the slot exists,
      deleted or not; nothing when the map is closed.
    */
    function GetVector(key: nat): (v: Option<Vector>)
      reads this
      requires Valid()
      ensures v.Some? <==> mapped && key < |vectors|
      ensures v.Some? ==> v.value == vectors[key] && |v.value| == dim
    {
      if mapped && key < |vectors| then Some(vectors[key]) else None
    }

    /** Appending a single vector is refused by this storage, and nothing changes. */
    method PutVector(vector: Vector) returns (r: Result<nat, StorageError>)
      ensures r == Failure(Unsupported)
    {
      r := Failure(Unsupported);
    }

    /** Overwriting a slot is refused by this storage, and nothing changes. */
    method UpdateVector(key: nat, vector: Vector) returns (r: Result<nat, StorageError>)
      ensures r == Failure(Unsupported)
    {
      r := Failure(Unsupported);
    }

    /**
      Bulk ingest: appends every live vector of `other`, in `other`'s
      iteration order, with a clear flag each, and returns the range of
      offsets they received. The map is closed while the files grow; if
      the file system fails, the map stays closed.
    */
    method UpdateFrom(other: StorageImage, fault: IngestFault) returns (r: Result<OffsetRange, StorageError>)
      requires Valid() && mapped
      requires other.Valid(dim)
      modifies this
      ensures Valid() && dim == old(dim)
      ensures r.Success? <==> fault == NoFault
      ensures r.Failure? ==> r.error == IoFailure && !mapped
      ensures r.Failure? ==> vectors == old(vectors) && deleted == old(deleted) && deletedCount == old(deletedCount)
      ensures r.Success? ==> mapped && r.value == OffsetRange(old(|vectors|), old(|vectors|) + |other.IterIds()|)
      ensures r.Success? ==> vectors == old(vectors) + other.LiveVectors()
      ensures r.Success? ==> deleted == old(deleted) + Zeros(r.value.end - r.value.start)
      ensures r.Success? ==> deletedCount == old(deletedCount)
      ensures r.Success? ==> IterIds() == old(IterIds()) + Span(r.value.start, r.value.end)
    {
      var startIndex := |vectors|;
      ghost var oldIds := IterIds();
      mapped := false;
      if fault == VectorsFileFault {
        return Failure(IoFailure);
      }
      var written := ReadLive(other);
      var endIndex := startIndex + |written|;
      if fault == DeletedFileFault {
        return Failure(IoFailure);
      }
      var flags := Zeros(endIndex - startIndex);
      if fault == RemapFault {
        return Failure(IoFailure);
      }
      var grownVectors := vectors + written;
      var grownDeleted := deleted + flags;
      GrowKeepsValid(vectors, deleted, dim, written);
      ghost var newIds := LiveOffsets(grownDeleted);
      assert newIds == oldIds + Span(startIndex, endIndex);
      vectors, deleted, mapped := grownVectors, grownDeleted, true;
      assert IterIds() == newIds;
      r := Success(OffsetRange(startIndex, endIndex));
    }

    /**
      Tombstones `key`: sets its flag and keeps its vector. Deleting a
      deleted slot changes nothing; an offset past the end is an error.
    */
    method Delete(key: nat) returns (r: Result<(), StorageError>)
      requires Valid() && mapped
      modifies this`deleted, this`deletedCount
      ensures Valid()
      ensures r.Success? <==> key < |vectors|
      ensures r.Failure? ==> r.error == OutOfRange && deleted == old(deleted) && deletedCount == old(deletedCount)
      ensures r.Success? ==> deleted == old(deleted)[key := true]
      ensures r.Success? ==> deletedCount == old(deletedCount) + (if old(deleted)[key] then 0 else 1)
      ensures r.Success? ==> IterIds() == Filter(old(IterIds()), IsNot(key))
    {
      if key >= |deleted| {
        return Failure(OutOfRange);
      }
      SetFlagCount(deleted, key);
      SetFlagLive(deleted, key);
      if !deleted[key] {
        deleted := deleted[key := true];
        deletedCount := deletedCount + 1;
      }
      r := Success(());
    }

    /** The live offsets: every slot whose flag is clear, ascending. */
    function IterIds(): (ids: seq<nat>)
      reads this
      requires Valid() && mapped
      ensures StrictlyIncreasing(ids)
      ensures forall i :: 0 <= i < |ids| ==> ids[i] < |vectors| && !deleted[ids[i]]
      ensures forall p {:trigger p in ids} :: 0 <= p < |vectors| && !deleted[p] ==> p in ids
      ensures |ids| + deletedCount == |vectors|
    {
      LiveOffsets(deleted)
    }

    /** Succeeds without doing anything when the map is closed; otherwise as the file system says. */
    method Flush(syncFails: bool) returns (r: Result<(), StorageError>)
      ensures !mapped ==> r.Success?
      ensures mapped ==> (r.Success? <==> !syncFails)
      ensures r.Failure? ==> r.error == IoFailure
    {
      if !mapped {
        r := Success(());
      } else if syncFails {
        r := Failure(IoFailure);
      } else {
        r := Success(());
      }
    }

    /** A scorer for `vector` under `metric`, whose liveness test agrees with the live offsets. */
    function RawScorer(vector: Vector, metric: Metric): (s: MemmapRawScorer)
      reads this
      requires Valid() && mapped
      ensures s.Valid() && s.query == metric.preprocess(vector) && s.metric == metric
      ensures s.vectors == vectors && s.deleted == deleted
      ensures forall p :: s.CheckPoint(p) <==> p in IterIds()
    {
      MemmapRawScorer(metric.preprocess(vector), metric, vectors, deleted)
    }

    /**
      Scores the live candidates among `points` against `vector` and keeps
      the `top` best.
    */
    function ScorePoints(vector: Vector, points: seq<nat>, top: nat, metric: Metric): (r: seq<ScoredPointOffset>)
      reads this
      requires Valid() && mapped
      ensures forall i :: 0 <= i < |r| ==> r[i].idx < |vectors| && !deleted[r[i].idx] && r[i].idx in points
      ensures forall i :: 0 <= i < |r| ==>
                r[i].score == metric.similarity(metric.preprocess(vector), vectors[r[i].idx])
      ensures |r| == Min(top, |LiveCandidates(deleted, points)|)
      ensures SortedByScore(r)
      ensures multiset(r) <= multiset(RawScorer(vector, metric).ScorePoints(points))
      ensures forall x, y :: x in r && y in multiset(RawScorer(vector, metric).ScorePoints(points)) - multiset(r) ==>
                x.score >= y.score
    {
      var scorer := RawScorer(vector, metric);
      var scores := scorer.ScorePoints(points);
      scorer.ScorePointsIds(points);
      var top := PeekTopScores(scores, top);
      SelectedAreScored(scorer, points, top);
      top
    }

    /** Scores every live slot against `vector` and keeps the `top` best. */
    function ScoreAll(vector: Vector, top: nat, metric: Metric): (r: seq<ScoredPointOffset>)
      reads this
      requires Valid() && mapped
      ensures forall i :: 0 <= i < |r| ==> r[i].idx < |vectors| && !deleted[r[i].idx]
      ensures forall i :: 0 <= i < |r| ==>
                r[i].score == metric.similarity(metric.preprocess(vector), vectors[r[i].idx])
      ensures |r| == Min(top, VectorCount())
      ensures SortedByScore(r)
      ensures multiset(r) <= multiset(RawScorer(vector, metric).ScorePoints(IterIds()))
      ensures forall x, y :: x in r && y in multiset(RawScorer(vector, metric).ScorePoints(IterIds())) - multiset(r) ==>
                x.score >= y.score
    {
      var ids := IterIds();
      var scorer := RawScorer(vector, metric);
      scorer.KeepsCandidateOrder(ids);
      ScorePoints(vector, ids, top, metric)
    }

    /**
      Scores the live candidates among `points` against the vector stored
      at `point`, whether or not `point` itself is deleted.
    */
    function ScoreInternal(point: nat, points: seq<nat>, top: nat, metric: Metric): (r: seq<ScoredPointOffset>)
      reads this
      requires Valid() && mapped && point < |vectors|
      ensures forall i :: 0 <= i < |r| ==> r[i].idx < |vectors| && !deleted[r[i].idx] && r[i].idx in points
      ensures forall i :: 0 <= i < |r| ==>
                r[i].score == metric.similarity(metric.preprocess(vectors[point]), vectors[r[i].idx])
      ensures |r| == Min(top, |LiveCandidates(deleted, points)|)
      ensures SortedByScore(r)
      ensures multiset(r) <= multiset(RawScorer(vectors[point], metric).ScorePoints(points))
      ensures forall x, y :: x in r && y in multiset(RawScorer(vectors[point], metric).ScorePoints(points)) - multiset(r) ==>
                x.score >= y.score
    {
      ScorePoints(GetVector(point).value, points, top, metric)
    }
  }

  /** Whatever is selected from a raw scorer's output is a live candidate with its own score. */
  lemma SelectedAreScored(scorer: MemmapRawScorer, points: seq<nat>, selected: seq<ScoredPointOffset>)
    requires scorer.Valid()
    requires multiset(selected) <= multiset(scorer.ScorePoints(points))
    ensures forall i :: 0 <= i < |selected| ==>
              scorer.CheckPoint(selected[i].idx) && selected[i].idx in points &&
              selected[i] == scorer.Score(selected[i].idx)
  {
    var scores := scorer.ScorePoints(points);
    forall i | 0 <= i < |selected|
      ensures scorer.CheckPoint(selected[i].idx) && selected[i].idx in points
      ensures selected[i] == scorer.Score(selected[i].idx)
    {
      assert selected[i] in multiset(selected);
      assert selected[i] in multiset(scores);
      var j :| 0 <= j < |scores| && scores[j] == selected[i];
    }
  }
}
