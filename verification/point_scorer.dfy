/**
  The filtered scorer used during graph traversal: a raw scorer composed
  with an external condition checker and an optional filter. The action
  a caller passes in is modelled by the sequence of scored points it is
  handed, in call order.
*/
module PointScorer {
  import opened Wrappers
  import opened Sequences
  import opened Scoring
  import opened MemmapStorage

  /**
    `check(point, filter)` stands for the payload condition checker; the
    filter type `F` is whatever that checker understands.
  */
  datatype FilteredScorer<!F> = FilteredScorer(raw: MemmapRawScorer, check: (nat, F) -> bool, filter: Option<F>) {

    ghost predicate Valid()
    {
      raw.Valid()
    }

    /** The checker's verdict under filter `f`, as a predicate on candidates. */
    function Condition(f: F): nat -> bool
    {
      (p: nat) => check(p, f)
    }

    /** Admissible: passes the filter, if there is one, and the raw scorer's liveness test. */
    predicate CheckPoint(point: nat): (ok: bool)
      ensures ok ==> raw.CheckPoint(point) && (filter.None? || check(point, filter.value))
      ensures raw.CheckPoint(point) && (filter.None? || check(point, filter.value)) ==> ok
    {
      match filter
      case None => raw.CheckPoint(point)
      case Some(f) => check(point, f) && raw.CheckPoint(point)
    }

    /**
      The scored points handed to the action: without a filter, the raw
      scorer's stream over the candidates; with one, the raw scorer's
      stream over the candidates the checker accepts.
    */
    function ScoreIterablePoints(points: seq<nat>): (emitted: seq<ScoredPointOffset>)
      requires Valid()
      ensures |emitted| <= |points|
      ensures forall i :: 0 <= i < |emitted| ==>
                CheckPoint(emitted[i].idx) && emitted[i] == raw.Score(emitted[i].idx)
    {
      match filter
      case None => raw.ScorePoints(points)
      case Some(f) =>
        var accepted := Filter(points, Condition(f));
        var emitted := raw.ScorePoints(accepted);
        assert forall i :: 0 <= i < |emitted| ==> check(emitted[i].idx, f) by {
          raw.ScorePointsIds(accepted);
          forall i | 0 <= i < |emitted| ensures check(emitted[i].idx, f) {
            assert Ids(emitted)[i] == emitted[i].idx;
            LiveCandidatesFilter(raw.deleted, accepted);
            assert Ids(emitted)[i] in Filter(accepted, LiveTest(raw.deleted));
            FilterSelectsFrom(accepted, LiveTest(raw.deleted));
            FilterSelectsFrom(points, Condition(f));
          }
        }
        emitted
    }

    /** `CheckPoint` as a predicate value to filter candidates with. */
    function Admissible(): nat -> bool
    {
      (p: nat) => CheckPoint(p)
    }

    /**
      The slice form: the candidates are the elements of `ids`, in slice
      order, and the action is handed the admissible ones, each with its
      raw score.
    */
    function ScorePoints(ids: seq<nat>): (emitted: seq<ScoredPointOffset>)
      requires Valid()
      ensures Ids(emitted) == Filter(ids, Admissible())
      ensures forall i :: 0 <= i < |emitted| ==> emitted[i] == raw.Score(emitted[i].idx)
    {
      EmitsAdmissibleCandidates(ids);
      ScoreIterablePoints(ids)
    }

    /**
      The offsets handed to the action are exactly the admissible
      candidates, in candidate order.
    */
    lemma EmitsAdmissibleCandidates(points: seq<nat>)
      requires Valid()
      ensures Ids(ScoreIterablePoints(points)) == Filter(points, Admissible())
    {
      var live := LiveTest(raw.deleted);
      match filter {
        case None =>
          raw.ScorePointsIds(points);
          LiveCandidatesFilter(raw.deleted, points);
          FilterAgree(points, live, Admissible());
        case Some(f) =>
          var accepted := Filter(points, Condition(f));
          raw.ScorePointsIds(accepted);
          LiveCandidatesFilter(raw.deleted, accepted);
          FilterFilter(points, Condition(f), live, Admissible());
      }
    }

    /**
      With a filter, the stream handed to the action is the unfiltered
      stream with the points the checker rejects taken out.
    */
    lemma FilteredIsUnfilteredMinusRejected(points: seq<nat>, f: F)
      requires Valid() && filter == Some(f)
      ensures ScoreIterablePoints(points) == Filter(raw.ScorePoints(points), (s: ScoredPointOffset) => check(s.idx, f))
    {
      raw.ScoreAfterFilter(points, Condition(f));
      FilterAgree(raw.ScorePoints(points),
                  (s: ScoredPointOffset) => Condition(f)(s.idx),
                  (s: ScoredPointOffset) => check(s.idx, f));
    }

    /** Filtering only drops points: the output is an ordered subsequence of the unfiltered one. */
    lemma FilteredIsSubsequence(points: seq<nat>)
      requires Valid()
      ensures IsSubsequence(ScoreIterablePoints(points), raw.ScorePoints(points))
    {
      match filter {
        case None =>
          assert ScoreIterablePoints(points) == raw.ScorePoints(points);
          FilterKeepsAll(raw.ScorePoints(points), (s: ScoredPointOffset) => true);
          FilterIsSubsequence(raw.ScorePoints(points), (s: ScoredPointOffset) => true);
        case Some(f) =>
          FilteredIsUnfilteredMinusRejected(points, f);
          FilterIsSubsequence(raw.ScorePoints(points), (s: ScoredPointOffset) => check(s.idx, f));
      }
    }
  }
}
