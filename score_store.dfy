/**
 * The append-only store of score records: `saveScore`, `getScoreHistory`
 * and `getLatestScore`. A record is the flattened form of one scoring
 * result; records are never changed or deleted.
 */
module ScoreStore {
  import opened Wrappers
  import opened Scoring

  /** Server-assigned identifiers (UUIDs), modelled as distinct numbers. */
  type Uuid = nat

  /** One row of the `scores` table. */
  datatype Score = Score(
    id: Uuid,
    submissionId: Uuid,
    umkmId: Uuid,
    totalScore: int,
    operationalCircularityScore: int,
    ethicsScore: int,
    impactScore: int,
    resourceReductionScore: int,
    resourceReductionConfidence: real,
    reusePracticeScore: int,
    reusePracticeConfidence: real,
    recycleIntegrationScore: int,
    recycleIntegrationConfidence: real,
    productDurabilityScore: int,
    productDurabilityConfidence: real,
    processEfficiencyScore: int,
    processEfficiencyConfidence: real,
    transparencyScore: int,
    transparencyConfidence: real,
    carbonAvoidanceScore: int,
    carbonAvoidanceConfidence: real,
    livelihoodImpactScore: int,
    livelihoodImpactConfidence: real,
    aiOverallConfidence: real,
    aiFlags: seq<string>,
    recommendation: string,
    scoredAt: nat)

  /** The overall advisory confidence every record is saved with. */
  const SavedAdvisoryConfidence: real := 0.85

  /** The record `saveScore` builds from a result. */
  function ToRecord(id: Uuid, submissionId: Uuid, umkmId: Uuid, result: ScoringResult, scoredAt: nat): Score {
    var ind := result.indicators;
    Score(
      id, submissionId, umkmId,
      result.totalScore,
      result.breakdown.operationalCircularity, result.breakdown.ethics, result.breakdown.impact,
      ind.resourceReduction.score, ind.resourceReduction.confidence,
      ind.reusePractice.score, ind.reusePractice.confidence,
      ind.recycleIntegration.score, ind.recycleIntegration.confidence,
      ind.productDurability.score, ind.productDurability.confidence,
      ind.processEfficiency.score, ind.processEfficiency.confidence,
      ind.transparency.score, ind.transparency.confidence,
      ind.carbonAvoidance.score, ind.carbonAvoidance.confidence,
      ind.livelihoodImpact.score, ind.livelihoodImpact.confidence,
      SavedAdvisoryConfidence,
      result.flags,
      result.recommendation.Label(),
      scoredAt)
  }

  /** The scoring result a record was flattened from, read back. */
  function ResultOf(s: Score): Option<ScoringResult> {
    match RecommendationFromLabel(s.recommendation)
    case None => None
    case Some(tier) =>
      Some(ScoringResult(
        s.totalScore,
        Breakdown(s.operationalCircularityScore, s.ethicsScore, s.impactScore),
        Indicators(
          IndicatorResult(s.resourceReductionScore, s.resourceReductionConfidence),
          IndicatorResult(s.reusePracticeScore, s.reusePracticeConfidence),
          IndicatorResult(s.recycleIntegrationScore, s.recycleIntegrationConfidence),
          IndicatorResult(s.productDurabilityScore, s.productDurabilityConfidence),
          IndicatorResult(s.processEfficiencyScore, s.processEfficiencyConfidence),
          IndicatorResult(s.transparencyScore, s.transparencyConfidence),
          IndicatorResult(s.carbonAvoidanceScore, s.carbonAvoidanceConfidence),
          IndicatorResult(s.livelihoodImpactScore, s.livelihoodImpactConfidence)),
        s.aiFlags,
        tier))
  }

  /**
   * Flattening loses nothing: every indicator's score and confidence, the
   * breakdown, the flags and the tier are read back unchanged, and the record
   * carries the fixed advisory confidence.
   */
  lemma RecordRoundTrip(id: Uuid, submissionId: Uuid, umkmId: Uuid, result: ScoringResult, scoredAt: nat)
    ensures ResultOf(ToRecord(id, submissionId, umkmId, result, scoredAt)) == Some(result)
    ensures ToRecord(id, submissionId, umkmId, result, scoredAt).aiOverallConfidence == 0.85
  {
    LabelRoundTrip(result.recommendation);
  }

  /** Records in insertion order carry strictly increasing creation times. */
  ghost predicate Ascending(rs: seq<Score>) {
    forall k, m :: 0 <= k < m < |rs| ==> rs[k].scoredAt < rs[m].scoredAt
  }

  /** The records of one applicant, latest inserted first. */
  function NewestFirst(rs: seq<Score>, umkmId: Uuid): (h: seq<Score>)
    ensures forall s :: s in h <==> s in rs && s.umkmId == umkmId
    decreases |rs|
  {
    if rs == [] then []
    else
      var last := rs[|rs| - 1];
      var front := rs[..|rs| - 1];
      assert rs == front + [last];
      (if last.umkmId == umkmId then [last] else []) + NewestFirst(front, umkmId)
  }

  /** Appending a record puts it in front of its applicant's history and changes no other history. */
  lemma NewestFirstSnoc(rs: seq<Score>, x: Score, umkmId: Uuid)
    ensures NewestFirst(rs + [x], umkmId) == (if x.umkmId == umkmId then [x] else []) + NewestFirst(rs, umkmId)
  {
    assert (rs + [x])[..|rs + [x]| - 1] == rs;
  }

  /** Newest first: creation times strictly decrease along the sequence. */
  ghost predicate Descending(h: seq<Score>) {
    forall k, m :: 0 <= k < m < |h| ==> h[k].scoredAt > h[m].scoredAt
  }

  /** Dropping the newest record keeps the insertion order ascending. */
  lemma AscendingFront(rs: seq<Score>)
    requires rs != [] && Ascending(rs)
    ensures Ascending(rs[..|rs| - 1])
  {
    var front := rs[..|rs| - 1];
    forall k, m | 0 <= k < m < |front| ensures front[k].scoredAt < front[m].scoredAt {
      assert front[k] == rs[k] && front[m] == rs[m];
    }
  }

  /** Every record before the newest one is older than it. */
  lemma OlderThanLast(rs: seq<Score>, s: Score)
    requires rs != [] && Ascending(rs) && s in rs[..|rs| - 1]
    ensures s.scoredAt < rs[|rs| - 1].scoredAt
  {
    var front := rs[..|rs| - 1];
    var k :| 0 <= k < |front| && front[k] == s;
    assert rs[k] == s;
  }

  /** A record newer than every record of a descending history can go in front of it. */
  lemma DescendingCons(x: Score, rest: seq<Score>)
    requires Descending(rest) && forall s :: s in rest ==> s.scoredAt < x.scoredAt
    ensures Descending([x] + rest)
  {
    var h := [x] + rest;
    forall k, m | 0 <= k < m < |h| ensures h[k].scoredAt > h[m].scoredAt {
      assert h[m] == rest[m - 1];
      if k > 0 {
        assert h[k] == rest[k - 1];
      } else {
        assert rest[m - 1] in rest;
      }
    }
  }

  /** Over records in insertion order, the history is newest first. */
  lemma {:induction false} NewestFirstIsDescending(rs: seq<Score>, umkmId: Uuid)
    requires Ascending(rs)
    ensures Descending(NewestFirst(rs, umkmId))
  {
    if rs != [] {
      var last := rs[|rs| - 1];
      var front := rs[..|rs| - 1];
      AscendingFront(rs);
      NewestFirstIsDescending(front, umkmId);
      var rest := NewestFirst(front, umkmId);
      if last.umkmId == umkmId {
        forall s | s in rest ensures s.scoredAt < last.scoredAt {
          OlderThanLast(rs, s);
        }
        DescendingCons(last, rest);
        assert NewestFirst(rs, umkmId) == [last] + rest;
      } else {
        assert NewestFirst(rs, umkmId) == rest;
      }
    }
  }

  /** The score store of one backend: the `scores` table and its clocks. */
  class ScoreStore {
    /** All records, in insertion order. */
    var records: seq<Score>
    /** The next record id to hand out. */
    var nextId: Uuid
    /** The creation time the next record gets. */
    var clock: nat

    ghost predicate Valid()
      reads this
    {
      && Ascending(records)
      && (forall k :: 0 <= k < |records| ==> records[k].id < nextId && records[k].scoredAt < clock)
      && (forall k, m :: 0 <= k < m < |records| ==> records[k].id != records[m].id)
    }

    constructor ()
      ensures Valid() && records == []
    {
      records, nextId, clock := [], 0, 0;
    }

    /** `getScoreHistory`: that applicant's records only, newest first. */
    function GetScoreHistory(umkmId: Uuid): (h: seq<Score>)
      reads this
      requires Valid()
      ensures forall s :: s in h <==> s in records && s.umkmId == umkmId
      ensures Descending(h)
    {
      NewestFirstIsDescending(records, umkmId);
      NewestFirst(records, umkmId)
    }

    /** `getLatestScore`: the applicant's newest record, or none. */
    function GetLatestScore(umkmId: Uuid): (r: Option<Score>)
      reads this
      requires Valid()
      ensures r.None? <==> forall s :: s in records ==> s.umkmId != umkmId
      ensures r.Some? ==> r.value in records && r.value.umkmId == umkmId
      ensures r.Some? ==> forall s :: s in records && s.umkmId == umkmId ==> s.scoredAt <= r.value.scoredAt
      ensures r == if GetScoreHistory(umkmId) == [] then None else Some(GetScoreHistory(umkmId)[0])
    {
      var h := GetScoreHistory(umkmId);
      if h == [] then None
      else
        assert forall s :: s in h ==> s == h[0] || s.scoredAt < h[0].scoredAt;
        Some(h[0])
    }

    /**
     * `saveScore`: appends one record that copies the result and belongs to
     * the given submission and applicant; nothing already stored changes.
     */
    method SaveScore(submissionId: Uuid, umkmId: Uuid, result: ScoringResult) returns (saved: Score)
      requires Valid()
      modifies this
      ensures Valid()
      ensures saved == ToRecord(old(nextId), submissionId, umkmId, result, old(clock))
      ensures records == old(records) + [saved]
      ensures GetScoreHistory(umkmId) == [saved] + old(GetScoreHistory(umkmId))
      ensures forall u :: u != umkmId ==> GetScoreHistory(u) == old(GetScoreHistory(u))
      ensures GetLatestScore(umkmId) == Some(saved)
    {
      saved := ToRecord(nextId, submissionId, umkmId, result, clock);
      ghost var before := records;
      records := records + [saved];
      nextId := nextId + 1;
      clock := clock + 1;
      forall u
        ensures NewestFirst(records, u) == (if u == umkmId then [saved] else []) + NewestFirst(before, u)
      {
        NewestFirstSnoc(before, saved, u);
      }
    }
  }
}
