/**
 * The two services together: the reply of the advisory rules, sent back
 * as JSON, is the advisory outcome the scoring step applies.
 */
module Integration {
  import opened Wrappers
  import opened Scoring
  import opened AdvisoryRules

  /** The JSON reply of `/validate` as the scoring step reads it: all fields present. */
  function AsAdvisoryResponse(v: ValidationResult): AdvisoryResponse {
    AdvisoryResponse(Some(v.adjustedScores), Some(v.flags), v.confidence)
  }

  /** A scoring run whose advisory call succeeded with the rules' reply to `req`. */
  function ScoredWithAdvice(req: ValidationRequest): ScoringResult {
    AdvisedResult(req.metrics, Some(AsAdvisoryResponse(Validation(req))))
  }

  /** The delta the rules give each indicator key. */
  lemma AdvisoryDeltaFor(req: ValidationRequest, i: Indicator)
    ensures DeltaFor(AdvisoryDeltas(req), Key(i))
      == if i == Transparency && TraceabilityWithoutDocs(req.metrics) then Some(-2)
         else if i == ProcessEfficiency && UnexplainedEfficiency(req) then Some(-3)
         else None
  {
    var t := TraceabilityWithoutDocs(req.metrics);
    var p := UnexplainedEfficiency(req);
    var deltas := AdvisoryDeltas(req);
    if t && p {
      assert deltas == [("transparency", -2), ("processEfficiency", -3)];
      assert deltas[..1] == [("transparency", -2)];
      assert deltas[..1][..0] == [];
    } else if t {
      assert deltas == [("transparency", -2)];
      assert deltas[..0] == [];
    } else if p {
      assert deltas == [("processEfficiency", -3)];
      assert deltas[..0] == [];
    } else {
      assert deltas == [];
    }
  }

  /**
   * The rules' deltas change only transparency, by -2 (not below 0) when
   * traceability is claimed with "minimal" documentation, and process
   * efficiency, by -3 (not below 0) when a gain above 30% comes without
   * details. Every confidence is kept.
   */
  lemma AdvisoryDeltasEffect(rule: Indicators, req: ValidationRequest)
    ensures var ind := AdjustAll(rule, AdvisoryDeltas(req));
      && (forall i :: ind.Get(i).confidence == rule.Get(i).confidence)
      && (forall i :: i != Transparency && i != ProcessEfficiency ==> ind.Get(i) == rule.Get(i))
      && ind.transparency.score
         == (if TraceabilityWithoutDocs(req.metrics) then Max(0, rule.transparency.score - 2)
             else rule.transparency.score)
      && ind.processEfficiency.score
         == (if UnexplainedEfficiency(req) then Max(0, rule.processEfficiency.score - 3)
             else rule.processEfficiency.score)
  {
    var deltas := AdvisoryDeltas(req);
    var ind := AdjustAll(rule, deltas);
    DeltaRules(req);
    forall i
      ensures ind.Get(i).confidence == rule.Get(i).confidence
      ensures i != Transparency && i != ProcessEfficiency ==> ind.Get(i) == rule.Get(i)
    {
      AdjustAllEffect(rule, deltas, i);
      AdvisoryDeltaFor(req, i);
    }
    AdjustAllEffect(rule, deltas, Transparency);
    AdvisoryDeltaFor(req, Transparency);
    AdjustAllEffect(rule, deltas, ProcessEfficiency);
    AdvisoryDeltaFor(req, ProcessEfficiency);
  }

  /**
   * With a successful advisory call, only transparency and process
   * efficiency can differ from their rule scores, each by its penalty.
   */
  lemma AdviceTouchesOnlyPenalisedScores(req: ValidationRequest)
    ensures var rule := RuleIndicators(req.metrics);
      var ind := ScoredWithAdvice(req).indicators;
      && (forall i :: ind.Get(i).confidence == rule.Get(i).confidence)
      && (forall i :: i != Transparency && i != ProcessEfficiency ==> ind.Get(i) == rule.Get(i))
      && ind.transparency.score
         == (if TraceabilityWithoutDocs(req.metrics) then Max(0, rule.transparency.score - 2)
             else rule.transparency.score)
      && ind.processEfficiency.score
         == (if UnexplainedEfficiency(req) then Max(0, rule.processEfficiency.score - 3)
             else rule.processEfficiency.score)
  {
    AdvisoryDeltasEffect(RuleIndicators(req.metrics), req);
  }

  /**
   * Lowering transparency by at most 2 and process efficiency by at most 3,
   * never below 0, and keeping every other score lowers a total by at most 5
   * and keeps it within 0..100.
   */
  lemma PenalisedTotal(rule: Indicators, ind: Indicators)
    requires forall i :: 0 <= rule.Get(i).score <= MaxScore(i)
    requires forall i :: i != Transparency && i != ProcessEfficiency ==> ind.Get(i) == rule.Get(i)
    requires 0 <= ind.transparency.score && rule.transparency.score - 2 <= ind.transparency.score <= rule.transparency.score
    requires 0 <= ind.processEfficiency.score
      && rule.processEfficiency.score - 3 <= ind.processEfficiency.score <= rule.processEfficiency.score
    ensures Total(rule) - 5 <= Total(ind) <= Total(rule)
    ensures 0 <= Total(ind) <= 100
  {
    assert ind.resourceReduction == rule.Get(ResourceReduction);
    assert ind.reusePractice == rule.Get(ReusePractice);
    assert ind.recycleIntegration == rule.Get(RecycleIntegration);
    assert ind.productDurability == rule.Get(ProductDurability);
    assert ind.carbonAvoidance == rule.Get(CarbonAvoidance);
    assert ind.livelihoodImpact == rule.Get(LivelihoodImpact);
    assert rule.transparency == rule.Get(Transparency);
    assert rule.processEfficiency == rule.Get(ProcessEfficiency);
    TotalWithinRange(rule);
  }

  /**
   * The advised total stays within 0..100 and lies at most 5 points below
   * the rule-based total; the breakdown keeps the rule-based subtotals.
   */
  lemma AdvisedTotalBounds(req: ValidationRequest)
    ensures var before := RuleBasedResult(req.metrics);
      var after := ScoredWithAdvice(req);
      && 0 <= after.totalScore <= 100
      && before.totalScore - 5 <= after.totalScore <= before.totalScore
      && after.breakdown == before.breakdown
      && after.recommendation == GetRecommendation(after.totalScore)
  {
    AdviceTouchesOnlyPenalisedScores(req);
    PenalisedTotal(RuleIndicators(req.metrics), ScoredWithAdvice(req).indicators);
  }

  /**
   * The flags of an advised run: the rule flags, judged on the scores
   * before any delta, then the advisory flags in rule order.
   */
  lemma AdvisedFlags(req: ValidationRequest)
    ensures ScoredWithAdvice(req).flags
      == DetectAnomalies(req.metrics, RuleIndicators(req.metrics)) + AdvisoryFlags(req.metrics)
  {
  }

  /** A carbon claim above 5000 kg is reported by both services, each in its own words. */
  lemma HighCarbonReportedTwice(req: ValidationRequest)
    requires req.metrics.carbonReductionKg.Some? && req.metrics.carbonReductionKg.value > 5000.0
    ensures HighCarbonFlag in ScoredWithAdvice(req).flags
    ensures HighCarbonClaim in ScoredWithAdvice(req).flags
  {
    AdvisedFlags(req);
    FlagRules(req.metrics);
  }
}
