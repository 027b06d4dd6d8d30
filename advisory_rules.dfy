/**
 * The advisory service's `/validate` rule function: from the submitted
 * metrics it builds anomaly flags, suggestions, per-indicator score
 * deltas and a confidence value. Its reply is what the scoring step reads
 * as the advisory outcome.
 */
module AdvisoryRules {
  import opened Wrappers
  import opened Scoring
  import opened Reals

  /**
   * The request body: the same metrics the scoring step reads, plus the
   * free-text and evidence fields only this service looks at.
   */
  datatype ValidationRequest = ValidationRequest(
    metrics: SubmissionData,
    carbonCalculationMethod: Option<string>,
    resourceReductionDetails: Option<string>,
    processDetails: Option<string>,
    evidenceFiles: Option<seq<string>>)

  datatype ValidationResult = ValidationResult(
    isValid: bool,
    confidence: real,
    flags: seq<string>,
    suggestions: seq<string>,
    adjustedScores: seq<(string, int)>)

  const HighCarbonClaim := "Unusually high carbon reduction claim"
  const HighResourceClaim := "Very high resource reduction percentage"
  const TraceabilityMismatch := "Traceability system claimed but minimal documentation"

  const CarbonMethodHint := "Provide detailed calculation method for carbon reduction"
  const ResourceBaselineHint := "Add baseline data and measurement methodology"
  const MoreEvidenceHint := "More evidence files recommended for higher confidence"
  const EfficiencyDetailHint := "High efficiency improvement needs detailed explanation"

  const BaseConfidence: real := 0.85

  /** A carbon claim above 5000 kg is unusually high. */
  predicate HighCarbon(d: SubmissionData) {
    NumberTruthy(d.carbonReductionKg) && d.carbonReductionKg.value > 5000.0
  }

  /** A resource reduction above 50 percent is very high. */
  predicate HighResource(d: SubmissionData) {
    NumberTruthy(d.resourceReductionPercentage) && d.resourceReductionPercentage.value > 50.0
  }

  /** Some evidence, but fewer than three files; an empty list is falsy. */
  predicate FewEvidence(req: ValidationRequest) {
    req.evidenceFiles.Some? && 0 < |req.evidenceFiles.value| < 3
  }

  /** Traceability claimed with documentation given, case-sensitively, as "minimal". */
  predicate TraceabilityWithoutDocs(d: SubmissionData) {
    BoolTruthy(d.traceabilitySystem) && d.documentationLevel == Some("minimal")
  }

  /** An efficiency gain above 30 percent with no explanation. */
  predicate UnexplainedEfficiency(req: ValidationRequest) {
    var d := req.metrics;
    NumberTruthy(d.processEfficiencyImprovement) && d.processEfficiencyImprovement.value > 30.0
    && !StringTruthy(req.processDetails)
  }

  /** The place of each flag in the order the rules run. */
  function AdvisoryFlagRank(f: string): nat {
    if f == HighCarbonClaim then 0
    else if f == HighResourceClaim then 1
    else if f == TraceabilityMismatch then 2
    else 3
  }

  /** The only deltas the service ever proposes. */
  predicate KnownPenalty(e: (string, int)) {
    e == ("transparency", -2) || e == ("processEfficiency", -3)
  }

  /** The real value of a condition, as 1 or 0. */
  function Ind(b: bool): real { if b then 1.0 else 0.0 }

  /** The flags the rules raise, in rule order. */
  function AdvisoryFlags(d: SubmissionData): (flags: seq<string>)
  {
    (if HighCarbon(d) then [HighCarbonClaim] else [])
    + (if HighResource(d) then [HighResourceClaim] else [])
    + (if TraceabilityWithoutDocs(d) then [TraceabilityMismatch] else [])
  }

  /** The suggestions the rules make, in rule order. */
  function AdvisorySuggestions(req: ValidationRequest): (suggestions: seq<string>)
  {
    (if HighCarbon(req.metrics) && !StringTruthy(req.carbonCalculationMethod) then [CarbonMethodHint] else [])
    + (if HighResource(req.metrics) && !StringTruthy(req.resourceReductionDetails) then [ResourceBaselineHint] else [])
    + (if FewEvidence(req) then [MoreEvidenceHint] else [])
    + (if UnexplainedEfficiency(req) then [EfficiencyDetailHint] else [])
  }

  /** The score deltas the rules propose: only the two known penalties, each at most once. */
  function AdvisoryDeltas(req: ValidationRequest): (deltas: seq<(string, int)>)
  {
    (if TraceabilityWithoutDocs(req.metrics) then [("transparency", -2)] else [])
    + (if UnexplainedEfficiency(req) then [("processEfficiency", -3)] else [])
  }

  /** Each flag is raised exactly when its rule fires, at most once and in rule order. */
  lemma FlagRules(d: SubmissionData)
    ensures HighCarbonClaim in AdvisoryFlags(d) <==> HighCarbon(d)
    ensures HighResourceClaim in AdvisoryFlags(d) <==> HighResource(d)
    ensures TraceabilityMismatch in AdvisoryFlags(d) <==> TraceabilityWithoutDocs(d)
    ensures forall f :: f in AdvisoryFlags(d) ==> AdvisoryFlagRank(f) < 3
    ensures var flags := AdvisoryFlags(d);
      forall k, m :: 0 <= k < m < |flags| ==> AdvisoryFlagRank(flags[k]) < AdvisoryFlagRank(flags[m])
  {
  }

  /** Each suggestion is made exactly when its rule fires. */
  lemma SuggestionRules(req: ValidationRequest)
    ensures CarbonMethodHint in AdvisorySuggestions(req)
      <==> HighCarbon(req.metrics) && !StringTruthy(req.carbonCalculationMethod)
    ensures ResourceBaselineHint in AdvisorySuggestions(req)
      <==> HighResource(req.metrics) && !StringTruthy(req.resourceReductionDetails)
    ensures MoreEvidenceHint in AdvisorySuggestions(req) <==> FewEvidence(req)
    ensures EfficiencyDetailHint in AdvisorySuggestions(req) <==> UnexplainedEfficiency(req)
    ensures |AdvisorySuggestions(req)| <= 4
  {
  }

  /** Only the two known penalties are proposed, each exactly when its rule fires, under distinct keys. */
  lemma DeltaRules(req: ValidationRequest)
    ensures forall e :: e in AdvisoryDeltas(req) ==> KnownPenalty(e)
    ensures ("transparency", -2) in AdvisoryDeltas(req) <==> TraceabilityWithoutDocs(req.metrics)
    ensures ("processEfficiency", -3) in AdvisoryDeltas(req) <==> UnexplainedEfficiency(req)
    ensures DistinctKeys(AdvisoryDeltas(req))
  {
  }

  /** The reply `validate_submission` builds. */
  function Validation(req: ValidationRequest): ValidationResult {
    var d := req.metrics;
    var confidence := BaseConfidence - 0.15 * Ind(HighCarbon(d)) - 0.1 * Ind(HighResource(d)) - 0.05 * Ind(FewEvidence(req));
    var flags := AdvisoryFlags(d);
    ValidationResult(
      |flags| < 3 && confidence > 0.5,
      Clamp01(confidence),
      flags,
      AdvisorySuggestions(req),
      AdvisoryDeltas(req))
  }

  /**
   * The confidence is the base less a fixed cost for each carbon flag,
   * resource flag and evidence suggestion reported. It never drops to
   * 0.5, so the clamp changes nothing and the reply is valid exactly when
   * fewer than three flags were raised.
   */
  lemma ValidationConfidence(req: ValidationRequest)
    ensures var r := Validation(req);
      && r.confidence == BaseConfidence
         - 0.15 * Ind(HighCarbonClaim in r.flags)
         - 0.1 * Ind(HighResourceClaim in r.flags)
         - 0.05 * Ind(MoreEvidenceHint in r.suggestions)
      && 0.55 <= r.confidence <= 0.85
      && (r.isValid <==> |r.flags| < 3)
  {
    FlagRules(req.metrics);
    SuggestionRules(req);
  }

  /**
   * `validate_submission`, step by step: each rule appends its flag and
   * suggestion, records its delta and lowers the running confidence.
   */
  method ValidateSubmission(req: ValidationRequest) returns (r: ValidationResult)
    ensures r == Validation(req)
  {
    var d := req.metrics;
    var flags: seq<string> := [];
    var suggestions: seq<string> := [];
    var adjusted: seq<(string, int)> := [];
    var confidence: real := BaseConfidence;

    if NumberTruthy(d.carbonReductionKg) && d.carbonReductionKg.value > 5000.0 {
      flags := flags + [HighCarbonClaim];
      confidence := confidence - 0.15;
      if !StringTruthy(req.carbonCalculationMethod) {
        suggestions := suggestions + [CarbonMethodHint];
      }
    }
    ghost var f1 := if HighCarbon(d) then [HighCarbonClaim] else [];
    ghost var s1 := if HighCarbon(d) && !StringTruthy(req.carbonCalculationMethod) then [CarbonMethodHint] else [];
    assert flags == f1 && suggestions == s1;
    assert confidence == BaseConfidence - 0.15 * Ind(HighCarbon(d));
    if NumberTruthy(d.resourceReductionPercentage) && d.resourceReductionPercentage.value > 50.0 {
      flags := flags + [HighResourceClaim];
      confidence := confidence - 0.1;
      if !StringTruthy(req.resourceReductionDetails) {
        suggestions := suggestions + [ResourceBaselineHint];
      }
    }
    ghost var f2 := if HighResource(d) then [HighResourceClaim] else [];
    ghost var s2 := if HighResource(d) && !StringTruthy(req.resourceReductionDetails) then [ResourceBaselineHint] else [];
    assert flags == f1 + f2 && suggestions == s1 + s2;
    assert confidence == BaseConfidence - 0.15 * Ind(HighCarbon(d)) - 0.1 * Ind(HighResource(d));
    if req.evidenceFiles.Some? && req.evidenceFiles.value != [] && |req.evidenceFiles.value| < 3 {
      suggestions := suggestions + [MoreEvidenceHint];
      confidence := confidence - 0.05;
    }
    ghost var s3 := if FewEvidence(req) then [MoreEvidenceHint] else [];
    assert suggestions == s1 + s2 + s3;
    assert confidence == BaseConfidence - 0.15 * Ind(HighCarbon(d)) - 0.1 * Ind(HighResource(d)) - 0.05 * Ind(FewEvidence(req));
    if BoolTruthy(d.traceabilitySystem) && d.documentationLevel == Some("minimal") {
      flags := flags + [TraceabilityMismatch];
      adjusted := adjusted + [("transparency", -2)];
    }
    assert flags == AdvisoryFlags(d);
    if NumberTruthy(d.processEfficiencyImprovement) && d.processEfficiencyImprovement.value > 30.0 {
      if !StringTruthy(req.processDetails) {
        suggestions := suggestions + [EfficiencyDetailHint];
        adjusted := adjusted + [("processEfficiency", -3)];
      }
    }
    assert suggestions == AdvisorySuggestions(req);
    assert adjusted == AdvisoryDeltas(req);
    var isValid := |flags| < 3 && confidence > 0.5;
    r := ValidationResult(isValid, Clamp01(confidence), flags, suggestions, adjusted);
  }

  /**
   * A high carbon claim costs exactly 0.15 confidence and one flag against
   * the same request with the claim at 5000 kg or less.
   */
  lemma HighCarbonCost(req: ValidationRequest, claim: real)
    requires claim > 5000.0
    requires !HighCarbon(req.metrics)
    ensures var high := req.(metrics := req.metrics.(carbonReductionKg := Some(claim)));
      && Validation(high).confidence == Validation(req).confidence - 0.15
      && |Validation(high).flags| == |Validation(req).flags| + 1
  {
    var high := req.(metrics := req.metrics.(carbonReductionKg := Some(claim)));
    assert HighCarbon(high.metrics);
    assert HighResource(high.metrics) == HighResource(req.metrics);
    assert TraceabilityWithoutDocs(high.metrics) == TraceabilityWithoutDocs(req.metrics);
  }

  /** All three flags together are the only way to an invalid reply. */
  lemma InvalidNeedsAllFlags(req: ValidationRequest)
    ensures !Validation(req).isValid
      <==> HighCarbon(req.metrics) && HighResource(req.metrics) && TraceabilityWithoutDocs(req.metrics)
  {
    var r := Validation(req);
    if HighCarbon(req.metrics) && HighResource(req.metrics) && TraceabilityWithoutDocs(req.metrics) {
      assert r.flags == [HighCarbonClaim, HighResourceClaim, TraceabilityMismatch];
    }
  }

  /** An empty or absent evidence list costs nothing, and neither does "Minimal" documentation. */
  lemma FalsyInputsCostNothing(req: ValidationRequest)
    requires req.evidenceFiles == None || req.evidenceFiles == Some([])
    requires req.metrics.documentationLevel == Some("Minimal")
    ensures MoreEvidenceHint !in Validation(req).suggestions
    ensures TraceabilityMismatch !in Validation(req).flags
    ensures forall e :: e in Validation(req).adjustedScores ==> e.0 == "processEfficiency"
  {
  }
}
