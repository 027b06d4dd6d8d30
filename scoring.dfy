/**
 * The circular-readiness scoring engine of the backend: eight indicator
 * scorers, their aggregation into a 0-100 total with a recommendation tier,
 * the rule-based anomaly flags, and the advisory adjustment step.
 *
 * Every indicator score is an integer and every advisory delta is an integer,
 * so JavaScript's `Math.round` over sums of scores is the identity here.
 */
module Scoring {
  import opened Wrappers
  import opened Text

  /** What an applicant reports for one scoring cycle; any field may be missing. */
  datatype SubmissionData = SubmissionData(
    resourceReductionPercentage: Option<real>,
    reuseFrequency: Option<string>,
    recycleType: Option<string>,
    productLifespanYears: Option<real>,
    productRepairability: Option<bool>,
    processEfficiencyImprovement: Option<real>,
    documentationLevel: Option<string>,
    traceabilitySystem: Option<bool>,
    carbonReductionKg: Option<real>,
    localEmployees: Option<real>,
    incomeStability: Option<string>)

  // JavaScript truthiness of an optional field: `undefined`, `0` and `""` are falsy.
  predicate NumberTruthy(x: Option<real>) { x.Some? && x.value != 0.0 }
  predicate StringTruthy(s: Option<string>) { s.Some? && s.value != "" }
  predicate BoolTruthy(b: Option<bool>) { b == Some(true) }

  /** One indicator's score and the confidence of the rule that produced it. */
  datatype IndicatorResult = IndicatorResult(score: int, confidence: real)

  /** The result of every scorer whose primary input is falsy. */
  const NoClaim := IndicatorResult(0, 0.5)

  datatype Indicator =
    | ResourceReduction | ReusePractice | RecycleIntegration | ProductDurability
    | ProcessEfficiency | Transparency | CarbonAvoidance | LivelihoodImpact

  /** The property name of an indicator in the result object. */
  function Key(i: Indicator): string {
    match i
    case ResourceReduction => "resourceReduction"
    case ReusePractice => "reusePractice"
    case RecycleIntegration => "recycleIntegration"
    case ProductDurability => "productDurability"
    case ProcessEfficiency => "processEfficiency"
    case Transparency => "transparency"
    case CarbonAvoidance => "carbonAvoidance"
    case LivelihoodImpact => "livelihoodImpact"
  }

  /** The indicator a property name denotes, if any (`indicators[key]`). */
  function IndicatorNamed(key: string): (r: Option<Indicator>)
    ensures r.Some? ==> Key(r.value) == key
    ensures r.None? ==> forall i: Indicator :: Key(i) != key
  {
    if key == "resourceReduction" then Some(ResourceReduction)
    else if key == "reusePractice" then Some(ReusePractice)
    else if key == "recycleIntegration" then Some(RecycleIntegration)
    else if key == "productDurability" then Some(ProductDurability)
    else if key == "processEfficiency" then Some(ProcessEfficiency)
    else if key == "transparency" then Some(Transparency)
    else if key == "carbonAvoidance" then Some(CarbonAvoidance)
    else if key == "livelihoodImpact" then Some(LivelihoodImpact)
    else None
  }

  lemma KeyIsInjective(i: Indicator, j: Indicator)
    ensures Key(i) == Key(j) ==> i == j
    ensures IndicatorNamed(Key(i)) == Some(i)
  {
  }

  /** The largest score a scorer can give. */
  function MaxScore(i: Indicator): int {
    match i
    case ResourceReduction => 15
    case ReusePractice => 15
    case RecycleIntegration => 10
    case ProductDurability => 10
    case ProcessEfficiency => 10
    case Transparency => 15
    case CarbonAvoidance => 15
    case LivelihoodImpact => 10
  }

  /** The fixed confidence of a scorer once a claim is made. */
  function ClaimConfidence(i: Indicator): real {
    match i
    case ResourceReduction => 0.85
    case ReusePractice => 0.9
    case RecycleIntegration => 0.85
    case ProductDurability => 0.8
    case ProcessEfficiency => 0.75
    case Transparency => 0.9
    case CarbonAvoidance => 0.7
    case LivelihoodImpact => 0.85
  }

  /** `Math.min` of two integers: the smaller of the two. */
  function Min(a: int, b: int): (r: int)
    ensures r <= a && r <= b
    ensures r == a || r == b
  {
    if a <= b then a else b
  }

  /** `Math.max` of two integers: the larger of the two. */
  function Max(a: int, b: int): (r: int)
    ensures r >= a && r >= b
    ensures r == a || r == b
  {
    if a >= b then a else b
  }

  // ---------------------------------------------------------------------
  // The eight indicator scorers
  // ---------------------------------------------------------------------

  function ScoreResourceReduction(percentage: Option<real>): (r: IndicatorResult)
    ensures !NumberTruthy(percentage) ==> r == NoClaim
    ensures NumberTruthy(percentage) ==> r.confidence == ClaimConfidence(ResourceReduction)
    ensures r.score in {0, 3, 7, 11, 15}
    ensures r.score == 0 <==> !(percentage.Some? && percentage.value > 0.0)
  {
    if !NumberTruthy(percentage) then NoClaim
    else
      var p := percentage.value;
      var score :=
        if p > 25.0 then 15
        else if p >= 15.0 then 11
        else if p >= 5.0 then 7
        else if p > 0.0 then 3
        else 0;
      IndicatorResult(score, 0.85)
  }

  /** The reuse-frequency table; unknown keys score 0. */
  function ReuseFrequencyScore(key: string): int {
    if key == "none" then 0
    else if key == "occasional" then 5
    else if key == "regular" then 10
    else if key == "systematic" then 15
    else 0
  }

  function ScoreReusePractice(frequency: Option<string>): (r: IndicatorResult)
    ensures !StringTruthy(frequency) ==> r == NoClaim
    ensures StringTruthy(frequency) ==> r.confidence == ClaimConfidence(ReusePractice)
    ensures r.score in {0, 5, 10, 15}
    ensures r.score > 0 ==> Lower(frequency.value) in {"occasional", "regular", "systematic"}
  {
    if !StringTruthy(frequency) then NoClaim
    else IndicatorResult(ReuseFrequencyScore(Lower(frequency.value)), 0.9)
  }

  /** The recycle-type table; unknown keys score 0. */
  function RecycleTypeScore(key: string): int {
    if key == "none" then 0
    else if key == "partner" then 5
    else if key == "internal" then 10
    else 0
  }

  function ScoreRecycleIntegration(recycleType: Option<string>): (r: IndicatorResult)
    ensures !StringTruthy(recycleType) ==> r == NoClaim
    ensures StringTruthy(recycleType) ==> r.confidence == ClaimConfidence(RecycleIntegration)
    ensures r.score in {0, 5, 10}
    ensures r.score > 0 ==> Lower(recycleType.value) in {"partner", "internal"}
  {
    if !StringTruthy(recycleType) then NoClaim
    else IndicatorResult(RecycleTypeScore(Lower(recycleType.value)), 0.85)
  }

  function ScoreProductDurability(lifespan: Option<real>, repairable: Option<bool>): (r: IndicatorResult)
    ensures !NumberTruthy(lifespan) ==> r == NoClaim
    ensures NumberTruthy(lifespan) ==> r.confidence == ClaimConfidence(ProductDurability)
    ensures r.score in {0, 3, 6, 10}
    ensures r.score == 10 <==> lifespan.Some? && lifespan.value > 3.0 && BoolTruthy(repairable)
    ensures r.score == 6 <==> lifespan.Some? && 1.0 <= lifespan.value <= 3.0
  {
    if !NumberTruthy(lifespan) then NoClaim
    else
      var l := lifespan.value;
      var score :=
        if l > 3.0 && BoolTruthy(repairable) then 10
        else if l >= 1.0 && l <= 3.0 then 6
        else if l < 1.0 && l > 0.0 then 3
        else 0;
      IndicatorResult(score, 0.8)
  }

  function ScoreProcessEfficiency(improvement: Option<real>): (r: IndicatorResult)
    ensures !NumberTruthy(improvement) ==> r == NoClaim
    ensures NumberTruthy(improvement) ==> r.confidence == ClaimConfidence(ProcessEfficiency)
    ensures r.score in {0, 4, 7, 10}
    ensures r.score == 0 <==> !(improvement.Some? && improvement.value >= 5.0)
  {
    if !NumberTruthy(improvement) then NoClaim
    else
      var p := improvement.value;
      var score :=
        if p > 30.0 then 10
        else if p >= 15.0 then 7
        else if p >= 5.0 then 4
        else 0;
      IndicatorResult(score, 0.75)
  }

  /** The documentation-level table; unknown keys score 0. */
  function DocumentationLevelScore(key: string): int {
    if key == "minimal" then 3
    else if key == "basic" then 7
    else if key == "comprehensive" then 12
    else if key == "full" then 15
    else 0
  }

  function ScoreTransparency(level: Option<string>, hasTraceability: Option<bool>): (r: IndicatorResult)
    ensures !StringTruthy(level) ==> r == NoClaim
    ensures StringTruthy(level) ==> r.confidence == ClaimConfidence(Transparency)
    ensures r.score in {0, 3, 6, 7, 10, 12, 15}
    ensures StringTruthy(level) && BoolTruthy(hasTraceability) ==> r.score >= 3
  {
    if !StringTruthy(level) then NoClaim
    else
      var score := DocumentationLevelScore(Lower(level.value));
      var score' := if BoolTruthy(hasTraceability) && score < 15 then Min(score + 3, 15) else score;
      IndicatorResult(score', 0.9)
  }

  function ScoreCarbonAvoidance(carbonKg: Option<real>): (r: IndicatorResult)
    ensures !NumberTruthy(carbonKg) ==> r == NoClaim
    ensures NumberTruthy(carbonKg) ==> r.confidence == ClaimConfidence(CarbonAvoidance)
    ensures r.score in {0, 3, 7, 11, 15}
    ensures r.score == 0 <==> !(carbonKg.Some? && carbonKg.value > 0.0)
  {
    if !NumberTruthy(carbonKg) then NoClaim
    else
      var c := carbonKg.value;
      var score :=
        if c > 1000.0 then 15
        else if c >= 500.0 then 11
        else if c >= 100.0 then 7
        else if c > 0.0 then 3
        else 0;
      IndicatorResult(score, 0.7)
  }

  function ScoreLivelihoodImpact(employees: Option<real>, stability: Option<string>): (r: IndicatorResult)
    ensures !NumberTruthy(employees) ==> r == NoClaim
    ensures NumberTruthy(employees) ==> r.confidence == ClaimConfidence(LivelihoodImpact)
    ensures r.score in {0, 3, 6, 10}
    ensures r.score == 10 <==> employees.Some? && employees.value > 5.0 && stability == Some("stable")
  {
    if !NumberTruthy(employees) then NoClaim
    else
      var e := employees.value;
      var score :=
        if e > 5.0 && stability == Some("stable") then 10
        else if e >= 3.0 && e <= 5.0 then 6
        else if e >= 1.0 && e <= 2.0 then 3
        else 0;
      IndicatorResult(score, 0.85)
  }

  // ---------------------------------------------------------------------
  // Properties of the scorers
  // ---------------------------------------------------------------------

  /** A claim that falls in no band scores 0 at the scorer's claim confidence. */
  lemma UnbandedClaimsScoreZero(x: real, s: string)
    requires s != "stable"
    ensures x < 0.0 ==> ScoreResourceReduction(Some(x)) == IndicatorResult(0, 0.85)
    ensures x < 0.0 ==> ScoreCarbonAvoidance(Some(x)) == IndicatorResult(0, 0.7)
    ensures 0.0 < x < 5.0 ==> ScoreProcessEfficiency(Some(x)) == IndicatorResult(0, 0.75)
    ensures ScoreProductDurability(Some(4.0), Some(false)) == IndicatorResult(0, 0.8)
    ensures ScoreProductDurability(Some(4.0), None) == IndicatorResult(0, 0.8)
    ensures x > 5.0 ==> ScoreLivelihoodImpact(Some(x), Some(s)) == IndicatorResult(0, 0.85)
    ensures x > 5.0 ==> ScoreLivelihoodImpact(Some(x), None) == IndicatorResult(0, 0.85)
  {
  }

  /** Band boundaries follow the exact comparison operators of the rules. */
  lemma BandBoundaries(repairable: Option<bool>)
    ensures ScoreResourceReduction(Some(25.0)).score == 11
    ensures ScoreResourceReduction(Some(25.01)).score == 15
    ensures ScoreResourceReduction(Some(15.0)).score == 11
    ensures ScoreResourceReduction(Some(5.0)).score == 7
    ensures ScoreResourceReduction(Some(4.9)).score == 3
    ensures ScoreProcessEfficiency(Some(30.0)).score == 7
    ensures ScoreProcessEfficiency(Some(30.01)).score == 10
    ensures ScoreCarbonAvoidance(Some(1000.0)).score == 11
    ensures ScoreCarbonAvoidance(Some(1000.01)).score == 15
    ensures ScoreCarbonAvoidance(Some(100.0)).score == 7
    ensures ScoreProductDurability(Some(3.0), repairable).score == 6
    ensures ScoreLivelihoodImpact(Some(5.0), Some("stable")).score == 6
    ensures ScoreLivelihoodImpact(Some(2.0), Some("stable")).score == 3
    ensures ScoreLivelihoodImpact(Some(2.5), Some("stable")).score == 0
  {
  }

  /** The threshold scorers never give less for a larger positive claim. */
  lemma ThresholdScorersMonotone(x: real, y: real)
    requires 0.0 < x <= y
    ensures ScoreResourceReduction(Some(x)).score <= ScoreResourceReduction(Some(y)).score
    ensures ScoreProcessEfficiency(Some(x)).score <= ScoreProcessEfficiency(Some(y)).score
    ensures ScoreCarbonAvoidance(Some(x)).score <= ScoreCarbonAvoidance(Some(y)).score
  {
  }

  /** Every character of a lower-cased text is already in lower-case form. */
  lemma {:induction false} LowerIsUnfolded(s: string)
    ensures forall i :: 0 <= i < |Lower(s)| ==> Unfolded(Lower(s)[i])
  {
    if s != [] {
      LowerIsUnfolded(s[1..]);
      var head := LowerChar(s[0]);
      assert forall i :: 0 <= i < |head| ==> Unfolded(head[i]);
      assert Lower(s) == head + Lower(s[1..]);
    }
  }

  lemma LowerIsIdempotent(s: string)
    ensures Lower(Lower(s)) == Lower(s)
  {
    LowerIsUnfolded(s);
    LowerOfLowercase(Lower(s));
  }

  /** Texts that are both empty or both not, with the same lower-case form, score alike. */
  lemma ScorersAgree(x: string, y: string, trace: Option<bool>)
    requires (x == [] <==> y == []) && Lower(x) == Lower(y)
    ensures ScoreReusePractice(Some(x)) == ScoreReusePractice(Some(y))
    ensures ScoreRecycleIntegration(Some(x)) == ScoreRecycleIntegration(Some(y))
    ensures ScoreTransparency(Some(x), trace) == ScoreTransparency(Some(y), trace)
  {
  }

  /** The lookup scorers ignore letter case. */
  lemma LookupScorersIgnoreCase(s: string, trace: Option<bool>)
    ensures ScoreReusePractice(Some(Lower(s))) == ScoreReusePractice(Some(s))
    ensures ScoreRecycleIntegration(Some(Lower(s))) == ScoreRecycleIntegration(Some(s))
    ensures ScoreTransparency(Some(Lower(s)), trace) == ScoreTransparency(Some(s), trace)
  {
    LowerIsIdempotent(s);
    LowerKeepsEmptiness(s);
    ScorersAgree(Lower(s), s, trace);
  }

  /** An unknown level scores 0 before traceability, so traceability alone gives 3. */
  lemma TraceabilityBonus(level: string)
    requires level != ""
    requires Lower(level) !in {"minimal", "basic", "comprehensive", "full"}
    ensures ScoreTransparency(Some(level), Some(true)) == IndicatorResult(3, 0.9)
    ensures ScoreTransparency(Some(level), Some(false)) == IndicatorResult(0, 0.9)
  {
  }

  /** A full level keeps 15 with or without traceability. */
  lemma TransparencyCapped(level: string, trace: Option<bool>)
    requires Lower(level) == "full"
    ensures ScoreTransparency(Some(level), trace) == IndicatorResult(15, 0.9)
  {
    assert level != "";
  }

  // ---------------------------------------------------------------------
  // Aggregation
  // ---------------------------------------------------------------------

  /** The `indicators` object of a result: one entry per indicator. */
  datatype Indicators = Indicators(
    resourceReduction: IndicatorResult,
    reusePractice: IndicatorResult,
    recycleIntegration: IndicatorResult,
    productDurability: IndicatorResult,
    processEfficiency: IndicatorResult,
    transparency: IndicatorResult,
    carbonAvoidance: IndicatorResult,
    livelihoodImpact: IndicatorResult)
  {
    function Get(i: Indicator): IndicatorResult {
      match i
      case ResourceReduction => resourceReduction
      case ReusePractice => reusePractice
      case RecycleIntegration => recycleIntegration
      case ProductDurability => productDurability
      case ProcessEfficiency => processEfficiency
      case Transparency => transparency
      case CarbonAvoidance => carbonAvoidance
      case LivelihoodImpact => livelihoodImpact
    }

    /** `indicators[key] = r` for the key of `i`. */
    function Set(i: Indicator, r: IndicatorResult): (n: Indicators)
      ensures n.Get(i) == r
      ensures forall j :: j != i ==> n.Get(j) == Get(j)
    {
      match i
      case ResourceReduction => this.(resourceReduction := r)
      case ReusePractice => this.(reusePractice := r)
      case RecycleIntegration => this.(recycleIntegration := r)
      case ProductDurability => this.(productDurability := r)
      case ProcessEfficiency => this.(processEfficiency := r)
      case Transparency => this.(transparency := r)
      case CarbonAvoidance => this.(carbonAvoidance := r)
      case LivelihoodImpact => this.(livelihoodImpact := r)
    }
  }

  /** Every indicator scored by its rule. */
  function RuleIndicators(data: SubmissionData): (ind: Indicators)
    ensures forall i :: 0 <= ind.Get(i).score <= MaxScore(i)
    ensures forall i :: ind.Get(i).confidence in {0.5, ClaimConfidence(i)}
  {
    Indicators(
      ScoreResourceReduction(data.resourceReductionPercentage),
      ScoreReusePractice(data.reuseFrequency),
      ScoreRecycleIntegration(data.recycleType),
      ScoreProductDurability(data.productLifespanYears, data.productRepairability),
      ScoreProcessEfficiency(data.processEfficiencyImprovement),
      ScoreTransparency(data.documentationLevel, data.traceabilitySystem),
      ScoreCarbonAvoidance(data.carbonReductionKg),
      ScoreLivelihoodImpact(data.localEmployees, data.incomeStability))
  }

  function OperationalCircularity(ind: Indicators): int {
    ind.resourceReduction.score + ind.reusePractice.score + ind.recycleIntegration.score
    + ind.productDurability.score + ind.processEfficiency.score
  }

  function Ethics(ind: Indicators): int {
    ind.transparency.score
  }

  function Impact(ind: Indicators): int {
    ind.carbonAvoidance.score + ind.livelihoodImpact.score
  }

  /** The sum of all eight current scores. */
  function Total(ind: Indicators): (t: int)
    ensures t == OperationalCircularity(ind) + Ethics(ind) + Impact(ind)
  {
    ind.resourceReduction.score + ind.reusePractice.score + ind.recycleIntegration.score
    + ind.productDurability.score + ind.processEfficiency.score + ind.transparency.score
    + ind.carbonAvoidance.score + ind.livelihoodImpact.score
  }

  /** Scores within their maxima add up to at most 100. */
  lemma TotalWithinRange(ind: Indicators)
    requires forall i :: 0 <= ind.Get(i).score <= MaxScore(i)
    ensures 0 <= OperationalCircularity(ind) <= 60
    ensures 0 <= Ethics(ind) <= 15
    ensures 0 <= Impact(ind) <= 25
    ensures 0 <= Total(ind) <= 100
  {
    assert ind.resourceReduction == ind.Get(ResourceReduction);
    assert ind.reusePractice == ind.Get(ReusePractice);
    assert ind.recycleIntegration == ind.Get(RecycleIntegration);
    assert ind.productDurability == ind.Get(ProductDurability);
    assert ind.processEfficiency == ind.Get(ProcessEfficiency);
    assert ind.transparency == ind.Get(Transparency);
    assert ind.carbonAvoidance == ind.Get(CarbonAvoidance);
    assert ind.livelihoodImpact == ind.Get(LivelihoodImpact);
  }

  datatype Recommendation = LowReadiness | Developing | Ready | HighCircularPotential {
    /** The label shown to lenders and stored with a score. */
    function Label(): string {
      match this
      case LowReadiness => "Low Readiness"
      case Developing => "Developing"
      case Ready => "Ready"
      case HighCircularPotential => "High Circular Potential"
    }

    /** Tiers in increasing order of readiness. */
    function Rank(): nat {
      match this
      case LowReadiness => 0
      case Developing => 1
      case Ready => 2
      case HighCircularPotential => 3
    }
  }

  /** The tier whose label is `label`, if any. */
  function RecommendationFromLabel(name: string): (r: Option<Recommendation>)
    ensures r.Some? ==> r.value.Label() == name
    ensures r.None? ==> forall t: Recommendation :: t.Label() != name
  {
    if name == "High Circular Potential" then Some(HighCircularPotential)
    else if name == "Ready" then Some(Ready)
    else if name == "Developing" then Some(Developing)
    else if name == "Low Readiness" then Some(LowReadiness)
    else None
  }

  lemma LabelRoundTrip(t: Recommendation)
    ensures RecommendationFromLabel(t.Label()) == Some(t)
  {
  }

  function GetRecommendation(totalScore: int): (r: Recommendation)
    ensures r == HighCircularPotential <==> totalScore >= 80
    ensures r == Ready <==> 60 <= totalScore < 80
    ensures r == Developing <==> 40 <= totalScore < 60
    ensures r == LowReadiness <==> totalScore < 40
  {
    if totalScore >= 80 then HighCircularPotential
    else if totalScore >= 60 then Ready
    else if totalScore >= 40 then Developing
    else LowReadiness
  }

  /** A higher total never gets a lower tier. */
  lemma RecommendationMonotone(a: int, b: int)
    requires a <= b
    ensures GetRecommendation(a).Rank() <= GetRecommendation(b).Rank()
  {
  }

  // ---------------------------------------------------------------------
  // Anomaly flags
  // ---------------------------------------------------------------------

  const HighCarbonFlag := "High carbon reduction claim - verify evidence"
  const HighResourceFlag := "Unusually high resource reduction - needs validation"
  const InconsistentFlag := "High operational score with low documentation - inconsistent"

  /** Position of a rule flag in detection order. */
  function RuleFlagRank(f: string): nat {
    if f == HighCarbonFlag then 0 else if f == HighResourceFlag then 1 else 2
  }

  predicate IsRuleFlag(f: string) {
    f in {HighCarbonFlag, HighResourceFlag, InconsistentFlag}
  }

  /**
   * The three independent checks, in their fixed order. They read the
   * reported data and the scores but change neither.
   */
  function DetectAnomalies(data: SubmissionData, ind: Indicators): (flags: seq<string>)
    ensures HighCarbonFlag in flags
      <==> data.carbonReductionKg.Some? && data.carbonReductionKg.value > 5000.0
    ensures HighResourceFlag in flags
      <==> data.resourceReductionPercentage.Some? && data.resourceReductionPercentage.value > 50.0
    ensures InconsistentFlag in flags
      <==> ind.transparency.score < 7 && ind.resourceReduction.score > 10
    ensures forall k :: 0 <= k < |flags| ==> IsRuleFlag(flags[k])
    ensures forall k, m :: 0 <= k < m < |flags| ==> RuleFlagRank(flags[k]) < RuleFlagRank(flags[m])
  {
    var carbon :=
      if NumberTruthy(data.carbonReductionKg) && data.carbonReductionKg.value > 5000.0
      then [HighCarbonFlag] else [];
    var resource :=
      if NumberTruthy(data.resourceReductionPercentage) && data.resourceReductionPercentage.value > 50.0
      then [HighResourceFlag] else [];
    var inconsistent :=
      if ind.transparency.score < 7 && ind.resourceReduction.score > 10
      then [InconsistentFlag] else [];
    carbon + resource + inconsistent
  }

  /** Each rule flag is raised at most once. */
  lemma RuleFlagsDistinct(data: SubmissionData, ind: Indicators)
    ensures var flags := DetectAnomalies(data, ind);
      |flags| <= 3 && forall k, m :: 0 <= k < m < |flags| ==> flags[k] != flags[m]
  {
    var flags := DetectAnomalies(data, ind);
    forall k, m | 0 <= k < m < |flags| ensures flags[k] != flags[m] {
      assert RuleFlagRank(flags[k]) < RuleFlagRank(flags[m]);
    }
  }

  // ---------------------------------------------------------------------
  // The scoring result and the advisory step
  // ---------------------------------------------------------------------

  datatype Breakdown = Breakdown(operationalCircularity: int, ethics: int, impact: int)

  datatype ScoringResult = ScoringResult(
    totalScore: int,
    breakdown: Breakdown,
    indicators: Indicators,
    flags: seq<string>,
    recommendation: Recommendation)

  /**
   * A successful advisory reply: signed per-indicator deltas (in the order
   * `Object.entries` lists them), extra flags and an overall confidence that
   * is only logged. A reply may lack either of the first two.
   */
  datatype AdvisoryResponse = AdvisoryResponse(
    adjustedScores: Option<seq<(string, int)>>,
    flags: Option<seq<string>>,
    confidence: real)

  /** The result when no advisory reply is used. */
  function RuleBasedResult(data: SubmissionData): (r: ScoringResult)
    ensures r.indicators == RuleIndicators(data)
    ensures forall i :: 0 <= r.indicators.Get(i).score <= MaxScore(i)
    ensures 0 <= r.totalScore <= 100
    ensures r.totalScore == r.breakdown.operationalCircularity + r.breakdown.ethics + r.breakdown.impact
    ensures r.totalScore == Total(r.indicators)
    ensures r.flags == DetectAnomalies(data, r.indicators)
    ensures r.recommendation == GetRecommendation(r.totalScore)
  {
    var ind := RuleIndicators(data);
    TotalWithinRange(ind);
    var total := Total(ind);
    ScoringResult(
      total,
      Breakdown(OperationalCircularity(ind), Ethics(ind), Impact(ind)),
      ind,
      DetectAnomalies(data, ind),
      GetRecommendation(total))
  }

  /** One delta applied: a key naming an indicator floors its new score at 0. */
  function AdjustOne(ind: Indicators, key: string, delta: int): Indicators {
    match IndicatorNamed(key)
    case None => ind
    case Some(i) => ind.Set(i, ind.Get(i).(score := Max(0, ind.Get(i).score + delta)))
  }

  /** One delta changes the score of the indicator its key names and nothing else. */
  lemma AdjustOneEffect(ind: Indicators, key: string, delta: int, i: Indicator)
    ensures AdjustOne(ind, key, delta).Get(i)
      == if key == Key(i) then ind.Get(i).(score := Max(0, ind.Get(i).score + delta)) else ind.Get(i)
  {
    KeyIsInjective(i, i);
  }

  /** The deltas applied one after the other, in entry order. */
  function AdjustAll(ind: Indicators, entries: seq<(string, int)>): Indicators
    decreases |entries|
  {
    if entries == [] then ind
    else
      var last := entries[|entries| - 1];
      AdjustOne(AdjustAll(ind, entries[..|entries| - 1]), last.0, last.1)
  }

  /** The keys of a JSON object's entries are pairwise different. */
  predicate DistinctKeys(entries: seq<(string, int)>) {
    forall a, b :: 0 <= a < b < |entries| ==> entries[a].0 != entries[b].0
  }

  /** The delta an entry list gives a key, if it names it. */
  function DeltaFor(entries: seq<(string, int)>, key: string): (d: Option<int>)
    ensures d.None? <==> forall k :: 0 <= k < |entries| ==> entries[k].0 != key
    decreases |entries|
  {
    if entries == [] then None
    else if entries[|entries| - 1].0 == key then Some(entries[|entries| - 1].1)
    else
      var d := DeltaFor(entries[..|entries| - 1], key);
      assert forall k :: 0 <= k < |entries| - 1 ==> entries[..|entries| - 1][k] == entries[k];
      d
  }

  /**
   * The effect of the deltas on one indicator: confidence is kept; the score
   * becomes max(0, old + delta) when the indicator's key has a delta, and is
   * kept otherwise.
   */
  lemma {:induction false} AdjustAllEffect(ind: Indicators, entries: seq<(string, int)>, i: Indicator)
    requires DistinctKeys(entries)
    ensures AdjustAll(ind, entries).Get(i).confidence == ind.Get(i).confidence
    ensures AdjustAll(ind, entries).Get(i).score
      == match DeltaFor(entries, Key(i))
         case None => ind.Get(i).score
         case Some(d) => Max(0, ind.Get(i).score + d)
  {
    if entries != [] {
      var front := entries[..|entries| - 1];
      var last := entries[|entries| - 1];
      assert DistinctKeys(front) by {
        forall a, b | 0 <= a < b < |front| ensures front[a].0 != front[b].0 {
          assert front[a] == entries[a] && front[b] == entries[b];
        }
      }
      AdjustAllEffect(ind, front, i);
      AdjustOneEffect(AdjustAll(ind, front), last.0, last.1, i);
      if last.0 == Key(i) {
        assert DeltaFor(front, Key(i)).None? by {
          forall k | 0 <= k < |front| ensures front[k].0 != Key(i) {
            assert front[k] == entries[k];
          }
        }
      }
    }
  }

  /** Adjusted scores are never negative when the rule scores were not. */
  lemma AdjustAllNonNegative(ind: Indicators, entries: seq<(string, int)>, i: Indicator)
    requires DistinctKeys(entries)
    requires ind.Get(i).score >= 0
    ensures AdjustAll(ind, entries).Get(i).score >= 0
  {
    AdjustAllEffect(ind, entries, i);
  }

  /** The worked example: a delta of -5 on a resource-reduction score of 7 leaves 2. */
  lemma AdjustmentExample(ind: Indicators)
    requires ind.resourceReduction.score == 7
    ensures AdjustAll(ind, [("resourceReduction", -5)]).resourceReduction.score == 2
    ensures Total(AdjustAll(ind, [("resourceReduction", -5)])) == Total(ind) - 5
  {
    assert [("resourceReduction", -5)][..0] == [];
  }

  /**
   * The result of a scoring run given the advisory outcome: `advisory` is
   * the reply of the advisory service, or None when the call failed
   * (timeout, network error, error status). Deltas change only the
   * indicators they name, the total follows the current scores, advisory
   * flags come after the rule flags, and the breakdown keeps the rule-based
   * subtotals. A reply without `flags` makes the flag merge throw after the
   * deltas were applied; that error is caught as well, so the deltas stay and
   * no advisory flag is added.
   */
  function AdvisedResult(data: SubmissionData, advisory: Option<AdvisoryResponse>): (r: ScoringResult)
    ensures advisory.None? ==> r == RuleBasedResult(data)
    ensures r.breakdown == RuleBasedResult(data).breakdown
    ensures r.indicators
      == if advisory.Some? && advisory.value.adjustedScores.Some?
         then AdjustAll(RuleIndicators(data), advisory.value.adjustedScores.value)
         else RuleIndicators(data)
    ensures r.totalScore == Total(r.indicators)
    ensures r.flags
      == RuleBasedResult(data).flags
         + if advisory.Some? && advisory.value.flags.Some? then advisory.value.flags.value else []
    ensures r.recommendation == GetRecommendation(r.totalScore)
  {
    var base := RuleBasedResult(data);
    match advisory
    case None => base
    case Some(response) =>
      var ind :=
        if response.adjustedScores.Some? then AdjustAll(base.indicators, response.adjustedScores.value)
        else base.indicators;
      var flags := if response.flags.Some? then base.flags + response.flags.value else base.flags;
      ScoringResult(Total(ind), base.breakdown, ind, flags, GetRecommendation(Total(ind)))
  }

  /** Whatever the advisory outcome, the rule flags come first and unchanged. */
  lemma AdvisoryKeepsRuleFlagsFirst(data: SubmissionData, advisory: Option<AdvisoryResponse>)
    ensures var r := AdvisedResult(data, advisory);
      |RuleBasedResult(data).flags| <= |r.flags|
      && r.flags[..|RuleBasedResult(data).flags|] == RuleBasedResult(data).flags
  {
  }

  /** The `Object.entries(adjustedScores).forEach` loop over the indicators. */
  method ApplyAdjustments(ind: Indicators, entries: seq<(string, int)>) returns (indicators: Indicators)
    ensures indicators == AdjustAll(ind, entries)
  {
    indicators := ind;
    var k := 0;
    while k < |entries|
      invariant 0 <= k <= |entries|
      invariant indicators == AdjustAll(ind, entries[..k])
    {
      var (key, adjustment) := entries[k];
      match IndicatorNamed(key) {
        case Some(i) =>
          indicators := indicators.Set(i, indicators.Get(i).(score := Max(0, indicators.Get(i).score + adjustment)));
        case None =>
      }
      assert entries[..k + 1][..k] == entries[..k];
      k := k + 1;
    }
    assert entries[..k] == entries;
  }

  /** `calculateCircularReadinessScore`, with the advisory outcome as input. */
  method CalculateCircularReadinessScore(data: SubmissionData, advisory: Option<AdvisoryResponse>)
    returns (result: ScoringResult)
    ensures result == AdvisedResult(data, advisory)
  {
    var indicators := RuleIndicators(data);
    var operationalCircularity := OperationalCircularity(indicators);
    var ethics := Ethics(indicators);
    var impact := Impact(indicators);
    var totalScore := operationalCircularity + ethics + impact;
    var flags := DetectAnomalies(data, indicators);

    if advisory.Some? {
      var response := advisory.value;
      if response.adjustedScores.Some? {
        indicators := ApplyAdjustments(indicators, response.adjustedScores.value);
        totalScore := Total(indicators);
      }
      if response.flags.Some? {
        flags := flags + response.flags.value;
      }
    }

    result := ScoringResult(
      totalScore,
      Breakdown(operationalCircularity, ethics, impact),
      indicators,
      flags,
      GetRecommendation(totalScore));
  }

  /**
   * A submission in the top band of every indicator (for instance 30%
   * reduction, "systematic" reuse, "internal" recycling, a repairable 4-year
   * product, 35% efficiency, "full" documentation with traceability, 1200 kg
   * of carbon and 8 stably paid local employees) scores 100 with no flag.
   */
  lemma FullMarksScenario(data: SubmissionData)
    requires data.resourceReductionPercentage.Some? && 25.0 < data.resourceReductionPercentage.value <= 50.0
    requires data.reuseFrequency.Some? && Lower(data.reuseFrequency.value) == "systematic"
    requires data.recycleType.Some? && Lower(data.recycleType.value) == "internal"
    requires data.productLifespanYears.Some? && data.productLifespanYears.value > 3.0
    requires data.productRepairability == Some(true)
    requires data.processEfficiencyImprovement.Some? && data.processEfficiencyImprovement.value > 30.0
    requires data.documentationLevel.Some? && Lower(data.documentationLevel.value) == "full"
    requires data.carbonReductionKg.Some? && 1000.0 < data.carbonReductionKg.value <= 5000.0
    requires data.localEmployees.Some? && data.localEmployees.value > 5.0
    requires data.incomeStability == Some("stable")
    ensures RuleBasedResult(data).totalScore == 100
    ensures RuleBasedResult(data).flags == []
    ensures RuleBasedResult(data).recommendation == HighCircularPotential
  {
    var ind := RuleIndicators(data);
    assert ind.reusePractice.score == 15 by {
      LowerKeepsEmptiness(data.reuseFrequency.value);
    }
    assert ind.recycleIntegration.score == 10 by {
      LowerKeepsEmptiness(data.recycleType.value);
    }
    assert ind.transparency.score == 15 by {
      LowerKeepsEmptiness(data.documentationLevel.value);
    }
    assert ind.resourceReduction.score == 15 && ind.productDurability.score == 10
      && ind.processEfficiency.score == 10 && ind.carbonAvoidance.score == 15
      && ind.livelihoodImpact.score == 10;
    assert Total(ind) == 100;
  }

  /** A 6000 kg claim with nothing else reported raises the carbon flag once. */
  lemma HighCarbonScenario()
    ensures var data := SubmissionData(None, None, None, None, None, None, None, None, Some(6000.0), None, None);
      RuleBasedResult(data).flags == [HighCarbonFlag]
  {
  }
}
