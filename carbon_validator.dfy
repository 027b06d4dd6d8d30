/**
 * The carbon-claim validator: checks a yearly CO2 reduction claim against
 * sector benchmarks, the evidence it comes with and the explanation given,
 * and reports flags, suggestions, a confidence and a validity verdict.
 * Flag and suggestion texts are abstracted to their kinds.
 */
module CarbonValidation {
  import opened Wrappers
  import opened Reals
  import opened Text

  /** Realistic yearly reductions, in kg CO2, for a sector at a business scale. */
  datatype Bench = Bench(min: real, max: real, typical: real)

  predicate KnownSector(sector: string) {
    sector == "Fashion" || sector == "F&B" || sector == "Kerajinan" || sector == "Pertanian" || sector == "Manufaktur"
  }

  predicate KnownScale(scale: string) {
    scale == "small" || scale == "medium" || scale == "large"
  }

  /** The benchmark table; a sector or scale it does not list has no entry. */
  function Benchmark(sector: string, scale: string): (b: Option<Bench>)
    ensures b.Some? <==> KnownSector(sector) && KnownScale(scale)
    ensures b.Some? ==> 0.0 < b.value.min < b.value.typical < b.value.max
  {
    if !KnownScale(scale) then None
    else if sector == "Fashion" then
      if scale == "small" then Some(Bench(100.0, 2000.0, 500.0))
      else if scale == "medium" then Some(Bench(500.0, 5000.0, 2000.0))
      else Some(Bench(2000.0, 20000.0, 8000.0))
    else if sector == "F&B" then
      if scale == "small" then Some(Bench(200.0, 3000.0, 800.0))
      else if scale == "medium" then Some(Bench(1000.0, 8000.0, 3000.0))
      else Some(Bench(3000.0, 30000.0, 12000.0))
    else if sector == "Kerajinan" then
      if scale == "small" then Some(Bench(50.0, 1500.0, 400.0))
      else if scale == "medium" then Some(Bench(300.0, 4000.0, 1500.0))
      else Some(Bench(1500.0, 15000.0, 6000.0))
    else if sector == "Pertanian" then
      if scale == "small" then Some(Bench(500.0, 5000.0, 2000.0))
      else if scale == "medium" then Some(Bench(2000.0, 15000.0, 6000.0))
      else Some(Bench(5000.0, 50000.0, 20000.0))
    else if sector == "Manufaktur" then
      if scale == "small" then Some(Bench(1000.0, 10000.0, 4000.0))
      else if scale == "medium" then Some(Bench(5000.0, 30000.0, 12000.0))
      else Some(Bench(10000.0, 100000.0, 40000.0))
    else None
  }

  /** The sector the benchmark is read for: an unknown one falls back to Kerajinan. */
  function EffectiveSector(sector: string): (s: string)
    ensures KnownSector(s)
    ensures KnownSector(sector) ==> s == sector
  {
    if KnownSector(sector) then sector else "Kerajinan"
  }

  /** The scale the benchmark is read for: an invalid one falls back to small. */
  function EffectiveScale(scale: string): (s: string)
    ensures KnownScale(s)
    ensures KnownScale(scale) ==> s == scale
  {
    if KnownScale(scale) then scale else "small"
  }

  /** With both fallbacks the benchmark lookup never fails. */
  function EffectiveBenchmark(sector: string, scale: string): (b: Bench)
    ensures Benchmark(EffectiveSector(sector), EffectiveScale(scale)) == Some(b)
    ensures 0.0 < b.min < b.typical < b.max
  {
    Benchmark(EffectiveSector(sector), EffectiveScale(scale)).value
  }

  /** The emission factor of a calculation method, if the method is a standard one. */
  function MethodFactor(calculationMethod: string): (f: Option<real>)
    ensures f.Some? <==> calculationMethod in {"waste_diverted", "energy_saved", "transport_reduced", "other"}
    ensures f.Some? ==> 0.0 < f.value <= 2.0
  {
    if calculationMethod == "waste_diverted" then Some(2.0)
    else if calculationMethod == "energy_saved" then Some(0.5)
    else if calculationMethod == "transport_reduced" then Some(0.2)
    else if calculationMethod == "other" then Some(1.0)
    else None
  }

  /**
   * `_calculate_min_evidence`: the files a claim needs grows with its ratio
   * to the typical claim: 1 below half, 2 below one and a half times, 4
   * below three times, 6 from there on.
   */
  function MinEvidence(claim: real, typical: real): (n: nat)
    requires typical > 0.0
    ensures n in {1, 2, 4, 6}
    ensures n == 1 <==> claim / typical < 0.5
    ensures n == 6 <==> claim / typical >= 3.0
    ensures n == 2 <==> 0.5 <= claim / typical < 1.5
  {
    var ratio := claim / typical;
    if ratio < 0.5 then 1
    else if ratio < 1.5 then 2
    else if ratio < 3.0 then 4
    else 6
  }

  /** A larger claim never needs fewer files. */
  lemma MinEvidenceMonotone(c1: real, c2: real, typical: real)
    requires typical > 0.0 && c1 <= c2
    ensures MinEvidence(c1, typical) <= MinEvidence(c2, typical)
  {
    assert c1 / typical <= c2 / typical by {
      assert c2 / typical - c1 / typical == (c2 - c1) / typical;
    }
  }

  /** The terms whose presence marks a well-explained claim, already in lower case. */
  const KeyTerms: seq<string> := ["baseline", "pengukuran", "kalkulasi", "metode", "periode", "tahun", "bulan", "kg", "ton"]

  /** How many of `terms` occur in `text`. */
  function CountPresent(text: string, terms: seq<string>): (n: nat)
    ensures n <= |terms|
  {
    if terms == [] then 0 else (if Contains(text, terms[0]) then 1 else 0) + CountPresent(text, terms[1..])
  }

  /** None of the terms is counted exactly when none occurs. */
  lemma {:induction false} CountPresentZero(text: string, terms: seq<string>)
    ensures CountPresent(text, terms) == 0 <==> forall k :: 0 <= k < |terms| ==> !Contains(text, terms[k])
  {
    if terms != [] {
      CountPresentZero(text, terms[1..]);
      assert forall k :: 1 <= k < |terms| ==> terms[k] == terms[1..][k - 1];
    }
  }

  /** The outcome of `_analyze_details`. */
  datatype DetailQuality = DetailQuality(isVague: bool, confidenceBoost: real, wordCount: nat, keyTermCount: nat)

  /**
   * `_analyze_details`: a text is vague with fewer than 20 words or fewer
   * than two key terms; the boost grows with both counts and is capped at
   * 0.15.
   */
  function AnalyzeDetails(details: string): (q: DetailQuality)
    ensures 0.0 <= q.confidenceBoost <= 0.15
  {
    var words := WordCount(details);
    var terms := CountPresent(Lower(details), KeyTerms);
    var boost := Min((words as real / 100.0) * 0.1 + (terms as real / 9.0) * 0.05, 0.15);
    DetailQuality(words < 20 || terms < 2, boost, words, terms)
  }

  /**
   * The analysis counts the words and the key terms present in any letter
   * case; the text is vague below 20 words or two key terms; it earns no
   * boost exactly when it is all spaces and names no key term.
   */
  lemma AnalyzeDetailsRules(details: string)
    ensures AnalyzeDetails(details).wordCount == WordCount(details)
    ensures AnalyzeDetails(details).keyTermCount == CountPresent(Lower(details), KeyTerms) <= 9
    ensures AnalyzeDetails(details).isVague <==> WordCount(details) < 20 || CountPresent(Lower(details), KeyTerms) < 2
    ensures AnalyzeDetails(details).confidenceBoost == 0.0 <==>
      (forall i :: 0 <= i < |details| ==> IsSpace(details[i]))
      && (forall k :: 0 <= k < |KeyTerms| ==> !Contains(Lower(details), KeyTerms[k]))
  {
    WordCountZero(details);
    CountPresentZero(Lower(details), KeyTerms);
  }

  /** From 150 words on the boost is at its cap. */
  lemma LongDetailsGetFullBoost(details: string)
    requires WordCount(details) >= 150
    ensures AnalyzeDetails(details).confidenceBoost == 0.15
  {
  }

  /** Some word of `words` occurs in `text`. */
  predicate MentionsAny(text: string, words: seq<string>)
    decreases |words|
  {
    words != [] && (Contains(text, words[0]) || MentionsAny(text, words[1..]))
  }

  /** A non-empty explanation that mentions, in any letter case, one of `words`. */
  predicate ExplainsWith(details: Option<string>, words: seq<string>) {
    details.Some? && details.value != [] && MentionsAny(Lower(details.value), words)
  }

  /**
   * `_validate_method_consistency`: each of the three standard methods
   * needs an explanation that mentions one of its words; any other method
   * passes.
   */
  function MethodConsistent(calculationMethod: string, details: Option<string>): bool {
    var truthy := details.Some? && details.value != [];
    if calculationMethod == "waste_diverted" then
      truthy && (Contains(Lower(details.value), "sampah") || Contains(Lower(details.value), "waste"))
    else if calculationMethod == "energy_saved" then
      truthy && (Contains(Lower(details.value), "listrik") || Contains(Lower(details.value), "energy")
                 || Contains(Lower(details.value), "kwh"))
    else if calculationMethod == "transport_reduced" then
      truthy && (Contains(Lower(details.value), "transport") || Contains(Lower(details.value), "jarak")
                 || Contains(Lower(details.value), "km"))
    else true
  }

  /**
   * Each standard method is consistent exactly when the explanation
   * mentions one of its words; every other method is consistent.
   */
  lemma MethodConsistencyRules(calculationMethod: string, details: Option<string>)
    ensures calculationMethod == "waste_diverted" ==>
      (MethodConsistent(calculationMethod, details) <==> ExplainsWith(details, ["sampah", "waste"]))
    ensures calculationMethod == "energy_saved" ==>
      (MethodConsistent(calculationMethod, details) <==> ExplainsWith(details, ["listrik", "energy", "kwh"]))
    ensures calculationMethod == "transport_reduced" ==>
      (MethodConsistent(calculationMethod, details) <==> ExplainsWith(details, ["transport", "jarak", "km"]))
    ensures calculationMethod !in {"waste_diverted", "energy_saved", "transport_reduced"} ==>
      MethodConsistent(calculationMethod, details)
  {
  }

  /** A standard method with no explanation at all is never consistent. */
  lemma StandardMethodNeedsDetails(calculationMethod: string, details: Option<string>)
    requires calculationMethod in {"waste_diverted", "energy_saved", "transport_reduced"}
    requires details == None || details == Some("")
    ensures !MethodConsistent(calculationMethod, details)
  {
  }

  /** The inputs of `validate_carbon_claim`. */
  datatype ClaimInput = ClaimInput(
    carbonReductionKg: real,
    calculationMethod: string,
    sector: string,
    businessScale: string,
    evidenceCount: int,
    details: Option<string>)

  /** The flags the validator can raise, in the order its checks run. */
  datatype CarbonFlag =
    | UnknownSector | InvalidScale | BelowMinimum | AboveMaximum | FarAboveTypical
    | UnknownMethod | InsufficientEvidence | NoDetails | MethodInconsistent

  /** The suggestions the validator can make, in the order its checks run. */
  datatype CarbonSuggestion =
    | RecheckHighClaim | StrengthenOutlierEvidence | UseStandardMethod | UploadMore(missing: int)
    | ExpandVagueDetails | AddDetails | ExplainMethod | RaiseConfidence

  function FlagRank(f: CarbonFlag): nat {
    match f
    case UnknownSector => 0
    case InvalidScale => 1
    case BelowMinimum => 2
    case AboveMaximum => 3
    case FarAboveTypical => 4
    case UnknownMethod => 5
    case InsufficientEvidence => 6
    case NoDetails => 7
    case MethodInconsistent => 8
  }

  /** What each flag costs the confidence. */
  function Penalty(f: CarbonFlag): (p: real)
    ensures 0.1 <= p <= 0.3
  {
    match f
    case UnknownSector => 0.2
    case InvalidScale => 0.1
    case BelowMinimum => 0.1
    case AboveMaximum => 0.3
    case FarAboveTypical => 0.15
    case UnknownMethod => 0.1
    case InsufficientEvidence => 0.2
    case NoDetails => 0.1
    case MethodInconsistent => 0.15
  }

  /** The total cost of a list of flags. */
  function Penalties(flags: seq<CarbonFlag>): (p: real)
    ensures p >= 0.0
    ensures flags != [] ==> p >= 0.1
  {
    if flags == [] then 0.0 else Penalties(flags[..|flags| - 1]) + Penalty(flags[|flags| - 1])
  }

  lemma PenaltiesSnoc(flags: seq<CarbonFlag>, f: CarbonFlag)
    ensures Penalties(flags + [f]) == Penalties(flags) + Penalty(f)
  {
    assert (flags + [f])[..|flags|] == flags;
  }

  /** The benchmark a claim is checked against. */
  function BenchOf(c: ClaimInput): Bench {
    EffectiveBenchmark(c.sector, c.businessScale)
  }

  /** Check 1: the sector has no benchmark. */
  predicate SectorUnknown(c: ClaimInput) {
    !KnownSector(c.sector)
  }

  /** Check 2: the business scale has no benchmark. */
  predicate ScaleInvalid(c: ClaimInput) {
    !KnownScale(c.businessScale)
  }

  /** Check 3: the claim is below the benchmark minimum. */
  predicate BelowBenchmark(c: ClaimInput) {
    c.carbonReductionKg < BenchOf(c).min
  }

  /** Check 4: the claim is above the benchmark maximum. */
  predicate AboveBenchmark(c: ClaimInput) {
    c.carbonReductionKg > BenchOf(c).max
  }

  /** Check 5: the claim is more than three times the typical one. */
  predicate FarAboveTypicalClaim(c: ClaimInput) {
    c.carbonReductionKg > BenchOf(c).typical * 3.0
  }

  /** Check 6: the calculation method is not a standard one. */
  predicate MethodUnknown(c: ClaimInput) {
    MethodFactor(c.calculationMethod).None?
  }

  /** Check 7: fewer evidence files than the claim needs. */
  predicate EvidenceShort(c: ClaimInput) {
    c.evidenceCount < MinEvidence(c.carbonReductionKg, BenchOf(c).typical)
  }

  /** Check 8: the explanation is missing or empty. */
  predicate DetailsMissing(c: ClaimInput) {
    !(c.details.Some? && c.details.value != [])
  }

  /** Check 9: the explanation does not support the calculation method. */
  predicate MethodUnsupported(c: ClaimInput) {
    !MethodConsistent(c.calculationMethod, c.details)
  }

  /** A non-empty explanation that is too short or names too few key terms. */
  predicate VagueDetails(details: Option<string>) {
    details.Some? && details.value != [] && AnalyzeDetails(details.value).isVague
  }

  /** The boost a non-empty explanation earns. */
  function DetailsBoost(details: Option<string>): (b: real)
    ensures 0.0 <= b <= 0.15
  {
    if details.Some? && details.value != [] then AnalyzeDetails(details.value).confidenceBoost else 0.0
  }

  /** How many more files a claim needs than it came with. */
  function MissingFiles(c: ClaimInput): int {
    MinEvidence(c.carbonReductionKg, BenchOf(c).typical) - c.evidenceCount
  }

  /** What the benchmark checks found: the outcome of checks 1 to 5. */
  datatype BenchmarkFindings = BenchmarkFindings(
    sectorUnknown: bool,
    scaleInvalid: bool,
    belowMinimum: bool,
    aboveMaximum: bool,
    farAboveTypical: bool)

  /**
   * What the method and evidence checks found: the outcome of checks 6 and
   * 7, the files missing, and whether the claim is above twice the typical one.
   */
  datatype EvidenceFindings = EvidenceFindings(
    methodUnknown: bool,
    evidenceShort: bool,
    missingFiles: int,
    aboveTwiceTypical: bool)

  /** What the explanation check found: check 8, the explanation's vagueness and its boost. */
  datatype ExplanationFindings = ExplanationFindings(detailsMissing: bool, detailsVague: bool, boost: real)

  /**
   * What the checks found about a claim, group by group, with the outcome
   * of check 9 last. The report is a function of the findings alone.
   */
  datatype Findings = Findings(
    bench: BenchmarkFindings,
    evidence: EvidenceFindings,
    explanation: ExplanationFindings,
    methodUnsupported: bool)

  /** What checks 1 to 5 find on a claim. */
  function BenchmarkFindingsOf(c: ClaimInput): BenchmarkFindings {
    BenchmarkFindings(SectorUnknown(c), ScaleInvalid(c), BelowBenchmark(c), AboveBenchmark(c), FarAboveTypicalClaim(c))
  }

  /** The evidence findings for a method, a claim, its typical benchmark value and a file count. */
  function EvidenceFindingsFor(calculationMethod: string, claim: real, typical: real, evidenceCount: int): EvidenceFindings
    requires typical > 0.0
  {
    var needed := MinEvidence(claim, typical);
    EvidenceFindings(MethodFactor(calculationMethod).None?, evidenceCount < needed, needed - evidenceCount, claim > typical * 2.0)
  }

  /** What checks 6 and 7 find on a claim. */
  function EvidenceFindingsOf(c: ClaimInput): (e: EvidenceFindings)
    ensures e.evidenceShort ==> e.missingFiles >= 1
    ensures e == EvidenceFindingsFor(c.calculationMethod, c.carbonReductionKg, BenchOf(c).typical, c.evidenceCount)
  {
    EvidenceFindings(MethodUnknown(c), EvidenceShort(c), MissingFiles(c), c.carbonReductionKg > BenchOf(c).typical * 2.0)
  }

  /** What check 8 finds on a claim, with the explanation's vagueness and its boost. */
  function ExplanationFindingsOf(c: ClaimInput): (x: ExplanationFindings)
    ensures 0.0 <= x.boost <= 0.15
  {
    ExplanationFindings(DetailsMissing(c), VagueDetails(c.details), DetailsBoost(c.details))
  }

  /** The findings of the checks on a claim. */
  function FindingsOf(c: ClaimInput): Findings {
    Findings(BenchmarkFindingsOf(c), EvidenceFindingsOf(c), ExplanationFindingsOf(c), MethodUnsupported(c))
  }

  /** The finding under which each flag is raised. */
  predicate Raised(f: CarbonFlag, k: Findings) {
    match f
    case UnknownSector => k.bench.sectorUnknown
    case InvalidScale => k.bench.scaleInvalid
    case BelowMinimum => k.bench.belowMinimum
    case AboveMaximum => k.bench.aboveMaximum
    case FarAboveTypical => k.bench.farAboveTypical
    case UnknownMethod => k.evidence.methodUnknown
    case InsufficientEvidence => k.evidence.evidenceShort
    case NoDetails => k.explanation.detailsMissing
    case MethodInconsistent => k.methodUnsupported
  }

  /** A flag, as a list holding it when it is raised. */
  function Pick(f: CarbonFlag, k: Findings): seq<CarbonFlag> {
    if Raised(f, k) then [f] else []
  }

  /** The flag checked at position `n`. */
  function FlagAt(n: nat): (f: CarbonFlag)
    requires n < 9
    ensures FlagRank(f) == n
  {
    if n == 0 then UnknownSector else if n == 1 then InvalidScale else if n == 2 then BelowMinimum
    else if n == 3 then AboveMaximum else if n == 4 then FarAboveTypical else if n == 5 then UnknownMethod
    else if n == 6 then InsufficientEvidence else if n == 7 then NoDetails else MethodInconsistent
  }

  /** The flags raised by the first `n` checks, in check order. */
  function FlagsBefore(k: Findings, n: nat): seq<CarbonFlag>
    requires n <= 9
  {
    if n == 0 then [] else FlagsBefore(k, n - 1) + Pick(FlagAt(n - 1), k)
  }

  /** Every raised flag, in check order: the reference the checks are held to. */
  function RaisedFlags(k: Findings): seq<CarbonFlag> {
    FlagsBefore(k, 9)
  }

  /** The first `n` checks report exactly their raised flags, once each, in check order. */
  lemma {:induction false} FlagsBeforeRules(k: Findings, n: nat)
    requires n <= 9
    ensures forall f :: f in FlagsBefore(k, n) <==> Raised(f, k) && FlagRank(f) < n
    ensures forall i, j :: 0 <= i < j < |FlagsBefore(k, n)| ==> FlagRank(FlagsBefore(k, n)[i]) < FlagRank(FlagsBefore(k, n)[j])
  {
    if n > 0 {
      FlagsBeforeRules(k, n - 1);
      var front := FlagsBefore(k, n - 1);
      var f := FlagAt(n - 1);
      forall g ensures g in FlagsBefore(k, n) <==> Raised(g, k) && FlagRank(g) < n {
        if FlagRank(g) == n - 1 {
          assert g == f by { assert FlagRank(g) == FlagRank(f); }
        }
      }
      var flags := FlagsBefore(k, n);
      assert flags == front + if Raised(f, k) then [f] else [];
      forall i, j | 0 <= i < j < |flags| ensures FlagRank(flags[i]) < FlagRank(flags[j]) {
        if j >= |front| {
          assert flags[j] == f;
          assert flags[i] == front[i] && front[i] in front;
          assert FlagRank(front[i]) < n - 1;
        } else {
          assert flags[i] == front[i] && flags[j] == front[j];
        }
      }
    }
  }

  /** A flag is reported exactly when raised, once, and in check order. */
  lemma RaisedFlagsRules(k: Findings)
    ensures forall f :: f in RaisedFlags(k) <==> Raised(f, k)
    ensures var flags := RaisedFlags(k);
      forall i, j :: 0 <= i < j < |flags| ==> FlagRank(flags[i]) < FlagRank(flags[j])
  {
    FlagsBeforeRules(k, 9);
    var flags := RaisedFlags(k);
    assert flags == FlagsBefore(k, 9);
  }

  /** The above-maximum flag, which decides validity, is reported exactly when raised. */
  lemma AboveMaximumReported(k: Findings)
    ensures AboveMaximum in RaisedFlags(k) <==> k.bench.aboveMaximum
  {
    RaisedFlagsRules(k);
  }

  /** A flag, as a list holding it when its condition holds. */
  function FlagIf(b: bool, f: CarbonFlag): seq<CarbonFlag> {
    if b then [f] else []
  }

  /** The flags of checks 1 to 5, against the benchmark. */
  function BenchmarkFlags(b: BenchmarkFindings): seq<CarbonFlag> {
    FlagIf(b.sectorUnknown, UnknownSector) + FlagIf(b.scaleInvalid, InvalidScale)
    + FlagIf(b.belowMinimum, BelowMinimum) + FlagIf(b.aboveMaximum, AboveMaximum)
    + FlagIf(b.farAboveTypical, FarAboveTypical)
  }

  /** The flags of checks 6 and 7, on the method and the evidence. */
  function EvidenceFlags(e: EvidenceFindings): seq<CarbonFlag> {
    FlagIf(e.methodUnknown, UnknownMethod) + FlagIf(e.evidenceShort, InsufficientEvidence)
  }

  /** The flag of check 8, on the explanation. */
  function ExplanationFlags(x: ExplanationFindings): seq<CarbonFlag> {
    FlagIf(x.detailsMissing, NoDetails)
  }

  /** The flag of check 9, on the method's consistency with the explanation. */
  function ConsistencyFlags(unsupported: bool): seq<CarbonFlag> {
    FlagIf(unsupported, MethodInconsistent)
  }

  /** The four groups of checks together report exactly the raised flags, in check order. */
  lemma ChecksReportRaisedFlags(k: Findings)
    ensures BenchmarkFlags(k.bench) + EvidenceFlags(k.evidence) + ExplanationFlags(k.explanation) + ConsistencyFlags(k.methodUnsupported) == RaisedFlags(k)
  {
    var p := seq(9, n requires 0 <= n < 9 => Pick(FlagAt(n), k));
    assert FlagsBefore(k, 5) == BenchmarkFlags(k.bench) by {
      assert FlagsBefore(k, 1) == p[0];
      assert FlagsBefore(k, 2) == p[0] + p[1];
      assert FlagsBefore(k, 3) == p[0] + p[1] + p[2];
      assert FlagsBefore(k, 4) == p[0] + p[1] + p[2] + p[3];
      assert FlagsBefore(k, 5) == p[0] + p[1] + p[2] + p[3] + p[4];
    }
    assert FlagsBefore(k, 7) == BenchmarkFlags(k.bench) + EvidenceFlags(k.evidence) by {
      assert FlagsBefore(k, 7) == FlagsBefore(k, 5) + p[5] + p[6];
    }
    assert FlagsBefore(k, 9) == FlagsBefore(k, 7) + p[7] + p[8];
  }

  /** The total cost of two lists of flags is the sum of their costs. */
  lemma {:induction false} PenaltiesAppend(a: seq<CarbonFlag>, b: seq<CarbonFlag>)
    ensures Penalties(a + b) == Penalties(a) + Penalties(b)
    decreases |b|
  {
    if b != [] {
      var init := b[..|b| - 1];
      var last := b[|b| - 1];
      assert b == init + [last];
      assert a + b == (a + init) + [last];
      PenaltiesAppend(a, init);
      PenaltiesSnoc(a + init, last);
      PenaltiesSnoc(init, last);
    } else {
      assert a + b == a;
    }
  }

  /** The reported flags cost what the four groups of checks cost together. */
  lemma ChecksCostRaisedFlags(k: Findings)
    ensures Penalties(RaisedFlags(k))
      == Penalties(BenchmarkFlags(k.bench)) + Penalties(EvidenceFlags(k.evidence)) + Penalties(ExplanationFlags(k.explanation)) + Penalties(ConsistencyFlags(k.methodUnsupported))
  {
    var b, e, x, y := BenchmarkFlags(k.bench), EvidenceFlags(k.evidence), ExplanationFlags(k.explanation), ConsistencyFlags(k.methodUnsupported);
    ChecksReportRaisedFlags(k);
    PenaltiesAppend(b, e);
    PenaltiesAppend(b + e, x);
    PenaltiesAppend(b + e + x, y);
  }

  /** The suggestions of the benchmark checks. */
  function BenchmarkSuggestions(b: BenchmarkFindings): seq<CarbonSuggestion> {
    (if b.aboveMaximum then [RecheckHighClaim] else [])
    + (if b.farAboveTypical then [StrengthenOutlierEvidence] else [])
  }

  /** The suggestions of the method and evidence checks; the second names the missing file count. */
  function EvidenceSuggestions(e: EvidenceFindings): seq<CarbonSuggestion> {
    (if e.methodUnknown then [UseStandardMethod] else [])
    + (if e.evidenceShort then [UploadMore(e.missingFiles)] else [])
  }

  /** The suggestions of the explanation check: expand a vague one, add a missing one. */
  function ExplanationSuggestions(x: ExplanationFindings): seq<CarbonSuggestion> {
    (if x.detailsVague then [ExpandVagueDetails] else [])
    + (if x.detailsMissing then [AddDetails] else [])
  }

  /** The suggestion of the consistency check. */
  function ConsistencySuggestions(unsupported: bool): seq<CarbonSuggestion> {
    if unsupported then [ExplainMethod] else []
  }

  /** The suggestions of all nine checks, in check order. */
  function CheckSuggestions(k: Findings): seq<CarbonSuggestion> {
    BenchmarkSuggestions(k.bench) + EvidenceSuggestions(k.evidence) + ExplanationSuggestions(k.explanation) + ConsistencySuggestions(k.methodUnsupported)
  }

  /** The check suggestions, and a closing one for a valid claim of confidence below 0.7. */
  function SuggestionsFor(k: Findings, isValid: bool, confidence: real): seq<CarbonSuggestion> {
    CheckSuggestions(k) + if isValid && confidence < 0.7 then [RaiseConfidence] else []
  }

  /** The score penalty: -3 for insufficient evidence behind a claim above twice the typical one. */
  function AdjustedScore(e: EvidenceFindings): Option<int> {
    if e.evidenceShort && e.aboveTwiceTypical then Some(-3) else None
  }

  datatype CarbonValidationResult = CarbonValidationResult(
    isValid: bool,
    confidence: real,
    flags: seq<CarbonFlag>,
    suggestions: seq<CarbonSuggestion>,
    adjustedScore: Option<int>)

  const BaseConfidence: real := 0.7

  /**
   * The report for a set of findings: the raised flags; a confidence that
   * is the base, less the cost of every flag, plus the explanation's boost,
   * clamped to [0, 1]; validity unless the claim is above the benchmark
   * maximum or the confidence is below 0.4.
   */
  function Report(k: Findings): CarbonValidationResult {
    var flags := RaisedFlags(k);
    var confidence := Clamp01(BaseConfidence - Penalties(flags) + k.explanation.boost);
    var isValid := AboveMaximum !in flags && confidence >= 0.4;
    CarbonValidationResult(isValid, confidence, flags, SuggestionsFor(k, isValid, confidence), AdjustedScore(k.evidence))
  }

  /** The reference outcome of a claim: the report on its findings. */
  function CarbonValidation(c: ClaimInput): CarbonValidationResult {
    Report(FindingsOf(c))
  }

  /**
   * Checks 1 and 2 of `validate_carbon_claim`: an unknown sector and an
   * invalid scale are flagged, each lowers the confidence, and the
   * benchmark is read for their fallbacks.
   */
  method ResolveBenchmark(c: ClaimInput) returns (flags: seq<CarbonFlag>, confidence: real, benchmark: Bench)
    ensures flags == FlagIf(SectorUnknown(c), UnknownSector) + FlagIf(ScaleInvalid(c), InvalidScale)
    ensures confidence == BaseConfidence - Penalties(flags)
    ensures benchmark == BenchOf(c)
  {
    flags, confidence := [], BaseConfidence;
    var sector := c.sector;
    if !KnownSector(sector) {
      PenaltiesSnoc(flags, UnknownSector);
      flags := flags + [UnknownSector];
      confidence := confidence - 0.2;
      sector := "Kerajinan";
    }
    ghost var f1 := FlagIf(SectorUnknown(c), UnknownSector);
    assert flags == f1;
    var scale := c.businessScale;
    if !KnownScale(scale) {
      PenaltiesSnoc(flags, InvalidScale);
      flags := flags + [InvalidScale];
      confidence := confidence - 0.1;
      scale := "small";
    }
    benchmark := Benchmark(sector, scale).value;
  }

  /**
   * One check of `validate_carbon_claim`: when its condition holds it
   * appends its flag, lowers the confidence by the flag's cost and appends
   * its suggestions, so the confidence stays the base less the cost of
   * every flag.
   */
  method RunCheck(condition: bool, f: CarbonFlag, cost: real, advice: seq<CarbonSuggestion>,
                  flags0: seq<CarbonFlag>, suggestions0: seq<CarbonSuggestion>, confidence0: real)
    returns (flags: seq<CarbonFlag>, suggestions: seq<CarbonSuggestion>, confidence: real)
    requires cost == Penalty(f) && confidence0 == BaseConfidence - Penalties(flags0)
    ensures flags == flags0 + FlagIf(condition, f)
    ensures suggestions == suggestions0 + if condition then advice else []
    ensures confidence == BaseConfidence - Penalties(flags)
  {
    flags, suggestions, confidence := flags0, suggestions0, confidence0;
    if condition {
      PenaltiesSnoc(flags, f);
      flags := flags + [f];
      confidence := confidence - cost;
      suggestions := suggestions + advice;
    } else {
      assert flags == flags0 + [] && suggestions == suggestions0 + [];
    }
  }

  /**
   * Checks 3 to 5 of `validate_carbon_claim`: the claim against the
   * benchmark's minimum, its maximum and three times its typical value.
   * Each check appends its flag and suggestion and lowers the running
   * confidence; only the maximum makes the claim invalid.
   */
  method CheckRange(claim: real, benchmark: Bench, flags0: seq<CarbonFlag>, confidence0: real)
    returns (flags: seq<CarbonFlag>, suggestions: seq<CarbonSuggestion>, confidence: real, isValid: bool)
    requires confidence0 == BaseConfidence - Penalties(flags0)
    ensures flags == flags0 + FlagIf(claim < benchmark.min, BelowMinimum)
      + FlagIf(claim > benchmark.max, AboveMaximum) + FlagIf(claim > benchmark.typical * 3.0, FarAboveTypical)
    ensures suggestions == (if claim > benchmark.max then [RecheckHighClaim] else [])
      + (if claim > benchmark.typical * 3.0 then [StrengthenOutlierEvidence] else [])
    ensures confidence == BaseConfidence - Penalties(flags)
    ensures isValid <==> claim <= benchmark.max
  {
    flags, suggestions, confidence :=
      RunCheck(claim < benchmark.min, BelowMinimum, 0.1, [], flags0, [], confidence0);
    assert suggestions == [];
    flags, suggestions, confidence :=
      RunCheck(claim > benchmark.max, AboveMaximum, 0.3, [RecheckHighClaim], flags, suggestions, confidence);
    isValid := !(claim > benchmark.max);
    flags, suggestions, confidence :=
      RunCheck(claim > benchmark.typical * 3.0, FarAboveTypical, 0.15, [StrengthenOutlierEvidence], flags, suggestions, confidence);
  }

  /**
   * Checks 1 to 5 of `validate_carbon_claim`: the flags and suggestions of
   * the benchmark checks, with the confidence lowered by their penalties.
   */
  method CheckAgainstBenchmark(c: ClaimInput)
    returns (flags: seq<CarbonFlag>, suggestions: seq<CarbonSuggestion>, confidence: real, isValid: bool, benchmark: Bench)
    ensures flags == BenchmarkFlags(BenchmarkFindingsOf(c))
    ensures suggestions == BenchmarkSuggestions(BenchmarkFindingsOf(c))
    ensures confidence == BaseConfidence - Penalties(flags)
    ensures isValid <==> !AboveBenchmark(c)
    ensures benchmark == BenchOf(c)
  {
    var groupFlags, groupConfidence;
    groupFlags, groupConfidence, benchmark := ResolveBenchmark(c);
    flags, suggestions, confidence, isValid := CheckRange(c.carbonReductionKg, benchmark, groupFlags, groupConfidence);
  }

  /**
   * Checks 6 and 7 of `validate_carbon_claim`, continuing from the state
   * the benchmark checks left: the calculation method and the evidence
   * count, which also decides the score penalty.
   */
  method CheckEvidence(calculationMethod: string, claim: real, typical: real, evidenceCount: int,
                       flags0: seq<CarbonFlag>, suggestions0: seq<CarbonSuggestion>, confidence0: real)
    returns (flags: seq<CarbonFlag>, suggestions: seq<CarbonSuggestion>, confidence: real, adjustedScore: Option<int>)
    requires typical > 0.0
    ensures var e := EvidenceFindingsFor(calculationMethod, claim, typical, evidenceCount);
      && flags == flags0 + EvidenceFlags(e)
      && suggestions == suggestions0 + EvidenceSuggestions(e)
      && confidence == confidence0 - Penalties(EvidenceFlags(e))
      && adjustedScore == AdjustedScore(e)
  {
    flags, suggestions, confidence, adjustedScore := flags0, suggestions0, confidence0, None;
    ghost var e := EvidenceFindingsFor(calculationMethod, claim, typical, evidenceCount);

    if MethodFactor(calculationMethod).None? {
      flags := flags + [UnknownMethod];
      confidence := confidence - 0.1;
      suggestions := suggestions + [UseStandardMethod];
    }
    ghost var f6 := FlagIf(e.methodUnknown, UnknownMethod);
    assert flags == flags0 + f6;
    assert confidence == confidence0 - Penalties(f6);

    var minEvidence := MinEvidence(claim, typical);
    if evidenceCount < minEvidence {
      flags := flags + [InsufficientEvidence];
      confidence := confidence - 0.2;
      suggestions := suggestions + [UploadMore(minEvidence - evidenceCount)];
      if claim > typical * 2.0 {
        adjustedScore := Some(-3);
      }
    }
    ghost var f7 := FlagIf(e.evidenceShort, InsufficientEvidence);
    assert flags == flags0 + f6 + f7;
    PenaltiesAppend(f6, f7);
  }

  /**
   * Check 8 of `validate_carbon_claim`: a non-empty explanation earns a
   * boost and, when vague, a suggestion; a missing or empty one is flagged.
   */
  method CheckExplanation(c: ClaimInput, flags0: seq<CarbonFlag>, suggestions0: seq<CarbonSuggestion>, confidence0: real)
    returns (flags: seq<CarbonFlag>, suggestions: seq<CarbonSuggestion>, confidence: real)
    ensures flags == flags0 + ExplanationFlags(ExplanationFindingsOf(c))
    ensures suggestions == suggestions0 + ExplanationSuggestions(ExplanationFindingsOf(c))
    ensures confidence == confidence0 - Penalties(ExplanationFlags(ExplanationFindingsOf(c))) + ExplanationFindingsOf(c).boost
  {
    flags, suggestions, confidence := flags0, suggestions0, confidence0;
    if c.details.Some? && c.details.value != [] {
      var quality := AnalyzeDetails(c.details.value);
      confidence := confidence + quality.confidenceBoost;
      if quality.isVague {
        suggestions := suggestions + [ExpandVagueDetails];
      }
      assert suggestions == suggestions0 + ((if VagueDetails(c.details) then [ExpandVagueDetails] else []) + []);
      assert flags == flags0 + [];
    } else {
      flags := flags + [NoDetails];
      confidence := confidence - 0.1;
      suggestions := suggestions + [AddDetails];
      assert suggestions == suggestions0 + ([] + [AddDetails]);
    }
  }

  /**
   * Check 9 of `validate_carbon_claim`: a calculation method the
   * explanation does not support is flagged.
   */
  method CheckConsistency(c: ClaimInput, flags0: seq<CarbonFlag>, suggestions0: seq<CarbonSuggestion>, confidence0: real)
    returns (flags: seq<CarbonFlag>, suggestions: seq<CarbonSuggestion>, confidence: real)
    ensures flags == flags0 + ConsistencyFlags(MethodUnsupported(c))
    ensures suggestions == suggestions0 + ConsistencySuggestions(MethodUnsupported(c))
    ensures confidence == confidence0 - Penalties(ConsistencyFlags(MethodUnsupported(c)))
  {
    flags, suggestions, confidence := flags0, suggestions0, confidence0;
    if !MethodConsistent(c.calculationMethod, c.details) {
      flags := flags + [MethodInconsistent];
      confidence := confidence - 0.15;
      suggestions := suggestions + [ExplainMethod];
    } else {
      assert flags == flags0 + [];
      assert suggestions == suggestions0 + [];
    }
  }

  /**
   * Steps 10 to 12 of `validate_carbon_claim`, once the nine checks have
   * run: the confidence is clamped to [0, 1], a confidence below 0.4 makes
   * the claim invalid, and a valid claim of confidence below 0.7 gets one
   * more suggestion.
   */
  method Conclude(ghost k: Findings, flags: seq<CarbonFlag>, suggestions: seq<CarbonSuggestion>, confidence: real,
                  isValid: bool, adjustedScore: Option<int>)
    returns (r: CarbonValidationResult)
    requires flags == RaisedFlags(k) && suggestions == CheckSuggestions(k)
    requires confidence == BaseConfidence - Penalties(flags) + k.explanation.boost
    requires isValid <==> !k.bench.aboveMaximum
    requires adjustedScore == AdjustedScore(k.evidence)
    ensures r == Report(k)
  {
    AboveMaximumReported(k);
    var conf := Clamp01(confidence);
    var valid := isValid;
    if conf < 0.4 {
      valid := false;
    }
    var closing := suggestions;
    if valid && conf < 0.7 {
      closing := closing + [RaiseConfidence];
    }
    r := CarbonValidationResult(valid, conf, flags, closing, adjustedScore);
  }

  /**
   * `validate_carbon_claim`: the benchmark, evidence, explanation and
   * consistency checks, each adding its flags, suggestions and confidence
   * change in turn, then the conclusion.
   */
  method ValidateCarbonClaim(c: ClaimInput) returns (r: CarbonValidationResult)
    ensures r == CarbonValidation(c)
  {
    var flags, suggestions, confidence, isValid, benchmark := CheckAgainstBenchmark(c);
    var adjustedScore;
    flags, suggestions, confidence, adjustedScore :=
      CheckEvidence(c.calculationMethod, c.carbonReductionKg, benchmark.typical, c.evidenceCount, flags, suggestions, confidence);
    flags, suggestions, confidence := CheckExplanation(c, flags, suggestions, confidence);
    flags, suggestions, confidence := CheckConsistency(c, flags, suggestions, confidence);

    ghost var k := FindingsOf(c);
    assert k.bench == BenchmarkFindingsOf(c) && k.evidence == EvidenceFindingsOf(c);
    assert k.explanation == ExplanationFindingsOf(c) && k.methodUnsupported == MethodUnsupported(c);
    ChecksReportRaisedFlags(k);
    ChecksCostRaisedFlags(k);
    r := Conclude(k, flags, suggestions, confidence, isValid, adjustedScore);
  }

  /**
   * A report is valid exactly when the claim is at most the benchmark
   * maximum and its confidence is at least 0.4; the confidence lies in
   * [0, 0.85].
   */
  lemma ValidityRule(k: Findings)
    requires 0.0 <= k.explanation.boost <= 0.15
    ensures Report(k).isValid <==> !k.bench.aboveMaximum && Report(k).confidence >= 0.4
    ensures 0.0 <= Report(k).confidence <= BaseConfidence + 0.15
  {
    RaisedFlagsRules(k);
  }

  /** Findings that raise no flag give a valid report, at least the base confidence and no closing suggestion. */
  lemma CleanFindingsAccepted(k: Findings)
    requires RaisedFlags(k) == [] && k.explanation.boost >= 0.0
    ensures Report(k).isValid
    ensures Report(k).confidence >= BaseConfidence
    ensures RaiseConfidence !in Report(k).suggestions
  {
    assert Report(k).confidence >= BaseConfidence;
    assert Report(k).suggestions == CheckSuggestions(k);
    DetailSuggestionConditions(k);
  }

  /** The suggestions each group of checks makes, and under which finding. */
  lemma SuggestionGroups(k: Findings)
    ensures forall g :: g in BenchmarkSuggestions(k.bench) <==>
      (g == RecheckHighClaim && k.bench.aboveMaximum) || (g == StrengthenOutlierEvidence && k.bench.farAboveTypical)
    ensures forall g :: g in EvidenceSuggestions(k.evidence) <==>
      (g == UseStandardMethod && k.evidence.methodUnknown) || (g == UploadMore(k.evidence.missingFiles) && k.evidence.evidenceShort)
    ensures forall g :: g in ExplanationSuggestions(k.explanation) <==>
      (g == ExpandVagueDetails && k.explanation.detailsVague) || (g == AddDetails && k.explanation.detailsMissing)
    ensures forall g :: g in ConsistencySuggestions(k.methodUnsupported) <==> g == ExplainMethod && k.methodUnsupported
  {
  }

  /** The check suggestions are exactly those of the four groups of checks. */
  lemma CheckSuggestionsMembers(k: Findings)
    ensures forall g :: g in CheckSuggestions(k) <==>
      g in BenchmarkSuggestions(k.bench) || g in EvidenceSuggestions(k.evidence)
      || g in ExplanationSuggestions(k.explanation) || g in ConsistencySuggestions(k.methodUnsupported)
  {
  }

  /** The finding under which each suggestion of checks 4 to 6 is made. */
  lemma BenchmarkSuggestionConditions(k: Findings)
    ensures RecheckHighClaim in CheckSuggestions(k) <==> Raised(AboveMaximum, k)
    ensures StrengthenOutlierEvidence in CheckSuggestions(k) <==> Raised(FarAboveTypical, k)
    ensures UseStandardMethod in CheckSuggestions(k) <==> Raised(UnknownMethod, k)
  {
    assert RecheckHighClaim in CheckSuggestions(k) <==> k.bench.aboveMaximum by {
      SuggestionGroups(k);
      CheckSuggestionsMembers(k);
    }
    assert StrengthenOutlierEvidence in CheckSuggestions(k) <==> k.bench.farAboveTypical by {
      SuggestionGroups(k);
      CheckSuggestionsMembers(k);
    }
    assert UseStandardMethod in CheckSuggestions(k) <==> k.evidence.methodUnknown by {
      SuggestionGroups(k);
      CheckSuggestionsMembers(k);
    }
  }

  /** More files are asked for exactly when the evidence check fails, and then the missing count. */
  lemma UploadSuggestionCondition(k: Findings)
    ensures forall m :: UploadMore(m) in CheckSuggestions(k) <==>
      Raised(InsufficientEvidence, k) && m == k.evidence.missingFiles
  {
    SuggestionGroups(k);
    CheckSuggestionsMembers(k);
  }

  /**
   * The finding under which each suggestion of checks 8 and 9 is made; the
   * closing suggestion is never one of them.
   */
  lemma DetailSuggestionConditions(k: Findings)
    ensures ExpandVagueDetails in CheckSuggestions(k) <==> k.explanation.detailsVague
    ensures AddDetails in CheckSuggestions(k) <==> Raised(NoDetails, k)
    ensures ExplainMethod in CheckSuggestions(k) <==> Raised(MethodInconsistent, k)
    ensures RaiseConfidence !in CheckSuggestions(k)
  {
    SuggestionGroups(k);
    CheckSuggestionsMembers(k);
  }

  /** Each check's suggestion is made exactly when its flag is reported. */
  lemma SuggestionsMatchFlags(k: Findings)
    ensures RecheckHighClaim in CheckSuggestions(k) <==> AboveMaximum in RaisedFlags(k)
    ensures StrengthenOutlierEvidence in CheckSuggestions(k) <==> FarAboveTypical in RaisedFlags(k)
    ensures UseStandardMethod in CheckSuggestions(k) <==> UnknownMethod in RaisedFlags(k)
    ensures AddDetails in CheckSuggestions(k) <==> NoDetails in RaisedFlags(k)
    ensures ExplainMethod in CheckSuggestions(k) <==> MethodInconsistent in RaisedFlags(k)
    ensures forall m :: UploadMore(m) in CheckSuggestions(k) <==>
      InsufficientEvidence in RaisedFlags(k) && m == k.evidence.missingFiles
  {
    BenchmarkSuggestionConditions(k);
    UploadSuggestionCondition(k);
    DetailSuggestionConditions(k);
    RaisedFlagsRules(k);
  }

  /** The closing suggestion is made exactly for a valid claim of confidence below 0.7. */
  lemma ClosingSuggestionRule(k: Findings)
    ensures RaiseConfidence in Report(k).suggestions <==> Report(k).isValid && Report(k).confidence < 0.7
  {
    DetailSuggestionConditions(k);
  }

  /** The score penalty is -3, given exactly when the evidence flag is reported for a claim above twice the typical one. */
  lemma ScorePenaltyRule(k: Findings)
    ensures AdjustedScore(k.evidence).Some? <==> InsufficientEvidence in RaisedFlags(k) && k.evidence.aboveTwiceTypical
    ensures AdjustedScore(k.evidence).Some? ==> AdjustedScore(k.evidence) == Some(-3)
  {
    RaisedFlagsRules(k);
  }

  /** A claim that needs more files is asked for at least one, and a penalised claim came with fewer than six. */
  lemma MissingFilesRule(c: ClaimInput)
    ensures forall m :: UploadMore(m) in CheckSuggestions(FindingsOf(c)) ==> 1 <= m
    ensures AdjustedScore(EvidenceFindingsOf(c)).Some? ==> c.evidenceCount < 6
  {
    UploadSuggestionCondition(FindingsOf(c));
  }

  /**
   * The realistic claim of the test suite: 500 kg for a small Fashion
   * business, waste diverted, three files, an explanation mentioning sampah.
   * It is valid with no flags and a confidence above 0.5.
   */
  lemma RealisticClaimAccepted(details: string)
    requires details != [] && Contains(Lower(details), "sampah")
    ensures var r := CarbonValidation(ClaimInput(500.0, "waste_diverted", "Fashion", "small", 3, Some(details)));
      r.isValid && r.flags == [] && r.confidence > 0.5
  {
    var c := ClaimInput(500.0, "waste_diverted", "Fashion", "small", 3, Some(details));
    assert BenchOf(c) == Bench(100.0, 2000.0, 500.0);
    assert MinEvidence(500.0, 500.0) == 2;
    var k := FindingsOf(c);
    ChecksReportRaisedFlags(k);
    CleanFindingsAccepted(k);
  }

  /**
   * A claim above the benchmark maximum and three times the typical one,
   * made with too few files, is rejected with a confidence of at most 0.2;
   * above twice the typical one it also takes the score penalty.
   */
  lemma OutlierWithoutEvidenceRejected(k: Findings)
    requires k.bench.aboveMaximum && k.bench.farAboveTypical && k.evidence.evidenceShort
    requires k.explanation.boost <= 0.15
    ensures !Report(k).isValid && Report(k).flags != [] && Report(k).confidence <= 0.2
    ensures k.evidence.aboveTwiceTypical ==> Report(k).adjustedScore == Some(-3)
  {
    assert AboveMaximum in RaisedFlags(k) by {
      AboveMaximumReported(k);
    }
    OutlierCost(k);
  }

  /** The above-maximum, outlier and evidence flags together cost at least 0.65. */
  lemma OutlierCost(k: Findings)
    requires k.bench.aboveMaximum && k.bench.farAboveTypical && k.evidence.evidenceShort
    ensures Penalties(RaisedFlags(k)) >= 0.65
  {
    ChecksCostRaisedFlags(k);
    var b := BenchmarkFlags(k.bench);
    assert Penalties(b) >= 0.45 by {
      var front := FlagIf(k.bench.sectorUnknown, UnknownSector) + FlagIf(k.bench.scaleInvalid, InvalidScale)
        + FlagIf(k.bench.belowMinimum, BelowMinimum);
      assert b == front + [AboveMaximum] + [FarAboveTypical];
      PenaltiesSnoc(front, AboveMaximum);
      PenaltiesSnoc(front + [AboveMaximum], FarAboveTypical);
    }
    assert Penalties(EvidenceFlags(k.evidence)) >= 0.2 by {
      var e := EvidenceFlags(k.evidence);
      var front := FlagIf(k.evidence.methodUnknown, UnknownMethod);
      assert e == front + [InsufficientEvidence];
      PenaltiesSnoc(front, InsufficientEvidence);
    }
  }

  /**
   * The unrealistic claim of the test suite: 10000 kg for a small Fashion
   * business with one file. Whatever the explanation, it is invalid, with
   * flags, a confidence below 0.5 and the -3 score penalty.
   */
  lemma UnrealisticClaimRejected(details: Option<string>)
    ensures var r := CarbonValidation(ClaimInput(10000.0, "waste_diverted", "Fashion", "small", 1, details));
      !r.isValid && r.flags != [] && r.confidence < 0.5 && r.adjustedScore == Some(-3)
  {
    var c := ClaimInput(10000.0, "waste_diverted", "Fashion", "small", 1, details);
    assert BenchOf(c) == Bench(100.0, 2000.0, 500.0);
    assert MinEvidence(10000.0, 500.0) == 6;
    OutlierWithoutEvidenceRejected(FindingsOf(c));
  }

  /**
   * The medium F&B claim of the test suite: 2000 kg of energy saved, four
   * files, an explanation of at least one word mentioning listrik. It is
   * valid with a confidence above 0.7.
   */
  lemma MediumClaimAccepted(details: string)
    requires WordCount(details) > 0 && Contains(Lower(details), "listrik")
    ensures var r := CarbonValidation(ClaimInput(2000.0, "energy_saved", "F&B", "medium", 4, Some(details)));
      r.isValid && r.confidence > 0.7
  {
    var c := ClaimInput(2000.0, "energy_saved", "F&B", "medium", 4, Some(details));
    assert BenchOf(c) == Bench(1000.0, 8000.0, 3000.0);
    assert MinEvidence(2000.0, 3000.0) == 2;
    assert details != [];
    AnalyzeDetailsRules(details);
    WordCountZero(details);
    var k := FindingsOf(c);
    assert k.explanation.boost > 0.0;
    ChecksReportRaisedFlags(k);
    CleanFindingsAccepted(k);
  }

  /**
   * The insufficient-evidence case of the test suite: 5000 kg for a medium
   * Manufaktur business with one file. The claim is below half the typical
   * 12000 kg, so one file is enough and the evidence flag is not raised,
   * whatever the explanation.
   */
  lemma SmallShareNeedsOneFile(details: Option<string>)
    ensures InsufficientEvidence !in CarbonValidation(ClaimInput(5000.0, "waste_diverted", "Manufaktur", "medium", 1, details)).flags
  {
    var c := ClaimInput(5000.0, "waste_diverted", "Manufaktur", "medium", 1, details);
    assert BenchOf(c) == Bench(5000.0, 30000.0, 12000.0);
    assert MinEvidence(5000.0, 12000.0) == 1;
    RaisedFlagsRules(FindingsOf(c));
  }

  /**
   * A claim whose costs bring the confidence exactly to the 0.4 floor:
   * 500 kg by the "other" method for a small Fashion business, one file
   * where two are needed, and no explanation. On exact reals it is 0.7
   * less 0.2 and 0.1, so the claim is valid and gets the closing
   * suggestion.
   */
  lemma ExactFloorAccepted()
    ensures var r := CarbonValidation(ClaimInput(500.0, "other", "Fashion", "small", 1, None));
      r.flags == [InsufficientEvidence, NoDetails] && r.confidence == 0.4
      && r.isValid && RaiseConfidence in r.suggestions
  {
    ExactFloorFindings();
    var k := FindingsOf(ClaimInput(500.0, "other", "Fashion", "small", 1, None));
    ExactFloorReport(k);
  }

  /** Short evidence and a missing explanation alone, with no boost, cost exactly 0.3 and leave a valid claim at 0.4. */
  lemma ExactFloorReport(k: Findings)
    requires !k.bench.sectorUnknown && !k.bench.scaleInvalid && !k.bench.belowMinimum
    requires !k.bench.aboveMaximum && !k.bench.farAboveTypical
    requires !k.evidence.methodUnknown && k.evidence.evidenceShort
    requires k.explanation.detailsMissing && k.explanation.boost == 0.0 && !k.methodUnsupported
    ensures Report(k).flags == [InsufficientEvidence, NoDetails] && Report(k).confidence == 0.4
    ensures Report(k).isValid && RaiseConfidence in Report(k).suggestions
  {
    assert RaisedFlags(k) == [InsufficientEvidence, NoDetails] by {
      ChecksReportRaisedFlags(k);
    }
    assert Penalties([InsufficientEvidence, NoDetails]) == 0.3 by {
      PenaltiesSnoc([InsufficientEvidence], NoDetails);
      PenaltiesSnoc([], InsufficientEvidence);
    }
    ClosingSuggestionRule(k);
  }

  /** What the checks find on the claim of `ExactFloorAccepted`: only short evidence, one file short, and no explanation. */
  lemma ExactFloorFindings()
    ensures FindingsOf(ClaimInput(500.0, "other", "Fashion", "small", 1, None))
      == Findings(
           BenchmarkFindings(false, false, false, false, false),
           EvidenceFindings(false, true, 1, false),
           ExplanationFindings(true, false, 0.0),
           false)
  {
    var c := ClaimInput(500.0, "other", "Fashion", "small", 1, None);
    assert BenchOf(c) == Bench(100.0, 2000.0, 500.0);
    assert MinEvidence(500.0, 500.0) == 2;
  }

  /**
   * The method-consistency case of the test suite: energy saved, with an
   * explanation that mentions none of listrik, energy or kwh. The claim is
   * flagged and its confidence stays below 0.8.
   */
  lemma InconsistentMethodLowersConfidence(details: string)
    requires !ExplainsWith(Some(details), ["listrik", "energy", "kwh"])
    ensures var r := CarbonValidation(ClaimInput(500.0, "energy_saved", "Fashion", "small", 3, Some(details)));
      MethodInconsistent in r.flags && r.confidence < 0.8
  {
    var c := ClaimInput(500.0, "energy_saved", "Fashion", "small", 3, Some(details));
    var k := FindingsOf(c);
    assert k.methodUnsupported by {
      MethodConsistencyRules(c.calculationMethod, c.details);
    }
    assert MethodInconsistent in RaisedFlags(k) by {
      RaisedFlagsRules(k);
      assert Raised(MethodInconsistent, k);
    }
    assert Penalties(RaisedFlags(k)) >= 0.1;
  }
}
