# CircularFund scoring core in Dafny

This project models the core of CircularFund: the platform that scores how
ready a small business (an UMKM) is for circular-economy financing.

- **Scoring engine** (module `Scoring`). Eight indicator scorers turn the
  reported metrics into `{score, confidence}` pairs. The engine sums them
  into three subtotals and a 0-100 total, raises three rule-based anomaly
  flags, and picks a recommendation tier. It then applies the advisory
  service's reply: per-indicator score deltas, floored at 0, and extra
  flags.
- **Score store** (module `ScoreStore`). This is the append-only `scores`
  table, behind `saveScore`, `getScoreHistory` and `getLatestScore`.
- **Submission orchestrator** (module `Submissions`). `create` stores a
  PENDING submission. The scoring run it triggers moves the submission to
  SCORED, or to FLAGGED when any step of the run throws. `findAll` lists an
  applicant's submissions, newest first.
- **Advisory rule service** (module `AdvisoryRules`). This is the Python
  `/validate` function. It builds the flags, suggestions, score deltas and
  confidence that the scoring engine consumes. Module `Integration`
  connects the two sides: the service's reply, fed into the scoring step.
- **Carbon-claim validator** (module `CarbonValidation`). It checks a
  yearly CO2 reduction claim against the sector benchmarks, the evidence
  count and the explanation text. It reports flags, suggestions, a
  confidence, a validity verdict and an optional score penalty.
- **File service** (module `FileKeys`). This covers the upload check on
  size and MIME type, the object key an upload is stored under, and the key
  a delete recovers from a stored URL.
- **Shared helpers.** `Text` holds lower-casing, substring search,
  `split`/`join` and word counting. `Reals` holds the unit-interval clamp.
  `Wrappers` holds `Option`.

## How the source is represented

**Code that changes state step by step is imperative Dafny.** Each method
is proved equal to a reference function, and the lemmas are stated about
that function:
- `calculateCircularReadinessScore` and its `forEach` loop;
- `validate_submission`;
- `validate_carbon_claim`, split into one method per group of checks;
- the two repositories, as classes over a `seq` and a `map`.

The reference functions are:
- `validate_carbon_claim`: `CarbonValidation.CarbonValidation`, that is, a
  report computed from the findings of the nine checks;
- `validate_submission`: `AdvisoryRules.Validation`;
- `calculateCircularReadinessScore`: `Scoring.AdvisedResult`.

**Pure code is functions and lemmas:** the scorers, `detectAnomalies`,
`getRecommendation`, `validateFile` and the two key derivations.

| Source value | Model |
|---|---|
| Metrics (JavaScript numbers) | exact `real` |
| Missing fields | `Option` |
| JavaScript and Python truthiness | spelled out: `undefined`, `0` and `""` are falsy |
| Indicator scores | `int` (every band and every delta the advisory service emits is an integer, so `Math.round` over the sums is the identity) |
| Confidences | `real` |
| `adjustedScores` object | its `Object.entries` list |
| Advisory call (`validateWithAI`) | an `Option<AdvisoryResponse>` input; `None` is a failed call (timeout, network error or error status) |
| Steps that throw inside `processScoring` | a `Faults` value naming which steps throw |
| Server-generated ids and timestamps | counters owned by the classes |
| The uuid of an upload and the host of a stored URL | parameters |

### Where the model follows the code rather than the design intent

**A reply without `flags`.** The design intent is that a malformed advisory
reply leaves the pure rule-based result. The code is different. A reply
that has `adjustedScores` but no `flags` applies the deltas and recomputes
the total. Only then does it throw, at the spread of `undefined` into the
flag list. The handler catches that error, so the adjusted scores and total
stay, and no advisory flag is added. `Scoring.AdvisedResult` states exactly
this: `flags` and `adjustedScores` are independent `Option`s in the reply.

**The insufficient-evidence test.** `test_insufficient_evidence` expects a
"Bukti tidak cukup" flag for a 5000 kg claim by a medium Manufaktur
business with one file. Under the code, the ratio 5000/12000 is below 0.5,
so one file is enough and no such flag is raised. The lemma
`CarbonValidation.SmallShareNeedsOneFile` states what the code does. The
model does not decide which of the two, the test or the evidence ladder,
is the intended behaviour.

**Upload, then delete.** `FileKeys.UploadedObjectIsDeletable` shows that
the key recovered from the stored URL is the key the object was uploaded
under. It assumes that the original file name's extension holds no `/`.
The upload middleware keeps only the base name of an uploaded file, so
this holds for the names the service receives. It also assumes that the
stored URL is the host, then `.com/`, then the key exactly as uploaded.
S3 reports the location with the key URI-escaped, so for an extension
holding a space, `%`, `+` or a non-ASCII letter the recovered text is the
escaped key, not the key itself; see "## Left out".

## Model

| member | source | states |
|---|---|---|
| Scoring.IndicatorNamed | backend/src/scoring/scoring.service.ts:88 | a key selects an indicator exactly when it is one of the eight indicator property names, and then that indicator |
| Scoring.KeyIsInjective | backend/src/scoring/scoring.service.ts:58-67 | distinct indicators have distinct property names, and each name selects its own indicator |
| Scoring.ScoreResourceReduction | backend/src/scoring/scoring.service.ts:129-139 | falsy input gives {0, 0.5}; otherwise confidence 0.85 and a score in {0,3,7,11,15}; the score is 0 exactly when the percentage is not positive |
| Scoring.ScoreReusePractice | backend/src/scoring/scoring.service.ts:141-153 | falsy input gives {0, 0.5}; otherwise confidence 0.9 and a score in {0,5,10,15}; a positive score only for the three known frequencies after lower-casing (for texts other than the inherited keys "constructor" and "__proto__"; see "## Left out") |
| Scoring.ScoreRecycleIntegration | backend/src/scoring/scoring.service.ts:155-166 | falsy input gives {0, 0.5}; otherwise confidence 0.85 and a score in {0,5,10}; a positive score only for "partner" or "internal" after lower-casing (for texts other than the inherited keys "constructor" and "__proto__"; see "## Left out") |
| Scoring.ScoreProductDurability | backend/src/scoring/scoring.service.ts:168-177 | falsy lifespan gives {0, 0.5}; otherwise confidence 0.8; the score is 10 exactly for a lifespan above 3 with repairability, and 6 exactly for a lifespan in [1, 3] |
| Scoring.ScoreProcessEfficiency | backend/src/scoring/scoring.service.ts:179-188 | falsy input gives {0, 0.5}; otherwise confidence 0.75 and a score in {0,4,7,10}; the score is 0 exactly below 5 percent |
| Scoring.ScoreTransparency | backend/src/scoring/scoring.service.ts:190-204 | falsy level gives {0, 0.5}; otherwise confidence 0.9 and a score in {0,3,6,7,10,12,15}; with traceability the score is at least 3 (for texts other than the inherited keys "constructor" and "__proto__"; see "## Left out") |
| Scoring.ScoreCarbonAvoidance | backend/src/scoring/scoring.service.ts:206-216 | falsy input gives {0, 0.5}; otherwise confidence 0.7 and a score in {0,3,7,11,15}; the score is 0 exactly when the claim is not positive |
| Scoring.ScoreLivelihoodImpact | backend/src/scoring/scoring.service.ts:218-227 | falsy input gives {0, 0.5}; otherwise confidence 0.85 and a score in {0,3,6,10}; the score is 10 exactly for more than 5 employees with stability exactly "stable" |
| Scoring.UnbandedClaimsScoreZero | backend/src/scoring/scoring.service.ts:129-227 | a present claim in no band scores 0 at the scorer's claim confidence: a negative percentage or carbon claim, an efficiency below 5, a 4-year product that is not repairable, more than 5 employees without "stable" |
| Scoring.BandBoundaries | backend/src/scoring/scoring.service.ts:129-227 | the boundary values land where the comparison operators put them (25 gives 11 and 25.01 gives 15, 30 gives 7, 1000 gives 11, 100 gives 7, lifespan 3 gives 6, 5 employees give 6, 2 give 3, 2.5 give 0) |
| Scoring.ThresholdScorersMonotone | backend/src/scoring/scoring.service.ts:129-216 | resource, efficiency and carbon scorers never give less for a larger positive claim |
| Scoring.LookupScorersIgnoreCase | backend/src/scoring/scoring.service.ts:141-204 | the reuse, recycle and transparency scorers give the same result for a text and its lower-cased form |
| Scoring.TraceabilityBonus | backend/src/scoring/scoring.service.ts:200-201 | a non-empty unknown level scores 3 with traceability and 0 without (for texts other than the inherited keys "constructor" and "__proto__"; see "## Left out") |
| Scoring.TransparencyCapped | backend/src/scoring/scoring.service.ts:200-201 | a "full" level (in any case) scores 15 whether or not traceability is claimed |
| Scoring.Min | backend/src/scoring/scoring.service.ts:201 | `Math.min`: the result is one of the two arguments and lies at or below both |
| Scoring.Indicators.Set | backend/src/scoring/scoring.service.ts:89 | writing one indicator changes that indicator and no other |
| Scoring.RuleIndicators | backend/src/scoring/scoring.service.ts:58-67 | every rule score lies between 0 and the indicator's maximum (15,15,10,10,10,15,15,10); every confidence is 0.5 or the scorer's claim confidence (for texts other than the inherited keys "constructor" and "__proto__"; see "## Left out") |
| Scoring.Total | backend/src/scoring/scoring.service.ts:94-103 | the sum of the eight current scores equals the sum of the three subtotals |
| Scoring.TotalWithinRange | backend/src/scoring/scoring.service.ts:69-78 | scores within their maxima give subtotals within 0..60, 0..15 and 0..25 and a total within 0..100 |
| Scoring.RecommendationFromLabel | backend/src/scoring/scoring.service.ts:247-252 | a label is read back as the tier carrying it, and only the four tier labels are read back |
| Scoring.LabelRoundTrip | backend/src/scoring/scoring.service.ts:247-252 | reading back a tier's label gives that tier |
| Scoring.GetRecommendation | backend/src/scoring/scoring.service.ts:247-252 | each tier is chosen exactly on its band, with inclusive lower bounds 40, 60 and 80 |
| Scoring.RecommendationMonotone | backend/src/scoring/scoring.service.ts:247-252 | a higher total never gets a lower tier |
| Scoring.DetectAnomalies | backend/src/scoring/scoring.service.ts:229-245 | each of the three flags is raised exactly when its condition holds (carbon above 5000, resource percentage above 50, transparency below 7 with resource score above 10), only rule flags appear, in that fixed order |
| Scoring.RuleFlagsDistinct | backend/src/scoring/scoring.service.ts:229-245 | at most three flags, each at most once |
| Scoring.RuleBasedResult | backend/src/scoring/scoring.service.ts:57-127 | without advisory input: rule indicators within their maxima, total in 0..100 equal to the subtotals' sum and to the indicator sum, rule flags, and the tier of the total (for texts other than the inherited keys "constructor" and "__proto__"; see "## Left out") |
| Scoring.DeltaFor | backend/src/scoring/scoring.service.ts:87-89 | a key has no delta exactly when no entry names it |
| Scoring.AdjustOne | backend/src/scoring/scoring.service.ts:88-90 | no contract of its own; one adjustment entry: a key naming an indicator sets its score to the larger of 0 and the old score plus the delta, any other key changes nothing; `Scoring.AdjustOneEffect` states this |
| Scoring.AdjustAll | backend/src/scoring/scoring.service.ts:86-91 | no contract of its own; the entries applied one after the other in entry order, as the `forEach` does; `Scoring.AdjustAllEffect`, `Scoring.AdjustAllNonNegative` and `Scoring.ApplyAdjustments` state its rules |
| Scoring.Max | backend/src/scoring/scoring.service.ts:89 | `Math.max`: the result is one of the two arguments and lies at or above both |
| Scoring.AdjustOneEffect | backend/src/scoring/scoring.service.ts:88-89 | one entry sets the named indicator's score to max(0, old + delta) and leaves every other indicator unchanged |
| Scoring.AdjustAllEffect | backend/src/scoring/scoring.service.ts:86-91 | for entries with distinct keys, every confidence is kept and each score becomes max(0, old + its delta), or stays when its key has no entry |
| Scoring.AdjustAllNonNegative | backend/src/scoring/scoring.service.ts:89 | adjusted scores are never negative when the rule score was not |
| Scoring.AdjustmentExample | backend/src/scoring/scoring.service.ts:89 | a delta of -5 on a resource score of 7 leaves 2 and lowers the total by 5 |
| Scoring.AdvisedResult | backend/src/scoring/scoring.service.ts:82-112 | a failed call gives exactly the rule-based result; deltas apply only when present; the total follows the current scores; advisory flags follow the rule flags; the breakdown keeps the rule subtotals; the tier follows the total |
| Scoring.AdvisoryKeepsRuleFlagsFirst | backend/src/scoring/scoring.service.ts:107 | whatever the advisory outcome, the rule flags are a prefix of the result's flags |
| Scoring.ApplyAdjustments | backend/src/scoring/scoring.service.ts:86-91 | the in-place loop over the entries leaves the indicators the reference fold gives |
| Scoring.CalculateCircularReadinessScore | backend/src/scoring/scoring.service.ts:57-127 | the imperative scoring run returns exactly the reference advised result |
| Scoring.FullMarksScenario | backend/src/scoring/scoring.service.ts:129-252 | a submission in the top band of every indicator scores 100, raises no flag and is High Circular Potential |
| Scoring.HighCarbonScenario | backend/src/scoring/scoring.service.ts:232-234 | a 6000 kg claim with nothing else reported raises only the carbon flag |
| ScoreStore.ToRecord | backend/src/scoring/scoring.service.ts:256-281 | no contract of its own; the record `saveScore` builds from a result; `ScoreStore.RecordRoundTrip` and `ScoreStore.ScoreStore.SaveScore` state what it holds |
| ScoreStore.RecordRoundTrip | backend/src/scoring/scoring.service.ts:254-281 | the saved record reads back as the exact result it was built from, and carries advisory confidence 0.85 |
| ScoreStore.NewestFirst | backend/src/scoring/scoring.service.ts:286-291 | the history holds exactly the applicant's records |
| ScoreStore.NewestFirstIsDescending | backend/src/scoring/scoring.service.ts:286-291 | over records in insertion order, the history's creation times strictly decrease |
| ScoreStore.NewestFirstSnoc | backend/src/scoring/scoring.service.ts:286-291 | appending a record puts it at the head of its applicant's history and leaves every other applicant's history unchanged |
| ScoreStore.ScoreStore.GetScoreHistory | backend/src/scoring/scoring.service.ts:286-291 | exactly the applicant's stored records, newest first |
| ScoreStore.ScoreStore.GetLatestScore | backend/src/scoring/scoring.service.ts:293-298 | none exactly when the applicant has no record; otherwise one of the applicant's records that no other record of theirs postdates, the head of the history |
| ScoreStore.ScoreStore.SaveScore | backend/src/scoring/scoring.service.ts:254-284 | appends one record copying the result under the given submission and applicant; nothing stored before changes; that applicant's history gains it at its head, other histories are unchanged, and it becomes the latest |
| Submissions.StatusAfterRun | backend/src/submission/submission.service.ts:84-96 | a run in which nothing throws ends SCORED; a failing run ends FLAGGED unless saving FLAGGED throws too, which keeps the old status |
| Submissions.RecordMayOutliveFlag | backend/src/submission/submission.service.ts:78-96 | a run whose status save throws has saved a score and ends FLAGGED |
| Submissions.StatusUpdateKeepsRowsValid | backend/src/submission/submission.service.ts:85-95 | changing one row's status keeps ids, dates and their order consistent |
| Submissions.RowsDownFrom | backend/src/submission/submission.service.ts:36-41 | rows of one applicant stored under their own ids, every such row below the bound included, ids strictly decreasing |
| Submissions.RowsDownFromNewestFirst | backend/src/submission/submission.service.ts:36-41 | on a well-kept table the listing is exactly the applicant's rows, with submission dates strictly decreasing |
| Submissions.SubmissionService.FindAll | backend/src/submission/submission.service.ts:36-41 | exactly the applicant's submissions, newest submission date first |
| Submissions.SubmissionService.Create | backend/src/submission/submission.service.ts:18-25 | adds one new row, dated after every existing row, with status PENDING whatever the payload says and the payload's own umkm_id when it names one; nothing else changes (for payloads naming no `id` or `submission_date`) |
| Submissions.SubmissionService.SetStatus | backend/src/submission/submission.service.ts:85-86 | a stored row is saved with the new status; every other row and the id and date counters are unchanged, and the table stays well kept |
| Submissions.SubmissionService.FlagSubmission | backend/src/submission/submission.service.ts:88-97 | an existing row becomes FLAGGED unless that save throws; a missing row changes nothing |
| Submissions.SubmissionService.ProcessScoring | backend/src/submission/submission.service.ts:65-98 | an unknown id changes nothing; otherwise the row takes the status the run's faults decide and nothing else changes; a score record is added exactly when scoring and saving the score succeed, under the stored row's applicant, and it is the advised result |
| Submissions.SubmissionService.ScoreAndSave | backend/src/submission/submission.service.ts:73-82 | unless scoring or saving throws, appends exactly the record of the advised result; otherwise the store is unchanged |
| Submissions.SubmissionService.CreateAndScore | backend/src/submission/submission.service.ts:18-34 | the caller gets the new PENDING row whatever the run does; that row then has the status the run decides, so a failed advisory call alone ends SCORED; every other row is unchanged (for payloads naming no `id` or `submission_date`) |
| AdvisoryRules.Validation | ai-service/main.py:59-106 | no contract of its own; the reference reply of `validate_submission`; `AdvisoryRules.FlagRules`, `AdvisoryRules.SuggestionRules`, `AdvisoryRules.DeltaRules`, `AdvisoryRules.ValidationConfidence` and `AdvisoryRules.InvalidNeedsAllFlags` state its rules, and `AdvisoryRules.ValidateSubmission` is proved equal to it |
| AdvisoryRules.FlagRules | ai-service/main.py:70-91 | each flag is raised exactly when its rule fires, at most once, in rule order |
| AdvisoryRules.SuggestionRules | ai-service/main.py:70-96 | each suggestion is made exactly when its rule fires, including the missing-method and missing-details conditions, and there are at most four |
| AdvisoryRules.DeltaRules | ai-service/main.py:88-96 | only transparency -2 and processEfficiency -3 are ever proposed, each exactly when its rule fires, under distinct keys |
| AdvisoryRules.ValidationConfidence | ai-service/main.py:68-102 | the confidence is 0.85 less 0.15, 0.1 and 0.05 for the carbon flag, resource flag and evidence suggestion reported; it lies in [0.55, 0.85], and the reply is valid exactly with fewer than three flags |
| AdvisoryRules.ValidateSubmission | ai-service/main.py:60-106 | the step-by-step rule function returns exactly the reference reply |
| AdvisoryRules.HighCarbonCost | ai-service/main.py:71-75 | raising a claim above 5000 kg costs exactly 0.15 confidence and adds exactly one flag |
| AdvisoryRules.InvalidNeedsAllFlags | ai-service/main.py:98 | the reply is invalid exactly when all three flag rules fire |
| AdvisoryRules.FalsyInputsCostNothing | ai-service/main.py:84-91 | an empty or missing evidence list costs nothing, and "Minimal" (not "minimal") gives no traceability flag or transparency delta |
| Integration.AdvisoryDeltaFor | ai-service/main.py:88-96 | the reply gives transparency -2 and processEfficiency -3 exactly under their rules and no other indicator a delta |
| Integration.AdvisoryDeltasEffect | backend/src/scoring/scoring.service.ts:86-91 | the reply's deltas change only transparency and process efficiency, each by its penalty floored at 0, keeping every confidence |
| Integration.AdviceTouchesOnlyPenalisedScores | backend/src/scoring/scoring.service.ts:82-104 | a scoring run with the rules' reply differs from the rule scores only in those two indicators, by their penalties |
| Integration.PenalisedTotal | backend/src/scoring/scoring.service.ts:94-103 | lowering those two scores by at most 2 and 3 lowers the total by at most 5 and keeps it in 0..100 |
| Integration.AdvisedTotalBounds | backend/src/scoring/scoring.service.ts:94-122 | with the rules' reply the total stays in 0..100, at most 5 below the rule total, with the rule breakdown and the tier of the new total (for texts other than the inherited keys "constructor" and "__proto__"; see "## Left out") |
| Integration.AdvisedFlags | backend/src/scoring/scoring.service.ts:107 | the run's flags are the rule flags followed by the advisory flags |
| Integration.HighCarbonReportedTwice | ai-service/main.py:71-72 | a claim above 5000 kg appears in the run's flags in the words of both services |
| CarbonValidation.Benchmark | ai-service/validators/carbon_validator.py:26-52 | an entry exists exactly for the five sectors and three scales, and always min < typical < max |
| CarbonValidation.EffectiveSector | ai-service/validators/carbon_validator.py:92-95 | a known sector is kept; an unknown one falls back to a known one (Kerajinan) |
| CarbonValidation.EffectiveScale | ai-service/validators/carbon_validator.py:98-101 | a valid scale is kept; an invalid one falls back to a valid one (small) |
| CarbonValidation.EffectiveBenchmark | ai-service/validators/carbon_validator.py:103-104 | after the fallbacks the benchmark lookup never fails |
| CarbonValidation.MethodFactor | ai-service/validators/carbon_validator.py:55-60 | a factor exists exactly for the four standard methods, and lies in (0, 2] |
| CarbonValidation.MinEvidence | ai-service/validators/carbon_validator.py:218-229 | 1, 2, 4 or 6 files, with 1 exactly below ratio 0.5, 2 exactly in [0.5, 1.5), 6 exactly from 3 |
| CarbonValidation.MinEvidenceMonotone | ai-service/validators/carbon_validator.py:218-229 | a larger claim never needs fewer files |
| CarbonValidation.CountPresent | ai-service/validators/carbon_validator.py:241 | no more terms are counted than are listed |
| CarbonValidation.CountPresentZero | ai-service/validators/carbon_validator.py:241 | the count is zero exactly when no term occurs |
| CarbonValidation.AnalyzeDetails | ai-service/validators/carbon_validator.py:231-251 | the confidence boost lies in [0, 0.15] |
| CarbonValidation.AnalyzeDetailsRules | ai-service/validators/carbon_validator.py:233-244 | the word and key-term counts are those of the text in any letter case; vague exactly below 20 words or 2 key terms; no boost exactly when the text is all spaces and names no key term |
| CarbonValidation.LongDetailsGetFullBoost | ai-service/validators/carbon_validator.py:244 | from 150 words on the boost is at its cap of 0.15 |
| CarbonValidation.MethodConsistent | ai-service/validators/carbon_validator.py:253-310 | no contract of its own; `_validate_method_consistency` reduced to its verdict; `CarbonValidation.MethodConsistencyRules` and `CarbonValidation.StandardMethodNeedsDetails` state its rules |
| CarbonValidation.MethodConsistencyRules | ai-service/validators/carbon_validator.py:253-310 | each standard method is consistent exactly when the lower-cased explanation names one of its words; any other method is consistent |
| CarbonValidation.StandardMethodNeedsDetails | ai-service/validators/carbon_validator.py:261-304 | a standard method with a missing or empty explanation is never consistent |
| CarbonValidation.Penalty | ai-service/validators/carbon_validator.py:91-194 | each flag costs between 0.1 and 0.3 |
| CarbonValidation.Penalties | ai-service/validators/carbon_validator.py:91-194 | flags never raise the confidence, and any flag lowers it by at least 0.1 |
| CarbonValidation.DetailsBoost | ai-service/validators/carbon_validator.py:167-169 | the boost an explanation earns lies in [0, 0.15] |
| CarbonValidation.EvidenceFindingsOf | ai-service/validators/carbon_validator.py:148-164 | a claim short of evidence is missing at least one file |
| CarbonValidation.ExplanationFindingsOf | ai-service/validators/carbon_validator.py:166-182 | the explanation's boost lies in [0, 0.15] |
| CarbonValidation.FlagsBeforeRules | ai-service/validators/carbon_validator.py:85-195 | the first n checks report exactly their raised flags, once each, in check order |
| CarbonValidation.RaisedFlagsRules | ai-service/validators/carbon_validator.py:85-195 | a flag is reported exactly when its check fires, once, in check order |
| CarbonValidation.AboveMaximumReported | ai-service/validators/carbon_validator.py:114-120 | the above-maximum flag is reported exactly when the claim exceeds the benchmark maximum |
| CarbonValidation.ChecksReportRaisedFlags | ai-service/validators/carbon_validator.py:91-194 | the four groups of checks, run in turn, report exactly the raised flags in check order |
| CarbonValidation.ChecksCostRaisedFlags | ai-service/validators/carbon_validator.py:91-194 | the reported flags cost what the four groups cost together |
| CarbonValidation.ResolveBenchmark | ai-service/validators/carbon_validator.py:91-104 | unknown sector and invalid scale are flagged in that order, each lowering the confidence by its cost, and the benchmark is that of the fallbacks |
| CarbonValidation.RunCheck | ai-service/validators/carbon_validator.py:107-137 | a check whose condition holds appends its flag and its suggestions and pays the flag's cost; one that does not changes nothing; the confidence stays the base less the cost of every flag |
| CarbonValidation.CheckRange | ai-service/validators/carbon_validator.py:106-137 | below-minimum, above-maximum and three-times-typical flags and their suggestions appended as their checks fire, the confidence lowered by their costs, invalid exactly above the maximum |
| CarbonValidation.CheckAgainstBenchmark | ai-service/validators/carbon_validator.py:91-137 | checks 1 to 5 give the benchmark flags and suggestions of the claim, the confidence less their cost, validity unless above the maximum, and the benchmark after the fallbacks |
| CarbonValidation.CheckEvidence | ai-service/validators/carbon_validator.py:139-164 | the method and evidence flags and suggestions are appended, the confidence lowered by their cost, and the score penalty set exactly as the evidence findings say |
| CarbonValidation.CheckExplanation | ai-service/validators/carbon_validator.py:166-182 | a missing explanation is flagged and costs 0.1; a present one adds its boost and, when vague, a suggestion |
| CarbonValidation.CheckConsistency | ai-service/validators/carbon_validator.py:184-194 | an unsupported method is flagged, costs 0.15 and adds its suggestion; a supported one changes nothing |
| CarbonValidation.Conclude | ai-service/validators/carbon_validator.py:196-216 | clamping, the 0.4 validity floor and the closing suggestion give exactly the report on the findings |
| CarbonValidation.Report | ai-service/validators/carbon_validator.py:196-216 | no contract of its own; the report on a set of findings; `CarbonValidation.ValidityRule`, `CarbonValidation.ClosingSuggestionRule`, `CarbonValidation.ScorePenaltyRule`, `CarbonValidation.SuggestionsMatchFlags` and `CarbonValidation.RaisedFlagsRules` state its rules |
| CarbonValidation.CarbonValidation | ai-service/validators/carbon_validator.py:62-216 | no contract of its own; the reference outcome of `validate_carbon_claim`, the report on the claim's findings; `CarbonValidation.ValidateCarbonClaim` is proved equal to it and the rows on `CarbonValidation.Report` carry its rules |
| CarbonValidation.ValidateCarbonClaim | ai-service/validators/carbon_validator.py:62-216 | the step-by-step validator returns exactly the report on the claim's findings |
| CarbonValidation.ValidityRule | ai-service/validators/carbon_validator.py:197-201 | valid exactly when the claim is at most the maximum and the confidence at least 0.4; the confidence lies in [0, 0.85] |
| CarbonValidation.CleanFindingsAccepted | ai-service/validators/carbon_validator.py:85-216 | a claim that raises no flag is valid, keeps at least 0.7 confidence and gets no closing suggestion |
| CarbonValidation.SuggestionGroups | ai-service/validators/carbon_validator.py:121-194 | each group of checks makes exactly its own suggestions, each under its finding |
| CarbonValidation.CheckSuggestionsMembers | ai-service/validators/carbon_validator.py:121-194 | the check suggestions are exactly those of the four groups |
| CarbonValidation.BenchmarkSuggestionConditions | ai-service/validators/carbon_validator.py:114-146 | the recheck, outlier and standard-method suggestions are made exactly when their checks fire |
| CarbonValidation.UploadSuggestionCondition | ai-service/validators/carbon_validator.py:151-160 | more files are asked for exactly when evidence is short, and then exactly the missing count |
| CarbonValidation.DetailSuggestionConditions | ai-service/validators/carbon_validator.py:167-194 | the vague, missing-explanation and method suggestions are made exactly under their findings; the closing suggestion is none of the checks' |
| CarbonValidation.SuggestionsMatchFlags | ai-service/validators/carbon_validator.py:114-194 | each check's suggestion is made exactly when its flag is reported |
| CarbonValidation.ClosingSuggestionRule | ai-service/validators/carbon_validator.py:204-208 | the closing suggestion is made exactly for a valid claim with confidence below 0.7 |
| CarbonValidation.ScorePenaltyRule | ai-service/validators/carbon_validator.py:151-164 | the score penalty is -3 and is given exactly when the evidence flag is reported for a claim above twice the typical one |
| CarbonValidation.MissingFilesRule | ai-service/validators/carbon_validator.py:149-164 | an upload suggestion always asks for at least one file, and a penalised claim came with fewer than six |
| CarbonValidation.RealisticClaimAccepted | ai-service/test_carbon_validator.py:8-22 | 500 kg, small Fashion, waste diverted, three files, an explanation naming sampah: valid, no flags, confidence above 0.5 |
| CarbonValidation.OutlierWithoutEvidenceRejected | ai-service/validators/carbon_validator.py:114-164 | above the maximum and three times typical with too few files: invalid, flagged, confidence at most 0.2, and -3 when above twice typical |
| CarbonValidation.UnrealisticClaimRejected | ai-service/test_carbon_validator.py:24-39 | 10000 kg, small Fashion, one file, any explanation: invalid, flagged, confidence below 0.5, adjusted score -3 |
| CarbonValidation.MediumClaimAccepted | ai-service/test_carbon_validator.py:41-54 | 2000 kg of energy saved, medium F&B, four files, an explanation naming listrik: valid with confidence above 0.7 |
| CarbonValidation.SmallShareNeedsOneFile | ai-service/test_carbon_validator.py:56-69 | 5000 kg, medium Manufaktur, one file: the code raises no evidence flag, whatever the explanation |
| CarbonValidation.ExactFloorAccepted | ai-service/validators/carbon_validator.py:87-208 | 500 kg by "other" for a small Fashion business with one file and no explanation is flagged only for evidence and explanation, ends at confidence exactly 0.4, is valid and gets the closing suggestion (on exact reals; see "## Left out") |
| CarbonValidation.ExactFloorReport | ai-service/validators/carbon_validator.py:149-208 | findings of short evidence and a missing explanation alone, with no boost, give those two flags, confidence 0.4, validity and the closing suggestion |
| CarbonValidation.InconsistentMethodLowersConfidence | ai-service/test_carbon_validator.py:71-83 | energy saved with an explanation naming none of its words: flagged inconsistent, confidence below 0.8 |
| Reals.Clamp01 | ai-service/validators/carbon_validator.py:197 | the result lies in [0, 1], equals the input inside it, and is the nearer bound outside it |
| Reals.Min | ai-service/validators/carbon_validator.py:244 | Python's `min`: the result is one of the two arguments and lies at or below both |
| FileKeys.ValidateFile | backend/src/file/file.service.ts:56-69 | valid exactly when at most 5 MiB and of an allowed type; valid exactly when no error; an oversized file reports the size error, otherwise a refused type the type error |
| FileKeys.SizeLimitInclusive | backend/src/file/file.service.ts:57-62 | exactly 5242880 bytes passes the size check; 5242881 is refused with the size error |
| FileKeys.SizeReportedBeforeType | backend/src/file/file.service.ts:60-66 | an oversized file of a refused type reports the size error |
| FileKeys.AcceptedTypes | backend/src/file/file.service.ts:58-66 | within the size limit, exactly image/jpeg, image/png, image/jpg and application/pdf pass |
| FileKeys.Extension | backend/src/file/file.service.ts:20 | the extension holds no dot, and a name without a dot is its own extension |
| FileKeys.ExtensionAfterLastDot | backend/src/file/file.service.ts:20 | the extension of base.ext is ext whenever ext holds no dot |
| FileKeys.NameEndsWithExtension | backend/src/file/file.service.ts:20 | splitting on dots and joining back gives the name, and the name ends with its extension |
| FileKeys.UploadKey | backend/src/file/file.service.ts:19-21 | the key keeps the original name's extension, and starts with "evidence/" when no folder is given |
| FileKeys.DeleteKey | backend/src/file/file.service.ts:36 | a key exists exactly when the URL contains ".com/", and the key itself holds no ".com/" |
| FileKeys.DeleteKeyOfUrl | backend/src/file/file.service.ts:36 | a host without ".com/", then ".com/", then a key without it, gives back that key |
| FileKeys.DeleteKeyStopsAtSecondHostEnd | backend/src/file/file.service.ts:36 | whatever follows a second ".com/" is cut off the key |
| FileKeys.UploadedObjectIsDeletable | backend/src/file/file.service.ts:19-36 | the key a delete recovers from the stored URL is the key the object was uploaded under, for a URL that carries the key unescaped |
| Text.LowerChar | backend/src/scoring/scoring.service.ts:151 | ASCII capitals map to their lower-case letters, lower-case letters are kept |
| Text.Lower | backend/src/scoring/scoring.service.ts:151 | lower-casing never shortens a text |
| Text.IndexOf | ai-service/validators/carbon_validator.py:241 | a reported position starts an occurrence before which none starts; none reported means no occurrence anywhere |
| Text.Split | backend/src/file/file.service.ts:20 | at least one piece, and at least two exactly when the separator occurs |
| Text.SplitJoin | backend/src/file/file.service.ts:20 | joining the pieces with the separator gives back the text |
| Text.SplitPiecesFree | backend/src/file/file.service.ts:36 | no piece holds the separator |
| Text.SplitLastPiece | backend/src/file/file.service.ts:20 | the last piece of a split on one character is the text after its last occurrence |
| Text.IsSpace | ai-service/validators/carbon_validator.py:233 | no contract of its own; the characters `str.isspace` accepts, on which `str.split()` separates words; `Text.WordCount` and `Text.WordCountZero` state what the word count built on it gives |
| Text.WordCount | ai-service/validators/carbon_validator.py:233 | a text has no more words than characters |
| Text.WordCountZero | ai-service/validators/carbon_validator.py:233 | a text has no words exactly when it is all whitespace |

## Left out

- HTTP, storage and logging: the axios call to the advisory service, its 5 s timeout and the logger. A failed call is the `None` advisory input.
- The S3 `upload`, `deleteObject` and `getSignedUrlPromise` calls, and `getPresignedUrl` with them. They are foreign I/O. The uuid of an upload and the URL host are parameters.
- Concurrency: `create` starts the scoring run without awaiting it. The model runs the two as sequential steps (`CreateAndScore`), so interleavings with other requests are not modelled.
- `findOne`, `addEvidence` and `getEvidence` only pass data to and from the repository. They decide nothing the scoring core depends on.
- Columns of a submission payload other than `umkm_id`, `status`, `id` and `submission_date`. They are stored as given, and scoring reads only the metrics.
- The FastAPI endpoints `/analyze-evidence` (a placeholder) and `/estimate-carbon` (a thin wrapper), CORS and the request models.
- NaN: a metric that is NaN is falsy in JavaScript, and every comparison with it is false. The model's reals have no NaN.
- Non-integer advisory deltas: the advisory service only emits -2 and -3. With integer scores, `Math.round` is the identity.
- Scoring.IndicatorNamed: treats inherited prototype keys such as "constructor" like unknown keys. In JavaScript `indicators[key]` is truthy for them, so the write happens, but it lands on a shared built-in object and not on an indicator. The result is the same; that side effect is not modelled.
- Scoring.ScoreReusePractice: treats a frequency whose lower-cased form is "constructor" or "__proto__" as an unknown key scoring 0. In the source the table lookup then finds an inherited built-in (a function or the prototype object), which is truthy, so the score is that object. The sums of the total become strings and the total is NaN, so the tier is the lowest, the inconsistency flag's `transparency.score < 7` test may be false, and saving the NaN total throws, so the run ends FLAGGED with no score record. The model's score set {0,5,10,15} and everything built on it hold only for texts other than these two keys.
- Scoring.ScoreRecycleIntegration: as for `ScoreReusePractice`, a recycle type lower-casing to "constructor" or "__proto__" scores 0 in the model but a built-in object in the source; the score set {0,5,10} holds only for other texts.
- Scoring.ScoreTransparency: as for `ScoreReusePractice`, a level lower-casing to "constructor" or "__proto__" scores 0 in the model. In the source the score is a built-in object, `score < 15` is false, so the traceability bonus is skipped. The score set and the "at least 3 with traceability" promise hold only for other texts.
- Scoring.TraceabilityBonus: an unknown level scores 3 with traceability and 0 without it only when the level does not lower-case to "constructor" or "__proto__"; for those two the source's score is a built-in object.
- Scoring.RuleIndicators: the bounds 0..max on each score hold in the source only when no looked-up text lower-cases to "constructor" or "__proto__".
- Scoring.RuleBasedResult: the total in 0..100 and the tier computed from it hold in the source only when no looked-up text lower-cases to "constructor" or "__proto__"; otherwise the source's total is NaN and the tier is the lowest.
- Integration.AdvisedTotalBounds: the advised total in 0..100, at most 5 below the rule total, holds in the source only when no looked-up text lower-cases to "constructor" or "__proto__"; otherwise both totals are NaN.
- FileKeys.UploadedObjectIsDeletable: assumes the stored URL carries the uploaded key unescaped. S3's location URI-escapes the key, so for an extension holding characters outside the URL-unreserved set (a space, `%`, `+`, a non-ASCII letter) the delete key is the escaped text, not the uploaded key. Escaping is not modelled.
- Scoring.AdjustAllEffect: requires distinct keys. A JSON object cannot repeat a key once parsed.
- CarbonValidation.ValidateCarbonClaim: reports the exact confidence, not Python's `round(confidence, 2)`. Floating-point rounding is not modelled.
- CarbonValidation.ValidateCarbonClaim: computes the confidence on exact reals, while Python subtracts the costs in doubles. When the costs bring it exactly to the 0.4 floor, the double result can fall just below it, and then the verdict and the closing suggestion differ from the model's. For 500 kg by the "other" method, Fashion, small, one file and no explanation, Python computes 0.7 - 0.2 - 0.1 as 0.3999999999999999. It reports the claim invalid, at the rounded confidence 0.4, without the closing suggestion. The model, in `CarbonValidation.ExactFloorAccepted`, finds it valid at 0.4 with the closing suggestion. The same happens for an unknown sector with no explanation, and for an outlier claim with an inconsistent method and an all-whitespace explanation. `CarbonValidation.Conclude`, `CarbonValidation.ValidityRule` and `CarbonValidation.ClosingSuggestionRule` hold for the exact confidence only.
- CarbonValidation: flag and suggestion texts are abstracted to their kinds, which keep the counts the texts embed (the missing file count). The formatted numbers and sector names are left out.
- CarbonValidation: the `carbon_kg` parameter of `_validate_method_consistency` is never read by it, so the model omits it.
- CarbonValidation.RealisticClaimAccepted, CarbonValidation.MediumClaimAccepted, CarbonValidation.InconsistentMethodLowersConfidence: state the test scenarios for any explanation that has the property the test's explanation has. They do not fix the exact text.
- Text.LowerChar: folds only `A`-`Z` and the two non-ASCII characters whose lower-case forms contain ASCII letters. Other letters are kept. This never changes whether an ASCII keyword is found or matched.
- ScoreStore and Submissions: creation times are strictly increasing counters. Two records created at the same database timestamp, whose order is left to the database, are not modelled.
- Submissions.SubmissionService.Create: does not model a failing insert, which rejects to the caller before any scoring starts.
- Submissions.SubmissionService.Create: does not model a payload that names its own `id` or `submission_date`. The payload is spread after `umkm_id`, so both columns reach the repository. With the `id` of an existing row, `save` updates that row instead of adding one. The model always adds a fresh row dated after every other one, so its promises that the id is new and the date is the latest hold only for payloads without these two columns.
- Submissions.SubmissionService.CreateAndScore: inherits the gap in `Create` for a payload naming `id` or `submission_date`. With the `id` of an existing row, the source overwrites and rescores that row, so "every other row is unchanged" holds only for payloads without an `id`.
