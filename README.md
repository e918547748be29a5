# Breast-cancer insight core in Dafny

This project models the decision logic of a breast-cancer screening web
application. After an image classifier labels a scan "benign" or
"malignant", the user answers a questionnaire. From the answers the core
builds one of two reports:

- **Benign report.** It holds:
  - a risk assessment: a point score, its class Low/Moderate/High and the risk factors found;
  - lifestyle recommendations;
  - a follow-up schedule chosen by the risk class;
  - general advice.
- **Malignant report.** It holds:
  - a stage estimate from the tumour size and lymph-node answers;
  - the treatment options for that estimate;
  - positive prognosis factors;
  - a five-year survival prediction.

The survival prediction comes from a second component in several steps:

1. Map the answers to the 26 feature columns the regressor was trained on.
2. Encode the categorical columns with the trained label encoders.
3. Fill in the missing columns and reorder them.
4. Clamp the prediction to [0, 100] and grade it.
5. When there is no model, or when any step of the model path fails, use a stage-based heuristic instead.

A third piece is the upload filter, which accepts only image file names.

Modules:

- `Wrappers`, `Text`: `Option`, and the Python string operations the core uses. These are `in` on strings, the last-dot split and ASCII `lower()`.
- `Questionnaire`: answers as a map from question id to answer. It also holds the question ids of the two questionnaires. The web layer sends every question of the schema, with `""` for a blank answer.
- `ImageProcessing`: `allowed_file`.
- `SurvivalFeatures`: the mapper. Each column is a `Rule` (a lookup table with defaults, or a copied answer). The tables are written out entry by entry.
- `SurvivalPredictor`:
  - the encode and fill loops as methods proved against the row the regressor receives;
  - the clamp, the confidence band and the survival message;
  - the mock, and `predict_survival` as a whole.
- `InsightEngine`: the report generator. Loops and appends in the source are methods that build their result step by step. Each method's postcondition ties the result to a specification function, and the lemmas state the properties of those functions.

  Conditional lists hold values of small enumerations: `RiskFactor`, `Advice`, `PositiveFactor` and `NextStep`. Each value's `Text()` is the exact string the source stores, except that `PredictedSurvival(p)` renders only the fixed text in front of the figure. The benign score is kept in half-points, so the 0.5 of the overweight tier stays an integer. `Score()` gives the source's value.

## Model

| member | source | states |
|---|---|---|
| Text.Contains | services/insight_engine.py:104 | Python's `needle in hay` holds exactly when the needle occurs at some index of the hay |
| Text.ContainsPrefix | services/insight_engine.py:238-244 | a string containing a needle contains every prefix of it, so a label with "Stage II" also contains "Stage I" |
| Text.AbsentFirstChar | services/insight_engine.py:238-244 | a needle whose first character is missing from the hay does not occur in it |
| Text.LastIndexOf | utils/image_processing.py:9 | the index `rsplit('.', 1)` splits at: None exactly when the character is absent, otherwise an occurrence with none after it |
| Text.ToLowerAscii | utils/image_processing.py:9 | `lower()` keeps the length and lower-cases each character (ASCII) |
| Text.LowerSuffix | utils/image_processing.py:9 | lower-casing commutes with taking the text after an index |
| Text.LowerKeepsDot | utils/image_processing.py:9 | lower-casing neither creates nor removes a dot |
| ImageProcessing.AllowedFileMeaning | utils/image_processing.py:5-9 | a name is accepted exactly when it has a last dot and the lower-cased text after it is png, jpg, jpeg or bmp |
| ImageProcessing.RejectsDotless | utils/image_processing.py:8 | a name without a dot is rejected |
| ImageProcessing.LastDotUnique | utils/image_processing.py:9 | the last dot of a name is unique |
| ImageProcessing.OnlyLastDotMatters | utils/image_processing.py:9 | `stem.ext` with a dot-free ext is accepted exactly when ext lower-cased is allowed, whatever the stem holds |
| ImageProcessing.LowerAlikeSameDots | utils/image_processing.py:9 | names that lower-case alike have the same length and their dots in the same places |
| ImageProcessing.SameDotsSameLastDot | utils/image_processing.py:9 | names with dots in the same places have the same last dot |
| ImageProcessing.CaseInsensitive | utils/image_processing.py:9 | two names that lower-case alike are accepted or rejected alike |
| ImageProcessing.NoUpperUnchanged | utils/image_processing.py:9 | text without upper-case letters is its own lower-case form |
| ImageProcessing.RejectsNameWithoutDot | utils/image_processing.py:8 | "scan" is rejected |
| ImageProcessing.RejectsInnerImageExtension | utils/image_processing.py:9 | "x.png.exe" is rejected: only the last extension counts |
| ImageProcessing.AcceptsLastImageExtension | utils/image_processing.py:9 | "x.exe.png" is accepted |
| ImageProcessing.AcceptsUpperCase | utils/image_processing.py:9 | "SCAN.JPEG" is accepted |
| ImageProcessing.RejectsEmptyExtension | utils/image_processing.py:9 | "scan." is rejected |
| ImageProcessing.AcceptsEmptyStem | utils/image_processing.py:9 | ".png" is accepted |
| ImageProcessing.AllowedFile | utils/image_processing.py:5-9 | `allowed_file`: split at the last dot, lower-case the rest and look it up; its meaning is stated by `AllowedFileMeaning` and `CaseInsensitive` |
| SurvivalFeatures.Find | services/survival_predictor.py:125-127 | `table.get(key)` is None exactly when the key is not in the table, and otherwise yields one of its entries |
| SurvivalFeatures.Apply | services/survival_predictor.py:125-127 | one column statement: `table.get(responses.get(q, absent), fallback)` for a lookup, `responses.get(q, absent)` for a copy |
| SurvivalFeatures.MapQuestionnaireToSurvivalFeatures | services/survival_predictor.py:112-331 | the result has exactly the 26 columns, each the value of its rule on the answers |
| SurvivalFeatures.RuleFor | services/survival_predictor.py:112-331 | each column's question, default answer, table and fallback, as the mapper writes them; the table lemmas below state their properties |
| SurvivalFeatures.KeptAnswers | services/survival_predictor.py:117-124 | a table that maps each answer to itself, apart from the unsure ones, returns every other listed answer unchanged |
| SurvivalFeatures.EmptyKeyAbsent | services/survival_predictor.py:117-124 | a table without an empty key does not list the blank answer |
| SurvivalFeatures.TablesKeepListedAnswers | services/survival_predictor.py:117-327 | every lookup table of the mapper keeps listed answers apart from "Not sure" and "Not started treatment yet" |
| SurvivalFeatures.TablesTreatAbsentAsUnlisted | services/survival_predictor.py:125-327 | in every lookup column the answer assumed for a missing question maps to the column's fallback |
| SurvivalFeatures.TablesOmitEmptyAnswer | services/survival_predictor.py:117-327 | no lookup table lists the empty answer |
| SurvivalFeatures.LookupColumnInRange | services/survival_predictor.py:125-327 | a lookup column holds one of its table's values or its fallback |
| SurvivalFeatures.LookupKeepsKnownAnswer | services/survival_predictor.py:125-327 | a listed answer that is not unsure reaches the model unchanged, and a missing question gives the fallback |
| SurvivalFeatures.NotSureRule | services/survival_predictor.py:155-318 | in the columns that rewrite "Not sure", that answer yields the column's stated replacement value |
| SurvivalFeatures.NotSureReplaced | services/survival_predictor.py:155-318 | a "Not sure" answer is replaced: Stage II, 2-5 cm, IDC, Grade 2, Unknown node and receptor status, normal BMI |
| SurvivalFeatures.NotStartedTreatmentIsNone | services/survival_predictor.py:246-256 | "Not started treatment yet" becomes "None" |
| SurvivalFeatures.PassThroughCopiesAnswer | services/survival_predictor.py:129-153 | a copied column holds the answer whenever the question is present, the empty answer included, and its default otherwise |
| SurvivalFeatures.PassThroughColumns | services/survival_predictor.py:130-295 | exactly seven columns are copied rather than looked up |
| SurvivalFeatures.StageTableLookup | services/survival_predictor.py:156-165 | the stage table keeps a Stage I-IV answer and sends every other answer to Stage II |
| SurvivalFeatures.StageColumnsAgree | services/survival_predictor.py:155-205 | both stage columns come from the same answer, agree, and always hold one of the four stages |
| SurvivalFeatures.LifestyleNotAsked | app.py:100-303 | the malignant questionnaire has no smoking, alcohol or activity question |
| SurvivalFeatures.UnaskedLifestyleRules | services/survival_predictor.py:292-306 | without those questions the lifestyle rules give "No", "No" and moderately active |
| SurvivalFeatures.UnaskedLifestyleDefaults | services/survival_predictor.py:292-306 | without those questions the three lifestyle columns hold their defaults |
| SurvivalFeatures.MalignantQuestionnaireLifestyleDefaults | services/survival_predictor.py:292-306 | every malignant questionnaire reaches the regressor as a non-smoker, non-drinker with moderate activity |
| SurvivalFeatures.BlankQuestionnaire | services/survival_predictor.py:112-331 | with every answer blank, copied columns hold "" and lookup columns their fallbacks |
| SurvivalPredictor.Clamp | services/survival_predictor.py:61 | `max(lo, min(hi, x))` lies in [lo, hi], equals x inside the range and the nearer bound outside it |
| SurvivalPredictor.ClampMonotonic | services/survival_predictor.py:61 | clamping keeps order |
| SurvivalPredictor.BandOf | services/survival_predictor.py:65 | high exactly above 70, medium exactly in (50, 70], low exactly at or below 50 |
| SurvivalPredictor.BandMonotonic | services/survival_predictor.py:65 | a higher figure never gets a lower band |
| SurvivalPredictor.OutlookFor | services/survival_predictor.py:101-110 | each message tier holds exactly on its range: at least 80, [60, 80), [40, 60), below 40 |
| SurvivalPredictor.OutlookMonotonic | services/survival_predictor.py:101-110 | a higher figure never gets a worse message |
| SurvivalPredictor.SurvivalMessage | services/survival_predictor.py:101-110 | the message of the figure's tier; `OutlookFor` states the range of each tier |
| SurvivalPredictor.StageAdjustment | services/survival_predictor.py:83-90 | "Stage I" gets +15, "Stage II" 0, "Stage III" -20 and "Stage IV" -40; every other string gets the `.get` default 0 |
| SurvivalPredictor.MockStage | services/survival_predictor.py:82 | the stage column the mock reads, "Unknown" when it is missing |
| SurvivalPredictor.MockSurvival | services/survival_predictor.py:74-99 | the mock is 75 + adjustment + noise clamped to [10, 95], band medium, flagged as mock, with the message of its figure |
| SurvivalPredictor.Transform | services/survival_predictor.py:44-49 | a seen value gets its code; an unseen value gets the code of 'Unknown'; it fails exactly when neither was seen |
| SurvivalPredictor.PreparedRow | services/survival_predictor.py:40-57 | the row is None exactly when some column cannot be encoded, and otherwise has one cell per trained column |
| SurvivalPredictor.PreparedRowColumns | services/survival_predictor.py:43-57 | each cell holds 0 for a column the patient lacks, the raw text for a column without an encoder, and otherwise the code of the value or of 'Unknown' |
| SurvivalPredictor.EncodedFrame | services/survival_predictor.py:40-49 | the encoded frame has exactly the patient's columns |
| SurvivalPredictor.EncodeStep | services/survival_predictor.py:43-49 | encoding one more column keeps the loop's invariant over the remaining columns |
| SurvivalPredictor.EncodeDone | services/survival_predictor.py:43-49 | with no column pending, no encoding failed and the frame is the encoded frame |
| SurvivalPredictor.EncodeColumns | services/survival_predictor.py:43-49 | the loop fails exactly when some column cannot be encoded, and otherwise yields the encoded frame |
| SurvivalPredictor.FillMissing | services/survival_predictor.py:51-54 | every trained column is present, the existing columns are unchanged, the added ones hold 0, and nothing else is added |
| SurvivalPredictor.EncodeAndAlign | services/survival_predictor.py:40-57 | the encode, fill and reorder steps yield the prepared row |
| SurvivalPredictor.SurvivalResult | services/survival_predictor.py:29-72 | the figure lies in [0, 100] with the message of its figure; the mock is used exactly when there is no model or the model path fails; otherwise the figure is the clamped prediction, graded by band |
| SurvivalPredictor.PredictSurvival | services/survival_predictor.py:29-72 | `predict_survival` returns the prediction specified by `SurvivalResult` |
| SurvivalPredictor.MockNeverClamps | services/survival_predictor.py:83-92 | the mock's clamp never applies: its figure is 75 + adjustment + noise, at least 30 |
| SurvivalPredictor.StageTwoMock | services/survival_predictor.py:83-91 | a Stage II patient gets 75 + noise |
| SurvivalPredictor.NotSureStageNoAdjustment | services/survival_predictor.py:155-165 | an unsure stage answer reaches the mock as Stage II and adjusts nothing |
| InsightEngine.AppendIfHolds | services/insight_engine.py:99-118 | a guarded `append` adds the entry exactly when its condition holds |
| InsightEngine.RecordIfHolds | services/insight_engine.py:99-118 | a guarded scoring step adds its points and its entry exactly when its condition holds |
| InsightEngine.RiskHalfPoints | services/insight_engine.py:96-119 | the benign score in half-points as a sum of independent terms; `FactorsAddUpToScore` ties it to the listed factors |
| InsightEngine.PresentFactors | services/insight_engine.py:97-118 | the risk factors that hold, in checking order; `FactorsMatchConditions` states when each is listed |
| InsightEngine.LevelFor | services/insight_engine.py:120-129 | the risk class of a score; `LevelThresholds` states it in points |
| InsightEngine.AssessBenignRisk | services/insight_engine.py:95-137 | the score is the sum of the points of the conditions that hold, the factors are those conditions in checking order, and the class follows the score |
| InsightEngine.TotalHalfPointsAppend | services/insight_engine.py:96-118 | the points of two factor lists add up |
| InsightEngine.IfHoldsPoints | services/insight_engine.py:99-118 | a guarded entry adds its points only when its condition holds |
| InsightEngine.SumOfParts | services/insight_engine.py:96-118 | the points of a list built from five guarded parts are the sum of the parts' points |
| InsightEngine.FactorsAddUpToScore | services/insight_engine.py:96-118 | the listed factors add up to the score: every point has its entry and no entry lacks its points |
| InsightEngine.FactorsMatchConditions | services/insight_engine.py:99-118 | a factor is listed exactly when its condition holds; overweight is listed only without obesity |
| InsightEngine.OneBmiIncrement | services/insight_engine.py:112-118 | obesity and overweight are never both listed, and the fallback's placeholder is never listed |
| InsightEngine.FactorCount | services/insight_engine.py:97-118 | the number of factors counts the conditions that hold, at most four |
| InsightEngine.ScoreRange | services/insight_engine.py:96-118 | the score lies between 0 and 6, and is 0 exactly when no factor is listed |
| InsightEngine.LevelThresholds | services/insight_engine.py:120-129 | High exactly at 3 points or more, Moderate exactly in [2, 3), Low below 2 |
| InsightEngine.LevelBoundaries | services/insight_engine.py:120-129 | 3 points is High, 2 Moderate, 1.5 Low |
| InsightEngine.LevelMonotonic | services/insight_engine.py:120-129 | a higher score never gets a lower class |
| InsightEngine.RiskScenarios | services/insight_engine.py:95-129 | family history alone makes at least Moderate, family history with an older age group makes High, and no condition makes Low |
| InsightEngine.OverweightScenario | services/insight_engine.py:99-129 | family history, menopause and overweight make 3.5 points, High, even without the age group |
| InsightEngine.ExtendIfHoldsInPlace | services/insight_engine.py:148-167 | a guarded `extend` adds the entries exactly when its condition holds |
| InsightEngine.ConditionalAdvice | services/insight_engine.py:140-167 | the advice triggered by the answers, in the source's order |
| InsightEngine.LifestyleAdvice | services/insight_engine.py:139-178 | the triggered advice followed by the five general items; `AdviceMatchesConditions` and `AdviceShape` state its contents |
| InsightEngine.LifestyleRecommendations | services/insight_engine.py:139-179 | the recommendations are those of the answers' conditions in the source's order, followed by the five general ones |
| InsightEngine.AdviceMatchesConditions | services/insight_engine.py:139-178 | an entry is recommended exactly when it is a general one or its trigger answer was given; the overweight plan comes only without obesity |
| InsightEngine.HabitAdvice | services/insight_engine.py:142-167 | smoking, alcohol and activity advice appear exactly for a "Yes" or a sedentary answer |
| InsightEngine.OneWeightPlan | services/insight_engine.py:148-179 | at most one weight plan is given, and the empty-list alternative is never reached |
| InsightEngine.AdviceShape | services/insight_engine.py:139-178 | the list ends with the five general items and its length (5 to 13) counts the triggered entries |
| InsightEngine.FrontParts | services/insight_engine.py:140-146 | in a list built by guarded appends, the first two guarded entries come first |
| InsightEngine.AdviceOrder | services/insight_engine.py:142-146 | smoking advice comes first and alcohol advice right after it |
| InsightEngine.FollowUpTierFor | services/insight_engine.py:181-211 | "High" gives the six-month schedule, "Moderate" the annual one, any other name the routine one; `FollowUpMatchesLevel` relates it to the risk class |
| InsightEngine.BenignFollowUp | services/insight_engine.py:181-211 | the timeline and recommendations of the chosen schedule |
| InsightEngine.FollowUpMatchesLevel | services/insight_engine.py:181-211 | each risk class gets its own schedule, as urgent as the class is high |
| InsightEngine.FollowUpNeverRelaxes | services/insight_engine.py:120-211 | a higher score never gets a less urgent schedule |
| InsightEngine.EstimateStage | services/insight_engine.py:216-228 | the stage rule on the size and node answers; `StageTable` states it case by case |
| InsightEngine.AssessMalignantClinical | services/insight_engine.py:213-235 | the estimate from the answers, both defaulting to "Not sure", with the confidence and the three diagnostics |
| InsightEngine.StageTable | services/insight_engine.py:213-229 | each stage estimate is given for exactly the answers in its branch; Positive nodes give II-III whatever the size |
| InsightEngine.UnansweredNeedsAssessment | services/insight_engine.py:213-229 | missing or blank size and node answers give "Clinical assessment needed", gray |
| InsightEngine.TreatmentTierFor | services/insight_engine.py:237-260 | the substring tests on the stage label, in the source's order; `StageTwoListUnreachable` and `EstimateTreatments` state which list is reached |
| InsightEngine.MalignantTreatments | services/insight_engine.py:237-260 | the options of the chosen treatment list |
| InsightEngine.StageTwoListUnreachable | services/insight_engine.py:237-260 | no label reaches the Stage II treatment list, because every label containing "Stage II" contains "Stage I" |
| InsightEngine.EstimateTreatments | services/insight_engine.py:216-260 | every stage estimate gets the early-stage list, and the unstaged one gets the advanced list |
| InsightEngine.UnstagedLabelTier | services/insight_engine.py:237-260 | "Clinical assessment needed" gets the advanced list |
| InsightEngine.TierWithoutCapitalS | services/insight_engine.py:237-260 | a label without an 'S' gets the advanced list |
| InsightEngine.StagedLabelsMentionStageI | services/insight_engine.py:217-225 | every stage label contains "Stage I" |
| InsightEngine.PositiveFactors | services/insight_engine.py:263-280 | the positive factors that hold, in the source's order; `PositiveFactorsMatchConditions` states when each is listed |
| InsightEngine.AssessMalignantPrognosis | services/insight_engine.py:262-288 | the positive factors are those of the answers' conditions in order, and the survival figure, band and message are copied from the prediction |
| InsightEngine.PositiveFactorsMatchConditions | services/insight_engine.py:262-280 | a positive factor is listed exactly when its answer was given |
| InsightEngine.PositiveFactorBounds | services/insight_engine.py:262-280 | at most five factors, and never the fallback's |
| InsightEngine.NoSymptomFactorFromQuestionnaire | services/insight_engine.py:272-273 | answers from the malignant questionnaire never yield the early-symptom factor, because it has no symptom-duration question |
| InsightEngine.StagedFactorsArePositive | services/insight_engine.py:213-280 | for present answers, a Stage I or II estimate implies the node-negative factor, and the small-tumour answer implies the small-tumour factor |
| InsightEngine.BenignInsights | services/insight_engine.py:39-64 | the benign report: the assessment, the lifestyle list, the follow-up for the assessed class and the general advice; `BenignReportConsistent` states its consistency |
| InsightEngine.MalignantInsights | services/insight_engine.py:66-93 | the malignant report built on the survival prediction of the mapped answers; `MalignantSurvivalInRange` bounds its figure |
| InsightEngine.MalignantReportWith | services/insight_engine.py:73-93 | the malignant report once the survival prediction is known; `MalignantReportConsistent` states its consistency |
| InsightEngine.GenerateBenignInsights | services/insight_engine.py:39-64 | the benign report is the specified risk assessment, lifestyle list, follow-up plan for the risk class and general advice |
| InsightEngine.GenerateMalignantInsights | services/insight_engine.py:66-93 | the malignant report is built from the mapped features' survival prediction, the stage estimate, its treatments and the prognosis |
| InsightEngine.GenerateInsights | services/insight_engine.py:32-37 | the report is benign exactly when the label is "benign" and is the specified report of that kind |
| InsightEngine.FallbackInsights | services/insight_engine.py:290-337 | the fixed fallback report of each kind; `FallbackKind`, `BenignFallbackConsistent` and `MalignantFallbackShape` state its shape |
| InsightEngine.FallbackKind | services/insight_engine.py:290-337 | the fallback report has the kind the label asks for |
| InsightEngine.BenignFallbackConsistent | services/insight_engine.py:292-300 | the benign fallback's class Moderate agrees with its score 2, though its one factor carries no points |
| InsightEngine.MalignantFallbackShape | services/insight_engine.py:319-337 | the malignant fallback leaves staging to the clinician and has no survival prediction |
| InsightEngine.FallbackFactorDistinct | services/insight_engine.py:95-137 | the fallback's factor never appears in a computed assessment |
| InsightEngine.BenignReportConsistent | services/insight_engine.py:39-50 | within a benign report the factors add up to the score, the class follows the score, and the follow-up is as urgent as the class |
| InsightEngine.MalignantReportConsistent | services/insight_engine.py:66-93 | a malignant report repeats the survival figure in the prognosis and the last next step, and names the early-stage or advanced list by the estimate |
| InsightEngine.MalignantSurvivalInRange | services/insight_engine.py:66-93 | the survival figure shown is between 0 and 100 |

## Left out

- Rounding: `round(x, 1)` of the returned survival figure is not modelled. The model keeps the unrounded real, from which the source also computes the band and the message.
- Image confidence: formatting with `:.1%` is not modelled. The confidence stays a real in the risk assessment and the clinical insights, and the fallback's '85.0%' and '90.0%' are 0.85 and 0.90.
- The fifth next step: the f-string is the value `PredictedSurvival(p)`. Float-to-text formatting is not modelled.
- Logging and the `try`/`except` around both report generators. With string answers and a real confidence, no step of the model can raise, so the fallback is stated as its own function, `FallbackInsights`. Nothing in the model reaches it.
- Patient-map keys: the model keys the patient map by `Feature` and, in the encoding loop, by any key type. The column-name strings are given by `Feature.Column()`, but the model does not prove them distinct.
- Trained columns: these are a parameter. Columns outside the 26 features are not modelled.
- Column order: the frame's column order before `patient_df[feature_columns]` is not modelled. The encoding loop visits the columns as a set. Only the reordered row is specified, and it uses the trained order.
- External pieces taken as parameters:
  - the regressor, its label encoders and the loaded model file, as `ModelData`, with `None` for a missing or unreadable file;
  - a regressor failure, as `None`;
  - `random.uniform(-5, 5)`, as the `noise` parameter bounded to [-5, 5].
- Pandas floats and NaN: no modelled input column carries either, and the regressor's prediction is a real, so a NaN prediction is not modelled.
- Case folding: `lower()` is modelled over ASCII only.
- The pattern tables built in `InsightEngine.__init__`: no method reads them.
- The AI service, `save_uploaded_image`, the configuration and the web routes are not part of this model. Only the question ids of `app.py` and its collection loop are.
- List texts: the entries of the risk-factor, lifestyle, prognosis and next-step lists are enumeration values. Each value's `Text()` gives the string the source stores. The figure in the fifth next step, `Predicted 5-year survival: {p}%`, is not rendered as text.
