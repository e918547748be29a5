/** The insight engine: turns the image label and the questionnaire answers
    into a benign report (risk class, lifestyle advice, follow-up plan) or a
    malignant report (stage estimate, treatment options, prognosis factors and
    the survival prediction).

    The conditional lists the engine builds (risk factors, lifestyle advice,
    positive prognosis factors) hold values of small enumerations here; the
    text the source stores for each entry is that value's `Text()`. */
module InsightEngine {
  import opened Wrappers
  import opened Text
  import opened Questionnaire
  import SurvivalFeatures
  import SurvivalPredictor

  /** `[x]` when the condition holds, nothing otherwise. */
  function IfHolds<T>(holds: bool, x: T): seq<T>
  {
    if holds then [x] else []
  }

  /** `items.extend(xs)` when the condition holds. */
  function ExtendIfHolds<T>(holds: bool, xs: seq<T>): seq<T>
  {
    if holds then xs else []
  }

  /** `if holds: items.append(x)`. */
  method AppendIfHolds<T>(holds: bool, x: T, items: seq<T>) returns (items': seq<T>)
    ensures items' == items + IfHolds(holds, x)
    ensures holds ==> items' == items + [x]
    ensures !holds ==> items' == items
  {
    if holds {
      items' := items + [x];
    } else {
      items' := items;
      assert items + [] == items;
    }
  }

  // ---------------------------------------------------------------------
  // Benign risk
  // ---------------------------------------------------------------------

  /** The entries of `risk_factors`: the conditions `_assess_benign_risk`
      looks for, in the order it checks them, and the placeholder entry of
      the fallback report. */
  datatype RiskFactor = FamilyHistory | OlderAge(ageGroup: string) | PostMenopausal | Obesity | Overweight
                      | StandardAssessment
  {
    /** The points the condition adds, doubled so that the 0.5 of the
        overweight tier stays an integer. */
    function HalfPoints(): nat
    {
      match this
      case FamilyHistory => 4
      case OlderAge(_) => 4
      case PostMenopausal => 2
      case Obesity => 2
      case Overweight => 1
      case StandardAssessment => 0
    }

    /** The entry's text in `risk_factors`. */
    function Text(): string
    {
      match this
      case FamilyHistory => "Family history of breast cancer"
      case OlderAge(a) => "Age group: " + a
      case PostMenopausal => "Post-menopausal status"
      case Obesity => "Obesity (BMI ≥ 30)"
      case Overweight => "Overweight (BMI 25-29.9)"
      case StandardAssessment => "Standard risk assessment"
    }
  }

  /** `any(age in age_group for age in ['50-59', '60-69', '70 and above'])`. */
  predicate OlderAgeGroup(ageGroup: string)
  {
    Contains(ageGroup, "50-59") || Contains(ageGroup, "60-69") || Contains(ageGroup, "70 and above")
  }

  /** What `_assess_benign_risk` reads off the answers. */
  datatype RiskConditions = RiskConditions(
    familyHistory: bool,
    ageGroup: string,
    olderAge: bool,
    postMenopausal: bool,
    obese: bool,
    overweight: bool)

  function RiskConditionsOf(r: Responses): RiskConditions
  {
    var ageGroup := Get(r, "age_group", "");
    var bmi := Get(r, "bmi_category", "");
    RiskConditions(
      Answered(r, "family_history", "Yes"),
      ageGroup,
      OlderAgeGroup(ageGroup),
      Answered(r, "menopausal_status", "Post-menopausal"),
      Contains(bmi, "30 and above"),
      Contains(bmi, "25-29.9"))
  }

  /** The benign risk score in half-points, as a sum of independent terms:
      2 for family history, 2 for an older age group, 1 after menopause,
      and 1 for obesity or else 0.5 for overweight. */
  function RiskHalfPoints(c: RiskConditions): nat
  {
    (if c.familyHistory then 4 else 0)
    + (if c.olderAge then 4 else 0)
    + (if c.postMenopausal then 2 else 0)
    + (if c.obese then 2 else if c.overweight then 1 else 0)
  }

  /** The conditions that hold, in checking order; the overweight tier is
      only looked at when the obesity tier does not hold. */
  function PresentFactors(c: RiskConditions): seq<RiskFactor>
  {
    []
    + IfHolds(c.familyHistory, FamilyHistory)
    + IfHolds(c.olderAge, OlderAge(c.ageGroup))
    + IfHolds(c.postMenopausal, PostMenopausal)
    + IfHolds(c.obese, Obesity)
    + IfHolds(!c.obese && c.overweight, Overweight)
  }

  /** The points a list of conditions adds up to. */
  function TotalHalfPoints(fs: seq<RiskFactor>): nat
  {
    if fs == [] then 0 else TotalHalfPoints(fs[..|fs| - 1]) + fs[|fs| - 1].HalfPoints()
  }

  /** The three risk classes, lowest first. */
  datatype RiskLevel = Low | Moderate | High
  {
    function Name(): string
    {
      match this
      case Low => "Low"
      case Moderate => "Moderate"
      case High => "High"
    }

    function Color(): string
    {
      match this
      case Low => "green"
      case Moderate => "orange"
      case High => "red"
    }

    function Rank(): nat
    {
      match this
      case Low => 0
      case Moderate => 1
      case High => 2
    }
  }

  /** The class of a score given in half-points: at least 3 points is High,
      at least 2 Moderate, anything less Low. */
  function LevelFor(halfPoints: nat): RiskLevel
  {
    if halfPoints >= 6 then High else if halfPoints >= 4 then Moderate else Low
  }

  /** The dictionary `_assess_benign_risk` returns: `risk_level` is
      `level.Name()`, `risk_color` is `level.Color()`, `risk_score` is
      `Score()` and `risk_factors` the texts of `factors`. */
  datatype RiskAssessment = RiskAssessment(
    level: RiskLevel,
    halfPoints: nat,
    factors: seq<RiskFactor>,
    imageConfidence: real)
  {
    function Score(): real
    {
      halfPoints as real / 2.0
    }
  }

  /** One `if` of `_assess_benign_risk`: when the condition holds, its
      points go into the score and its entry into `risk_factors`. */
  method RecordIfHolds(holds: bool, f: RiskFactor, score: nat, factors: seq<RiskFactor>)
    returns (score': nat, factors': seq<RiskFactor>)
    ensures score' == score + (if holds then f.HalfPoints() else 0)
    ensures factors' == factors + IfHolds(holds, f)
  {
    score' := if holds then score + f.HalfPoints() else score;
    factors' := AppendIfHolds(holds, f, factors);
  }

  /** `_assess_benign_risk`: adds up the score and the factors one condition
      at a time, then classifies the score. */
  method AssessBenignRisk(r: Responses, imageConfidence: real) returns (a: RiskAssessment)
    ensures a.halfPoints == RiskHalfPoints(RiskConditionsOf(r))
    ensures a.factors == PresentFactors(RiskConditionsOf(r))
    ensures a.level == LevelFor(a.halfPoints)
    ensures a.imageConfidence == imageConfidence
  {
    var score: nat := 0;
    var factors: seq<RiskFactor> := [];
    score, factors := RecordIfHolds(Answered(r, "family_history", "Yes"), FamilyHistory, score, factors);
    var ageGroup := Get(r, "age_group", "");
    score, factors := RecordIfHolds(OlderAgeGroup(ageGroup), OlderAge(ageGroup), score, factors);
    score, factors := RecordIfHolds(Answered(r, "menopausal_status", "Post-menopausal"), PostMenopausal, score, factors);
    var bmi := Get(r, "bmi_category", "");
    var obese := Contains(bmi, "30 and above");
    score, factors := RecordIfHolds(obese, Obesity, score, factors);
    score, factors := RecordIfHolds(!obese && Contains(bmi, "25-29.9"), Overweight, score, factors);
    a := RiskAssessment(LevelFor(score), score, factors, imageConfidence);
  }

  /** Concatenation adds up. */
  lemma {:induction false} TotalHalfPointsAppend(a: seq<RiskFactor>, b: seq<RiskFactor>)
    ensures TotalHalfPoints(a + b) == TotalHalfPoints(a) + TotalHalfPoints(b)
    decreases |b|
  {
    if b == [] {
      assert a + b == a;
    } else {
      var c := b[..|b| - 1];
      assert (a + b)[..|a + b| - 1] == a + c;
      TotalHalfPointsAppend(a, c);
    }
  }

  /** The points a condition contributes when it holds. */
  lemma IfHoldsPoints(holds: bool, f: RiskFactor)
    ensures TotalHalfPoints(IfHolds(holds, f)) == if holds then f.HalfPoints() else 0
  {
    if holds {
      assert [f][..0] == [];
    }
  }

  /** Each condition that holds adds its own points: the factor list and
      the score tell the same story. */
  lemma FactorsAddUpToScore(c: RiskConditions)
    ensures TotalHalfPoints(PresentFactors(c)) == RiskHalfPoints(c)
  {
    IfHoldsPoints(c.familyHistory, FamilyHistory);
    IfHoldsPoints(c.olderAge, OlderAge(c.ageGroup));
    IfHoldsPoints(c.postMenopausal, PostMenopausal);
    IfHoldsPoints(c.obese, Obesity);
    IfHoldsPoints(!c.obese && c.overweight, Overweight);
    SumOfParts(IfHolds(c.familyHistory, FamilyHistory), IfHolds(c.olderAge, OlderAge(c.ageGroup)),
      IfHolds(c.postMenopausal, PostMenopausal), IfHolds(c.obese, Obesity),
      IfHolds(!c.obese && c.overweight, Overweight));
  }

  /** The points of five lists one after the other. */
  lemma SumOfParts(f1: seq<RiskFactor>, f2: seq<RiskFactor>, f3: seq<RiskFactor>, f4: seq<RiskFactor>, f5: seq<RiskFactor>)
    ensures TotalHalfPoints([] + f1 + f2 + f3 + f4 + f5)
      == TotalHalfPoints(f1) + TotalHalfPoints(f2) + TotalHalfPoints(f3) + TotalHalfPoints(f4) + TotalHalfPoints(f5)
  {
    assert [] + f1 == f1;
    TotalHalfPointsAppend(f1, f2);
    TotalHalfPointsAppend(f1 + f2, f3);
    TotalHalfPointsAppend(f1 + f2 + f3, f4);
    TotalHalfPointsAppend(f1 + f2 + f3 + f4, f5);
  }

  /** Membership in five lists one after the other. */
  lemma InParts<T>(x: T, f1: seq<T>, f2: seq<T>, f3: seq<T>, f4: seq<T>, f5: seq<T>)
    ensures x in [] + f1 + f2 + f3 + f4 + f5 <==> x in f1 || x in f2 || x in f3 || x in f4 || x in f5
  {
  }

  /** `x` is in the optional entry exactly when the entry is there and is `x`. */
  lemma InIfHolds<T>(x: T, holds: bool, y: T)
    ensures x in IfHolds(holds, y) <==> holds && x == y
  {
  }

  /** `risk_factors` gains an entry exactly for each condition that added points. */
  lemma FactorsMatchConditions(c: RiskConditions, x: RiskFactor)
    ensures x in PresentFactors(c) <==>
      || (x == FamilyHistory && c.familyHistory)
      || (x == OlderAge(c.ageGroup) && c.olderAge)
      || (x == PostMenopausal && c.postMenopausal)
      || (x == Obesity && c.obese)
      || (x == Overweight && !c.obese && c.overweight)
  {
    InParts(x, IfHolds(c.familyHistory, FamilyHistory), IfHolds(c.olderAge, OlderAge(c.ageGroup)),
      IfHolds(c.postMenopausal, PostMenopausal), IfHolds(c.obese, Obesity),
      IfHolds(!c.obese && c.overweight, Overweight));
    InIfHolds(x, c.familyHistory, FamilyHistory);
    InIfHolds(x, c.olderAge, OlderAge(c.ageGroup));
    InIfHolds(x, c.postMenopausal, PostMenopausal);
    InIfHolds(x, c.obese, Obesity);
    InIfHolds(x, !c.obese && c.overweight, Overweight);
  }

  /** At most one BMI increment applies, and the placeholder of the fallback
      report is never among the factors. */
  lemma OneBmiIncrement(c: RiskConditions)
    ensures !(Obesity in PresentFactors(c) && Overweight in PresentFactors(c))
    ensures StandardAssessment !in PresentFactors(c)
  {
    FactorsMatchConditions(c, Obesity);
    FactorsMatchConditions(c, Overweight);
    FactorsMatchConditions(c, StandardAssessment);
  }

  /** One entry per condition that holds, so at most four. */
  lemma FactorCount(c: RiskConditions)
    ensures |PresentFactors(c)| ==
      (if c.familyHistory then 1 else 0) + (if c.olderAge then 1 else 0)
      + (if c.postMenopausal then 1 else 0) + (if c.obese || c.overweight then 1 else 0)
    ensures |PresentFactors(c)| <= 4
  {
  }

  /** The score lies in [0, 6] and is 0 exactly when no factor is listed. */
  lemma ScoreRange(c: RiskConditions)
    ensures 0.0 <= RiskHalfPoints(c) as real / 2.0 <= 6.0
    ensures RiskHalfPoints(c) == 0 <==> PresentFactors(c) == []
  {
  }

  /** The class thresholds, on the score itself. */
  lemma LevelThresholds(halfPoints: nat)
    ensures LevelFor(halfPoints) == High <==> halfPoints as real / 2.0 >= 3.0
    ensures LevelFor(halfPoints) == Moderate <==> 2.0 <= halfPoints as real / 2.0 < 3.0
    ensures LevelFor(halfPoints) == Low <==> halfPoints as real / 2.0 < 2.0
  {
  }

  /** A score of 3 is High, 2 is Moderate, 1.5 is Low. */
  lemma LevelBoundaries()
    ensures LevelFor(6) == High && LevelFor(4) == Moderate && LevelFor(3) == Low
  {
  }

  /** The class never drops as the score grows. */
  lemma LevelMonotonic(h: nat, k: nat)
    requires h <= k
    ensures LevelFor(h).Rank() <= LevelFor(k).Rank()
  {
  }

  /** Family history alone reaches Moderate; with an older age group, High;
      and no condition at all means Low. */
  lemma RiskScenarios(c: RiskConditions)
    ensures c.familyHistory ==> LevelFor(RiskHalfPoints(c)).Rank() >= Moderate.Rank()
    ensures c.familyHistory && c.olderAge ==> LevelFor(RiskHalfPoints(c)) == High
    ensures !c.familyHistory && !c.olderAge && !c.postMenopausal && !c.obese && !c.overweight
      ==> LevelFor(RiskHalfPoints(c)) == Low
  {
  }

  /** Family history, menopause and the overweight tier make 3.5 points: High
      even without the age group. */
  lemma OverweightScenario(c: RiskConditions)
    requires !c.obese && c.overweight && c.postMenopausal && c.familyHistory && !c.olderAge
    ensures RiskHalfPoints(c) == 7 && LevelFor(RiskHalfPoints(c)) == High
  {
  }

  // ---------------------------------------------------------------------
  // Benign lifestyle recommendations
  // ---------------------------------------------------------------------

  /** The entries of the lifestyle recommendations, including those of the
      never-taken empty-list alternative and of the fallback report. */
  datatype Advice =
    | QuitSmoking | LimitAlcohol
    | WeightManagement | ExerciseProgram | ConsultNutritionist
    | ModerateWeightLoss | IncreaseActivity | WholeFoods
    | GradualActivity | CardioOptions | StrengthTraining
    | BalancedDiet | LeanProteins | StressManagement | AdequateSleep | StayHydrated
    | MaintainHabits
    | HealthyLifestyle | RegularExercise | LimitAlcoholIntake | AvoidTobacco | MonthlySelfExams
  {
    function Text(): string
    {
      match this
      case QuitSmoking => "Smoking cessation program recommended"
      case LimitAlcohol => "Limit alcohol to 1 drink per day or less"
      case WeightManagement => "Weight management through balanced diet"
      case ExerciseProgram => "Regular exercise program (150+ minutes/week)"
      case ConsultNutritionist => "Consult nutritionist for dietary planning"
      case ModerateWeightLoss => "Moderate weight loss recommended"
      case IncreaseActivity => "Increase physical activity level"
      case WholeFoods => "Focus on whole foods and portion control"
      case GradualActivity => "Gradually increase physical activity to 150 minutes/week"
      case CardioOptions => "Consider walking, swimming, or cycling"
      case StrengthTraining => "Incorporate strength training 2 times/week"
      case BalancedDiet => "Maintain balanced diet rich in fruits and vegetables"
      case LeanProteins => "Include lean proteins and whole grains in diet"
      case StressManagement => "Practice stress management techniques"
      case AdequateSleep => "Get adequate sleep (7-9 hours per night)"
      case StayHydrated => "Stay hydrated with water throughout the day"
      case MaintainHabits => "Maintain current healthy lifestyle habits"
      case HealthyLifestyle => "Maintain healthy lifestyle with balanced diet"
      case RegularExercise => "Regular exercise (150 minutes/week)"
      case LimitAlcoholIntake => "Limit alcohol consumption"
      case AvoidTobacco => "Avoid tobacco products"
      case MonthlySelfExams => "Monthly self-breast exams"
    }
  }

  const ObesityAdvice: seq<Advice> := [WeightManagement, ExerciseProgram, ConsultNutritionist]
  const OverweightAdvice: seq<Advice> := [ModerateWeightLoss, IncreaseActivity, WholeFoods]
  const SedentaryAdvice: seq<Advice> := [GradualActivity, CardioOptions, StrengthTraining]
  const GeneralLifestyle: seq<Advice> := [BalancedDiet, LeanProteins, StressManagement, AdequateSleep, StayHydrated]

  /** What `_get_benign_lifestyle_recommendations` reads off the answers. */
  datatype LifestyleConditions = LifestyleConditions(
    smoker: bool,
    drinker: bool,
    obese: bool,
    overweight: bool,
    sedentary: bool)

  function LifestyleConditionsOf(r: Responses): LifestyleConditions
  {
    var bmi := Get(r, "bmi_category", "");
    LifestyleConditions(
      Answered(r, "smoking", "Yes"),
      Answered(r, "alcohol", "Yes"),
      Contains(bmi, "30 and above"),
      Contains(bmi, "25-29.9"),
      Answered(r, "physical_activity", "Sedentary (little or no exercise)"))
  }

  /** The recommendations: smoking, alcohol, the BMI tier and inactivity in
      that order, then the five general items. */
  function LifestyleAdvice(c: LifestyleConditions): seq<Advice>
  {
    ConditionalAdvice(c) + GeneralLifestyle
  }

  /** The part of the recommendations that depends on the answers. */
  function ConditionalAdvice(c: LifestyleConditions): seq<Advice>
  {
    []
    + IfHolds(c.smoker, QuitSmoking)
    + IfHolds(c.drinker, LimitAlcohol)
    + ExtendIfHolds(c.obese, ObesityAdvice)
    + ExtendIfHolds(!c.obese && c.overweight, OverweightAdvice)
    + ExtendIfHolds(c.sedentary, SedentaryAdvice)
  }

  /** `if holds: items.extend(xs)`. */
  method ExtendIfHoldsInPlace<T>(holds: bool, xs: seq<T>, items: seq<T>) returns (items': seq<T>)
    ensures items' == items + ExtendIfHolds(holds, xs)
    ensures holds ==> items' == items + xs
    ensures !holds ==> items' == items
  {
    if holds {
      items' := items + xs;
    } else {
      items' := items;
      assert items + [] == items;
    }
  }

  /** `_get_benign_lifestyle_recommendations`. */
  method LifestyleRecommendations(r: Responses) returns (recs: seq<Advice>)
    ensures recs == LifestyleAdvice(LifestyleConditionsOf(r))
  {
    recs := [];
    recs := AppendIfHolds(Answered(r, "smoking", "Yes"), QuitSmoking, recs);
    recs := AppendIfHolds(Answered(r, "alcohol", "Yes"), LimitAlcohol, recs);
    var bmi := Get(r, "bmi_category", "");
    var obese := Contains(bmi, "30 and above");
    recs := ExtendIfHoldsInPlace(obese, ObesityAdvice, recs);
    recs := ExtendIfHoldsInPlace(!obese && Contains(bmi, "25-29.9"), OverweightAdvice, recs);
    recs := ExtendIfHoldsInPlace(Answered(r, "physical_activity", "Sedentary (little or no exercise)"), SedentaryAdvice, recs);
    recs := recs + GeneralLifestyle;
    recs := if |recs| > 0 then recs else [MaintainHabits];
  }

  lemma InExtendIfHolds<T>(x: T, holds: bool, xs: seq<T>)
    ensures x in ExtendIfHolds(holds, xs) <==> holds && x in xs
  {
  }

  /** An entry is recommended exactly when the answer that triggers it was given. */
  lemma AdviceMatchesConditions(c: LifestyleConditions, x: Advice)
    ensures x in LifestyleAdvice(c) <==>
      || x in GeneralLifestyle
      || (x == QuitSmoking && c.smoker)
      || (x == LimitAlcohol && c.drinker)
      || (x in ObesityAdvice && c.obese)
      || (x in OverweightAdvice && !c.obese && c.overweight)
      || (x in SedentaryAdvice && c.sedentary)
  {
    InParts(x, IfHolds(c.smoker, QuitSmoking), IfHolds(c.drinker, LimitAlcohol),
      ExtendIfHolds(c.obese, ObesityAdvice), ExtendIfHolds(!c.obese && c.overweight, OverweightAdvice),
      ExtendIfHolds(c.sedentary, SedentaryAdvice));
    InIfHolds(x, c.smoker, QuitSmoking);
    InIfHolds(x, c.drinker, LimitAlcohol);
    InExtendIfHolds(x, c.obese, ObesityAdvice);
    InExtendIfHolds(x, !c.obese && c.overweight, OverweightAdvice);
    InExtendIfHolds(x, c.sedentary, SedentaryAdvice);
  }

  /** Smoking and alcohol advice appear exactly for a "Yes", and so does
      the activity plan for a sedentary answer. */
  lemma HabitAdvice(c: LifestyleConditions)
    ensures QuitSmoking in LifestyleAdvice(c) <==> c.smoker
    ensures LimitAlcohol in LifestyleAdvice(c) <==> c.drinker
    ensures GradualActivity in LifestyleAdvice(c) <==> c.sedentary
  {
    AdviceMatchesConditions(c, QuitSmoking);
    AdviceMatchesConditions(c, LimitAlcohol);
    AdviceMatchesConditions(c, GradualActivity);
  }

  /** At most one BMI tier is advised, and the empty-list alternative is
      never reached. */
  lemma OneWeightPlan(c: LifestyleConditions)
    ensures !(WeightManagement in LifestyleAdvice(c) && ModerateWeightLoss in LifestyleAdvice(c))
    ensures MaintainHabits !in LifestyleAdvice(c)
  {
    AdviceMatchesConditions(c, WeightManagement);
    AdviceMatchesConditions(c, ModerateWeightLoss);
    AdviceMatchesConditions(c, MaintainHabits);
  }

  /** The list always ends with the five general items, and its length
      counts the triggered entries. */
  lemma AdviceShape(c: LifestyleConditions)
    ensures |LifestyleAdvice(c)| ==
      5 + (if c.smoker then 1 else 0) + (if c.drinker then 1 else 0)
        + (if c.obese || c.overweight then 3 else 0) + (if c.sedentary then 3 else 0)
    ensures 5 <= |LifestyleAdvice(c)| <= 13
    ensures LifestyleAdvice(c)[|LifestyleAdvice(c)| - 5..] == GeneralLifestyle
  {
    var pre := ConditionalAdvice(c);
    assert LifestyleAdvice(c)[|pre|..] == GeneralLifestyle;
  }

  lemma FrontParts<T>(p: bool, x: T, q: bool, y: T, f3: seq<T>, f4: seq<T>, f5: seq<T>, g: seq<T>)
    ensures p ==> ([] + IfHolds(p, x) + IfHolds(q, y) + f3 + f4 + f5 + g)[0] == x
    ensures q ==> ([] + IfHolds(p, x) + IfHolds(q, y) + f3 + f4 + f5 + g)[if p then 1 else 0] == y
  {
    var rest := f3 + f4 + f5 + g;
    assert [] + IfHolds(p, x) + IfHolds(q, y) + f3 + f4 + f5 + g == IfHolds(p, x) + IfHolds(q, y) + rest;
  }

  /** The smoking entry, when present, comes first, and the alcohol entry
      follows it. */
  lemma AdviceOrder(c: LifestyleConditions)
    ensures c.smoker ==> LifestyleAdvice(c)[0] == QuitSmoking
    ensures c.drinker ==> LifestyleAdvice(c)[if c.smoker then 1 else 0] == LimitAlcohol
  {
    FrontParts(c.smoker, QuitSmoking, c.drinker, LimitAlcohol,
      ExtendIfHolds(c.obese, ObesityAdvice), ExtendIfHolds(!c.obese && c.overweight, OverweightAdvice),
      ExtendIfHolds(c.sedentary, SedentaryAdvice), GeneralLifestyle);
  }

  // ---------------------------------------------------------------------
  // Benign follow-up plan
  // ---------------------------------------------------------------------

  datatype FollowUpPlan = FollowUpPlan(timeline: string, recommendations: seq<string>)

  /** The three follow-up schedules, from the least to the most urgent. */
  datatype FollowUpTier = RoutineScreening | AnnualScreening | SixMonthFollowUp
  {
    function Plan(): FollowUpPlan
    {
      match this
      case SixMonthFollowUp =>
        FollowUpPlan("6-month follow-up recommended",
          ["Clinical breast exam in 6 months", "Diagnostic mammogram",
           "Consider breast MRI if dense tissue", "Regular self-breast exams monthly"])
      case AnnualScreening =>
        FollowUpPlan("Annual screening recommended",
          ["Clinical breast exam annually", "Screening mammogram yearly",
           "Monthly self-breast exams", "Maintain healthy lifestyle"])
      case RoutineScreening =>
        FollowUpPlan("Routine screening schedule",
          ["Annual screening mammogram", "Clinical breast exam every 1-2 years",
           "Monthly self-breast exams", "Continue healthy habits"])
    }

    function Urgency(): nat
    {
      match this
      case RoutineScreening => 0
      case AnnualScreening => 1
      case SixMonthFollowUp => 2
    }
  }

  /** The schedule `_generate_benign_follow_up` picks for a risk-level name:
      anything other than "High" or "Moderate" gets the routine schedule. */
  function FollowUpTierFor(riskLevel: string): FollowUpTier
  {
    if riskLevel == "High" then SixMonthFollowUp
    else if riskLevel == "Moderate" then AnnualScreening
    else RoutineScreening
  }

  /** `_generate_benign_follow_up`. */
  function BenignFollowUp(riskLevel: string): FollowUpPlan
  {
    FollowUpTierFor(riskLevel).Plan()
  }

  /** Each risk level gets its own schedule, as urgent as the level is high. */
  lemma FollowUpMatchesLevel(l: RiskLevel)
    ensures FollowUpTierFor(l.Name()).Urgency() == l.Rank()
  {
    match l
    case Low => assert l.Name() != "High" && l.Name() != "Moderate";
    case Moderate => assert l.Name() != "High";
    case High =>
  }

  /** A higher score never gets a less urgent schedule. */
  lemma FollowUpNeverRelaxes(h: nat, k: nat)
    requires h <= k
    ensures FollowUpTierFor(LevelFor(h).Name()).Urgency() <= FollowUpTierFor(LevelFor(k).Name()).Urgency()
  {
    LevelMonotonic(h, k);
    FollowUpMatchesLevel(LevelFor(h));
    FollowUpMatchesLevel(LevelFor(k));
  }

  // ---------------------------------------------------------------------
  // Malignant clinical insights
  // ---------------------------------------------------------------------

  datatype StageEstimate = LikelyStageI | LikelyStageII | LikelyStageIIToIII | AssessmentNeeded
  {
    function Label(): string
    {
      match this
      case LikelyStageI => "Likely Stage I"
      case LikelyStageII => "Likely Stage II"
      case LikelyStageIIToIII => "Likely Stage II-III"
      case AssessmentNeeded => "Clinical assessment needed"
    }

    function Color(): string
    {
      match this
      case LikelyStageI => "green"
      case LikelyStageII => "yellow"
      case LikelyStageIIToIII => "orange"
      case AssessmentNeeded => "gray"
    }
  }

  /** The stage rule: size and node answers compared exactly. */
  function EstimateStage(tumorSize: string, lymphNodes: string): StageEstimate
  {
    if tumorSize == "Less than 2 cm" && lymphNodes == "Negative" then LikelyStageI
    else if tumorSize == "2-5 cm" && lymphNodes == "Negative" then LikelyStageII
    else if lymphNodes == "Positive" then LikelyStageIIToIII
    else AssessmentNeeded
  }

  datatype ClinicalInsights = ClinicalInsights(
    stageEstimate: StageEstimate,
    imageConfidence: real,
    nextDiagnostics: seq<string>)

  const NextDiagnostics: seq<string> := ["Confirmatory biopsy", "Breast MRI", "Complete staging workup"]

  /** `_assess_malignant_clinical`: both answers default to 'Not sure'. */
  function AssessMalignantClinical(r: Responses, imageConfidence: real): ClinicalInsights
  {
    ClinicalInsights(
      EstimateStage(Get(r, "tumor_size", "Not sure"), Get(r, "lymph_node_status", "Not sure")),
      imageConfidence,
      NextDiagnostics)
  }

  /** The stage table, each estimate with exactly the answers that give it. */
  lemma StageTable(size: string, nodes: string)
    ensures EstimateStage(size, nodes) == LikelyStageI <==> size == "Less than 2 cm" && nodes == "Negative"
    ensures EstimateStage(size, nodes) == LikelyStageII <==> size == "2-5 cm" && nodes == "Negative"
    ensures EstimateStage(size, nodes) == LikelyStageIIToIII <==> nodes == "Positive"
    ensures EstimateStage(size, nodes) == AssessmentNeeded <==>
      nodes != "Positive" && !(nodes == "Negative" && (size == "Less than 2 cm" || size == "2-5 cm"))
  {
    assert "Positive" != "Negative";
  }

  /** Without a size and a node answer, or with blank ones, the estimate is
      left to the clinician. */
  lemma UnansweredNeedsAssessment(r: Responses, imageConfidence: real)
    requires "tumor_size" !in r || r["tumor_size"] == ""
    requires "lymph_node_status" !in r || r["lymph_node_status"] == ""
    ensures AssessMalignantClinical(r, imageConfidence).stageEstimate == AssessmentNeeded
    ensures AssessMalignantClinical(r, imageConfidence).stageEstimate.Color() == "gray"
  {
    var nodes := Get(r, "lymph_node_status", "Not sure");
    assert nodes == "Not sure" || nodes == "";
    assert nodes != "Positive" && nodes != "Negative";
  }

  // ---------------------------------------------------------------------
  // Malignant treatment options
  // ---------------------------------------------------------------------

  /** The three treatment lists of `_get_malignant_treatments`. */
  datatype TreatmentTier = EarlyStageTreatment | StageTwoTreatment | AdvancedTreatment
  {
    function Options(): seq<string>
    {
      match this
      case EarlyStageTreatment =>
        ["Surgery (Lumpectomy or Mastectomy)",
         "Radiation therapy typically after lumpectomy",
         "Possible chemotherapy based on tumor characteristics",
         "Hormone therapy if hormone receptor positive"]
      case StageTwoTreatment =>
        ["Surgery (Lumpectomy with radiation or Mastectomy)",
         "Chemotherapy typically recommended",
         "Radiation therapy if lumpectomy performed",
         "Targeted therapy if HER2 positive",
         "Hormone therapy if hormone receptor positive"]
      case AdvancedTreatment =>
        ["Neoadjuvant chemotherapy to shrink tumor before surgery",
         "Surgery (Mastectomy typically recommended)",
         "Radiation therapy after surgery",
         "Adjuvant systemic therapy",
         "Targeted therapies based on biomarker testing"]
    }
  }

  /** The substring tests on the stage label, in the source's order. */
  function TreatmentTierFor(stageEstimate: string): TreatmentTier
  {
    if Contains(stageEstimate, "Stage I") then EarlyStageTreatment
    else if Contains(stageEstimate, "Stage II") then StageTwoTreatment
    else AdvancedTreatment
  }

  /** `_get_malignant_treatments`. */
  function MalignantTreatments(stageEstimate: string): seq<string>
  {
    TreatmentTierFor(stageEstimate).Options()
  }

  /** "Stage I" is a prefix of "Stage II", so the first test catches every
      label the second would: the Stage II list is never chosen. */
  lemma StageTwoListUnreachable(stageEstimate: string)
    ensures TreatmentTierFor(stageEstimate) != StageTwoTreatment
  {
    if Contains(stageEstimate, "Stage II") {
      ContainsPrefix(stageEstimate, "Stage II", "Stage I");
    }
  }

  /** The estimates the clinical step produces: every staged estimate gets
      the early-stage list (Stage II and II-III included), the unstaged one
      the advanced list. */
  lemma EstimateTreatments(e: StageEstimate)
    ensures TreatmentTierFor(e.Label()) == if e == AssessmentNeeded then AdvancedTreatment else EarlyStageTreatment
  {
    if e == AssessmentNeeded {
      assert e.Label() == "Clinical assessment needed";
      UnstagedLabelTier();
    } else {
      StagedLabelsMentionStageI(e);
    }
  }

  lemma UnstagedLabelTier()
    ensures TreatmentTierFor("Clinical assessment needed") == AdvancedTreatment
  {
    assert 'S' !in "Clinical assessment needed";
    TierWithoutCapitalS("Clinical assessment needed");
  }

  /** A label without an 'S' mentions no stage. */
  lemma TierWithoutCapitalS(text: string)
    requires 'S' !in text
    ensures TreatmentTierFor(text) == AdvancedTreatment
  {
    AbsentFirstChar(text, "Stage I");
    AbsentFirstChar(text, "Stage II");
  }

  lemma StagedLabelsMentionStageI(e: StageEstimate)
    requires e != AssessmentNeeded
    ensures Contains(e.Label(), "Stage I")
  {
    var text := e.Label();
    assert text[7..14] == "Stage I" by {
      match e
      case LikelyStageI => assert text == "Likely Stage I";
      case LikelyStageII => assert text == "Likely Stage II";
      case LikelyStageIIToIII => assert text == "Likely Stage II-III";
    }
    ContainsAt(text, "Stage I", 7);
  }

  // ---------------------------------------------------------------------
  // Malignant prognosis indicators
  // ---------------------------------------------------------------------

  /** The positive prognosis factors, and the single one of the fallback report. */
  datatype PositiveFactor = NoFamilyHistory | YoungerAge | EarlySymptoms | SmallTumor | NodeNegative | EarlyDetection
  {
    function Text(): string
    {
      match this
      case NoFamilyHistory => "No family history of breast cancer"
      case YoungerAge => "Younger age group (better treatment tolerance)"
      case EarlySymptoms => "Early symptom recognition"
      case SmallTumor => "Small tumor size"
      case NodeNegative => "No lymph node involvement indicated"
      case EarlyDetection => "Early detection improves outcomes"
    }
  }

  /** What `_assess_malignant_prognosis` reads off the answers. */
  datatype PrognosisConditions = PrognosisConditions(
    noFamilyHistory: bool,
    youngerAge: bool,
    earlySymptoms: bool,
    smallTumor: bool,
    nodeNegative: bool)

  /** Age group and tumour size default to '' and are tested by substring;
      the other three answers are compared exactly. */
  function PrognosisConditionsOf(r: Responses): PrognosisConditions
  {
    var age := Get(r, "age_group", "");
    PrognosisConditions(
      Answered(r, "family_history", "No"),
      Contains(age, "30-39") || Contains(age, "40-49"),
      Answered(r, "symptoms_duration", "Less than 1 month"),
      Contains(Get(r, "tumor_size", ""), "Less than 2 cm"),
      Answered(r, "lymph_node_status", "Negative"))
  }

  /** The positive factors, in the order the source tests them. */
  function PositiveFactors(c: PrognosisConditions): seq<PositiveFactor>
  {
    []
    + IfHolds(c.noFamilyHistory, NoFamilyHistory)
    + IfHolds(c.youngerAge, YoungerAge)
    + IfHolds(c.earlySymptoms, EarlySymptoms)
    + IfHolds(c.smallTumor, SmallTumor)
    + IfHolds(c.nodeNegative, NodeNegative)
  }

  datatype PrognosisIndicators = PrognosisIndicators(
    positiveFactors: seq<PositiveFactor>,
    survivalPercentage: real,
    survivalConfidence: string,
    survivalMessage: string,
    recommendation: string)

  const PrognosisRecommendation := "Early detection and comprehensive treatment significantly improve outcomes"

  /** `_assess_malignant_prognosis`: the factor list, then the survival
      prediction's figure, band and message copied through. */
  method AssessMalignantPrognosis(r: Responses, survival: SurvivalPredictor.SurvivalPrediction)
    returns (p: PrognosisIndicators)
    ensures p.positiveFactors == PositiveFactors(PrognosisConditionsOf(r))
    ensures p.survivalPercentage == survival.percentage
    ensures p.survivalConfidence == survival.confidence.Name()
    ensures p.survivalMessage == survival.message
    ensures p.recommendation == PrognosisRecommendation
  {
    var factors: seq<PositiveFactor> := [];
    factors := AppendIfHolds(Answered(r, "family_history", "No"), NoFamilyHistory, factors);
    var age := Get(r, "age_group", "");
    factors := AppendIfHolds(Contains(age, "30-39") || Contains(age, "40-49"), YoungerAge, factors);
    factors := AppendIfHolds(Answered(r, "symptoms_duration", "Less than 1 month"), EarlySymptoms, factors);
    factors := AppendIfHolds(Contains(Get(r, "tumor_size", ""), "Less than 2 cm"), SmallTumor, factors);
    factors := AppendIfHolds(Answered(r, "lymph_node_status", "Negative"), NodeNegative, factors);
    p := PrognosisIndicators(factors, survival.percentage, survival.confidence.Name(), survival.message,
      PrognosisRecommendation);
  }

  /** A factor is listed exactly when its answer was given. */
  lemma PositiveFactorsMatchConditions(c: PrognosisConditions, x: PositiveFactor)
    ensures x in PositiveFactors(c) <==>
      || (x == NoFamilyHistory && c.noFamilyHistory)
      || (x == YoungerAge && c.youngerAge)
      || (x == EarlySymptoms && c.earlySymptoms)
      || (x == SmallTumor && c.smallTumor)
      || (x == NodeNegative && c.nodeNegative)
  {
    InParts(x, IfHolds(c.noFamilyHistory, NoFamilyHistory), IfHolds(c.youngerAge, YoungerAge),
      IfHolds(c.earlySymptoms, EarlySymptoms), IfHolds(c.smallTumor, SmallTumor),
      IfHolds(c.nodeNegative, NodeNegative));
    InIfHolds(x, c.noFamilyHistory, NoFamilyHistory);
    InIfHolds(x, c.youngerAge, YoungerAge);
    InIfHolds(x, c.earlySymptoms, EarlySymptoms);
    InIfHolds(x, c.smallTumor, SmallTumor);
    InIfHolds(x, c.nodeNegative, NodeNegative);
  }

  /** At most five factors, never the fallback's. */
  lemma PositiveFactorBounds(c: PrognosisConditions)
    ensures |PositiveFactors(c)| <= 5
    ensures EarlyDetection !in PositiveFactors(c)
  {
    PositiveFactorsMatchConditions(c, EarlyDetection);
  }

  /** The malignant questionnaire has no symptom-duration question, so
      answers collected from it never yield the early-symptom factor. */
  lemma NoSymptomFactorFromQuestionnaire(r: Responses)
    requires CollectedFrom(r, MalignantQuestions)
    ensures EarlySymptoms !in PositiveFactors(PrognosisConditionsOf(r))
  {
    assert "symptoms_duration" !in MalignantQuestions;
    NotCollected(r, MalignantQuestions, "symptoms_duration");
    PositiveFactorsMatchConditions(PrognosisConditionsOf(r), EarlySymptoms);
  }

  /** A small tumour answered exactly as in the clinical step is also a
      positive factor, and a negative node status is one whenever the
      clinical step staged the case by it. */
  lemma StagedFactorsArePositive(r: Responses)
    requires "tumor_size" in r && "lymph_node_status" in r
    ensures var e := EstimateStage(r["tumor_size"], r["lymph_node_status"]);
      (e == LikelyStageI || e == LikelyStageII) ==> NodeNegative in PositiveFactors(PrognosisConditionsOf(r))
    ensures r["tumor_size"] == "Less than 2 cm" ==> SmallTumor in PositiveFactors(PrognosisConditionsOf(r))
  {
    var c := PrognosisConditionsOf(r);
    StageTable(r["tumor_size"], r["lymph_node_status"]);
    PositiveFactorsMatchConditions(c, NodeNegative);
    PositiveFactorsMatchConditions(c, SmallTumor);
    if r["tumor_size"] == "Less than 2 cm" {
      ContainsSelf("Less than 2 cm");
    }
  }

  // ---------------------------------------------------------------------
  // Reports
  // ---------------------------------------------------------------------

  /** The malignant next steps; the last one carries the predicted figure. */
  datatype NextStep =
    | ConsultSurgeonAndOncologist | DiagnosticImaging | ScheduleBiopsy | TeamEvaluation
    | PredictedSurvival(percentage: real)
    | ConsultOncologist | DiagnosticWorkup
  {
    /** The step's text; the figure of `PredictedSurvival` is rendered by
        the source's f-string, which is not modelled. */
    function Text(): string
    {
      match this
      case ConsultSurgeonAndOncologist => "Consult with breast surgeon and oncologist"
      case DiagnosticImaging => "Complete diagnostic imaging (MRI, ultrasound)"
      case ScheduleBiopsy => "Schedule biopsy for confirmation"
      case TeamEvaluation => "Multidisciplinary team evaluation"
      case PredictedSurvival(_) => "Predicted 5-year survival: "
      case ConsultOncologist => "Consult with oncologist"
      case DiagnosticWorkup => "Complete diagnostic workup"
    }
  }

  /** The two report shapes; the constructor is the report's 'type'. The
      malignant fallback carries no survival prediction. */
  datatype InsightReport =
    | BenignReport(
        riskAssessment: RiskAssessment,
        lifestyleRecommendations: seq<Advice>,
        followUpPlan: FollowUpPlan,
        generalAdvice: seq<string>)
    | MalignantReport(
        clinicalInsights: ClinicalInsights,
        treatmentRecommendations: seq<string>,
        prognosisIndicators: PrognosisIndicators,
        survivalPrediction: Option<SurvivalPredictor.SurvivalPrediction>,
        nextSteps: seq<NextStep>)

  const GeneralAdvice: seq<string> := [
    "Continue monthly self-breast examinations",
    "Maintain healthy body weight through balanced diet",
    "Engage in regular physical activity (150 minutes/week)",
    "Limit alcohol consumption to 1 drink per day or less",
    "Avoid smoking and secondhand smoke exposure",
    "Report any breast changes to your doctor immediately",
    "Attend all scheduled screening appointments",
    "Consider genetic counseling if strong family history"]

  /** The benign report as a function of the answers and the image confidence. */
  function BenignInsights(r: Responses, imageConfidence: real): InsightReport
  {
    var c := RiskConditionsOf(r);
    var risk := RiskAssessment(LevelFor(RiskHalfPoints(c)), RiskHalfPoints(c), PresentFactors(c), imageConfidence);
    BenignReport(risk, LifestyleAdvice(LifestyleConditionsOf(r)), BenignFollowUp(risk.level.Name()), GeneralAdvice)
  }

  /** The malignant report as a function of the answers, the image
      confidence, the survival predictor and the noise its mock would draw. */
  function MalignantInsights(r: Responses, imageConfidence: real, predictor: SurvivalPredictor.Predictor, noise: real): InsightReport
    requires -5.0 <= noise <= 5.0
  {
    MalignantReportWith(r, imageConfidence,
      SurvivalPredictor.SurvivalResult(predictor, SurvivalFeatures.MapQuestionnaireToSurvivalFeatures(r), noise))
  }

  /** The malignant report once the survival prediction is known. */
  function MalignantReportWith(r: Responses, imageConfidence: real, survival: SurvivalPredictor.SurvivalPrediction): InsightReport
  {
    var clinical := AssessMalignantClinical(r, imageConfidence);
    MalignantReport(
      clinical,
      MalignantTreatments(clinical.stageEstimate.Label()),
      PrognosisIndicators(PositiveFactors(PrognosisConditionsOf(r)), survival.percentage,
        survival.confidence.Name(), survival.message, PrognosisRecommendation),
      Some(survival),
      [ConsultSurgeonAndOncologist, DiagnosticImaging, ScheduleBiopsy, TeamEvaluation,
       PredictedSurvival(survival.percentage)])
  }

  /** `_generate_benign_insights`. */
  method GenerateBenignInsights(r: Responses, imageConfidence: real) returns (report: InsightReport)
    ensures report == BenignInsights(r, imageConfidence)
  {
    var risk := AssessBenignRisk(r, imageConfidence);
    var lifestyle := LifestyleRecommendations(r);
    report := BenignReport(risk, lifestyle, BenignFollowUp(risk.level.Name()), GeneralAdvice);
  }

  /** `_generate_malignant_insights`. */
  method GenerateMalignantInsights(r: Responses, imageConfidence: real, predictor: SurvivalPredictor.Predictor, noise: real)
    returns (report: InsightReport)
    requires -5.0 <= noise <= 5.0
    ensures report == MalignantInsights(r, imageConfidence, predictor, noise)
  {
    var features := SurvivalFeatures.MapQuestionnaireToSurvivalFeatures(r);
    var survival := SurvivalPredictor.PredictSurvival(predictor, features, noise);
    var clinical := AssessMalignantClinical(r, imageConfidence);
    var treatments := MalignantTreatments(clinical.stageEstimate.Label());
    var prognosis := AssessMalignantPrognosis(r, survival);
    report := MalignantReport(clinical, treatments, prognosis, Some(survival),
      [ConsultSurgeonAndOncologist, DiagnosticImaging, ScheduleBiopsy, TeamEvaluation,
       PredictedSurvival(survival.percentage)]);
  }

  /** `generate_insights`: the label "benign" selects the benign report, any
      other label the malignant one. */
  method GenerateInsights(predictionType: string, r: Responses, imageConfidence: real,
                          predictor: SurvivalPredictor.Predictor, noise: real)
    returns (report: InsightReport)
    requires -5.0 <= noise <= 5.0
    ensures report.BenignReport? <==> predictionType == "benign"
    ensures predictionType == "benign" ==> report == BenignInsights(r, imageConfidence)
    ensures predictionType != "benign" ==> report == MalignantInsights(r, imageConfidence, predictor, noise)
  {
    if predictionType == "benign" {
      report := GenerateBenignInsights(r, imageConfidence);
    } else {
      report := GenerateMalignantInsights(r, imageConfidence, predictor, noise);
    }
  }

  const BenignFallback: InsightReport := BenignReport(
    RiskAssessment(Moderate, 4, [StandardAssessment], 0.85),
    [HealthyLifestyle, RegularExercise, LimitAlcoholIntake, AvoidTobacco, MonthlySelfExams],
    FollowUpPlan("Annual screening recommended", ["Clinical breast exam", "Screening mammogram"]),
    ["Consult with healthcare provider for personalized medical advice",
     "Maintain regular screening schedule",
     "Report any changes in breast tissue promptly"])

  const MalignantFallback: InsightReport := MalignantReport(
    ClinicalInsights(AssessmentNeeded, 0.90, ["Consult with specialist for complete evaluation"]),
    ["Specialist consultation required for treatment planning"],
    PrognosisIndicators([EarlyDetection], 75.0, "medium",
      "Comprehensive evaluation needed for accurate prognosis",
      "Comprehensive medical evaluation needed"),
    None,
    [ConsultOncologist, DiagnosticWorkup, TeamEvaluation])

  /** `_get_fallback_insights`. */
  function FallbackInsights(predictionType: string): InsightReport
  {
    if predictionType == "benign" then BenignFallback else MalignantFallback
  }

  /** The fallback report has the shape the label asks for. */
  lemma FallbackKind(predictionType: string)
    ensures FallbackInsights(predictionType).BenignReport? <==> predictionType == "benign"
  {
    assert BenignFallback.BenignReport? && MalignantFallback.MalignantReport?;
  }

  /** The benign fallback's risk class agrees with its own score (2 points,
      Moderate), though its one listed factor weighs nothing. */
  lemma BenignFallbackConsistent()
    ensures BenignFallback.BenignReport?
    ensures BenignFallback.riskAssessment.level == LevelFor(BenignFallback.riskAssessment.halfPoints)
    ensures TotalHalfPoints(BenignFallback.riskAssessment.factors) != BenignFallback.riskAssessment.halfPoints
  {
    assert BenignFallback.riskAssessment.factors == [StandardAssessment];
    assert TotalHalfPoints([StandardAssessment]) == 0 by {
      assert [StandardAssessment] == [] + [StandardAssessment];
    }
  }

  /** The malignant fallback leaves the stage to the clinician and carries
      no survival prediction. */
  lemma MalignantFallbackShape()
    ensures MalignantFallback.MalignantReport?
    ensures MalignantFallback.clinicalInsights.stageEstimate == AssessmentNeeded
    ensures MalignantFallback.survivalPrediction.None?
  {
  }

  /** The fallback's risk factor is one the assessment never lists, so a
      report showing it can only be the fallback. */
  lemma FallbackFactorDistinct(r: Responses, imageConfidence: real)
    ensures StandardAssessment in BenignFallback.riskAssessment.factors
    ensures StandardAssessment !in BenignInsights(r, imageConfidence).riskAssessment.factors
  {
    OneBmiIncrement(RiskConditionsOf(r));
  }

  /** The benign report is internally consistent: the listed factors add up
      to the score, the class follows the score, and the follow-up is as
      urgent as the class is high. */
  lemma BenignReportConsistent(r: Responses, imageConfidence: real)
    ensures var a := BenignInsights(r, imageConfidence).riskAssessment;
      TotalHalfPoints(a.factors) == a.halfPoints && a.level == LevelFor(a.halfPoints)
    ensures var b := BenignInsights(r, imageConfidence);
      b.followUpPlan == FollowUpTierFor(b.riskAssessment.level.Name()).Plan()
      && FollowUpTierFor(b.riskAssessment.level.Name()).Urgency() == b.riskAssessment.level.Rank()
    ensures BenignInsights(r, imageConfidence).riskAssessment.imageConfidence == imageConfidence
  {
    var c := RiskConditionsOf(r);
    FactorsAddUpToScore(c);
    FollowUpMatchesLevel(LevelFor(RiskHalfPoints(c)));
  }

  /** The malignant report repeats the survival figure in the prognosis and
      the last next step, and its treatment list is the early-stage one
      exactly when a stage was estimated. */
  lemma MalignantReportConsistent(r: Responses, imageConfidence: real, survival: SurvivalPredictor.SurvivalPrediction)
    ensures var m := MalignantReportWith(r, imageConfidence, survival);
      && m.survivalPrediction == Some(survival)
      && m.prognosisIndicators.survivalPercentage == survival.percentage
      && m.nextSteps[|m.nextSteps| - 1] == PredictedSurvival(survival.percentage)
    ensures var m := MalignantReportWith(r, imageConfidence, survival);
      m.treatmentRecommendations ==
        if m.clinicalInsights.stageEstimate == AssessmentNeeded then AdvancedTreatment.Options()
        else EarlyStageTreatment.Options()
  {
    EstimateTreatments(AssessMalignantClinical(r, imageConfidence).stageEstimate);
  }

  /** The survival figure the malignant report shows is a percentage. */
  lemma MalignantSurvivalInRange(r: Responses, imageConfidence: real, predictor: SurvivalPredictor.Predictor, noise: real)
    requires -5.0 <= noise <= 5.0
    ensures var m := MalignantInsights(r, imageConfidence, predictor, noise);
      0.0 <= m.prognosisIndicators.survivalPercentage <= 100.0
  {
    var survival := SurvivalPredictor.SurvivalResult(predictor, SurvivalFeatures.MapQuestionnaireToSurvivalFeatures(r), noise);
    MalignantReportConsistent(r, imageConfidence, survival);
  }
}
