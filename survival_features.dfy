/** The translation of questionnaire answers into the 26 feature columns
    of the survival regressor. Each column is computed by one independent
    rule: a lookup table with a default, or a copy of the answer with a
    default for a missing question. */
module SurvivalFeatures {
  import opened Wrappers
  import opened Questionnaire

  /** The feature columns, in the order the mapper inserts them. */
  datatype Feature =
    | Age
    | Ethnicity
    | MaritalStatus
    | FamilyHistory
    | Menopausal
    | OtherConditions
    | Stage
    | TumorSize
    | TumorType
    | TumorGrade
    | TumorStage
    | LymphNodes
    | Estrogen
    | Progesterone
    | Her2
    | DiagnosisToTreatment
    | Recurrence
    | TreatmentType
    | TreatmentDuration
    | TreatmentStatus
    | FollowUp
    | Smoking
    | Alcohol
    | Activity
    | Bmi
    | Health
  {
    /** The column name, spelled as the regressor was trained on it
        (most names end in a space; the BMI column does not). */
    function Column(): string
    {
      match this
      case Age => "Age (in years): "
      case Ethnicity => "Ethnicity"
      case MaritalStatus => "Marital Status"
      case FamilyHistory => "Family History of Breast Cancer: "
      case Menopausal => "Menopausal Status: "
      case OtherConditions => "Other Chronic Conditions (check all that apply): "
      case Stage => "Stage of Breast Cancer at Diagnosis (if applicable): "
      case TumorSize => "Tumor Size: "
      case TumorType => "Tumor Type: "
      case TumorGrade => "Tumor Grade: "
      case TumorStage => "Tumor Stage: "
      case LymphNodes => "Lymph Node Status: "
      case Estrogen => "Estrogen Receptor (ER) Status: "
      case Progesterone => "Progesterone Receptor (PR) Status: "
      case Her2 => "Human Epidermal Growth Factor Receptor 2 (HER2) Status: "
      case DiagnosisToTreatment => "Duration from Diagnosis to Commencement of Treatment: "
      case Recurrence => "Have you experienced a recurrence of breast cancer? "
      case TreatmentType => "Type of Treatment Received (check all that apply): "
      case TreatmentDuration => "Duration of Treatment: "
      case TreatmentStatus => "Current Treatment Status: "
      case FollowUp => "How often do you attend follow-up appointments? "
      case Smoking => "Do you smoke? "
      case Alcohol => "Do you consume alcohol? "
      case Activity => "Physical Activity Level: "
      case Bmi => "Body Mass Index (BMI) (if known):"
      case Health => "Current Health Status (self-assessed): "
    }

  }

  const AllFeatures: set<Feature> :=
    {Age, Ethnicity, MaritalStatus, FamilyHistory, Menopausal, OtherConditions, Stage, TumorSize,
     TumorType, TumorGrade, TumorStage, LymphNodes, Estrogen, Progesterone, Her2,
     DiagnosisToTreatment, Recurrence, TreatmentType, TreatmentDuration, TreatmentStatus,
     FollowUp, Smoking, Alcohol, Activity, Bmi, Health}

  lemma AllFeaturesComplete(f: Feature)
    ensures f in AllFeatures
  {
  }

  /** A dictionary literal of the mapper, as its entries in written order. */
  datatype Table = End | Entry(key: string, value: string, rest: Table)
  {
    function Keys(): set<string>
    {
      match this
      case End => {}
      case Entry(k, _, rest) => {k} + rest.Keys()
    }

    function Pairs(): set<(string, string)>
    {
      match this
      case End => {}
      case Entry(k, v, rest) => {(k, v)} + rest.Pairs()
    }

    /** Every entry maps its answer to itself, unless the answer is an unsure one. */
    predicate KeepsListedAnswers()
    {
      match this
      case End => true
      case Entry(k, v, rest) => (v == k || k in UnsureAnswers) && rest.KeepsListedAnswers()
    }

    /** No entry is keyed by the empty answer. */
    predicate NoEmptyKey()
    {
      match this
      case End => true
      case Entry(k, _, rest) => |k| > 0 && rest.NoEmptyKey()
    }
  }

  /** `table.get(key)`: the value the dictionary holds for `key`, if any. */
  function Find(table: Table, key: string): (v: Option<string>)
    ensures v.None? <==> key !in table.Keys()
    ensures v.Some? ==> (key, v.value) in table.Pairs()
  {
    match table
    case End => None
    case Entry(k, x, rest) => if k == key then Some(x) else Find(rest, key)
  }

  /** How one column is computed from the responses.
      Lookup: `table.get(responses.get(question, absent), fallback)`.
      Copy:   `responses.get(question, absent)`. */
  datatype Rule =
    | Lookup(question: string, absent: string, table: Table, fallback: string)
    | Copy(question: string, absent: string)

  function Apply(rule: Rule, r: Responses): string
  {
    match rule
    case Lookup(q, absent, table, fallback) =>
      var v := Find(table, Get(r, q, absent));
      if v.Some? then v.value else fallback
    case Copy(q, absent) => Get(r, q, absent)
  }

  const Stages: set<string> := {"Stage I", "Stage II", "Stage III", "Stage IV"}

  /** Shared by the two stage columns. */
  const StageTable: Table :=
    Entry("Stage I", "Stage I",
    Entry("Stage II", "Stage II",
    Entry("Stage III", "Stage III",
    Entry("Stage IV", "Stage IV",
    Entry("Not sure", "Stage II", End)))))

  /** Shared by the three receptor columns. */
  const ReceptorTable: Table :=
    Entry("Positive", "Positive",
    Entry("Negative", "Negative",
    Entry("Not sure", "Unknown", End)))

  const NormalWeight := "18.5-24.9 (Normal weight)"
  const ModeratelyActive := "Moderately active (moderate exercise/sports 3-5 days/week)"
  const Ductal := "Invasive Ductal Carcinoma (IDC)"
  const GradeTwo := "Grade 2 (Moderately differentiated)"

  const AgeTable: Table :=
    Entry("Under 30", "Under 30",
    Entry("30-39", "30-39",
    Entry("40-49", "40-49",
    Entry("50-59", "50-59",
    Entry("60-69", "60-69",
    Entry("70 and above", "70 and above", End))))))

  const MenopausalTable: Table :=
    Entry("Pre-menopausal", "Pre-menopausal",
    Entry("Peri-menopausal", "Peri-menopausal",
    Entry("Post-menopausal", "Post-menopausal", End)))

  const TumorSizeTable: Table :=
    Entry("Not sure", "2-5 cm",
    Entry("Less than 2 cm", "Less than 2 cm",
    Entry("2-5 cm", "2-5 cm",
    Entry("Greater than 5 cm", "Greater than 5 cm", End))))

  const TumorTypeTable: Table :=
    Entry(Ductal, Ductal,
    Entry("Invasive Lobular Carcinoma (ILC)", "Invasive Lobular Carcinoma (ILC)",
    Entry("Ductal Carcinoma In Situ (DCIS)", "Ductal Carcinoma In Situ (DCIS)",
    Entry("Other", "Other",
    Entry("Not sure", Ductal, End)))))

  const TumorGradeTable: Table :=
    Entry("Grade 1 (Well-differentiated)", "Grade 1 (Well-differentiated)",
    Entry(GradeTwo, GradeTwo,
    Entry("Grade 3 (Poorly differentiated)", "Grade 3 (Poorly differentiated)",
    Entry("Not sure", GradeTwo, End))))

  const LymphNodeTable: Table :=
    Entry("Not sure", "Unknown",
    Entry("Positive", "Positive",
    Entry("Negative", "Negative", End)))

  const DiagnosisDelayTable: Table :=
    Entry("Less than 1 month", "Less than 1 month",
    Entry("1-3 months", "1-3 months",
    Entry("3-6 months", "3-6 months",
    Entry("Over 6 months", "Over 6 months", End))))

  const TreatmentTypeTable: Table :=
    Entry("Surgery", "Surgery",
    Entry("Chemotherapy", "Chemotherapy",
    Entry("Radiation therapy", "Radiation therapy",
    Entry("Hormone therapy", "Hormone therapy",
    Entry("Targeted therapy", "Targeted therapy",
    Entry("Not started treatment yet", "None", End))))))

  const TreatmentDurationTable: Table :=
    Entry("Less than 3 months", "Less than 3 months",
    Entry("3-6 months", "3-6 months",
    Entry("6-12 months", "6-12 months",
    Entry("Over 12 months", "Over 12 months",
    Entry("Not applicable", "Not applicable", End)))))

  const TreatmentStatusTable: Table :=
    Entry("Ongoing", "Ongoing",
    Entry("Completed", "Completed",
    Entry("Not started", "Not started", End)))

  const FollowUpTable: Table :=
    Entry("Every month", "Every month",
    Entry("Every 3 months", "Every 3 months",
    Entry("Every 6 months", "Every 6 months",
    Entry("Yearly", "Yearly",
    Entry("Not regularly", "Not regularly", End)))))

  const ActivityTable: Table :=
    Entry("Sedentary (little or no exercise)", "Sedentary (little or no exercise)",
    Entry("Lightly active (light exercise/sports 1-3 days/week)", "Lightly active (light exercise/sports 1-3 days/week)",
    Entry(ModeratelyActive, ModeratelyActive,
    Entry("Very active (hard exercise/sports 6-7 days a week)", "Very active (hard exercise/sports 6-7 days a week)", End))))

  const BmiTable: Table :=
    Entry("Below 18.5 (Underweight)", "Below 18.5 (Underweight)",
    Entry(NormalWeight, NormalWeight,
    Entry("25-29.9 (Overweight)", "25-29.9 (Overweight)",
    Entry("30 and above (Obese)", "30 and above (Obese)",
    Entry("Not sure", NormalWeight, End)))))

  const HealthTable: Table :=
    Entry("Excellent", "Excellent",
    Entry("Good", "Good",
    Entry("Fair", "Fair",
    Entry("Poor", "Poor", End))))

  /** The rule for each column, one per statement of the mapper. */
  function RuleFor(f: Feature): Rule
  {
    match f
    case Age => Lookup("age_group", "40-49", AgeTable, "40-49")
    case Ethnicity => Copy("ethnicity", "Unknown")
    case MaritalStatus => Copy("marital_status", "Unknown")
    case FamilyHistory => Copy("family_history", "No")
    case Menopausal => Lookup("menopausal_status", "Pre-menopausal", MenopausalTable, "Pre-menopausal")
    // The source's if/else on 'None' yields the answer on both branches.
    case OtherConditions => Copy("other_conditions", "None")
    case Stage => Lookup("cancer_stage", "Not sure", StageTable, "Stage II")
    case TumorSize => Lookup("tumor_size", "Not sure", TumorSizeTable, "2-5 cm")
    case TumorType => Lookup("tumor_type", "Not sure", TumorTypeTable, Ductal)
    case TumorGrade => Lookup("tumor_grade", "Not sure", TumorGradeTable, GradeTwo)
    case TumorStage => Lookup("cancer_stage", "Not sure", StageTable, "Stage II")
    case LymphNodes => Lookup("lymph_node_status", "Not sure", LymphNodeTable, "Unknown")
    case Estrogen => Lookup("er_status", "Not sure", ReceptorTable, "Unknown")
    case Progesterone => Lookup("pr_status", "Not sure", ReceptorTable, "Unknown")
    case Her2 => Lookup("her2_status", "Not sure", ReceptorTable, "Unknown")
    case DiagnosisToTreatment => Lookup("diagnosis_to_treatment", "1-3 months", DiagnosisDelayTable, "1-3 months")
    case Recurrence => Copy("recurrence", "No")
    case TreatmentType => Lookup("treatment_types", "Not started treatment yet", TreatmentTypeTable, "None")
    case TreatmentDuration => Lookup("treatment_duration", "Not applicable", TreatmentDurationTable, "Not applicable")
    case TreatmentStatus => Lookup("treatment_status", "Not started", TreatmentStatusTable, "Not started")
    case FollowUp => Lookup("follow_up_frequency", "Every 3 months", FollowUpTable, "Every 3 months")
    case Smoking => Copy("smoking", "No")
    case Alcohol => Copy("alcohol", "No")
    case Activity => Lookup("physical_activity", ModeratelyActive, ActivityTable, ModeratelyActive)
    case Bmi => Lookup("bmi_category", "Not sure", BmiTable, NormalWeight)
    case Health => Lookup("current_health", "Good", HealthTable, "Good")
  }

  /** `map_questionnaire_to_survival_features`: total over every response map,
      every column computed by its own rule. */
  function MapQuestionnaireToSurvivalFeatures(r: Responses): (m: map<Feature, string>)
    ensures m.Keys == AllFeatures
    ensures forall f :: f in m ==> m[f] == Apply(RuleFor(f), r)
  {
    map f | f in AllFeatures :: Apply(RuleFor(f), r)
  }

  /** The two answers a table rewrites instead of keeping. */
  const UnsureAnswers: set<string> := {"Not sure", "Not started treatment yet"}

  lemma {:induction false} KeptAnswers(t: Table)
    requires t.KeepsListedAnswers()
    ensures forall p :: p in t.Pairs() && p.0 !in UnsureAnswers ==> p.1 == p.0
  {
    match t
    case End =>
    case Entry(_, _, rest) => KeptAnswers(rest);
  }

  lemma {:induction false} EmptyKeyAbsent(t: Table)
    requires t.NoEmptyKey()
    ensures "" !in t.Keys()
  {
    match t
    case End =>
    case Entry(_, _, rest) => EmptyKeyAbsent(rest);
  }

  lemma TablesKeepListedAnswers(f: Feature)
    ensures RuleFor(f).Lookup? ==> RuleFor(f).table.KeepsListedAnswers()
  {
    match f
    case Age => assert AgeTable.KeepsListedAnswers();
    case Menopausal => assert MenopausalTable.KeepsListedAnswers();
    case Stage => assert StageTable.KeepsListedAnswers();
    case TumorSize => assert TumorSizeTable.KeepsListedAnswers();
    case TumorType => assert TumorTypeTable.KeepsListedAnswers();
    case TumorGrade => assert TumorGradeTable.KeepsListedAnswers();
    case TumorStage => assert StageTable.KeepsListedAnswers();
    case LymphNodes => assert LymphNodeTable.KeepsListedAnswers();
    case Estrogen => assert ReceptorTable.KeepsListedAnswers();
    case Progesterone => assert ReceptorTable.KeepsListedAnswers();
    case Her2 => assert ReceptorTable.KeepsListedAnswers();
    case DiagnosisToTreatment => assert DiagnosisDelayTable.KeepsListedAnswers();
    case TreatmentType => assert TreatmentTypeTable.KeepsListedAnswers();
    case TreatmentDuration => assert TreatmentDurationTable.KeepsListedAnswers();
    case TreatmentStatus => assert TreatmentStatusTable.KeepsListedAnswers();
    case FollowUp => assert FollowUpTable.KeepsListedAnswers();
    case Activity => assert ActivityTable.KeepsListedAnswers();
    case Bmi => assert BmiTable.KeepsListedAnswers();
    case Health => assert HealthTable.KeepsListedAnswers();
    case _ =>
  }

  /** For every lookup column, the answer assumed for an unanswered question
      is listed and maps to the fallback, so it behaves like an unlisted answer. */
  lemma TablesTreatAbsentAsUnlisted(f: Feature)
    ensures RuleFor(f).Lookup? ==> Find(RuleFor(f).table, RuleFor(f).absent) == Some(RuleFor(f).fallback)
  {
    match f
    case Age => assert Find(AgeTable, "40-49") == Some("40-49");
    case Menopausal => assert Find(MenopausalTable, "Pre-menopausal") == Some("Pre-menopausal");
    case Stage => assert Find(StageTable, "Not sure") == Some("Stage II");
    case TumorSize => assert Find(TumorSizeTable, "Not sure") == Some("2-5 cm");
    case TumorType => assert Find(TumorTypeTable, "Not sure") == Some(Ductal);
    case TumorGrade => assert Find(TumorGradeTable, "Not sure") == Some(GradeTwo);
    case TumorStage => assert Find(StageTable, "Not sure") == Some("Stage II");
    case LymphNodes => assert Find(LymphNodeTable, "Not sure") == Some("Unknown");
    case Estrogen => assert Find(ReceptorTable, "Not sure") == Some("Unknown");
    case Progesterone => assert Find(ReceptorTable, "Not sure") == Some("Unknown");
    case Her2 => assert Find(ReceptorTable, "Not sure") == Some("Unknown");
    case DiagnosisToTreatment => assert Find(DiagnosisDelayTable, "1-3 months") == Some("1-3 months");
    case TreatmentType => assert Find(TreatmentTypeTable, "Not started treatment yet") == Some("None");
    case TreatmentDuration => assert Find(TreatmentDurationTable, "Not applicable") == Some("Not applicable");
    case TreatmentStatus => assert Find(TreatmentStatusTable, "Not started") == Some("Not started");
    case FollowUp => assert Find(FollowUpTable, "Every 3 months") == Some("Every 3 months");
    case Activity => assert Find(ActivityTable, ModeratelyActive) == Some(ModeratelyActive);
    case Bmi => assert Find(BmiTable, "Not sure") == Some(NormalWeight);
    case Health => assert Find(HealthTable, "Good") == Some("Good");
    case _ =>
  }

  lemma TablesOmitEmptyAnswer(f: Feature)
    ensures RuleFor(f).Lookup? ==> RuleFor(f).table.NoEmptyKey()
  {
    match f
    case Age => assert AgeTable.NoEmptyKey();
    case Menopausal => assert MenopausalTable.NoEmptyKey();
    case Stage => assert StageTable.NoEmptyKey();
    case TumorSize => assert TumorSizeTable.NoEmptyKey();
    case TumorType => assert TumorTypeTable.NoEmptyKey();
    case TumorGrade => assert TumorGradeTable.NoEmptyKey();
    case TumorStage => assert StageTable.NoEmptyKey();
    case LymphNodes => assert LymphNodeTable.NoEmptyKey();
    case Estrogen => assert ReceptorTable.NoEmptyKey();
    case Progesterone => assert ReceptorTable.NoEmptyKey();
    case Her2 => assert ReceptorTable.NoEmptyKey();
    case DiagnosisToTreatment => assert DiagnosisDelayTable.NoEmptyKey();
    case TreatmentType => assert TreatmentTypeTable.NoEmptyKey();
    case TreatmentDuration => assert TreatmentDurationTable.NoEmptyKey();
    case TreatmentStatus => assert TreatmentStatusTable.NoEmptyKey();
    case FollowUp => assert FollowUpTable.NoEmptyKey();
    case Activity => assert ActivityTable.NoEmptyKey();
    case Bmi => assert BmiTable.NoEmptyKey();
    case Health => assert HealthTable.NoEmptyKey();
    case _ =>
  }

  /** Every lookup column holds one of its table's values or its fallback. */
  lemma LookupColumnInRange(r: Responses, f: Feature)
    requires RuleFor(f).Lookup?
    ensures var m := MapQuestionnaireToSurvivalFeatures(r);
      var rule := RuleFor(f);
      m[f] == rule.fallback || exists k :: (k, m[f]) in rule.table.Pairs()
  {
    AllFeaturesComplete(f);
  }

  /** A listed answer other than the unsure ones reaches the model unchanged;
      an unanswered question gives the column's fallback. */
  lemma LookupKeepsKnownAnswer(r: Responses, f: Feature)
    requires RuleFor(f).Lookup?
    ensures var m := MapQuestionnaireToSurvivalFeatures(r);
      var rule := RuleFor(f);
      && (rule.question in r && r[rule.question] !in UnsureAnswers && Find(rule.table, r[rule.question]).Some?
          ==> m[f] == r[rule.question])
      && (rule.question !in r ==> m[f] == rule.fallback)
  {
    AllFeaturesComplete(f);
    TablesKeepListedAnswers(f);
    KeptAnswers(RuleFor(f).table);
    TablesTreatAbsentAsUnlisted(f);
  }

  /** Every column is the value of its rule. */
  lemma ColumnFollowsRule(r: Responses, f: Feature)
    ensures f in MapQuestionnaireToSurvivalFeatures(r)
    ensures MapQuestionnaireToSurvivalFeatures(r)[f] == Apply(RuleFor(f), r)
  {
    AllFeaturesComplete(f);
  }

  lemma ColumnValue(r: Responses, f: Feature, v: string)
    requires Apply(RuleFor(f), r) == v
    ensures f in MapQuestionnaireToSurvivalFeatures(r)
    ensures MapQuestionnaireToSurvivalFeatures(r)[f] == v
  {
    ColumnFollowsRule(r, f);
  }

  /** The value the answer 'Not sure' is replaced by, in the columns that replace it. */
  function NotSureMeaning(f: Feature): Option<string>
  {
    match f
    case Stage => Some("Stage II")
    case TumorStage => Some("Stage II")
    case TumorSize => Some("2-5 cm")
    case TumorType => Some(Ductal)
    case TumorGrade => Some(GradeTwo)
    case LymphNodes => Some("Unknown")
    case Estrogen => Some("Unknown")
    case Progesterone => Some("Unknown")
    case Her2 => Some("Unknown")
    case Bmi => Some(NormalWeight)
    case _ => None
  }

  lemma NotSureRule(r: Responses, f: Feature)
    requires NotSureMeaning(f).Some?
    requires Answered(r, RuleFor(f).question, "Not sure")
    ensures Apply(RuleFor(f), r) == NotSureMeaning(f).value
  {
    // In each of these columns 'Not sure' is also the answer assumed when the
    // question is missing, and it maps to the fallback.
    TablesTreatAbsentAsUnlisted(f);
    assert RuleFor(f).absent == "Not sure" && RuleFor(f).fallback == NotSureMeaning(f).value;
  }

  lemma NotSureReplaced(r: Responses, f: Feature)
    requires NotSureMeaning(f).Some?
    requires Answered(r, RuleFor(f).question, "Not sure")
    ensures f in MapQuestionnaireToSurvivalFeatures(r)
    ensures MapQuestionnaireToSurvivalFeatures(r)[f] == NotSureMeaning(f).value
  {
    NotSureRule(r, f);
    ColumnValue(r, f, NotSureMeaning(f).value);
  }

  lemma NotStartedTreatmentIsNone(r: Responses)
    requires Answered(r, "treatment_types", "Not started treatment yet")
    ensures MapQuestionnaireToSurvivalFeatures(r)[TreatmentType] == "None"
  {
    assert Apply(RuleFor(TreatmentType), r) == "None";
    ColumnValue(r, TreatmentType, "None");
  }

  /** The pass-through columns copy the answer whenever the question is in the
      map, the empty answer included, and use the default only when it is not. */
  lemma PassThroughCopiesAnswer(r: Responses, f: Feature)
    requires RuleFor(f).Copy?
    ensures var m := MapQuestionnaireToSurvivalFeatures(r);
      var rule := RuleFor(f);
      && (rule.question in r ==> m[f] == r[rule.question])
      && (rule.question !in r ==> m[f] == rule.absent)
  {
    ColumnFollowsRule(r, f);
  }

  lemma PassThroughColumns(f: Feature)
    ensures RuleFor(f).Copy? <==>
      f in {Ethnicity, MaritalStatus, FamilyHistory, OtherConditions, Recurrence, Smoking, Alcohol}
  {
  }

  /** The stage table keeps a stage I-IV answer and sends every other answer
      (unsure, empty, unexpected) to Stage II, directly or through the fallback. */
  lemma StageTableLookup(answer: string)
    ensures var v := Find(StageTable, answer);
      (if v.Some? then v.value else "Stage II") == (if answer in Stages then answer else "Stage II")
  {
    var v := Find(StageTable, answer);
    KeptAnswers(StageTable);
    if answer in Stages {
      assert answer !in UnsureAnswers;
    } else if v.Some? {
      assert answer == "Not sure";
    }
  }

  /** Both stage columns come from the same answer: a stage I-IV answer is kept,
      everything else (unsure, empty, missing, unexpected) becomes Stage II. */
  lemma StageColumnsAgree(r: Responses)
    ensures var m := MapQuestionnaireToSurvivalFeatures(r);
      var answer := Get(r, "cancer_stage", "Not sure");
      && m[Stage] == m[TumorStage]
      && m[Stage] == (if answer in Stages then answer else "Stage II")
      && m[Stage] in Stages
  {
    var answer := Get(r, "cancer_stage", "Not sure");
    var v := if answer in Stages then answer else "Stage II";
    StageTableLookup(answer);
    assert Apply(RuleFor(Stage), r) == v;
    assert RuleFor(TumorStage) == RuleFor(Stage);
    ColumnValue(r, Stage, v);
    ColumnValue(r, TumorStage, v);
  }

  lemma LifestyleNotAsked()
    ensures "smoking" !in MalignantQuestions
    ensures "alcohol" !in MalignantQuestions
    ensures "physical_activity" !in MalignantQuestions
  {
  }

  lemma UnaskedLifestyleRules(r: Responses)
    requires "smoking" !in r && "alcohol" !in r && "physical_activity" !in r
    ensures Apply(RuleFor(Smoking), r) == "No"
    ensures Apply(RuleFor(Alcohol), r) == "No"
    ensures Apply(RuleFor(Activity), r) == ModeratelyActive
  {
  }

  /** When the lifestyle questions are not in the responses, the three
      lifestyle columns take their defaults. */
  lemma UnaskedLifestyleDefaults(r: Responses)
    requires "smoking" !in r && "alcohol" !in r && "physical_activity" !in r
    ensures var m := MapQuestionnaireToSurvivalFeatures(r);
      m[Smoking] == "No" && m[Alcohol] == "No" && m[Activity] == ModeratelyActive
  {
    UnaskedLifestyleRules(r);
    ColumnValue(r, Smoking, "No");
    ColumnValue(r, Alcohol, "No");
    ColumnValue(r, Activity, ModeratelyActive);
  }

  /** The malignant questionnaire never asks the lifestyle questions, so its
      responses always get the lifestyle defaults. */
  lemma MalignantQuestionnaireLifestyleDefaults(r: Responses)
    requires CollectedFrom(r, MalignantQuestions)
    ensures var m := MapQuestionnaireToSurvivalFeatures(r);
      m[Smoking] == "No" && m[Alcohol] == "No" && m[Activity] == ModeratelyActive
  {
    LifestyleNotAsked();
    NotCollected(r, MalignantQuestions, "smoking");
    NotCollected(r, MalignantQuestions, "alcohol");
    NotCollected(r, MalignantQuestions, "physical_activity");
    UnaskedLifestyleDefaults(r);
  }

  /** A questionnaire submitted with every question left blank: pass-through
      columns hold the empty answer and lookup columns their fallbacks. */
  lemma BlankQuestionnaire(r: Responses, f: Feature)
    requires forall q :: q in r ==> r[q] == ""
    requires RuleFor(f).question in r
    ensures var m := MapQuestionnaireToSurvivalFeatures(r);
      m[f] == (if RuleFor(f).Copy? then "" else RuleFor(f).fallback)
  {
    TablesOmitEmptyAnswer(f);
    if RuleFor(f).Lookup? {
      EmptyKeyAbsent(RuleFor(f).table);
    }
    ColumnFollowsRule(r, f);
  }
}
