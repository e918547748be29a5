/** Questionnaire answers as the web layer hands them to the core: one
    string per question id, with `""` for a question left unanswered. */
module Questionnaire {
  type Responses = map<string, string>

  /** Python's `responses.get(q, absent)`. */
  function Get(r: Responses, q: string, absent: string): string
  {
    if q in r then r[q] else absent
  }

  /** Python's `responses.get(q) == v`: an absent key reads as None, which equals no string. */
  predicate Answered(r: Responses, q: string, v: string)
  {
    q in r && r[q] == v
  }

  /** Question ids of the benign questionnaire. */
  const BenignQuestions: set<string> :=
    {"age_group", "family_history", "bmi_category", "smoking", "alcohol",
     "physical_activity", "menopausal_status", "previous_biopsy"}

  /** Question ids of the malignant questionnaire. */
  const MalignantQuestions: set<string> :=
    {"age_group", "ethnicity", "marital_status", "family_history",
     "menopausal_status", "cancer_stage", "tumor_size", "tumor_type", "tumor_grade",
     "lymph_node_status", "er_status", "pr_status", "her2_status",
     "treatment_types", "treatment_duration", "treatment_status", "diagnosis_to_treatment",
     "recurrence", "follow_up_frequency", "bmi_category", "current_health", "other_conditions"}

  /** The collection loop of the web layer: every question of the schema is
      present (unanswered ones as `""`) and nothing else is. */
  predicate CollectedFrom(r: Responses, questions: set<string>)
  {
    r.Keys == questions
  }

  lemma NotCollected(r: Responses, questions: set<string>, q: string)
    requires CollectedFrom(r, questions)
    requires q !in questions
    ensures q !in r
  {
  }
}
