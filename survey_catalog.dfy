/** The fixed, ordered EU AI Act questionnaire the survey walks through. */
module SurveyCatalog {
  import opened Wrappers
  import opened RiskTier

  /** Informational grouping of a question. */
  datatype Category = Prohibited | HighRisk | LimitedRisk

  /** One catalog entry; `riskIfYes` is the tier a "yes" asserts, `note` has no effect on the outcome. */
  datatype Question = Question(id: string, text: string, category: Category, riskIfYes: Option<Tier>, note: Option<string>)

  /** The question list, in traversal order: six prohibited, six high-risk, three limited-risk. */
  const Catalog: seq<Question> := [
      Question(
        "prohibited_1",
        "Does this AI system deploy subliminal techniques to materially distort behavior in a manner that causes or is likely to cause physical or psychological harm?",
        Prohibited, Some(Unacceptable), None),
      Question(
        "prohibited_2",
        "Does this AI system exploit vulnerabilities of specific groups (children, elderly, persons with disabilities) in a manner that causes or is likely to cause physical or psychological harm?",
        Prohibited, Some(Unacceptable), None),
      Question(
        "prohibited_3",
        "Is this AI system used for social scoring by public authorities that leads to detrimental or unfavorable treatment?",
        Prohibited, Some(Unacceptable), None),
      Question(
        "prohibited_4",
        "Does this AI system use real-time remote biometric identification in publicly accessible spaces for law enforcement purposes?",
        Prohibited, Some(Unacceptable), Some("Exceptions exist for specific law enforcement purposes")),
      Question(
        "prohibited_5",
        "Does this AI system categorize individuals based on biometric data to infer sensitive attributes (race, political opinions, trade union membership, religious beliefs, sex life, or sexual orientation)?",
        Prohibited, Some(Unacceptable), None),
      Question(
        "prohibited_6",
        "Is this AI system used for emotion recognition in the workplace or educational institutions?",
        Prohibited, Some(Unacceptable), Some("Exceptions for medical or safety reasons")),
      Question(
        "high_risk_1",
        "Is this AI system used in critical infrastructure management (e.g., road traffic, water, gas, electricity supply)?",
        HighRisk, Some(High), None),
      Question(
        "high_risk_2",
        "Is this AI system used in education or vocational training for assessment, evaluation, monitoring students, or detecting plagiarism?",
        HighRisk, Some(High), None),
      Question(
        "high_risk_3",
        "Is this AI system used in employment decisions (recruitment, screening, evaluation, promotion, monitoring, or termination)?",
        HighRisk, Some(High), None),
      Question(
        "high_risk_4",
        "Is this AI system used for essential services like creditworthiness assessment, insurance risk assessment, or emergency response dispatch?",
        HighRisk, Some(High), None),
      Question(
        "high_risk_5",
        "Is this AI system used for law enforcement purposes (individual risk assessment, polygraphs, evidence evaluation, migration/asylum/border control)?",
        HighRisk, Some(High), None),
      Question(
        "high_risk_6",
        "Is this AI system used to assist judicial research or influence election/voting behavior?",
        HighRisk, Some(High), None),
      Question(
        "limited_1",
        "Does this AI system interact directly with people (chatbot, virtual assistant)?",
        LimitedRisk, Some(Limited), None),
      Question(
        "limited_2",
        "Does this AI system perform emotion recognition or biometric categorization (outside prohibited uses)?",
        LimitedRisk, Some(Limited), None),
      Question(
        "limited_3",
        "Does this AI system generate or manipulate content (deep fakes, synthetic media)?",
        LimitedRisk, Some(Limited), None)
  ]

  /** The tier that a question's category is meant to assert. */
  function CategoryTier(c: Category): Tier {
    match c
    case Prohibited => Unacceptable
    case HighRisk => High
    case LimitedRisk => Limited
  }

  /** The catalog's shape: 15 entries, 6 Unacceptable then 6 High then 3 Limited, each with a
      `riskIfYes` that agrees with its category. */
  lemma CatalogShape()
    ensures |Catalog| == 15
    ensures forall i :: 0 <= i < |Catalog| ==>
      Catalog[i].riskIfYes == Some(CategoryTier(Catalog[i].category))
    ensures forall i :: 0 <= i < 6 ==> Catalog[i].category == Prohibited
    ensures forall i :: 6 <= i < 12 ==> Catalog[i].category == HighRisk
    ensures forall i :: 12 <= i < 15 ==> Catalog[i].category == LimitedRisk
  {
  }

  /** Catalog order is descending severity: an earlier question never asserts a lower tier. */
  lemma CatalogDescendingSeverity(i: nat, j: nat)
    requires i <= j < |Catalog|
    ensures Severity(Catalog[i].riskIfYes.value) >= Severity(Catalog[j].riskIfYes.value)
  {
    CatalogShape();
  }

  /** Question ids are unique, so an answer map keyed by id holds one answer per question. */
  lemma CatalogIdsUnique()
    ensures forall i, j :: 0 <= i < j < |Catalog| ==> Catalog[i].id != Catalog[j].id
  {
  }
}
