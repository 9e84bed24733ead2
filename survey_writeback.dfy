/** The survey result travelling from the modal's submit to the stored record and the KPIs. */
module SurveyWriteBack {
  import opened Wrappers
  import opened RiskTier
  import opened SurveyRules
  import opened Solutions
  import opened Kpi

  /** The body `handleSubmit` posts: the tier's name and the details text. */
  function SubmitPayload(result: Assessment): SurveyPayload {
    SurveyPayload(Some(Name(result.level)), Some(result.details))
  }

  /** A submitted survey puts the solution in exactly the bucket of the submitted tier on the
      survey path, and leaves the board's AI-path counts as they were. */
  lemma SubmittedTierIsCounted(sols: seq<SolutionRecord>, i: nat, result: Assessment)
    requires i < |sols|
    ensures UpdateSurvey(sols[i], SubmitPayload(result)).Ok?
    ensures var stored := UpdateSurvey(sols[i], SubmitPayload(result)).value;
      && Classified(stored, SurveyPath)
      && Parse(stored.riskSurvey.value) == Some(result.level)
      && stored.surveyDetails == Some(result.details)
      && CountsFor(sols[i := stored], AiAnalysis) == CountsFor(sols, AiAnalysis)
  {
    var stored := UpdateSurvey(sols[i], SubmitPayload(result)).value;
    ParseName(result.level);
    PathIndependent(sols[i := stored], sols, AiAnalysis);
  }

  /** A survey with no escalating answer is stored as, and counted as, Minimal. */
  lemma NoEscalationStoredAsMinimal(s: SolutionRecord, events: seq<Event>)
    requires forall k :: 0 <= k < |events| ==> YesTier(events[k].question, events[k].answer) == Minimal
    ensures UpdateSurvey(s, SubmitPayload(Finalize(Fold(events))))
      == Ok(s.(riskSurvey := Some("Minimal"), surveyDetails := Some(NoRiskDetails)))
  {
    assert Fold(events).None?;
  }
}
