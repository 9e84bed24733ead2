/** The batch analysis endpoint: classify every solution of a board still awaiting an AI verdict. */
module Analysis {
  import opened Wrappers
  import opened TextOps
  import opened Solutions
  import opened Kpi

  /** What a classifier call does: return a (risk, rationale) pair, or raise with a message.
      Either returned value may be `None`: a reply whose JSON holds `null` for the field. */
  datatype ClassifierOutcome = Returned(risk: Option<string>, rationale: Option<string>) | Raised(message: string)

  /** The classifier, applied to a solution's name, description and user role. */
  type Classifier = (string, string, string) -> ClassifierOutcome

  /** Only solutions whose `risk_ai` is "Pending", "Error" or NULL are (re)classified. */
  predicate NeedsAnalysis(s: SolutionRecord) {
    s.riskAi == None || s.riskAi == Some(Pending) || s.riskAi == Some("Error")
  }

  function Outcome(s: SolutionRecord, classify: Classifier): ClassifierOutcome {
    classify(s.name, s.description, s.userRole)
  }

  /** A solution after its turn in the loop. */
  function Analyzed(s: SolutionRecord, classify: Classifier): SolutionRecord {
    if !NeedsAnalysis(s) then s
    else
      match Outcome(s, classify)
      case Returned(risk, rationale) => s.(riskAi := risk, aiRationale := rationale)
      case Raised(msg) => s.(riskAi := Some("Error"), aiRationale := Some(msg))
  }

  function AnalyzeAll(sols: seq<SolutionRecord>, classify: Classifier): (r: seq<SolutionRecord>)
    ensures |r| == |sols|
  {
    seq(|sols|, i requires 0 <= i < |sols| => Analyzed(sols[i], classify))
  }

  /** A solution that was classified and whose classifier call returned. */
  predicate Updated(s: SolutionRecord, classify: Classifier) {
    NeedsAnalysis(s) && Outcome(s, classify).Returned?
  }

  /** A solution that was classified and whose classifier call raised. */
  predicate Failed(s: SolutionRecord, classify: Classifier) {
    NeedsAnalysis(s) && Outcome(s, classify).Raised?
  }

  /** `updated_count` after the loop has seen `sols`. */
  function UpdatedCount(sols: seq<SolutionRecord>, classify: Classifier): (n: nat)
    ensures n <= |sols|
  {
    if sols == [] then 0
    else UpdatedCount(sols[..|sols| - 1], classify) + (if Updated(sols[|sols| - 1], classify) then 1 else 0)
  }

  /** `errors` after the loop has seen `sols`: "<name>: <message>" per raised call, in order. */
  function ErrorsOf(sols: seq<SolutionRecord>, classify: Classifier): seq<string> {
    if sols == [] then []
    else
      var last := sols[|sols| - 1];
      ErrorsOf(sols[..|sols| - 1], classify)
        + (if Failed(last, classify) then [last.name + ": " + Outcome(last, classify).message] else [])
  }

  /** The JSON response; `errors` is present only when some call raised. */
  datatype AnalysisReport = AnalysisReport(message: string, updated: nat, total: nat, errors: Option<seq<string>>)

  function ReportOf(sols: seq<SolutionRecord>, classify: Classifier): AnalysisReport {
    var updated := UpdatedCount(sols, classify);
    var errors := ErrorsOf(sols, classify);
    AnalysisReport(
      "Analysis complete. Updated " + IntToString(updated) + " solutions.",
      updated, |sols|, if errors == [] then None else Some(errors))
  }

  /** The loop over the board's solutions, updating each row in place. */
  method TriggerAnalysis(solutions: array<SolutionRecord>, classify: Classifier) returns (report: AnalysisReport)
    modifies solutions
    ensures solutions[..] == AnalyzeAll(old(solutions[..]), classify)
    ensures report == ReportOf(old(solutions[..]), classify)
  {
    ghost var before := solutions[..];
    var updatedCount := 0;
    var errors: seq<string> := [];
    for i := 0 to solutions.Length
      invariant forall k :: 0 <= k < i ==> solutions[k] == Analyzed(before[k], classify)
      invariant forall k :: i <= k < solutions.Length ==> solutions[k] == before[k]
      invariant updatedCount == UpdatedCount(before[..i], classify)
      invariant errors == ErrorsOf(before[..i], classify)
    {
      assert before[..i + 1][..i] == before[..i];
      var sol := solutions[i];
      if sol.riskAi == None || sol.riskAi == Some(Pending) || sol.riskAi == Some("Error") {
        match classify(sol.name, sol.description, sol.userRole)
        case Returned(risk, rationale) =>
          solutions[i] := sol.(riskAi := risk, aiRationale := rationale);
          updatedCount := updatedCount + 1;
        case Raised(msg) =>
          solutions[i] := sol.(riskAi := Some("Error"), aiRationale := Some(msg));
          errors := errors + [sol.name + ": " + msg];
      }
    }
    assert before[..solutions.Length] == before;
    var errorList := if errors == [] then None else Some(errors);
    report := AnalysisReport(
      "Analysis complete. Updated " + IntToString(updatedCount) + " solutions.",
      updatedCount, solutions.Length, errorList);
  }

  // ---- What one turn of the loop does ----

  /** Solutions that already carry a verdict other than "Pending"/"Error" are left untouched. */
  lemma AnalyzedSkips(s: SolutionRecord, classify: Classifier)
    requires !NeedsAnalysis(s)
    ensures Analyzed(s, classify) == s
  {
  }

  /** A returned pair is stored as it is, even when the returned risk is "Error" or null. */
  lemma AnalyzedStoresReturn(s: SolutionRecord, classify: Classifier)
    requires Updated(s, classify)
    ensures Analyzed(s, classify).riskAi == Outcome(s, classify).risk
    ensures Analyzed(s, classify).aiRationale == Outcome(s, classify).rationale
  {
  }

  /** A raised call marks the solution "Error" with the exception text as rationale. */
  lemma AnalyzedStoresError(s: SolutionRecord, classify: Classifier)
    requires Failed(s, classify)
    ensures Analyzed(s, classify).riskAi == Some("Error")
    ensures Analyzed(s, classify).aiRationale == Some(Outcome(s, classify).message)
  {
  }

  /** Only the two AI columns ever change; the survey path is never written. */
  lemma AnalyzedFrame(s: SolutionRecord, classify: Classifier)
    ensures Analyzed(s, classify).(riskAi := s.riskAi, aiRationale := s.aiRationale) == s
  {
  }

  /** A solution is picked up again by a later run exactly when this run stored "Error",
      "Pending" or NULL for it (a raised call, or a returned risk with that value). */
  lemma AnalyzedNeedsAgain(s: SolutionRecord, classify: Classifier)
    ensures NeedsAnalysis(Analyzed(s, classify)) <==>
      NeedsAnalysis(s) && (Outcome(s, classify).Raised?
        || Outcome(s, classify).risk == None
        || Outcome(s, classify).risk == Some(Pending)
        || Outcome(s, classify).risk == Some("Error"))
  {
  }

  // ---- The whole batch ----

  /** Number of solutions the batch classifies. */
  function CountNeeding(sols: seq<SolutionRecord>): (n: nat)
    ensures n <= |sols|
  {
    if sols == [] then 0
    else CountNeeding(sols[..|sols| - 1]) + (if NeedsAnalysis(sols[|sols| - 1]) then 1 else 0)
  }

  /** Every classified solution is either counted as updated or listed as an error; none is dropped. */
  lemma {:induction false} AnalysisAccounting(sols: seq<SolutionRecord>, classify: Classifier)
    ensures UpdatedCount(sols, classify) + |ErrorsOf(sols, classify)| == CountNeeding(sols)
  {
    if sols != [] {
      AnalysisAccounting(sols[..|sols| - 1], classify);
    }
  }

  /** The response carries `errors` exactly when some classifier call raised. */
  lemma {:induction false} ErrorsReported(sols: seq<SolutionRecord>, classify: Classifier)
    ensures ReportOf(sols, classify).errors.Some? <==> exists i :: 0 <= i < |sols| && Failed(sols[i], classify)
  {
    if sols != [] {
      var init := sols[..|sols| - 1];
      ErrorsReported(init, classify);
      if exists i :: 0 <= i < |init| && Failed(init[i], classify) {
        var i :| 0 <= i < |init| && Failed(init[i], classify);
        assert init[i] == sols[i];
      }
      if exists i :: 0 <= i < |sols| && Failed(sols[i], classify) {
        var i :| 0 <= i < |sols| && Failed(sols[i], classify);
        if i < |init| {
          assert init[i] == sols[i];
        }
      }
    }
  }

  /** After a run a solution is left without an AI risk value only where the classifier
      returned a null risk for it. */
  lemma NullRiskOnlyFromReturn(sols: seq<SolutionRecord>, classify: Classifier)
    ensures forall i :: 0 <= i < |sols| ==>
      (AnalyzeAll(sols, classify)[i].riskAi.None? <==>
        Updated(sols[i], classify) && Outcome(sols[i], classify).risk.None?)
  {
  }

  /** A classifier that never raises leaves the error list empty, so the response has no
      `errors`. `analyze_risk_with_llm` catches every exception it meets, so the AI path's
      classifier is one. */
  lemma {:induction false} NoErrorsWithoutRaise(sols: seq<SolutionRecord>, classify: Classifier)
    requires forall i :: 0 <= i < |sols| ==> Outcome(sols[i], classify).Returned?
    ensures ErrorsOf(sols, classify) == []
    ensures ReportOf(sols, classify).errors == None
  {
    if sols != [] {
      var init := sols[..|sols| - 1];
      assert forall i :: 0 <= i < |init| ==> init[i] == sols[i];
      NoErrorsWithoutRaise(init, classify);
      assert !Failed(sols[|sols| - 1], classify);
    }
  }

  /** A run never changes the board's survey counts. */
  lemma AnalysisKeepsSurveyCounts(sols: seq<SolutionRecord>, classify: Classifier)
    ensures CountsFor(AnalyzeAll(sols, classify), SurveyPath) == CountsFor(sols, SurveyPath)
  {
    PathIndependent(AnalyzeAll(sols, classify), sols, SurveyPath);
  }
}
