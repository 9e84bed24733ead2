/** A solution's stored risk columns and the survey write-back endpoint. */
module Solutions {
  import opened Wrappers

  /** Default of both risk columns for a freshly created solution. */
  const Pending: string := "Pending"

  /** A solution row; `None` stands for SQL NULL / Python `None`. */
  datatype SolutionRecord = SolutionRecord(
    name: string,
    description: string,
    userRole: string,
    riskSurvey: Option<string>,
    surveyDetails: Option<string>,
    riskAi: Option<string>,
    aiRationale: Option<string>)

  /** A row as the create endpoint inserts it: both risk columns at their "Pending" default. */
  function NewSolution(name: string, description: string, userRole: Option<string>): (s: SolutionRecord)
    ensures s.riskAi == Some(Pending) && s.riskSurvey == Some(Pending)
    ensures s.userRole == userRole.GetOr("Not specified")
  {
    SolutionRecord(name, description, userRole.GetOr("Not specified"), Some(Pending), None, Some(Pending), None)
  }

  /** The JSON body the survey endpoint receives; `None` for an absent key. */
  datatype SurveyPayload = SurveyPayload(riskLevel: Option<string>, details: Option<string>)

  /** The survey endpoint: overwrites the survey columns, `details` defaulting to ''. A body
      without `risk_level` raises KeyError and nothing is written. */
  function UpdateSurvey(s: SolutionRecord, payload: SurveyPayload): (r: Result<SolutionRecord>)
    ensures r.Ok? <==> payload.riskLevel.Some?
    ensures r.Ok? ==> r.value.riskSurvey == payload.riskLevel
    ensures r.Ok? ==> r.value.surveyDetails == Some(if payload.details.Some? then payload.details.value else "")
    ensures r.Ok? ==> r.value.(riskSurvey := s.riskSurvey, surveyDetails := s.surveyDetails) == s
  {
    match payload.riskLevel
    case None => Err("'risk_level'")
    case Some(level) =>
      Ok(s.(riskSurvey := Some(level), surveyDetails := Some(payload.details.GetOr(""))))
  }

  /** The last submission wins, so re-submitting the same payload changes nothing. */
  lemma UpdateSurveyOverwrites(s: SolutionRecord, first: SurveyPayload, second: SurveyPayload)
    requires first.riskLevel.Some?
    ensures UpdateSurvey(UpdateSurvey(s, first).value, second) == UpdateSurvey(s, second)
    ensures UpdateSurvey(UpdateSurvey(s, first).value, first) == UpdateSurvey(s, first)
  {
  }
}
