/** The survey's escalation rule and its fold over a history of answers, as pure values. */
module SurveyRules {
  import opened Wrappers
  import opened RiskTier
  import opened SurveyCatalog

  datatype Answer = Yes | No | Unsure

  /** The running "best guess" the survey holds once some answer has escalated. */
  datatype Assessment = Assessment(level: Tier, details: string)

  /** One call of the answer handler: the question on screen and the answer given. */
  datatype Event = Event(question: Question, answer: Answer)

  /** Details reported when the survey completes with no assessment. */
  const NoRiskDetails: string := "No high-risk characteristics identified based on survey responses"

  /** Severity of a running assessment; having none ranks like Minimal. */
  function Rank(r: Option<Assessment>): nat {
    if r.None? then 0 else Severity(r.value.level)
  }

  /** The tier an answer asserts: the question's `riskIfYes` on "yes", otherwise Minimal. */
  function YesTier(q: Question, a: Answer): Tier {
    if a == Yes && q.riskIfYes.Some? then q.riskIfYes.value else Minimal
  }

  /** An answer event is a "yes" on a question whose `riskIfYes` is `t`. */
  predicate Matches(e: Event, t: Tier) {
    e.answer == Yes && e.question.riskIfYes == Some(t)
  }

  /** The escalation rule applied by the answer handler to the running assessment. */
  function Escalate(current: Option<Assessment>, q: Question, a: Answer): (r: Option<Assessment>)
    ensures (current.None? || current.value.level != Minimal) ==>
      Rank(r) == Severity(Max(if current.None? then Minimal else current.value.level, YesTier(q, a)))
    ensures r != current ==> a == Yes && r.Some? && Some(r.value.level) == q.riskIfYes
  {
    if a == Yes && q.riskIfYes.Some? then
      if q.riskIfYes.value == Unacceptable then
        Some(Assessment(Unacceptable, "Prohibited: " + q.text))
      else if q.riskIfYes.value == High && (current.None? || current.value.level != Unacceptable) then
        Some(Assessment(High, "High Risk: " + q.text))
      else if q.riskIfYes.value == Limited && current.None? then
        Some(Assessment(Limited, "Limited Risk: " + q.text))
      else
        current
    else
      current
  }

  /** The most severe tier asserted by any event of the history (Minimal when none is). */
  function Strongest(events: seq<Event>): (t: Tier)
    ensures forall k :: 0 <= k < |events| ==>
      Severity(YesTier(events[k].question, events[k].answer)) <= Severity(t)
    ensures t == Minimal || exists k :: 0 <= k < |events| && YesTier(events[k].question, events[k].answer) == t
  {
    if events == [] then Minimal
    else
      var last := events[|events| - 1];
      Max(Strongest(events[..|events| - 1]), YesTier(last.question, last.answer))
  }

  /** The running assessment after a history of answer events, starting from none. */
  function Fold(events: seq<Event>): (r: Option<Assessment>)
    ensures r.Some? ==> r.value.level != Minimal && r.value.details != []
    ensures Rank(r) == Severity(Strongest(events))
  {
    if events == [] then None
    else
      var last := events[|events| - 1];
      Escalate(Fold(events[..|events| - 1]), last.question, last.answer)
  }

  /** The submitted result: the running assessment's level, or Minimal when there is none; its
      details, or the fixed default text when there is none or they are empty. */
  function Finalize(r: Option<Assessment>): (f: Assessment)
    ensures r.Some? && r.value.details != [] ==> f == r.value
    ensures r.None? ==> f == Assessment(Minimal, NoRiskDetails)
  {
    var level := if r.Some? then r.value.level else Minimal;
    var details := if r.Some? && r.value.details != [] then r.value.details else NoRiskDetails;
    Assessment(level, details)
  }
}
