/** The survey modal's three state cells and the handlers that overwrite them. */
module Survey {
  import opened Wrappers
  import opened RiskTier
  import opened SurveyCatalog
  import opened SurveyRules

  class SurveySession {
    /** The questionnaire the modal walks (always `Catalog`, see the constructor). */
    const questions: seq<Question>
    /** `currentQuestionIndex`: the question on screen. */
    var index: nat
    /** `answers`: question id to the latest answer given for it. */
    var answers: map<string, Answer>
    /** `riskAssessment`: the running assessment, `None` for `null`. */
    var assessment: Option<Assessment>
    /** Every answer event so far, in order, including those later re-answered. */
    ghost var events: seq<Event>

    ghost predicate Valid()
      reads this
    {
      && index < |questions|
      && answers.Keys <= Ids()
      && (forall k :: 0 <= k < |events| ==> events[k].question in questions)
      && assessment == Fold(events)
    }

    /** Opening the modal: first question, no answers, no assessment. */
    constructor ()
      ensures Valid()
      ensures questions == Catalog
      ensures index == 0 && answers == map[] && assessment == None && events == []
    {
      questions := Catalog;
      index := 0;
      answers := map[];
      assessment := None;
      events := [];
    }

    /** The ids of the questionnaire's questions. */
    function Ids(): set<string>
    {
      set q | q in questions :: q.id
    }

    function CurrentQuestion(): (q: Question)
      reads this
      requires Valid()
      ensures q in questions
    {
      questions[index]
    }

    predicate IsLastQuestion()
      reads this
    {
      index == |questions| - 1
    }

    /** Records the answer to the question on screen, applies the escalation rule on "yes",
        and moves to the next question unless this is the last one. */
    method HandleAnswer(a: Answer)
      requires Valid()
      modifies this
      ensures Valid()
      ensures answers == old(answers)[questions[old(index)].id := a]
      ensures assessment == Escalate(old(assessment), questions[old(index)], a)
      ensures events == old(events) + [Event(questions[old(index)], a)]
      ensures index == if old(index) == |questions| - 1 then old(index) else old(index) + 1
    {
      Record(questions[index], a);
      if index != |questions| - 1 {
        index := index + 1;
      }
    }

    /** The part of the answer handler that does not depend on the position: store the answer
        for `q`, escalate, and log the event. */
    method Record(q: Question, a: Answer)
      requires Valid() && q in questions
      modifies this`answers, this`assessment, this`events
      ensures Valid()
      ensures answers == old(answers)[q.id := a]
      ensures assessment == Escalate(old(assessment), q, a)
      ensures events == old(events) + [Event(q, a)]
    {
      assert q.id in Ids();
      answers := answers[q.id := a];
      ApplyEscalation(q, a);
      events := events + [Event(q, a)];
      assert events[..|events| - 1] == old(events);
    }

    /** The conditional block of the answer handler that may replace the running assessment. */
    method ApplyEscalation(q: Question, a: Answer)
      modifies this`assessment
      ensures assessment == Escalate(old(assessment), q, a)
    {
      if a == Yes && q.riskIfYes.Some? {
        if q.riskIfYes.value == Unacceptable {
          assessment := Some(Assessment(Unacceptable, "Prohibited: " + q.text));
        } else if q.riskIfYes.value == High && (assessment.None? || assessment.value.level != Unacceptable) {
          assessment := Some(Assessment(High, "High Risk: " + q.text));
        } else if q.riskIfYes.value == Limited && assessment.None? {
          assessment := Some(Assessment(Limited, "Limited Risk: " + q.text));
        }
      }
    }

    /** The "Previous" button is rendered only past the first question. */
    predicate CanGoBack()
      reads this
    {
      index > 0
    }

    /** Moves back one question; answers and the assessment are kept (no rollback). */
    method Previous()
      requires Valid() && CanGoBack()
      modifies this`index
      ensures Valid()
      ensures index == old(index) - 1
      ensures answers == old(answers) && assessment == old(assessment) && events == old(events)
    {
      index := index - 1;
    }

    /** The submit button is rendered on the last question once it has an answer. */
    predicate CanSubmit()
      reads this
      requires Valid()
    {
      IsLastQuestion() && questions[index].id in answers
    }

    /** The risk level and details `handleSubmit` sends: the most severe tier any "yes" asserted. */
    method Submit() returns (result: Assessment)
      requires Valid() && CanSubmit()
      ensures result == Finalize(assessment)
      ensures result.level == Strongest(events)
    {
      result := Finalize(assessment);
    }
  }
}
