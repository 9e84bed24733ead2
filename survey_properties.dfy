/** What the survey's escalation policy guarantees, over single answers and whole histories. */
module SurveyProperties {
  import opened Wrappers
  import opened RiskTier
  import opened SurveyCatalog
  import opened SurveyRules
  import opened Survey

  // ---- One answer ----

  /** "no", "unsure", or a "yes" on a question without `riskIfYes` never touches the assessment. */
  lemma EscalateInert(current: Option<Assessment>, q: Question, a: Answer)
    requires a != Yes || q.riskIfYes.None?
    ensures Escalate(current, q, a) == current
  {
  }

  /** A "yes" on a prohibited question always overwrites, even an earlier Unacceptable. */
  lemma EscalateUnacceptable(current: Option<Assessment>, q: Question)
    requires q.riskIfYes == Some(Unacceptable)
    ensures Escalate(current, q, Yes) == Some(Assessment(Unacceptable, "Prohibited: " + q.text))
  {
  }

  /** A "yes" on a high-risk question replaces the assessment exactly when it is not Unacceptable. */
  lemma EscalateHigh(current: Option<Assessment>, q: Question)
    requires q.riskIfYes == Some(High)
    ensures Escalate(current, q, Yes) == Some(Assessment(High, "High Risk: " + q.text))
      <==> current.None? || current.value.level != Unacceptable
    ensures current.Some? && current.value.level == Unacceptable ==> Escalate(current, q, Yes) == current
  {
  }

  /** A "yes" on a limited-risk question only fills an empty assessment; an earlier Limited keeps its details. */
  lemma EscalateLimited(current: Option<Assessment>, q: Question)
    requires q.riskIfYes == Some(Limited)
    ensures current.None? ==> Escalate(current, q, Yes) == Some(Assessment(Limited, "Limited Risk: " + q.text))
    ensures current.Some? ==> Escalate(current, q, Yes) == current
  {
  }

  // ---- Whole histories ----

  /** Index of the last "yes" asserting `t`. */
  function LastMatch(events: seq<Event>, t: Tier): (r: Option<nat>)
    ensures r.Some? ==> (r.value < |events| && Matches(events[r.value], t)
                         && forall j :: r.value < j < |events| ==> !Matches(events[j], t))
    ensures r.None? ==> forall j :: 0 <= j < |events| ==> !Matches(events[j], t)
  {
    if events == [] then None
    else if Matches(events[|events| - 1], t) then Some(|events| - 1)
    else LastMatch(events[..|events| - 1], t)
  }

  /** Index of the first "yes" asserting `t`. */
  function FirstMatch(events: seq<Event>, t: Tier): (r: Option<nat>)
    ensures r.Some? ==> (r.value < |events| && Matches(events[r.value], t)
                         && forall j :: 0 <= j < r.value ==> !Matches(events[j], t))
    ensures r.None? ==> forall j :: 0 <= j < |events| ==> !Matches(events[j], t)
  {
    if events == [] then None
    else if Matches(events[0], t) then Some(0)
    else match FirstMatch(events[1..], t)
      case None => None
      case Some(k) => Some(k + 1)
  }

  /** The outcome the policy is meant to produce, read off the history directly: the last
      prohibited "yes", else the last high-risk "yes", else the first limited-risk "yes". */
  function Reference(events: seq<Event>): Option<Assessment> {
    match LastMatch(events, Unacceptable)
    case Some(k) => Some(Assessment(Unacceptable, "Prohibited: " + events[k].question.text))
    case None =>
      match LastMatch(events, High)
      case Some(k) => Some(Assessment(High, "High Risk: " + events[k].question.text))
      case None =>
        match FirstMatch(events, Limited)
        case Some(k) => Some(Assessment(Limited, "Limited Risk: " + events[k].question.text))
        case None => None
  }

  /** Appending an event moves the last match to it exactly when it matches. */
  lemma LastMatchSnoc(events: seq<Event>, e: Event, t: Tier)
    ensures LastMatch(events + [e], t) == if Matches(e, t) then Some(|events|) else LastMatch(events, t)
  {
    assert (events + [e])[..|events|] == events;
  }

  /** Appending an event moves the first match only when there was none. */
  lemma {:induction false} FirstMatchSnoc(events: seq<Event>, e: Event, t: Tier)
    ensures FirstMatch(events + [e], t) ==
      if FirstMatch(events, t).Some? then FirstMatch(events, t)
      else if Matches(e, t) then Some(|events|) else None
  {
    if events != [] {
      assert (events + [e])[1..] == events[1..] + [e];
      FirstMatchSnoc(events[1..], e, t);
    }
  }

  /** The reference outcome follows the escalation rule one event at a time. */
  lemma ReferenceSnoc(events: seq<Event>, e: Event)
    ensures Reference(events + [e]) == Escalate(Reference(events), e.question, e.answer)
  {
    LastMatchSnoc(events, e, Unacceptable);
    LastMatchSnoc(events, e, High);
    FirstMatchSnoc(events, e, Limited);
    var s := events + [e];
    assert s[|events|] == e;
    if Matches(e, Unacceptable) {
    } else if Matches(e, High) {
      if LastMatch(events, Unacceptable).Some? {
        var k := LastMatch(events, Unacceptable).value;
        assert s[k] == events[k];
      }
    } else if Matches(e, Limited) {
      if LastMatch(events, Unacceptable).Some? {
        var k := LastMatch(events, Unacceptable).value;
        assert s[k] == events[k];
      } else if LastMatch(events, High).Some? {
        var k := LastMatch(events, High).value;
        assert s[k] == events[k];
      } else if FirstMatch(events, Limited).Some? {
        var k := FirstMatch(events, Limited).value;
        assert s[k] == events[k];
      }
    } else {
      assert Escalate(Reference(events), e.question, e.answer) == Reference(events);
      if LastMatch(events, Unacceptable).Some? {
        var k := LastMatch(events, Unacceptable).value;
        assert s[k] == events[k];
      } else if LastMatch(events, High).Some? {
        var k := LastMatch(events, High).value;
        assert s[k] == events[k];
      } else if FirstMatch(events, Limited).Some? {
        var k := FirstMatch(events, Limited).value;
        assert s[k] == events[k];
      }
    }
  }

  /** The running assessment after any history is exactly the reference outcome. */
  lemma {:induction false} FoldIsReference(events: seq<Event>)
    ensures Fold(events) == Reference(events)
  {
    if events != [] {
      var n := |events|;
      var p, e := events[..n - 1], events[n - 1];
      assert events == p + [e];
      FoldIsReference(p);
      ReferenceSnoc(p, e);
    }
  }

  /** No answer lowers the tier: a history's tier bounds that of each of its prefixes. */
  lemma {:induction false} FoldMonotone(events: seq<Event>, n: nat)
    requires n <= |events|
    ensures Rank(Fold(events[..n])) <= Rank(Fold(events))
  {
    var t := Strongest(events[..n]);
    if t != Minimal {
      var k :| 0 <= k < n && YesTier(events[..n][k].question, events[..n][k].answer) == t;
      assert events[..n][k] == events[k];
    }
  }

  /** Once Unacceptable, always Unacceptable, whatever is answered afterwards. */
  lemma UnacceptableIsFinal(events: seq<Event>, later: seq<Event>)
    requires Fold(events).Some? && Fold(events).value.level == Unacceptable
    ensures Fold(events + later).Some? && Fold(events + later).value.level == Unacceptable
  {
    assert (events + later)[..|events|] == events;
    FoldMonotone(events + later, |events|);
    SeverityInjective(Fold(events + later).value.level, Unacceptable);
  }

  /** The submitted tier is Minimal iff no answer event was an escalating "yes". */
  lemma FinalMinimalIff(events: seq<Event>)
    ensures Finalize(Fold(events)).level == Minimal
      <==> forall k :: 0 <= k < |events| ==> YesTier(events[k].question, events[k].answer) == Minimal
  {
    var r := Fold(events);
    if r.None? {
      forall k | 0 <= k < |events|
        ensures YesTier(events[k].question, events[k].answer) == Minimal
      {
        assert Severity(YesTier(events[k].question, events[k].answer)) <= Severity(Strongest(events));
      }
    }
  }

  /** The submitted tier is the most severe `riskIfYes` of all "yes" events, re-answered ones included. */
  lemma FinalIsStrongest(events: seq<Event>)
    ensures Finalize(Fold(events)).level == Strongest(events)
  {
    var r := Fold(events);
    if r.Some? {
      SeverityInjective(r.value.level, Strongest(events));
    }
  }

  // ---- Scenarios ----

  /** "no" to a prohibited question, then "yes" to a high-risk and to a limited-risk question:
      the high-risk question is reported. */
  lemma {:induction false} ScenarioHighBeatsLaterLimited(q0: Question, qh: Question, ql: Question)
    requires q0.riskIfYes == Some(Unacceptable) && qh.riskIfYes == Some(High) && ql.riskIfYes == Some(Limited)
    ensures Finalize(Fold([Event(q0, No), Event(qh, Yes), Event(ql, Yes)]))
      == Assessment(High, "High Risk: " + qh.text)
  {
    var es := [Event(q0, No), Event(qh, Yes), Event(ql, Yes)];
    assert es[..2] == [Event(q0, No), Event(qh, Yes)];
    assert es[..2][..1] == [Event(q0, No)];
    assert [Event(q0, No)][..0] == [];
  }

  /** All fifteen questions answered "no": the default Minimal result. */
  lemma ScenarioAllNo()
    ensures Finalize(Fold(seq(|Catalog|, i requires 0 <= i < |Catalog| => Event(Catalog[i], No))))
      == Assessment(Minimal, NoRiskDetails)
  {
    var es := seq(|Catalog|, i requires 0 <= i < |Catalog| => Event(Catalog[i], No));
    FinalMinimalIff(es);
    assert Fold(es).None?;
  }

  /** The no-rollback policy as a session: "yes" on the first prohibited question, Previous,
      then "no" to it; the session still holds the Unacceptable assessment. */
  method ScenarioNoRollback() returns (result: Option<Assessment>)
    ensures result == Some(Assessment(Unacceptable, "Prohibited: " + Catalog[0].text))
  {
    var s := new SurveySession();
    s.HandleAnswer(Yes);
    s.Previous();
    s.HandleAnswer(No);
    result := s.assessment;
  }
}
