/** The exception in the aggregation of reviews really occurs: two reports that both pass, and an aggregate that
    asks for rework. */
module ReviewWithdrawn {
  import opened Common
  import opened CodeReview
  import opened ReviewAggregation
  import opened ReviewAggregationTheorems
  import opened ReviewJoin

  function SampleContext(): Context {
    Context("run", "request", "candidate", "requirements", [Requirement("requirement", true, [], [])], [],
            [Finding("finding", "requirement", "p", "c", true, Open, "candidate", None, [])],
            [Evidence("evidence", "candidate", "CODE_SNAPSHOT", "CONTROLLER", None, "", None)])
  }

  /** Satisfied with the one requirement; the one finding gets this answer. */
  function SampleReport(status: Status): Report {
    Report("run", "request", "candidate", "requirements",
           [Assessment("requirement", Satisfied, ["evidence"], "r", None)],
           [FindingDecision("finding", status, ["evidence"], "r")], [], [], "s")
  }

  lemma SampleTexts()
    ensures NonBlank("r") && NonBlank("s") && NonBlank("requirement") && NonBlank("finding")
  {
    assert !IsSpace("r"[0]) && !IsSpace("s"[0]) && !IsSpace("requirement"[0]) && !IsSpace("finding"[0]);
  }

  lemma SampleRefs(some: bool)
    ensures ValidRefs(["evidence"], SampleContext(), some)
  {
    assert FirstEvidence(SampleContext().evidence, "evidence") == 0;
  }

  lemma SampleAssessment(status: Status)
    ensures ValidAssessment(SampleReport(status).assessments[0], SampleContext())
  {
    SampleTexts();
    SampleRefs(true);
    assert FirstRequirement(SampleContext().requirements, "requirement") == 0;
  }

  lemma SampleDecision(status: Status)
    ensures ValidDecision(SampleReport(status).findingDecisions[0], SampleContext())
  {
    SampleTexts();
    SampleRefs(true);
    assert FirstFinding(SampleContext().findings, "finding") == 0;
  }

  lemma SampleCovers(status: Status)
    ensures Covers(SampleReport(status), SampleContext())
  {
    var c := SampleContext();
    assert ActiveFindings(c.findings[..0]) == [];
    assert ActiveFindings(c.findings) == c.findings;
    assert DecisionIds(SampleReport(status).findingDecisions) == ActiveIds(c);
  }

  lemma SampleIsValid(status: Status)
    ensures ValidReport(SampleReport(status), SampleContext()) && Covers(SampleReport(status), SampleContext())
  {
    SampleTexts();
    SampleAssessment(status);
    SampleDecision(status);
    SampleCovers(status);
  }

  lemma SamplePasses(status: Status)
    requires status.Resolved? || status.Withdrawn?
    ensures DecisionOn(SampleReport(status), SampleContext()) == Pass
  {
    var r, c := SampleReport(status), SampleContext();
    SampleIsValid(status);
    OneDecision(r, c);
    CoversDecides(r, c, "finding");
    assert DecidedBy(r.findingDecisions, r.findingDecisions[0], "finding");
    forall st ensures Answers(r, "finding", st) <==> st == status {
      OnlyAnswer(r, r.findingDecisions[0], "finding", st);
    }
    assert Settled(c, 0) by { assert FirstFinding(c.findings, "finding") == 0; }
  }

  /** The sample, as values of which only this much is known. */
  lemma Sample() returns (c: Context, resolves: Report, withdraws: Report)
    ensures ValidReport(resolves, c) && Covers(resolves, c) && DecisionOn(resolves, c) == Pass
    ensures ValidReport(withdraws, c) && Covers(withdraws, c) && DecisionOn(withdraws, c) == Pass
    ensures |c.findings| == 1 && WithdrawsAt(withdraws, c, 0)
  {
    c, resolves, withdraws := SampleContext(), SampleReport(Resolved), SampleReport(Withdrawn);
    SampleIsValid(Resolved);
    SampleIsValid(Withdrawn);
    SamplePasses(Resolved);
    SamplePasses(Withdrawn);
    assert DecidedBy(withdraws.findingDecisions, withdraws.findingDecisions[0], "finding");
    assert FirstFinding(c.findings, "finding") == 0;
    CoversDecides(withdraws, c, "finding");
  }

  lemma TwoDecisions(a: Report, b: Report, c: Context)
    ensures Decisions([a, b], c) == [DecisionOn(a, c), DecisionOn(b, c)]
  {
  }

  lemma SecondWithdraws(a: Report, b: Report, c: Context)
    requires |c.findings| == 1 && WithdrawsAt(b, c, 0)
    ensures WithdrawsRequired([a, b], c)
  {
    assert [a, b][1] == b;
  }

  lemma BothReviewed(a: Report, b: Report, c: Context)
    requires ValidReport(a, c) && Covers(a, c) && ValidReport(b, c) && Covers(b, c)
    ensures Reviewed([a, b], c)
  {
  }

  /** One reviewer resolves a required finding and another withdraws it: both reports pass, their aggregate does
      not. So the aggregate is not always the most severe of the decisions. */
  lemma WithdrawalCanOutvote() returns (c: Context, reports: seq<Report>)
    ensures Reviewed(reports, c) && AllAssessed(reports, c)
    ensures Decisions(reports, c) == [Pass, Pass]
    ensures DecisionOn(AggregateOf(reports, c), c) == Rework
  {
    var resolves: Report, withdraws: Report;
    c, resolves, withdraws := Sample();
    reports := [resolves, withdraws];
    TwoDecisions(resolves, withdraws, c);
    SecondWithdraws(resolves, withdraws, c);
    BothReviewed(resolves, withdraws, c);
    AggregateDecision(reports, c);
  }
}
