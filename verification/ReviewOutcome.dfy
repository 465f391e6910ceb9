/** What an evaluated report leaves of each finding (src/domain/code-review.js), and which assertions are accepted
    (src/domain/review-coordination.js). */
module ReviewOutcome {
  import opened Common
  import opened CodeReview
  import opened ReviewAggregation
  import opened ReviewAggregates
  import ReviewRules

  // ------------------------------------------------------------------ findings after an evaluation

  /** The finding is the first with its id, the one that decisions reach. */
  predicate Reached(c: Context, i: nat) {
    i < |c.findings| && forall j :: 0 <= j < i ==> c.findings[j].findingId != c.findings[i].findingId
  }

  /** Some required requirement has the id. */
  predicate Demands(c: Context, id: string) {
    exists q <- c.requirements :: q.requirementId == id && q.required
  }

  /** The finding with a decision recorded: its status, the candidate that verifies it if it is closed, and one entry
      of history. */
  predicate DecidedAs(f: Finding, d: FindingDecision, c: Context, reviewId: string, now: Finding) {
    && now.status == d.status
    && now.verifiedCandidateId == (match d.status
                                   case Resolved => Some(c.candidateId)
                                   case Withdrawn => Some(c.candidateId)
                                   case Open => None
                                   case FixSubmitted => None)
    && now.history == f.history + [HistoryEntry(d.status, c.candidateId, reviewId, d.reason)]
  }

  predicate Undecided(f: Finding, now: Finding) {
    now.status == f.status && now.verifiedCandidateId == f.verifiedCandidateId && now.history == f.history
  }

  /** What no evaluation changes. */
  predicate SameFinding(f: Finding, now: Finding) {
    && now.findingId == f.findingId && now.requirementId == f.requirementId && now.problem == f.problem
    && now.resolutionCriteria == f.resolutionCriteria && now.detectedCandidateId == f.detectedCandidateId
  }

  predicate DecidesIt(r: Report, d: FindingDecision, id: string) { d in r.findingDecisions && d.findingId == id }

  lemma DemandsIsRequired(c: Context, id: string)
    ensures RequiredFinding(id, c) <==> Demands(c, id)
  {
    if RequiredFinding(id, c) {
      var i :| 0 <= i < |c.requirements| && c.requirements[i].requirementId == id && c.requirements[i].required;
      assert c.requirements[i] in c.requirements;
    }
  }

  /** A finding that was there: a decision of the report is recorded in the first finding with its id and in no other;
      it is required if it was or if a required requirement demands it; nothing else changes. */
  lemma OldFindingTells(r: Report, c: Context, reviewId: string, ids: seq<string>, i: nat)
    requires ValidReport(r, c) && |ids| == |r.newFindings| && i < |c.findings|
    ensures |FindingsAfter(r, c, reviewId, ids)| == |c.findings| + |r.newFindings|
    ensures var f, now := c.findings[i], FindingsAfter(r, c, reviewId, ids)[i];
            && SameFinding(f, now) && now.required == (f.required || Demands(c, f.requirementId))
            && (forall d :: Reached(c, i) && DecidesIt(r, d, f.findingId) ==> DecidedAs(f, d, c, reviewId, now))
            && (!Reached(c, i) || (forall d :: !DecidesIt(r, d, f.findingId)) ==> Undecided(f, now))
  {
    var f := c.findings[i];
    DecisionsPointwise(c.findings, r.findingDecisions, c, reviewId, i);
    DemandsIsRequired(c, f.requirementId);
    assert Reached(c, i) <==> FirstFinding(c.findings, f.findingId) == i;
    forall d ensures DecidesIt(r, d, f.findingId) <==> DecidedBy(r.findingDecisions, d, f.findingId) { }
    assert IsDecided(r.findingDecisions, f.findingId) <==> exists d :: DecidesIt(r, d, f.findingId);
  }

  /** A new finding is recorded open, detected on this candidate and unverified, with its problem as its first entry of
      history. */
  lemma NewFindingTells(r: Report, c: Context, reviewId: string, ids: seq<string>, j: nat)
    requires |ids| == |r.newFindings| && j < |r.newFindings|
    ensures |FindingsAfter(r, c, reviewId, ids)| == |c.findings| + |r.newFindings|
    ensures var g := r.newFindings[j];
            FindingsAfter(r, c, reviewId, ids)[|c.findings| + j]
            == Finding(ids[j], g.requirementId, g.problem, g.resolutionCriteria,
                       g.required || Demands(c, g.requirementId), Open, c.candidateId, None,
                       [HistoryEntry(Open, c.candidateId, reviewId, g.problem)])
  {
    DemandsIsRequired(c, r.newFindings[j].requirementId);
  }

  // ------------------------------------------------------------------ the decision

  /** The report says v of a required requirement. */
  predicate SaysOfRequired(r: Report, c: Context, v: Verdict) {
    exists i, k ::
      && 0 <= i < |r.assessments| && 0 <= k < |c.requirements| && r.assessments[i].verdict == v
      && ReviewRules.StandsFor(c, k, r.assessments[i].requirementId) && c.requirements[k].required
  }

  lemma SaidIsSaid(r: Report, c: Context, v: Verdict)
    ensures RequiredVerdict(r, c, v) <==> SaysOfRequired(r, c, v)
  {
    forall i | 0 <= i < |r.assessments|
      ensures forall k: nat :: ReviewRules.StandsFor(c, k, r.assessments[i].requirementId) <==>
                k < |c.requirements| && k == FirstRequirement(c.requirements, r.assessments[i].requirementId)
    {
      ReviewRules.RequirementKnown(c, r.assessments[i].requirementId);
    }
    if RequiredVerdict(r, c, v) {
      var i :| 0 <= i < |r.assessments| && r.assessments[i].verdict == v
               && var k := FirstRequirement(c.requirements, r.assessments[i].requirementId);
                  k < |c.requirements| && c.requirements[k].required;
      var k := FirstRequirement(c.requirements, r.assessments[i].requirementId);
      assert ReviewRules.StandsFor(c, k, r.assessments[i].requirementId);
    }
  }

  /** REWORK if a required requirement is called unsatisfied or a required finding is left open or only submitted; else
      HOLD if one is called undetermined, a required finding was resolved on another candidate, or a question is open;
      else PASS. */
  lemma EvaluationDecides(r: Report, c: Context, reviewId: string, ids: seq<string>)
    requires |ids| == |r.newFindings|
    ensures var e := Evaluate(r, c, reviewId, ids);
            && e.findings == FindingsAfter(r, c, reviewId, ids)
            && e.decision ==
               if SaysOfRequired(r, c, Unsatisfied)
                  || (exists i :: 0 <= i < |e.findings| && e.findings[i].required && e.findings[i].status in {Open, FixSubmitted})
               then Rework
               else if SaysOfRequired(r, c, Undetermined) || |c.unresolvedQuestions| > 0
                       || (exists i :: 0 <= i < |e.findings| && e.findings[i].required && e.findings[i].status == Resolved
                                       && e.findings[i].verifiedCandidateId != Some(c.candidateId))
               then Hold
               else Pass
  {
    SaidIsSaid(r, c, Unsatisfied);
    SaidIsSaid(r, c, Undetermined);
  }

  // ------------------------------------------------------------------ which assertions are accepted

  predicate NoneEmpty(refs: seq<string>) { "" !in refs }

  function AllIds(c: Context): seq<string> { ReviewRules.Ids(c.requirements) }

  /** The packet answers this very request; there is one assertion a requirement and one answer an active finding, and
      nothing that has to be said is empty. */
  ghost predicate Answers(p: Packet, c: Context, manifest: string) {
    && p.runId == c.runId && p.requestId == c.requestId && p.candidateId == c.candidateId && p.auditManifestHash == manifest
    && ReviewRules.AllDifferent(AllIds(c)) && multiset(AssertionIds(p.assessments)) == multiset(AllIds(c))
    && (forall a <- p.assessments :: NoneEmpty(a.evidenceRefs)
          && (a.verdict == Undetermined ==> a.missingInformation.Some? && a.missingInformation.value != ""))
    && multiset(AnswerIds(p.findingDecisions)) == multiset(ActiveIds(c))
    && (forall d <- p.findingDecisions :: d.findingId != "" && NoneEmpty(d.evidenceRefs))
    && forall f <- p.newFindings ::
         f.requirementId != "" && f.problem != "" && f.resolutionCriteria != "" && NoneEmpty(f.evidenceRefs)
  }

  lemma ArrayIsNoneEmpty(refs: seq<string>)
    ensures StringArray(refs) <==> NoneEmpty(refs)
  {
  }

  /** An assertion with what has to be said. */
  predicate SaysEnough(a: Assertion) {
    NoneEmpty(a.evidenceRefs) && (a.verdict == Undetermined ==> a.missingInformation.Some? && a.missingInformation.value != "")
  }

  lemma AssertionOk(a: Assertion, c: Context)
    ensures WellFormedAssertion(a, c) <==> a.requirementId in AllIds(c) && SaysEnough(a)
  {
    ArrayIsNoneEmpty(a.evidenceRefs);
    ReviewRules.RequirementKnown(c, a.requirementId);
    ReviewRules.KnownIds(c, a.requirementId);
  }

  lemma AssertionsAlike(items: seq<Assertion>, c: Context)
    ensures |items| == |c.requirements| && AssertionsOk(items, c) <==>
            ReviewRules.AllDifferent(AllIds(c)) && multiset(AssertionIds(items)) == multiset(AllIds(c))
            && forall i :: 0 <= i < |items| ==> SaysEnough(items[i])
  {
    var ids := AssertionIds(items);
    ReviewRules.DifferentIds(ids);
    forall i | 0 <= i < |items| ensures WellFormedAssertion(items[i], c) <==> ids[i] in AllIds(c) && SaysEnough(items[i]) {
      AssertionOk(items[i], c);
    }
    if |ids| == |AllIds(c)| { ReviewRules.PermutesAll(ids, AllIds(c)); }
    if multiset(ids) == multiset(AllIds(c)) { ReviewRules.SameLength(ids, AllIds(c)); }
  }

  lemma PartsAlike(p: Packet)
    ensures (forall i :: 0 <= i < |p.findingDecisions| ==> WellFormedAnswer(p.findingDecisions[i])) <==>
            forall d <- p.findingDecisions :: d.findingId != "" && NoneEmpty(d.evidenceRefs)
    ensures (forall i :: 0 <= i < |p.newFindings| ==> WellFormedNew(p.newFindings[i])) <==>
            forall f <- p.newFindings ::
              f.requirementId != "" && f.problem != "" && f.resolutionCriteria != "" && NoneEmpty(f.evidenceRefs)
  {
    forall refs ensures StringArray(refs) <==> NoneEmpty(refs) { ArrayIsNoneEmpty(refs); }
  }

  /** Exactly such a packet is accepted. */
  lemma AnswersExactly(p: Packet, c: Context, manifest: string)
    ensures ValidAssertions(p, c, manifest) <==> Answers(p, c, manifest)
  {
    AssertionsAlike(p.assessments, c);
    PartsAlike(p);
    assert (forall i :: 0 <= i < |p.assessments| ==> SaysEnough(p.assessments[i])) <==> forall a <- p.assessments :: SaysEnough(a);
  }

  // ------------------------------------------------------------------ numbers in reasons

  predicate IsDigit(c: char) { '0' <= c <= '9' }

  function Value(s: string): int
    requires forall i :: 0 <= i < |s| ==> IsDigit(s[i])
  {
    if s == [] then 0 else 10 * Value(s[..|s| - 1]) + (s[|s| - 1] as int - '0' as int)
  }

  /** The number of reports is written in decimal, without leading zeros. */
  lemma {:induction false} DecimalTells(n: nat)
    ensures var s := Decimal(n);
            s != "" && (forall i :: 0 <= i < |s| ==> IsDigit(s[i])) && Value(s) == n
            && (n > 0 ==> s[0] != '0')
  {
    if n >= 10 { DecimalTells(n / 10); }
    DigitTells(n % 10);
    var s := Decimal(n);
    assert s[..|s| - 1] == if n < 10 then "" else Decimal(n / 10);
  }

  lemma DigitTells(d: nat)
    requires d < 10
    ensures var c := "0123456789"[d]; IsDigit(c) && c as int == '0' as int + d
  {
  }
}
