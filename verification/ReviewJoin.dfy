/** Evaluating the aggregate of several reports is a join of evaluating each of them. */
module ReviewJoin {
  import opened Common
  import opened CodeReview
  import opened ReviewAggregation
  import opened ReviewAggregationTheorems
  import Ordering

  // ------------------------------------------------------------------ what decides one report

  predicate IsRequired(id: string, c: Context) {
    var k := FirstRequirement(c.requirements, id);
    k < |c.requirements| && c.requirements[k].required
  }

  /** The report's verdict on a required requirement. */
  predicate Says(r: Report, c: Context, id: string, v: Verdict) {
    IsRequired(id, c) && Assesses(r, id) && r.assessments[FirstAssessment(r.assessments, id)].verdict == v
  }

  ghost predicate SomewhereSays(r: Report, c: Context, v: Verdict) { exists id :: Says(r, c, id, v) }

  lemma FirstIsOnly(r: Report, i: nat)
    requires i < |r.assessments| && NoDuplicates(RequirementIds(r.assessments))
    ensures FirstAssessment(r.assessments, r.assessments[i].requirementId) == i
  {
    var k := FirstAssessment(r.assessments, r.assessments[i].requirementId);
    assert RequirementIds(r.assessments)[i] == r.assessments[i].requirementId;
    assert k < |r.assessments| ==> RequirementIds(r.assessments)[k] == RequirementIds(r.assessments)[i];
  }

  lemma RequiredVerdictIsSaid(r: Report, c: Context, v: Verdict)
    requires ValidReport(r, c)
    ensures RequiredVerdict(r, c, v) <==> SomewhereSays(r, c, v)
  {
    forall i | 0 <= i < |r.assessments|
      ensures Says(r, c, r.assessments[i].requirementId, v) <==>
              IsRequired(r.assessments[i].requirementId, c) && r.assessments[i].verdict == v
    {
      FirstIsOnly(r, i);
    }
    forall id | Says(r, c, id, v) ensures RequiredVerdict(r, c, v) {
      var i := FirstAssessment(r.assessments, id);
      assert r.assessments[i].requirementId == id;
    }
  }

  /** The finding at index i is the one that a decision about its id settles. */
  ghost predicate Settled(c: Context, i: nat)
    requires i < |c.findings|
  {
    FirstFinding(c.findings, c.findings[i].findingId) == i && c.findings[i].findingId in ActiveIds(c)
  }

  ghost predicate Answers(r: Report, id: string, status: Status) {
    exists d :: DecidedBy(r.findingDecisions, d, id) && d.status == status
  }

  lemma CoversDecides(r: Report, c: Context, id: string)
    requires Covers(r, c)
    ensures IsDecided(r.findingDecisions, id) <==> id in ActiveIds(c)
  {
    assert id in ActiveIds(c) <==> id in multiset(ActiveIds(c));
    assert id in DecisionIds(r.findingDecisions) <==> id in multiset(DecisionIds(r.findingDecisions));
    if id in DecisionIds(r.findingDecisions) {
      var j :| 0 <= j < |r.findingDecisions| && DecisionIds(r.findingDecisions)[j] == id;
      assert DecidedBy(r.findingDecisions, r.findingDecisions[j], id);
    }
    forall d | DecidedBy(r.findingDecisions, d, id) ensures id in DecisionIds(r.findingDecisions) {
      var j :| 0 <= j < |r.findingDecisions| && r.findingDecisions[j] == d;
      assert DecisionIds(r.findingDecisions)[j] == id;
    }
  }

  ghost predicate LeftOpen(r: Report, c: Context, i: nat)
    requires i < |c.findings|
  {
    var f := c.findings[i];
    Upgraded(f, c).required
    && if Settled(c, i) then Answers(r, f.findingId, Open) || Answers(r, f.findingId, FixSubmitted)
       else f.status.Open? || f.status.FixSubmitted?
  }

  /** No report can change this: a finding it does not decide was resolved for another candidate. */
  ghost predicate Stale(c: Context, i: nat)
    requires i < |c.findings|
  {
    !Settled(c, i) && NeedsRecheck(Upgraded(c.findings[i], c), c)
  }

  predicate Blocking(f: NewFinding, c: Context) { f.required || RequiredFinding(f.requirementId, c) }

  predicate SomeBlocking(fs: seq<NewFinding>, c: Context) { exists j :: 0 <= j < |fs| && Blocking(fs[j], c) }

  ghost predicate Reworks(r: Report, c: Context) {
    || SomewhereSays(r, c, Unsatisfied)
    || SomeLeftOpen(r, c)
    || SomeBlocking(r.newFindings, c)
  }

  ghost predicate SomeLeftOpen(r: Report, c: Context) { exists i :: 0 <= i < |c.findings| && LeftOpen(r, c, i) }

  ghost predicate Holds(r: Report, c: Context) {
    || SomewhereSays(r, c, Undetermined)
    || (exists i :: 0 <= i < |c.findings| && Stale(c, i))
    || c.unresolvedQuestions != []
  }

  lemma OldFindingAfter(r: Report, c: Context, reviewId: string, ids: seq<string>, i: nat)
    requires ValidReport(r, c) && Covers(r, c) && |ids| == |r.newFindings| && i < |c.findings|
    ensures var f := FindingsAfter(r, c, reviewId, ids)[i];
            (Unresolved(f) <==> LeftOpen(r, c, i)) && (NeedsRecheck(f, c) <==> Stale(c, i))
  {
    var ds, id := r.findingDecisions, c.findings[i].findingId;
    DecisionsPointwise(c.findings, ds, c, reviewId, i);
    SameIds(c.findings, ds, c, reviewId);
    CoversDecides(r, c, id);
    if Settled(c, i) {
      var d :| DecidedBy(ds, d, id);
      forall e | DecidedBy(ds, e, id) ensures e == d { OnlyDecision(r, d, e, id); }
    }
  }

  lemma NewFindingAfter(r: Report, c: Context, reviewId: string, ids: seq<string>, j: nat)
    requires |ids| == |r.newFindings| && j < |r.newFindings|
    ensures var f := FindingsAfter(r, c, reviewId, ids)[|c.findings| + j];
            (Unresolved(f) <==> Blocking(r.newFindings[j], c)) && !NeedsRecheck(f, c)
  {
  }

  /** The findings after an evaluation, each old one and each new one as described. */
  ghost predicate OldDescribed(after: seq<Finding>, r: Report, c: Context) {
    |c.findings| <= |after|
    && forall i :: 0 <= i < |c.findings| ==>
         (Unresolved(after[i]) <==> LeftOpen(r, c, i)) && (NeedsRecheck(after[i], c) <==> Stale(c, i))
  }

  ghost predicate NewDescribed(after: seq<Finding>, r: Report, c: Context) {
    |after| == |c.findings| + |r.newFindings|
    && forall i :: |c.findings| <= i < |after| ==>
         (Unresolved(after[i]) <==> Blocking(r.newFindings[i - |c.findings|], c)) && !NeedsRecheck(after[i], c)
  }

  lemma OldIsDescribed(r: Report, c: Context, reviewId: string, ids: seq<string>)
    requires ValidReport(r, c) && Covers(r, c) && |ids| == |r.newFindings|
    ensures OldDescribed(FindingsAfter(r, c, reviewId, ids), r, c)
  {
    var after := FindingsAfter(r, c, reviewId, ids);
    forall i | 0 <= i < |c.findings|
      ensures (Unresolved(after[i]) <==> LeftOpen(r, c, i)) && (NeedsRecheck(after[i], c) <==> Stale(c, i))
    {
      OldFindingAfter(r, c, reviewId, ids, i);
    }
  }

  lemma NewIsDescribed(r: Report, c: Context, reviewId: string, ids: seq<string>)
    requires |ids| == |r.newFindings|
    ensures NewDescribed(FindingsAfter(r, c, reviewId, ids), r, c)
  {
    var after, m := FindingsAfter(r, c, reviewId, ids), |c.findings|;
    forall i | m <= i < |after| ensures (Unresolved(after[i]) <==> Blocking(r.newFindings[i - m], c)) && !NeedsRecheck(after[i], c) {
      NewFindingAfter(r, c, reviewId, ids, i - m);
    }
  }

  lemma DescribedFindings(after: seq<Finding>, r: Report, c: Context)
    requires OldDescribed(after, r, c) && NewDescribed(after, r, c)
    ensures SomeUnresolved(after) <==>
              SomeLeftOpen(r, c) || SomeBlocking(r.newFindings, c)
  {
    var m := |c.findings|;
    if i :| 0 <= i < m && LeftOpen(r, c, i) { assert Unresolved(after[i]); }
    if j :| 0 <= j < |r.newFindings| && Blocking(r.newFindings[j], c) { assert Unresolved(after[m + j]); }
    if i :| 0 <= i < |after| && Unresolved(after[i]) {
      assert i < m || Blocking(r.newFindings[i - m], c);
    }
  }

  lemma DescribedRecheck(after: seq<Finding>, r: Report, c: Context)
    requires OldDescribed(after, r, c) && NewDescribed(after, r, c)
    ensures SomeRecheck(after, c) <==> exists i :: 0 <= i < |c.findings| && Stale(c, i)
  {
    if i :| 0 <= i < |c.findings| && Stale(c, i) { assert NeedsRecheck(after[i], c); }
  }

  lemma DecisionIs(r: Report, c: Context, reviewId: string, ids: seq<string>)
    requires ValidReport(r, c) && Covers(r, c) && |ids| == |r.newFindings|
    ensures Evaluate(r, c, reviewId, ids).decision == if Reworks(r, c) then Rework else if Holds(r, c) then Hold else Pass
  {
    RequiredVerdictIsSaid(r, c, Unsatisfied);
    RequiredVerdictIsSaid(r, c, Undetermined);
    OldIsDescribed(r, c, reviewId, ids);
    NewIsDescribed(r, c, reviewId, ids);
    DescribedFindings(FindingsAfter(r, c, reviewId, ids), r, c);
    DescribedRecheck(FindingsAfter(r, c, reviewId, ids), r, c);
  }

  // ------------------------------------------------------------------ what decides the aggregate

  lemma AggregateSays(reports: seq<Report>, c: Context, id: string, v: Verdict)
    requires Reviewed(reports, c) && AllAssessed(reports, c) && NoDuplicates(Required(c))
    ensures IsRequired(id, c) ==> AllAssess(reports, id)
    ensures Says(AggregateOf(reports, c), c, id, v) <==>
            IsRequired(id, c) && StrongestVerdict(Sources(reports, id)) == v
  {
    if IsRequired(id, c) {
      var i := FirstRequirement(c.requirements, id);
      var r := AggregateOf(reports, c);
      assert RequirementIds(r.assessments) == Required(c);
      assert r.assessments[i].requirementId == id;
      FirstIsOnly(r, i);
    }
  }

  lemma SourceSays(reports: seq<Report>, c: Context, id: string, v: Verdict)
    requires IsRequired(id, c) && AllAssess(reports, id)
    ensures SomeVerdict(Sources(reports, id), v) <==> exists k :: 0 <= k < |reports| && Says(reports[k], c, id, v)
  {
    var sources := Sources(reports, id);
    assert forall k :: 0 <= k < |reports| ==>
        sources[k] == reports[k].assessments[FirstAssessment(reports[k].assessments, id)];
    assert forall k :: 0 <= k < |reports| ==> (Says(reports[k], c, id, v) <==> sources[k].verdict == v);
  }

  ghost predicate AnySays(reports: seq<Report>, c: Context, v: Verdict) {
    exists k :: 0 <= k < |reports| && SomewhereSays(reports[k], c, v)
  }

  lemma AggregateVerdicts(reports: seq<Report>, c: Context)
    requires Reviewed(reports, c) && AllAssessed(reports, c)
    ensures SomewhereSays(AggregateOf(reports, c), c, Unsatisfied) <==> AnySays(reports, c, Unsatisfied)
    ensures !AnySays(reports, c, Unsatisfied) ==>
              (SomewhereSays(AggregateOf(reports, c), c, Undetermined) <==> AnySays(reports, c, Undetermined))
  {
    AllRequirementsAssessed(reports, c);
    var r := AggregateOf(reports, c);
    forall id | IsRequired(id, c)
      ensures Says(r, c, id, Unsatisfied) <==> exists k :: 0 <= k < |reports| && Says(reports[k], c, id, Unsatisfied)
      ensures !Says(r, c, id, Unsatisfied) ==>
                (Says(r, c, id, Undetermined) <==> exists k :: 0 <= k < |reports| && Says(reports[k], c, id, Undetermined))
    {
      AggregateSays(reports, c, id, Unsatisfied);
      AggregateSays(reports, c, id, Undetermined);
      SourceSays(reports, c, id, Unsatisfied);
      SourceSays(reports, c, id, Undetermined);
    }
    ShareVerdict(reports, c, r, Unsatisfied);
    if !AnySays(reports, c, Unsatisfied) { ShareVerdict(reports, c, r, Undetermined); }
  }

  lemma ShareVerdict(reports: seq<Report>, c: Context, r: Report, v: Verdict)
    requires forall id :: IsRequired(id, c) ==>
               (Says(r, c, id, v) <==> exists k :: 0 <= k < |reports| && Says(reports[k], c, id, v))
    ensures SomewhereSays(r, c, v) <==> AnySays(reports, c, v)
  {
    if SomewhereSays(r, c, v) {
      var id :| Says(r, c, id, v);
      var k :| 0 <= k < |reports| && Says(reports[k], c, id, v);
      assert SomewhereSays(reports[k], c, v);
    }
    if AnySays(reports, c, v) {
      var k :| 0 <= k < |reports| && SomewhereSays(reports[k], c, v);
      var id :| Says(reports[k], c, id, v);
      assert Says(r, c, id, v);
    }
  }

  /** The reviewers' answers about a settled finding, and the aggregate's. */
  ghost predicate AllResolve(reports: seq<Report>, id: string) {
    forall k :: 0 <= k < |reports| ==> Answers(reports[k], id, Resolved)
  }

  lemma MergedResolves(reports: seq<Report>, c: Context, id: string)
    requires Reviewed(reports, c) && id in ActiveIds(c)
    ensures MergedDecision(reports, id).status == if AllResolve(reports, id) then Resolved else Open
  {
    var ds := DecisionsAbout(reports, id);
    AllDecideActive(reports, c, id);
    EveryReportDecides(reports, id);
    forall k | 0 <= k < |reports| ensures Answers(reports[k], id, Resolved) <==> ds[k].status.Resolved? {
      assert ValidReport(reports[k], c);
      OnlyAnswer(reports[k], ds[k], id, Resolved);
    }
  }

  lemma OnlyAnswer(r: Report, d: FindingDecision, id: string, status: Status)
    requires NoDuplicates(DecisionIds(r.findingDecisions)) && DecidedBy(r.findingDecisions, d, id)
    ensures Answers(r, id, status) <==> d.status == status
  {
    forall e | DecidedBy(r.findingDecisions, e, id) ensures e == d { OnlyDecision(r, e, d, id); }
  }

  lemma AggregateAnswers(reports: seq<Report>, c: Context, id: string, status: Status)
    requires Reviewed(reports, c) && AllAssessed(reports, c) && id in ActiveIds(c)
    ensures Answers(AggregateOf(reports, c), id, status) <==> status == if AllResolve(reports, id) then Resolved else Open
  {
    var items := AggregateOf(reports, c).findingDecisions;
    MergedResolves(reports, c, id);
    forall d | DecidedBy(items, d, id) ensures d == MergedDecision(reports, id) {
    }
    var i :| 0 <= i < |ActiveIds(c)| && ActiveIds(c)[i] == id;
    assert items[i] == MergedDecision(reports, id);
    assert DecidedBy(items, items[i], id);
  }

  lemma OnlyFourAnswers(r: Report, c: Context, id: string)
    requires ValidReport(r, c) && Covers(r, c) && id in ActiveIds(c)
    ensures Answers(r, id, Resolved) <==>
            !(Answers(r, id, Open) || Answers(r, id, FixSubmitted) || Answers(r, id, Withdrawn))
  {
    CoversDecides(r, c, id);
    var d :| DecidedBy(r.findingDecisions, d, id);
    forall status ensures Answers(r, id, status) <==> d.status == status { OnlyAnswer(r, d, id, status); }
  }

  /** Some reviewer answers WITHDRAWN about a finding that must be resolved. */
  ghost predicate WithdrawsRequired(reports: seq<Report>, c: Context) {
    exists k, i :: 0 <= k < |reports| && 0 <= i < |c.findings| && WithdrawsAt(reports[k], c, i)
  }

  ghost predicate WithdrawsAt(r: Report, c: Context, i: nat)
    requires i < |c.findings|
  {
    Settled(c, i) && Upgraded(c.findings[i], c).required && Answers(r, c.findings[i].findingId, Withdrawn)
  }

  lemma AggregateLeavesOpen(reports: seq<Report>, c: Context, i: nat)
    requires Reviewed(reports, c) && AllAssessed(reports, c) && i < |c.findings|
    ensures LeftOpen(AggregateOf(reports, c), c, i) <==>
            exists k :: 0 <= k < |reports| && (LeftOpen(reports[k], c, i) || WithdrawsAt(reports[k], c, i))
  {
    var id := c.findings[i].findingId;
    if Settled(c, i) {
      AggregateAnswers(reports, c, id, Open);
      AggregateAnswers(reports, c, id, FixSubmitted);
      forall k | 0 <= k < |reports|
        ensures !Answers(reports[k], id, Resolved) && Upgraded(c.findings[i], c).required <==>
                LeftOpen(reports[k], c, i) || WithdrawsAt(reports[k], c, i)
      {
        OnlyFourAnswers(reports[k], c, id);
      }
    } else {
      assert LeftOpen(AggregateOf(reports, c), c, i) <==> LeftOpen(reports[0], c, i);
    }
  }

  lemma {:induction false} MergedNewsBlock(fs: seq<NewFinding>, c: Context)
    ensures SomeBlocking(MergedNews(fs), c) <==> SomeBlocking(fs, c)
  {
    if fs != [] {
      var n := |fs| - 1;
      var front, last := MergedNews(fs[..n]), fs[n];
      assert fs == fs[..n] + [last];
      MergedNewsBlock(fs[..n], c);
      AddedBlocks(front, last, c);
      assert SomeBlocking(fs, c) <==> SomeBlocking(fs[..n], c) || Blocking(last, c);
    }
  }

  lemma AddedBlocks(fs: seq<NewFinding>, f: NewFinding, c: Context)
    ensures SomeBlocking(AddNew(fs, f), c) <==> SomeBlocking(fs, c) || Blocking(f, c)
  {
    var k, now := KeyIndex(fs, f), AddNew(fs, f);
    assert |now| >= |fs| && forall i :: 0 <= i < |fs| && i != k ==> now[i] == fs[i];
    if k < |fs| {
      assert Blocking(now[k], c) <==> Blocking(fs[k], c) || Blocking(f, c);
      forall i | 0 <= i < |fs| && Blocking(fs[i], c) ensures Blocking(now[i], c) {
      }
    } else {
      assert now == fs + [f] && now[|fs|] == f;
      forall i | 0 <= i < |fs| && Blocking(fs[i], c) ensures Blocking(now[i], c) {
      }
    }
  }

  lemma AggregateNewsBlock(reports: seq<Report>, c: Context)
    requires AllAssessed(reports, c)
    ensures SomeBlocking(AggregateOf(reports, c).newFindings, c) <==>
            exists k :: 0 <= k < |reports| && SomeBlocking(reports[k].newFindings, c)
  {
    var all := Flat(News(reports));
    MergedNewsBlock(all, c);
    if j :| 0 <= j < |all| && Blocking(all[j], c) {
      InFlat(News(reports), all[j]);
      var k :| 0 <= k < |reports| && all[j] in News(reports)[k];
      assert SomeBlocking(reports[k].newFindings, c);
    }
    forall k | 0 <= k < |reports| && SomeBlocking(reports[k].newFindings, c) ensures SomeBlocking(all, c) {
      var j :| 0 <= j < |reports[k].newFindings| && Blocking(reports[k].newFindings[j], c);
      InFlat(News(reports), reports[k].newFindings[j]);
      assert reports[k].newFindings[j] in News(reports)[k];
    }
  }

  ghost predicate AnyReworks(reports: seq<Report>, c: Context) {
    exists k :: 0 <= k < |reports| && Reworks(reports[k], c)
  }

  ghost predicate AnyHolds(reports: seq<Report>, c: Context) {
    exists k :: 0 <= k < |reports| && Holds(reports[k], c)
  }

  lemma AggregateOpenFindings(reports: seq<Report>, c: Context)
    requires Reviewed(reports, c) && AllAssessed(reports, c)
    ensures SomeLeftOpen(AggregateOf(reports, c), c) <==>
            (exists k :: 0 <= k < |reports| && SomeLeftOpen(reports[k], c)) || WithdrawsRequired(reports, c)
  {
    var r := AggregateOf(reports, c);
    forall i | 0 <= i < |c.findings| && LeftOpen(r, c, i)
      ensures (exists k :: 0 <= k < |reports| && SomeLeftOpen(reports[k], c)) || WithdrawsRequired(reports, c)
    {
      AggregateLeavesOpen(reports, c, i);
      var k :| 0 <= k < |reports| && (LeftOpen(reports[k], c, i) || WithdrawsAt(reports[k], c, i));
      assert LeftOpen(reports[k], c, i) ==> SomeLeftOpen(reports[k], c);
    }
    forall k, i | 0 <= k < |reports| && 0 <= i < |c.findings| && (LeftOpen(reports[k], c, i) || WithdrawsAt(reports[k], c, i))
      ensures SomeLeftOpen(r, c)
    {
      AggregateLeavesOpen(reports, c, i);
      assert LeftOpen(r, c, i);
    }
  }

  lemma AggregateReworks(reports: seq<Report>, c: Context)
    requires Reviewed(reports, c) && AllAssessed(reports, c)
    ensures Reworks(AggregateOf(reports, c), c) <==> AnyReworks(reports, c) || WithdrawsRequired(reports, c)
  {
    AggregateVerdicts(reports, c);
    AggregateNewsBlock(reports, c);
    AggregateOpenFindings(reports, c);
  }

  lemma AggregateHolds(reports: seq<Report>, c: Context)
    requires Reviewed(reports, c) && AllAssessed(reports, c) && !AnyReworks(reports, c)
    ensures Holds(AggregateOf(reports, c), c) <==> AnyHolds(reports, c)
  {
    AggregateVerdicts(reports, c);
    assert Holds(reports[0], c) ==> AnyHolds(reports, c);
  }

  // ------------------------------------------------------------------ the join

  function Rank(d: Decision): nat { match d case Pass => 0 case Hold => 1 case Rework => 2 }

  /** The decision of evaluating a report; it does not depend on the review id or the ids of new findings. */
  function DecisionOn(r: Report, c: Context): Decision {
    Evaluate(r, c, "", seq(|r.newFindings|, i => "")).decision
  }

  lemma NamesDoNotMatter(r: Report, c: Context, reviewId: string, ids: seq<string>)
    requires ValidReport(r, c) && Covers(r, c) && |ids| == |r.newFindings|
    ensures Evaluate(r, c, reviewId, ids).decision == DecisionOn(r, c)
  {
    DecisionIs(r, c, reviewId, ids);
    DecisionIs(r, c, "", seq(|r.newFindings|, i => ""));
  }

  function Decisions(reports: seq<Report>, c: Context): seq<Decision> {
    seq(|reports|, k requires 0 <= k < |reports| => DecisionOn(reports[k], c))
  }

  /** d is the most severe of the decisions. */
  ghost predicate Joins(d: Decision, ds: seq<Decision>) {
    d in ds && forall k :: 0 <= k < |ds| ==> Rank(ds[k]) <= Rank(d)
  }

  lemma OneDecision(r: Report, c: Context)
    requires ValidReport(r, c) && Covers(r, c)
    ensures DecisionOn(r, c) == if Reworks(r, c) then Rework else if Holds(r, c) then Hold else Pass
  {
    DecisionIs(r, c, "", seq(|r.newFindings|, i => ""));
  }

  /** One report's part in the decision, as a value. */
  ghost function Part(r: Report, c: Context): Decision {
    if Reworks(r, c) then Rework else if Holds(r, c) then Hold else Pass
  }

  lemma DecisionsAreParts(reports: seq<Report>, c: Context)
    requires Reviewed(reports, c)
    ensures forall k :: 0 <= k < |reports| ==> Decisions(reports, c)[k] == Part(reports[k], c)
  {
    forall k | 0 <= k < |reports| ensures Decisions(reports, c)[k] == Part(reports[k], c) {
      OneDecision(reports[k], c);
    }
  }

  lemma PartsAmong(reports: seq<Report>, c: Context, ds: seq<Decision>)
    requires |ds| == |reports| && forall k :: 0 <= k < |ds| ==> ds[k] == Part(reports[k], c)
    ensures Rework in ds <==> AnyReworks(reports, c)
    ensures !AnyReworks(reports, c) ==> (Hold in ds <==> AnyHolds(reports, c))
  {
    forall k | 0 <= k < |ds|
      ensures (ds[k] == Rework <==> Reworks(reports[k], c)) && (ds[k] == Hold <==> !Reworks(reports[k], c) && Holds(reports[k], c))
    {
    }
    if AnyReworks(reports, c) {
      var k :| 0 <= k < |reports| && Reworks(reports[k], c);
      assert ds[k] == Rework;
    } else if AnyHolds(reports, c) {
      var k :| 0 <= k < |reports| && Holds(reports[k], c);
      assert ds[k] == Hold;
    }
  }

  lemma EachDecision(reports: seq<Report>, c: Context)
    requires Reviewed(reports, c)
    ensures Rework in Decisions(reports, c) <==> AnyReworks(reports, c)
    ensures !AnyReworks(reports, c) ==> (Hold in Decisions(reports, c) <==> AnyHolds(reports, c))
  {
    DecisionsAreParts(reports, c);
    PartsAmong(reports, c, Decisions(reports, c));
  }

  lemma AggregateDecision(reports: seq<Report>, c: Context)
    requires Reviewed(reports, c)
    ensures AllAssessed(reports, c)
    ensures DecisionOn(AggregateOf(reports, c), c)
            == if Rework in Decisions(reports, c) || WithdrawsRequired(reports, c) then Rework
               else if Hold in Decisions(reports, c) then Hold else Pass
  {
    AggregateIsValid(reports, c);
    OneDecision(AggregateOf(reports, c), c);
    EachDecision(reports, c);
    AggregateReworks(reports, c);
    if !AnyReworks(reports, c) { AggregateHolds(reports, c); }
  }

  lemma MostSevere(d: Decision, ds: seq<Decision>, withdraws: bool)
    requires ds != [] && d == if Rework in ds || withdraws then Rework else if Hold in ds then Hold else Pass
    ensures forall k :: 0 <= k < |ds| ==> Rank(ds[k]) <= Rank(d)
    ensures Joins(d, ds) <==> (!withdraws || Rework in ds)
  {
    assert ds[0] in ds;
    forall k | 0 <= k < |ds| ensures Rank(ds[k]) <= Rank(d) { assert ds[k] in ds; }
  }

  /** Evaluating the aggregate is never less severe than evaluating any one report, and it is exactly the most
      severe of them unless some reviewer answers WITHDRAWN on a required finding and none alone asks for rework. */
  lemma AggregationIsAJoin(reports: seq<Report>, c: Context)
    requires Reviewed(reports, c)
    ensures AllAssessed(reports, c)
    ensures var d, ds := DecisionOn(AggregateOf(reports, c), c), Decisions(reports, c);
            && (forall k :: 0 <= k < |ds| ==> Rank(ds[k]) <= Rank(d))
            && (WithdrawsRequired(reports, c) ==> d == Rework)
            && (Joins(d, ds) <==> (!WithdrawsRequired(reports, c) || Rework in ds))
  {
    AggregateDecision(reports, c);
    MostSevere(DecisionOn(AggregateOf(reports, c), c), Decisions(reports, c), WithdrawsRequired(reports, c));
  }

  // ------------------------------------------------------------------ order and repetition

  ghost predicate SameReports(a: seq<Report>, b: seq<Report>) { forall r :: r in a <==> r in b }

  lemma MoreReports(a: seq<Report>, b: seq<Report>, c: Context)
    requires forall r :: r in a ==> r in b
    ensures forall d :: d in Decisions(a, c) ==> d in Decisions(b, c)
    ensures WithdrawsRequired(a, c) ==> WithdrawsRequired(b, c)
  {
    forall k | 0 <= k < |a| ensures exists j :: 0 <= j < |b| && b[j] == a[k] { assert a[k] in b; }
    forall k | 0 <= k < |a| ensures Decisions(a, c)[k] in Decisions(b, c) {
      var j :| 0 <= j < |b| && b[j] == a[k];
      assert Decisions(b, c)[j] == Decisions(a, c)[k];
    }
  }

  lemma MoreSources(a: seq<Report>, b: seq<Report>, id: string)
    requires AllAssess(a, id) && AllAssess(b, id) && forall r :: r in a ==> r in b
    ensures forall k :: 0 <= k < |a| ==> Sources(a, id)[k] in Sources(b, id)
  {
    forall k | 0 <= k < |a| ensures Sources(a, id)[k] in Sources(b, id) {
      assert a[k] in b;
      var j :| 0 <= j < |b| && b[j] == a[k];
      assert Sources(b, id)[j] == Sources(a, id)[k];
    }
  }

  lemma MoreRefs(a: seq<Assessment>, b: seq<Assessment>)
    requires forall k :: 0 <= k < |a| ==> a[k] in b
    ensures forall v :: SomeVerdict(a, v) ==> SomeVerdict(b, v)
    ensures forall x :: x in Flat(AssessmentRefs(a)) ==> x in Flat(AssessmentRefs(b))
  {
    forall x | x in Flat(AssessmentRefs(a)) ensures x in Flat(AssessmentRefs(b)) {
      InFlat(AssessmentRefs(a), x);
      InFlat(AssessmentRefs(b), x);
      var k :| 0 <= k < |a| && x in AssessmentRefs(a)[k];
      var j :| 0 <= j < |b| && b[j] == a[k];
      assert AssessmentRefs(b)[j] == AssessmentRefs(a)[k];
    }
  }

  predicate SameAssessment(x: Assessment, y: Assessment) {
    x.requirementId == y.requirementId && x.verdict == y.verdict
    && (forall id <- x.evidenceRefs :: id in y.evidenceRefs) && (forall id <- y.evidenceRefs :: id in x.evidenceRefs)
  }

  lemma MergedTheSame(a: seq<Report>, b: seq<Report>, id: string)
    requires AllAssess(a, id) && AllAssess(b, id) && SameReports(a, b)
    ensures SameAssessment(MergedAssessment(a, id), MergedAssessment(b, id))
  {
    MoreSources(a, b, id);
    MoreSources(b, a, id);
    MoreRefs(Sources(a, id), Sources(b, id));
    MoreRefs(Sources(b, id), Sources(a, id));
  }

  predicate SameDecision(x: FindingDecision, y: FindingDecision) {
    x.findingId == y.findingId && x.status == y.status
    && (forall id <- x.evidenceRefs :: id in y.evidenceRefs) && (forall id <- y.evidenceRefs :: id in x.evidenceRefs)
  }

  lemma MoreResolve(a: seq<Report>, b: seq<Report>, id: string)
    requires forall r :: r in a ==> r in b
    ensures AllResolve(b, id) ==> AllResolve(a, id)
    ensures forall x :: SomeoneCites(a, id, x) ==> SomeoneCites(b, id, x)
  {
    forall k | 0 <= k < |a| ensures exists j :: 0 <= j < |b| && b[j] == a[k] { assert a[k] in b; }
    forall x | SomeoneCites(a, id, x) ensures SomeoneCites(b, id, x) {
      var k, d :| 0 <= k < |a| && DecidedBy(a[k].findingDecisions, d, id) && x in d.evidenceRefs;
      var j :| 0 <= j < |b| && b[j] == a[k];
      assert DecidedBy(b[j].findingDecisions, d, id);
    }
  }

  lemma DecidedTheSame(a: seq<Report>, b: seq<Report>, c: Context, id: string)
    requires Reviewed(a, c) && Reviewed(b, c) && SameReports(a, b) && id in ActiveIds(c)
    ensures SameDecision(MergedDecision(a, id), MergedDecision(b, id))
  {
    MoreResolve(a, b, id);
    MoreResolve(b, a, id);
    MergedResolves(a, c, id);
    MergedResolves(b, c, id);
    forall x ensures x in MergedDecision(a, id).evidenceRefs <==> x in MergedDecision(b, id).evidenceRefs {
      DecisionGathersEvidence(a, c, id, x);
      DecisionGathersEvidence(b, c, id, x);
    }
  }

  predicate SameNew(g: NewFinding, h: NewFinding) {
    SameKey(g, h) && g.required == h.required
    && (forall id <- g.evidenceRefs :: id in h.evidenceRefs) && (forall id <- h.evidenceRefs :: id in g.evidenceRefs)
  }

  lemma StandsAlike(g: NewFinding, h: NewFinding, fs: seq<NewFinding>, gs: seq<NewFinding>)
    requires StandsFor(g, fs) && StandsFor(h, gs) && SameKey(g, h) && forall f :: f in fs <==> f in gs
    ensures SameNew(g, h)
  {
    assert forall f :: SameKey(f, g) <==> SameKey(f, h);
  }

  lemma AlikeAt(ms: seq<NewFinding>, fs: seq<NewFinding>, ns: seq<NewFinding>, gs: seq<NewFinding>, i: nat) returns (j: nat)
    requires MergeOf(ms, fs) && MergeOf(ns, gs) && i < |ms| && forall f :: f in fs <==> f in gs
    ensures j < |ns| && SameNew(ms[i], ns[j])
  {
    assert StandsFor(ms[i], fs);
    var f :| f in fs && SameKey(f, ms[i]);
    j := KeyIndex(ns, f);
    assert StandsFor(ns[j], gs);
    StandsAlike(ms[i], ns[j], fs, gs);
  }

  ghost predicate EachAlike(ms: seq<NewFinding>, ns: seq<NewFinding>) {
    forall g <- ms :: exists h <- ns :: SameNew(g, h)
  }

  lemma AllAlike(ms: seq<NewFinding>, fs: seq<NewFinding>, ns: seq<NewFinding>, gs: seq<NewFinding>)
    requires MergeOf(ms, fs) && MergeOf(ns, gs) && forall f :: f in fs <==> f in gs
    ensures EachAlike(ms, ns)
  {
    forall g | g in ms ensures exists h <- ns :: SameNew(g, h) {
      var i :| 0 <= i < |ms| && ms[i] == g;
      var j := AlikeAt(ms, fs, ns, gs, i);
      assert ns[j] in ns;
    }
  }

  lemma MergedAlike(fs: seq<NewFinding>, gs: seq<NewFinding>)
    requires forall f :: f in fs <==> f in gs
    ensures EachAlike(MergedNews(fs), MergedNews(gs))
  {
    NewsAreMerged(fs);
    NewsAreMerged(gs);
    AllAlike(MergedNews(fs), fs, MergedNews(gs), gs);
  }

  lemma MoreNews(a: seq<Report>, b: seq<Report>)
    requires forall r :: r in a ==> r in b
    ensures forall f :: f in Flat(News(a)) ==> f in Flat(News(b))
  {
    forall f | f in Flat(News(a)) ensures f in Flat(News(b)) {
      InFlat(News(a), f);
      InFlat(News(b), f);
      var k :| 0 <= k < |a| && f in News(a)[k];
      assert a[k] in b;
      var j :| 0 <= j < |b| && b[j] == a[k];
      assert f in News(b)[j];
    }
  }

  lemma NewsTheSame(a: seq<Report>, b: seq<Report>)
    requires SameReports(a, b)
    ensures EachAlike(MergedNews(Flat(News(a))), MergedNews(Flat(News(b))))
    ensures EachAlike(MergedNews(Flat(News(b))), MergedNews(Flat(News(a))))
  {
    MoreNews(a, b);
    MoreNews(b, a);
    MergedAlike(Flat(News(a)), Flat(News(b)));
    MergedAlike(Flat(News(b)), Flat(News(a)));
  }

  /** Equal up to the order of new findings and of evidence references. */
  ghost predicate SameReport(x: Report, y: Report) {
    && |x.assessments| == |y.assessments|
    && (forall i :: 0 <= i < |x.assessments| ==> SameAssessment(x.assessments[i], y.assessments[i]))
    && |x.findingDecisions| == |y.findingDecisions|
    && (forall i :: 0 <= i < |x.findingDecisions| ==> SameDecision(x.findingDecisions[i], y.findingDecisions[i]))
    && EachAlike(x.newFindings, y.newFindings) && EachAlike(y.newFindings, x.newFindings)
  }

  lemma AggregatesTheSame(a: seq<Report>, b: seq<Report>, c: Context)
    requires Reviewed(a, c) && Reviewed(b, c) && SameReports(a, b) && AllAssessed(a, c) && AllAssessed(b, c)
    ensures SameReport(AggregateOf(a, c), AggregateOf(b, c))
  {
    forall i | 0 <= i < |c.requirements|
      ensures SameAssessment(AggregateOf(a, c).assessments[i], AggregateOf(b, c).assessments[i])
    {
      MergedTheSame(a, b, c.requirements[i].requirementId);
    }
    var active := ActiveFindings(c.findings);
    forall i | 0 <= i < |active|
      ensures SameDecision(AggregateOf(a, c).findingDecisions[i], AggregateOf(b, c).findingDecisions[i])
    {
      assert ActiveIds(c)[i] in ActiveIds(c);
      DecidedTheSame(a, b, c, ActiveIds(c)[i]);
    }
    NewsTheSame(a, b);
  }

  /** Neither the order of the reports nor repeating one changes the decision, any merged verdict or finding
      decision, the set of merged new findings, or the sets of evidence behind them. */
  lemma OrderDoesNotMatter(a: seq<Report>, b: seq<Report>, c: Context)
    requires Reviewed(a, c) && Reviewed(b, c) && SameReports(a, b)
    ensures AllAssessed(a, c) && AllAssessed(b, c)
    ensures DecisionOn(AggregateOf(a, c), c) == DecisionOn(AggregateOf(b, c), c)
    ensures SameReport(AggregateOf(a, c), AggregateOf(b, c))
  {
    AggregateDecision(a, c);
    AggregateDecision(b, c);
    MoreReports(a, b, c);
    MoreReports(b, a, c);
    AggregatesTheSame(a, b, c);
  }

  // ------------------------------------------------------------------ disagreement

  datatype VerdictOf = VerdictOf(requirementId: string, verdict: Verdict)
  datatype StatusOf = StatusOf(findingId: string, status: Status)
  datatype NewOf = NewOf(requirementId: string, problem: string, resolutionCriteria: string, required: bool)
  datatype Fingerprint = Fingerprint(verdicts: seq<VerdictOf>, statuses: seq<StatusOf>, news: seq<NewOf>)

  function VerdictsOf(r: Report): seq<VerdictOf> {
    seq(|r.assessments|, i requires 0 <= i < |r.assessments| =>
      VerdictOf(r.assessments[i].requirementId, r.assessments[i].verdict))
  }

  function StatusesOf(r: Report): seq<StatusOf> {
    seq(|r.findingDecisions|, i requires 0 <= i < |r.findingDecisions| =>
      StatusOf(r.findingDecisions[i].findingId, r.findingDecisions[i].status))
  }

  function NewsOf(r: Report): seq<NewOf> {
    seq(|r.newFindings|, i requires 0 <= i < |r.newFindings| =>
      var f := r.newFindings[i]; NewOf(f.requirementId, f.problem, f.resolutionCriteria, f.required))
  }

  /** reviewFingerprint before hashing; `byHash` orders new findings by the hash of their projection. */
  function ReviewFingerprint(r: Report, leq: (string, string) -> bool, byHash: (NewOf, NewOf) -> bool): Fingerprint {
    Fingerprint(Ordering.SortBy(VerdictsOf(r), (v: VerdictOf) => v.requirementId, leq),
                Ordering.SortBy(StatusesOf(r), (d: StatusOf) => d.findingId, leq),
                Ordering.SortBy(NewsOf(r), (n: NewOf) => n, byHash))
  }

  predicate Disagree(reports: seq<Report>, leq: (string, string) -> bool, byHash: (NewOf, NewOf) -> bool) {
    |reports| >= 2 && exists k :: 1 <= k < |reports| && ReviewFingerprint(reports[k], leq, byHash) != ReviewFingerprint(reports[0], leq, byHash)
  }

  lemma VerdictIsPrinted(r: Report, c: Context, id: string, v: Verdict)
    requires NoDuplicates(RequirementIds(r.assessments))
    ensures Says(r, c, id, v) <==> IsRequired(id, c) && VerdictOf(id, v) in VerdictsOf(r)
  {
    if Assesses(r, id) {
      var k := FirstAssessment(r.assessments, id);
      assert VerdictsOf(r)[k] == VerdictOf(id, r.assessments[k].verdict);
    }
    if VerdictOf(id, v) in VerdictsOf(r) {
      var i :| 0 <= i < |r.assessments| && VerdictsOf(r)[i] == VerdictOf(id, v);
      FirstIsOnly(r, i);
    }
  }

  lemma StatusIsPrinted(r: Report, id: string, status: Status)
    ensures Answers(r, id, status) <==> StatusOf(id, status) in StatusesOf(r)
  {
    if Answers(r, id, status) {
      var d :| DecidedBy(r.findingDecisions, d, id) && d.status == status;
      var i :| 0 <= i < |r.findingDecisions| && r.findingDecisions[i] == d;
      assert StatusesOf(r)[i] == StatusOf(id, status);
    }
    if StatusOf(id, status) in StatusesOf(r) {
      var i :| 0 <= i < |r.findingDecisions| && StatusesOf(r)[i] == StatusOf(id, status);
      assert DecidedBy(r.findingDecisions, r.findingDecisions[i], id);
    }
  }

  predicate NewBlocks(n: NewOf, c: Context) { n.required || RequiredFinding(n.requirementId, c) }

  lemma NewIsPrinted(r: Report, c: Context)
    ensures SomeBlocking(r.newFindings, c) <==> exists n :: n in NewsOf(r) && NewBlocks(n, c)
  {
    assert forall i :: 0 <= i < |r.newFindings| ==> (Blocking(r.newFindings[i], c) <==> NewBlocks(NewsOf(r)[i], c));
    if i :| 0 <= i < |r.newFindings| && Blocking(r.newFindings[i], c) {
      assert NewsOf(r)[i] in NewsOf(r);
    }
  }

  ghost predicate SamePrint(r: Report, q: Report) {
    && multiset(VerdictsOf(r)) == multiset(VerdictsOf(q)) && multiset(StatusesOf(r)) == multiset(StatusesOf(q))
    && multiset(NewsOf(r)) == multiset(NewsOf(q))
  }

  lemma PrintedParts(r: Report, q: Report)
    requires SamePrint(r, q)
    ensures forall v :: v in VerdictsOf(r) <==> v in VerdictsOf(q)
    ensures forall d :: d in StatusesOf(r) <==> d in StatusesOf(q)
    ensures forall n :: n in NewsOf(r) <==> n in NewsOf(q)
  {
    forall v ensures v in VerdictsOf(r) <==> v in VerdictsOf(q) {
      assert v in VerdictsOf(r) <==> v in multiset(VerdictsOf(r));
      assert v in VerdictsOf(q) <==> v in multiset(VerdictsOf(q));
    }
    forall d ensures d in StatusesOf(r) <==> d in StatusesOf(q) {
      assert d in StatusesOf(r) <==> d in multiset(StatusesOf(r));
      assert d in StatusesOf(q) <==> d in multiset(StatusesOf(q));
    }
    forall n ensures n in NewsOf(r) <==> n in NewsOf(q) {
      assert n in NewsOf(r) <==> n in multiset(NewsOf(r));
      assert n in NewsOf(q) <==> n in multiset(NewsOf(q));
    }
  }

  lemma SamePrintSameTests(r: Report, q: Report, c: Context)
    requires ValidReport(r, c) && ValidReport(q, c) && SamePrint(r, q)
    ensures forall v :: SomewhereSays(r, c, v) <==> SomewhereSays(q, c, v)
    ensures SomeBlocking(r.newFindings, c) <==> SomeBlocking(q.newFindings, c)
    ensures forall i :: 0 <= i < |c.findings| ==> (LeftOpen(r, c, i) <==> LeftOpen(q, c, i))
  {
    PrintedParts(r, q);
    forall id, v ensures Says(r, c, id, v) <==> Says(q, c, id, v) {
      VerdictIsPrinted(r, c, id, v);
      VerdictIsPrinted(q, c, id, v);
    }
    NewIsPrinted(r, c);
    NewIsPrinted(q, c);
    forall id, status ensures Answers(r, id, status) <==> Answers(q, id, status) {
      StatusIsPrinted(r, id, status);
      StatusIsPrinted(q, id, status);
    }
  }

  lemma SameFingerprintSamePrint(r: Report, q: Report, leq: (string, string) -> bool, byHash: (NewOf, NewOf) -> bool)
    requires ReviewFingerprint(r, leq, byHash) == ReviewFingerprint(q, leq, byHash)
    ensures SamePrint(r, q)
  {
  }

  lemma SamePrintSameDecision(r: Report, q: Report, c: Context)
    requires ValidReport(r, c) && ValidReport(q, c) && Covers(r, c) && Covers(q, c) && SamePrint(r, q)
    ensures DecisionOn(r, c) == DecisionOn(q, c)
  {
    SamePrintSameTests(r, q, c);
    OneDecision(r, c);
    OneDecision(q, c);
  }

  lemma SameFingerprintSameDecision(
      r: Report, q: Report, c: Context, leq: (string, string) -> bool, byHash: (NewOf, NewOf) -> bool)
    requires ValidReport(r, c) && ValidReport(q, c) && Covers(r, c) && Covers(q, c)
    requires ReviewFingerprint(r, leq, byHash) == ReviewFingerprint(q, leq, byHash)
    ensures DecisionOn(r, c) == DecisionOn(q, c)
  {
    SameFingerprintSamePrint(r, q, leq, byHash);
    SamePrintSameDecision(r, q, c);
  }

  /** Reports that evaluate differently always disagree, whatever the evidence and reasons they carry, so the
      round in which reviewers see each other's work is never skipped for them. */
  lemma DifferentDecisionsDisagree(
      reports: seq<Report>, c: Context, leq: (string, string) -> bool, byHash: (NewOf, NewOf) -> bool, k: nat)
    requires Reviewed(reports, c) && 1 <= k < |reports| && DecisionOn(reports[k], c) != DecisionOn(reports[0], c)
    ensures Disagree(reports, leq, byHash)
  {
    var r, q := reports[k], reports[0];
    if ReviewFingerprint(r, leq, byHash) == ReviewFingerprint(q, leq, byHash) {
      SameFingerprintSameDecision(r, q, c, leq, byHash);
    }
  }
}
