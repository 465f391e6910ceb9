/** Aggregating reports commutes with validating and evaluating them. */
module ReviewAggregationTheorems {
  import opened Common
  import opened CodeReview
  import opened ReviewAggregation

  // ------------------------------------------------------------------ counting

  lemma {:induction false} DistinctCount(s: seq<string>)
    ensures |set x | x in s| <= |s|
    ensures |set x | x in s| == |s| <==> NoDuplicates(s)
  {
    if s != [] {
      var n := |s| - 1;
      DistinctCount(s[..n]);
      assert s == s[..n] + [s[n]];
      assert (set x | x in s) == (set x | x in s[..n]) + {s[n]};
      if s[n] in s[..n] {
        var k :| 0 <= k < n && s[k] == s[n];
      } else {
        assert NoDuplicates(s[..n]) ==> NoDuplicates(s);
      }
    }
  }

  /** n distinct names all taken from n names use each of them, and those are distinct too. */
  lemma Pigeonhole(a: seq<string>, b: seq<string>)
    requires |a| == |b| && NoDuplicates(a) && forall x :: x in a ==> x in b
    ensures NoDuplicates(b) && forall x :: x in b ==> x in a
  {
    DistinctCount(a);
    DistinctCount(b);
    var sa, sb := set x | x in a, set x | x in b;
    assert sa <= sb;
    SameCardinality(sa, sb);
    assert forall x :: x in b ==> x in sb;
  }

  lemma SameCardinality(a: set<string>, b: set<string>)
    requires a <= b && |a| >= |b|
    ensures a == b
  {
    assert |b - a| == |b| - |a|;
  }

  lemma CountedOnce(s: seq<string>, k: nat)
    requires k < |s| && NoDuplicates(s)
    ensures multiset(s)[s[k]] == 1
  {
    var before, after := s[..k], s[k + 1..];
    assert s == before + [s[k]] + after;
    assert s[k] !in before && s[k] !in after;
    assert multiset(s) == multiset(before) + multiset{s[k]} + multiset(after);
  }

  lemma CountedTwice(s: seq<string>, i: nat, j: nat)
    requires i < j < |s| && s[i] == s[j]
    ensures multiset(s)[s[i]] >= 2
  {
    var before, rest := s[..j], s[j..];
    assert s == before + rest;
    assert before[i] in multiset(before) && rest[0] in multiset(rest);
  }

  lemma DistinctIsMultiset(s: seq<string>)
    ensures NoDuplicates(s) <==> forall x :: x in s ==> multiset(s)[x] == 1
  {
    if NoDuplicates(s) {
      forall k | 0 <= k < |s| ensures multiset(s)[s[k]] == 1 { CountedOnce(s, k); }
    }
    forall i, j | 0 <= i < j < |s| && s[i] == s[j] ensures multiset(s)[s[i]] >= 2 { CountedTwice(s, i, j); }
  }

  // ------------------------------------------------------------------ reports under their own request

  function Restamped(r: Report, c: Context): Report { r.(requestId := c.requestId) }

  function OwnContext(r: Report, c: Context): Context { c.(requestId := r.requestId) }

  lemma RestampedIsValid(r: Report, c: Context)
    ensures ValidReport(r, OwnContext(r, c)) <==> ValidReport(Restamped(r, c), c)
  {
    var d := OwnContext(r, c);
    forall a: Assessment ensures ValidAssessment(a, c) == ValidAssessment(a, d) { SameSupport(a, c, d); }
    forall refs, some ensures ValidRefs(refs, c, some) == ValidRefs(refs, d, some) { SameRefs(refs, c, d, some); }
  }

  // ------------------------------------------------------------------ aggregation preserves validity

  /** What the aggregate is made from: valid reports that decide exactly the active findings. */
  ghost predicate Reviewed(reports: seq<Report>, c: Context) {
    reports != [] && forall k :: 0 <= k < |reports| ==> ValidReport(reports[k], c) && Covers(reports[k], c)
  }

  function Required(c: Context): seq<string> {
    seq(|c.requirements|, i requires 0 <= i < |c.requirements| => c.requirements[i].requirementId)
  }

  /** A valid report has exactly one assessment a requirement. */
  lemma EveryRequirementAssessed(r: Report, c: Context)
    requires ValidReport(r, c)
    ensures NoDuplicates(Required(c))
    ensures forall id :: id in Required(c) ==> Assesses(r, id) && NonBlank(id)
  {
    var a, b := RequirementIds(r.assessments), Required(c);
    forall x | x in a ensures x in b && NonBlank(x) {
      var i :| 0 <= i < |a| && a[i] == x;
      assert ValidAssessment(r.assessments[i], c);
      assert b[FirstRequirement(c.requirements, x)] == x;
    }
    Pigeonhole(a, b);
    forall id | id in b ensures Assesses(r, id) {
      var i :| 0 <= i < |a| && a[i] == id;
      assert r.assessments[i].requirementId == id;
    }
  }

  lemma AllRequirementsAssessed(reports: seq<Report>, c: Context)
    requires Reviewed(reports, c)
    ensures AllAssessed(reports, c) && NoDuplicates(Required(c))
    ensures forall id :: id in Required(c) ==> AllAssess(reports, id) && NonBlank(id)
  {
    forall k | 0 <= k < |reports|
      ensures NoDuplicates(Required(c)) && forall id :: id in Required(c) ==> Assesses(reports[k], id) && NonBlank(id)
    {
      EveryRequirementAssessed(reports[k], c);
    }
    assert NoDuplicates(Required(c)) by { EveryRequirementAssessed(reports[0], c); }
    forall id | id in Required(c) ensures NonBlank(id) { EveryRequirementAssessed(reports[0], c); }
    forall i | 0 <= i < |c.requirements| ensures AllAssess(reports, c.requirements[i].requirementId) {
      assert Required(c)[i] in Required(c);
    }
  }

  lemma MergedRefs(lists: seq<seq<string>>, c: Context)
    requires forall k :: 0 <= k < |lists| ==> ValidRefs(lists[k], c, false)
    ensures ValidRefs(Dedup(Flat(lists)), c, false)
    ensures forall k, x :: 0 <= k < |lists| && x in lists[k] ==> x in Dedup(Flat(lists))
    ensures forall k :: 0 <= k < |lists| && lists[k] != [] ==> Dedup(Flat(lists)) != []
  {
    var merged := Dedup(Flat(lists));
    forall x ensures x in merged <==> exists k :: 0 <= k < |lists| && x in lists[k] { InFlat(lists, x); }
    forall i | 0 <= i < |merged| ensures Usable(c, merged[i]) {
      assert merged[i] in merged;
      var k :| 0 <= k < |lists| && merged[i] in lists[k];
      var j :| 0 <= j < |lists[k]| && lists[k][j] == merged[i];
    }
    forall k | 0 <= k < |lists| && lists[k] != [] ensures merged != [] { assert lists[k][0] in merged; }
  }

  lemma MoreCited(refs: seq<string>, more: seq<string>, c: Context, k: nat)
    requires Cited(refs, c, k) && forall x :: x in refs ==> x in more
    ensures Cited(more, c, k)
  {
    var i :| 0 <= i < |refs| && FirstEvidence(c.evidence, refs[i]) == k;
    assert refs[i] in more;
    var j :| 0 <= j < |more| && more[j] == refs[i];
  }

  /** Citing more evidence supports a requirement no less. */
  lemma MoreRefsSupport(req: Requirement, refs: seq<string>, more: seq<string>, c: Context)
    requires SupportsSatisfied(req, refs, c) && forall x :: x in refs ==> x in more
    ensures SupportsSatisfied(req, more, c)
  {
    forall k: nat | Cited(refs, c, k) ensures Cited(more, c, k) { MoreCited(refs, more, c, k); }
    assert forall kind :: CoversKind(refs, c, kind) ==> CoversKind(more, c, kind);
    forall i | 0 <= i < |req.checks| ensures CheckPasses(req.checks[i], more, c) {
      assert CheckPasses(req.checks[i], refs, c);
      var latest := c.evidence[LatestExecution(c.evidence, c.candidateId, req.checks[i].verificationId)];
      assert forall file :: HasResultFile(refs, c, latest, file) ==> HasResultFile(more, c, latest, file);
    }
  }

  lemma NonBlankInside(before: string, s: string, after: string)
    requires NonBlank(s)
    ensures NonBlank(before + s + after)
  {
    var i :| 0 <= i < |s| && !IsSpace(s[i]);
    assert (before + s + after)[|before| + i] == s[i];
  }

  lemma NonBlankEnd(s: string, c: char)
    requires s != "" && s[|s| - 1] == c && !IsSpace(c)
    ensures NonBlank(s)
  {
  }

  lemma MergedTextsAreNonBlank(n: nat)
    ensures NonBlank(MergedReason(n)) && NonBlank(DECISION_REASON) && NonBlank(SUMMARY)
  {
    NonBlankEnd(MergedReason(n), '.');
    NonBlankEnd(DECISION_REASON, '.');
    NonBlankEnd(SUMMARY, '.');
  }

  lemma {:induction false} MissingIsNonBlank(sources: seq<Assessment>)
    requires forall k :: 0 <= k < |sources| && sources[k].verdict.Undetermined? ==>
               sources[k].missingInformation.Some? && NonBlank(sources[k].missingInformation.value)
    ensures if SomeVerdict(sources, Undetermined) then NonBlank(JoinMissing(sources)) else JoinMissing(sources) == ""
  {
    if sources != [] {
      var n := |sources| - 1;
      var front, last := JoinMissing(sources[..n]), sources[n];
      assert sources == sources[..n] + [last];
      MissingIsNonBlank(sources[..n]);
      if last.verdict.Undetermined? {
        NonBlankInside(if front == "" then "" else front + "\n", last.missingInformation.value, "");
        assert front + "\n" + last.missingInformation.value + "" == front + "\n" + last.missingInformation.value;
        assert "" + last.missingInformation.value + "" == last.missingInformation.value;
        assert SomeVerdict(sources, Undetermined);
      } else {
        assert SomeVerdict(sources, Undetermined) <==> SomeVerdict(sources[..n], Undetermined);
      }
    }
  }

  lemma SourcesAreValid(reports: seq<Report>, c: Context, id: string)
    requires Reviewed(reports, c) && AllAssess(reports, id)
    ensures forall k :: 0 <= k < |reports| ==> ValidAssessment(Sources(reports, id)[k], c)
    ensures forall k :: 0 <= k < |reports| ==> ValidRefs(AssessmentRefs(Sources(reports, id))[k], c, false)
  {
    forall k | 0 <= k < |reports| ensures ValidAssessment(Sources(reports, id)[k], c) {
      assert ValidReport(reports[k], c);
    }
  }

  lemma MergedSupports(reports: seq<Report>, c: Context, id: string)
    requires Reviewed(reports, c) && AllAssess(reports, id) && id in Required(c)
    requires MergedAssessment(reports, id).verdict.Satisfied?
    ensures SupportsSatisfied(c.requirements[FirstRequirement(c.requirements, id)], MergedAssessment(reports, id).evidenceRefs, c)
  {
    var sources, a := Sources(reports, id), MergedAssessment(reports, id);
    SourcesAreValid(reports, c, id);
    MergedRefs(AssessmentRefs(sources), c);
    assert sources[0].verdict.Satisfied? && ValidAssessment(sources[0], c);
    assert AssessmentRefs(sources)[0] == sources[0].evidenceRefs;
    MoreRefsSupport(c.requirements[FirstRequirement(c.requirements, id)], sources[0].evidenceRefs, a.evidenceRefs, c);
  }

  /** Someone cited evidence unless every reviewer is undetermined, and then nobody has to. */
  lemma MergedRefsValid(reports: seq<Report>, c: Context, id: string)
    requires Reviewed(reports, c) && AllAssess(reports, id)
    ensures var a := MergedAssessment(reports, id); ValidRefs(a.evidenceRefs, c, !a.verdict.Undetermined?)
  {
    var sources, a := Sources(reports, id), MergedAssessment(reports, id);
    SourcesAreValid(reports, c, id);
    MergedRefs(AssessmentRefs(sources), c);
    if !a.verdict.Undetermined? {
      var k := if a.verdict.Satisfied? then 0 else var k :| 0 <= k < |sources| && sources[k].verdict.Unsatisfied?; k;
      assert ValidAssessment(sources[k], c) && AssessmentRefs(sources)[k] != [];
    }
  }

  lemma MergedAssessmentIsValid(reports: seq<Report>, c: Context, id: string)
    requires Reviewed(reports, c) && AllAssess(reports, id) && id in Required(c)
    ensures ValidAssessment(MergedAssessment(reports, id), c)
  {
    var sources := Sources(reports, id);
    SourcesAreValid(reports, c, id);
    MissingIsNonBlank(sources);
    MergedTextsAreNonBlank(|reports|);
    MergedRefsValid(reports, c, id);
    if MergedAssessment(reports, id).verdict.Satisfied? { MergedSupports(reports, c, id); }
  }

  lemma Decides(r: Report, c: Context, id: string)
    requires Covers(r, c) && id in ActiveIds(c)
    ensures FirstDecision(r.findingDecisions, id) < |r.findingDecisions|
  {
    assert id in multiset(ActiveIds(c));
    var k :| 0 <= k < |r.findingDecisions| && DecisionIds(r.findingDecisions)[k] == id;
    assert r.findingDecisions[k].findingId == id;
  }

  ghost predicate AllDecide(reports: seq<Report>, id: string) {
    forall k :: 0 <= k < |reports| ==> FirstDecision(reports[k].findingDecisions, id) < |reports[k].findingDecisions|
  }

  lemma AllDecideActive(reports: seq<Report>, c: Context, id: string)
    requires id in ActiveIds(c) && forall k :: 0 <= k < |reports| ==> Covers(reports[k], c)
    ensures AllDecide(reports, id)
  {
    forall k | 0 <= k < |reports| ensures FirstDecision(reports[k].findingDecisions, id) < |reports[k].findingDecisions| {
      Decides(reports[k], c, id);
    }
  }

  lemma {:induction false} EveryReportDecides(reports: seq<Report>, id: string)
    requires AllDecide(reports, id)
    ensures var ds := DecisionsAbout(reports, id);
            |ds| == |reports|
            && forall k :: 0 <= k < |ds| ==> DecidedBy(reports[k].findingDecisions, ds[k], id)
  {
    if reports != [] {
      EveryReportDecides(reports[..|reports| - 1], id);
    }
  }

  lemma MergedDecisionIsValid(reports: seq<Report>, c: Context, id: string)
    requires Reviewed(reports, c) && id in ActiveIds(c)
    ensures ValidDecision(MergedDecision(reports, id), c) && NonBlank(id)
  {
    var ds := DecisionsAbout(reports, id);
    AllDecideActive(reports, c, id);
    EveryReportDecides(reports, id);
    forall k | 0 <= k < |ds| ensures ValidDecision(ds[k], c) && NonBlank(id) {
      assert ValidReport(reports[k], c) && DecidedBy(reports[k].findingDecisions, ds[k], id);
      var j :| 0 <= j < |reports[k].findingDecisions| && reports[k].findingDecisions[j] == ds[k];
    }
    MergedRefs(DecisionRefs(ds), c);
    assert ValidDecision(ds[0], c) && DecisionRefs(ds)[0] != [];
    MergedTextsAreNonBlank(|reports|);
  }

  lemma MergedNewIsValid(f: NewFinding, g: NewFinding, c: Context)
    requires ValidNewFinding(f, c) && ValidNewFinding(g, c)
    ensures ValidNewFinding(MergedNew(f, g), c)
  {
    var merged := Dedup(f.evidenceRefs + g.evidenceRefs);
    assert f.evidenceRefs[0] in merged;
    forall i | 0 <= i < |merged| ensures Usable(c, merged[i]) {
      assert merged[i] in merged;
      assert merged[i] in f.evidenceRefs || merged[i] in g.evidenceRefs;
    }
  }

  predicate ValidNews(fs: seq<NewFinding>, c: Context) {
    forall i :: 0 <= i < |fs| ==> ValidNewFinding(fs[i], c)
  }

  lemma {:induction false} MergedNewsAreValid(fs: seq<NewFinding>, c: Context)
    requires ValidNews(fs, c)
    ensures ValidNews(MergedNews(fs), c)
  {
    if fs != [] {
      var front, last := MergedNews(fs[..|fs| - 1]), fs[|fs| - 1];
      assert ValidNews(fs[..|fs| - 1], c) && ValidNewFinding(fs[|fs| - 1], c);
      MergedNewsAreValid(fs[..|fs| - 1], c);
      var k := KeyIndex(front, last);
      if k < |front| { MergedNewIsValid(front[k], last, c); }
    }
  }

  lemma AggregateNewsAreValid(reports: seq<Report>, c: Context)
    requires Reviewed(reports, c)
    ensures ValidNews(MergedNews(Flat(News(reports))), c)
  {
    var all := Flat(News(reports));
    forall i | 0 <= i < |all| ensures ValidNewFinding(all[i], c) {
      InFlat(News(reports), all[i]);
      var k :| 0 <= k < |reports| && all[i] in News(reports)[k];
      var j :| 0 <= j < |reports[k].newFindings| && reports[k].newFindings[j] == all[i];
      assert ValidReport(reports[k], c);
    }
    MergedNewsAreValid(all, c);
  }

  /** Active findings have distinct ids whenever a valid report decides exactly them. */
  lemma ActiveIdsDistinct(r: Report, c: Context)
    requires ValidReport(r, c) && Covers(r, c)
    ensures NoDuplicates(ActiveIds(c))
  {
    var a, b := DecisionIds(r.findingDecisions), ActiveIds(c);
    DistinctIsMultiset(a);
    DistinctIsMultiset(b);
    forall x | x in b ensures multiset(b)[x] == 1 {
      assert x in multiset(a);
    }
  }

  lemma AggregateAssessments(reports: seq<Report>, c: Context)
    requires Reviewed(reports, c) && AllAssessed(reports, c)
    ensures var items := AggregateOf(reports, c).assessments;
            && RequirementIds(items) == Required(c)
            && forall i :: 0 <= i < |items| ==> ValidAssessment(items[i], c) && NonBlank(items[i].requirementId)
  {
    AllRequirementsAssessed(reports, c);
    var items := AggregateOf(reports, c).assessments;
    forall i | 0 <= i < |items| ensures ValidAssessment(items[i], c) && NonBlank(items[i].requirementId) {
      assert Required(c)[i] in Required(c);
      MergedAssessmentIsValid(reports, c, Required(c)[i]);
    }
  }

  lemma AggregateDecisions(reports: seq<Report>, c: Context)
    requires Reviewed(reports, c) && AllAssessed(reports, c)
    ensures var items := AggregateOf(reports, c).findingDecisions;
            && DecisionIds(items) == ActiveIds(c)
            && forall i :: 0 <= i < |items| ==> ValidDecision(items[i], c) && NonBlank(items[i].findingId)
  {
    var items := AggregateOf(reports, c).findingDecisions;
    forall i | 0 <= i < |items| ensures ValidDecision(items[i], c) && NonBlank(items[i].findingId) {
      assert ActiveIds(c)[i] in ActiveIds(c);
      MergedDecisionIsValid(reports, c, ActiveIds(c)[i]);
    }
  }

  lemma AggregateIsValid(reports: seq<Report>, c: Context)
    requires Reviewed(reports, c)
    ensures AllAssessed(reports, c) && ValidReport(AggregateOf(reports, c), c) && Covers(AggregateOf(reports, c), c)
  {
    AllRequirementsAssessed(reports, c);
    AggregateAssessments(reports, c);
    AggregateDecisions(reports, c);
    ActiveIdsDistinct(reports[0], c);
    AggregateNewsAreValid(reports, c);
    MergedTextsAreNonBlank(|reports|);
  }

  function RestampedAll(reports: seq<Report>, c: Context): seq<Report> {
    seq(|reports|, k requires 0 <= k < |reports| => Restamped(reports[k], c))
  }

  /** A reviewer's report as src/orchestration accepts it: built from valid assertions and itself valid, under the
      reviewer's own request id. */
  ghost predicate Accepted(r: Report, c: Context) {
    FromAssertions(r, OwnContext(r, c)) && ValidReport(r, OwnContext(r, c))
  }

  lemma AcceptedIsReviewed(reports: seq<Report>, c: Context)
    requires reports != [] && forall k :: 0 <= k < |reports| ==> Accepted(reports[k], c)
    ensures Reviewed(RestampedAll(reports, c), c)
  {
    forall k | 0 <= k < |reports|
      ensures ValidReport(Restamped(reports[k], c), c) && Covers(Restamped(reports[k], c), c)
    {
      RestampedIsValid(reports[k], c);
      AssertionsCover(reports[k], OwnContext(reports[k], c));
    }
  }

  /** Two or more accepted reports always aggregate, and the aggregate is again a valid report: every evidence
      kind, latest-execution check and nonempty reference it needs is among the merged references. */
  lemma AggregationPreservesValidity(reports: seq<Report>, c: Context)
    requires |reports| >= 2 && forall k :: 0 <= k < |reports| ==> Accepted(reports[k], c)
    ensures var out := Aggregate(RestampedAll(reports, c), c);
            out.Ok? && ValidReport(out.value, c) && Covers(out.value, c)
  {
    AcceptedIsReviewed(reports, c);
    AggregateIsValid(RestampedAll(reports, c), c);
  }

  // ------------------------------------------------------------------ what is merged

  /** g stands for all of fs with its key: the union of their evidence, required if one of them is. */
  ghost predicate StandsFor(g: NewFinding, fs: seq<NewFinding>) {
    && (exists f <- fs :: SameKey(f, g))
    && (g.required <==> exists f <- fs :: SameKey(f, g) && f.required)
    && (forall x :: x in g.evidenceRefs <==> exists f <- fs :: SameKey(f, g) && x in f.evidenceRefs)
  }

  ghost predicate MergeOf(merged: seq<NewFinding>, fs: seq<NewFinding>) {
    && (forall i, j :: 0 <= i < j < |merged| ==> !SameKey(merged[i], merged[j]))
    && (forall i :: 0 <= i < |merged| ==> StandsFor(merged[i], fs))
    && (forall f <- fs :: KeyIndex(merged, f) < |merged|)
  }

  lemma StillStands(g: NewFinding, fs: seq<NewFinding>, f: NewFinding)
    requires StandsFor(g, fs) && !SameKey(f, g)
    ensures StandsFor(g, fs + [f])
  {
    assert forall h :: h in fs + [f] <==> h in fs || h == f;
  }

  lemma StandsForMore(g: NewFinding, fs: seq<NewFinding>, f: NewFinding)
    requires StandsFor(g, fs) && SameKey(f, g)
    ensures StandsFor(MergedNew(g, f), fs + [f])
  {
    var now := MergedNew(g, f);
    assert forall h :: h in fs + [f] <==> h in fs || h == f;
    assert forall h :: SameKey(h, now) <==> SameKey(h, g);
    forall x ensures x in now.evidenceRefs <==> exists h <- fs + [f] :: SameKey(h, now) && x in h.evidenceRefs {
      assert x in now.evidenceRefs <==> x in g.evidenceRefs || x in f.evidenceRefs;
    }
  }

  lemma StandsAlone(fs: seq<NewFinding>, f: NewFinding)
    requires forall h <- fs :: !SameKey(h, f)
    ensures StandsFor(f, fs + [f])
  {
    assert forall h :: h in fs + [f] <==> h in fs || h == f;
    assert f in fs + [f] && SameKey(f, f);
  }

  lemma KeyFound(merged: seq<NewFinding>, f: NewFinding, i: nat)
    requires i < |merged| && SameKey(merged[i], f)
    ensures KeyIndex(merged, f) < |merged|
  {
  }

  /** Merging loses no new finding, repeats no key, and gathers all evidence and the strictest `required`. */
  lemma {:induction false} NewsAreMerged(fs: seq<NewFinding>)
    ensures MergeOf(MergedNews(fs), fs)
  {
    if fs != [] {
      var past, f := fs[..|fs| - 1], fs[|fs| - 1];
      NewsAreMerged(past);
      OneMoreNew(MergedNews(past), past, f);
      SameNews(AddNew(MergedNews(past), f), past + [f], fs);
    }
  }

  lemma SameNews(merged: seq<NewFinding>, a: seq<NewFinding>, b: seq<NewFinding>)
    requires MergeOf(merged, a) && b == a
    ensures MergeOf(merged, b)
  {
  }

  lemma OneMoreNew(merged: seq<NewFinding>, fs: seq<NewFinding>, f: NewFinding)
    requires MergeOf(merged, fs)
    ensures MergeOf(AddNew(merged, f), fs + [f])
  {
    var k, now := KeyIndex(merged, f), AddNew(merged, f);
    if k < |merged| {
      StandsForMore(merged[k], fs, f);
    } else {
      forall h | h in fs ensures !SameKey(h, f) {
        var j := KeyIndex(merged, h);
        assert SameKey(merged[j], h) && !SameKey(merged[j], f);
      }
      StandsAlone(fs, f);
    }
    forall i | 0 <= i < |merged| && i != k ensures StandsFor(now[i], fs + [f]) {
      assert !SameKey(f, merged[i]);
      StillStands(merged[i], fs, f);
    }
    forall h | h in fs + [f] ensures KeyIndex(now, h) < |now| {
      var j := if h in fs then KeyIndex(merged, h) else k;
      KeyFound(now, h, j);
    }
  }

  /** Each collected decision is the only one its report makes about the finding. */
  lemma CollectedDecisions(reports: seq<Report>, c: Context, id: string)
    requires Reviewed(reports, c) && id in ActiveIds(c)
    ensures var ds := DecisionsAbout(reports, id);
            |ds| == |reports|
            && forall k, d :: 0 <= k < |reports| ==> (DecidedBy(reports[k].findingDecisions, d, id) <==> d == ds[k])
  {
    var ds := DecisionsAbout(reports, id);
    AllDecideActive(reports, c, id);
    EveryReportDecides(reports, id);
    forall k, d | 0 <= k < |reports| && DecidedBy(reports[k].findingDecisions, d, id) ensures d == ds[k] {
      assert ValidReport(reports[k], c);
      OnlyDecision(reports[k], d, ds[k], id);
    }
  }

  lemma FlatDecisionRefs(ds: seq<FindingDecision>, x: string)
    ensures x in Dedup(Flat(DecisionRefs(ds))) <==> exists k :: 0 <= k < |ds| && x in ds[k].evidenceRefs
  {
    InFlat(DecisionRefs(ds), x);
    assert forall k :: 0 <= k < |ds| ==> DecisionRefs(ds)[k] == ds[k].evidenceRefs;
  }

  ghost predicate SomeoneCites(reports: seq<Report>, id: string, x: string) {
    exists k, d :: 0 <= k < |reports| && DecidedBy(reports[k].findingDecisions, d, id) && x in d.evidenceRefs
  }

  /** The merged decision about an active finding cites exactly the evidence that some reviewer cites about it. */
  lemma DecisionGathersEvidence(reports: seq<Report>, c: Context, id: string, x: string)
    requires Reviewed(reports, c) && id in ActiveIds(c)
    ensures x in MergedDecision(reports, id).evidenceRefs <==> SomeoneCites(reports, id, x)
  {
    var ds := DecisionsAbout(reports, id);
    CollectedDecisions(reports, c, id);
    FlatDecisionRefs(ds, x);
    if k :| 0 <= k < |ds| && x in ds[k].evidenceRefs {
      assert DecidedBy(reports[k].findingDecisions, ds[k], id);
    }
  }

  lemma OnlyDecision(r: Report, d: FindingDecision, e: FindingDecision, id: string)
    requires NoDuplicates(DecisionIds(r.findingDecisions))
    requires DecidedBy(r.findingDecisions, d, id) && DecidedBy(r.findingDecisions, e, id)
    ensures d == e
  {
    var i :| 0 <= i < |r.findingDecisions| && r.findingDecisions[i] == d;
    var j :| 0 <= j < |r.findingDecisions| && r.findingDecisions[j] == e;
    assert DecisionIds(r.findingDecisions)[i] == DecisionIds(r.findingDecisions)[j];
  }
}
