/** Turning reviewers' assertions into reports and several reports into one (src/domain/review-coordination.js). */
module ReviewAggregation {
  import opened Common
  import opened CodeReview
  import Ordering

  // ------------------------------------------------------------------ review assertions

  datatype Assertion = Assertion(
    requirementId: string, verdict: Verdict, evidenceRefs: seq<string>, missingInformation: Option<string>)

  datatype Answer = Answer(findingId: string, status: Status, evidenceRefs: seq<string>)

  datatype Packet = Packet(
    runId: string, requestId: string, candidateId: string, auditManifestHash: string,
    assessments: seq<Assertion>, findingDecisions: seq<Answer>, newFindings: seq<NewFinding>)

  function ActiveFindings(fs: seq<Finding>): (r: seq<Finding>)
    ensures forall f :: f in r <==> f in fs && !f.status.Withdrawn?
  {
    if fs == [] then []
    else
      var n := |fs| - 1;
      var front := ActiveFindings(fs[..n]);
      assert fs == fs[..n] + [fs[n]];
      if fs[n].status.Withdrawn? then front else front + [fs[n]]
  }

  function FindingIds(fs: seq<Finding>): seq<string> {
    seq(|fs|, i requires 0 <= i < |fs| => fs[i].findingId)
  }

  function ActiveIds(c: Context): seq<string> { FindingIds(ActiveFindings(c.findings)) }

  function AnswerIds(answers: seq<Answer>): seq<string> {
    seq(|answers|, i requires 0 <= i < |answers| => answers[i].findingId)
  }

  function AssertionIds(items: seq<Assertion>): seq<string> {
    seq(|items|, i requires 0 <= i < |items| => items[i].requirementId)
  }

  predicate StringArray(s: seq<string>) { forall i :: 0 <= i < |s| ==> s[i] != "" }

  predicate WellFormedAssertion(a: Assertion, c: Context) {
    && FirstRequirement(c.requirements, a.requirementId) < |c.requirements| && StringArray(a.evidenceRefs)
    && (a.verdict.Undetermined? ==> a.missingInformation.Some? && a.missingInformation.value != "")
  }

  predicate WellFormedAnswer(a: Answer) { a.findingId != "" && StringArray(a.evidenceRefs) }

  predicate WellFormedNew(f: NewFinding) {
    f.requirementId != "" && f.problem != "" && f.resolutionCriteria != "" && StringArray(f.evidenceRefs)
  }

  /** What validateReviewAssertions accepts: one assertion a requirement, one answer an active finding. */
  ghost predicate ValidAssertions(p: Packet, c: Context, manifest: string) {
    && p.runId == c.runId && p.requestId == c.requestId && p.candidateId == c.candidateId && p.auditManifestHash == manifest
    && |p.assessments| == |c.requirements| && AssertionsOk(p.assessments, c)
    && multiset(AnswerIds(p.findingDecisions)) == multiset(ActiveIds(c))
    && (forall i :: 0 <= i < |p.findingDecisions| ==> WellFormedAnswer(p.findingDecisions[i]))
    && (forall i :: 0 <= i < |p.newFindings| ==> WellFormedNew(p.newFindings[i]))
  }

  predicate AssertionsOk(items: seq<Assertion>, c: Context) {
    NoDuplicates(AssertionIds(items)) && forall i :: 0 <= i < |items| ==> WellFormedAssertion(items[i], c)
  }

  method CheckAssertions(items: seq<Assertion>, c: Context) returns (ok: bool)
    ensures ok <==> AssertionsOk(items, c)
  {
    var seen: set<string> := {};
    for i := 0 to |items|
      invariant forall id :: id in seen <==> exists j :: 0 <= j < i && items[j].requirementId == id
      invariant forall j, k :: 0 <= j < k < i ==> items[j].requirementId != items[k].requirementId
      invariant forall j :: 0 <= j < i ==> WellFormedAssertion(items[j], c)
    {
      var id := items[i].requirementId;
      if id in seen {
        ghost var j :| 0 <= j < i && items[j].requirementId == id;
        assert AssertionIds(items)[j] == AssertionIds(items)[i];
        return false;
      }
      if !WellFormedAssertion(items[i], c) { return false; }
      seen := seen + {id};
    }
    ok := true;
  }

  /** Comparing the sorted id lists is, under any total order, comparing the multisets of ids. */
  method SameSortedIds(a: seq<string>, b: seq<string>, leq: (string, string) -> bool) returns (same: bool)
    requires Ordering.TotalOrder(leq)
    ensures same <==> multiset(a) == multiset(b)
  {
    var key := (id: string) => id;
    Ordering.SortIsCanonical(a, b, key, leq);
    same := Ordering.SortBy(a, key, leq) == Ordering.SortBy(b, key, leq);
  }

  method ValidateReviewAssertions(p: Packet, c: Context, manifest: string, leq: (string, string) -> bool) returns (ok: bool)
    requires Ordering.TotalOrder(leq)
    ensures ok <==> ValidAssertions(p, c, manifest)
  {
    if !(p.runId == c.runId && p.requestId == c.requestId && p.candidateId == c.candidateId && p.auditManifestHash == manifest)
       || |p.assessments| != |c.requirements| {
      return false;
    }
    ok := CheckAssertions(p.assessments, c);
    if !ok { return; }
    ok := SameSortedIds(AnswerIds(p.findingDecisions), ActiveIds(c), leq);
    if !ok { return; }
    for i := 0 to |p.findingDecisions|
      invariant forall j :: 0 <= j < i ==> WellFormedAnswer(p.findingDecisions[j])
    {
      if !WellFormedAnswer(p.findingDecisions[i]) { return false; }
    }
    for i := 0 to |p.newFindings|
      invariant forall j :: 0 <= j < i ==> WellFormedNew(p.newFindings[j])
    {
      if !WellFormedNew(p.newFindings[i]) { return false; }
    }
  }

  function ToReport(p: Packet, c: Context, role: string, artifactId: string): Report {
    Report(c.runId, c.requestId, c.candidateId, c.requirementsRef,
           seq(|p.assessments|, i requires 0 <= i < |p.assessments| =>
             var a := p.assessments[i];
             Assessment(a.requirementId, a.verdict, a.evidenceRefs, role + " reasoning is stored in " + artifactId + ".",
                        if a.verdict.Undetermined? then a.missingInformation else None)),
           seq(|p.findingDecisions|, i requires 0 <= i < |p.findingDecisions| =>
             var d := p.findingDecisions[i];
             FindingDecision(d.findingId, d.status, d.evidenceRefs,
                             role + " finding decision reasoning is stored in " + artifactId + ".")),
           p.newFindings, [], role + " review assertions; reasoning artifact " + artifactId + ".")
  }

  /** The report was built from assertions that validateReviewAssertions accepts. */
  ghost predicate FromAssertions(r: Report, c: Context) {
    exists p, manifest, role, artifactId :: ValidAssertions(p, c, manifest) && r == ToReport(p, c, role, artifactId)
  }

  /** The report decides exactly the active findings. */
  ghost predicate Covers(r: Report, c: Context) {
    multiset(DecisionIds(r.findingDecisions)) == multiset(ActiveIds(c))
  }

  lemma AssertionsCover(r: Report, c: Context)
    requires FromAssertions(r, c)
    ensures Covers(r, c)
  {
    var p, manifest, role, artifactId :| ValidAssertions(p, c, manifest) && r == ToReport(p, c, role, artifactId);
    assert DecisionIds(r.findingDecisions) == AnswerIds(p.findingDecisions);
  }

  // ------------------------------------------------------------------ small sequence functions

  /** `[...new Set(s)]`: first occurrences, in order. */
  function Dedup(s: seq<string>): (r: seq<string>)
    ensures NoDuplicates(r) && forall x :: x in r <==> x in s
  {
    if s == [] then []
    else
      var n := |s| - 1;
      assert s == s[..n] + [s[n]];
      var front := Dedup(s[..n]);
      if s[n] in s[..n] then front else front + [s[n]]
  }

  function Flat<T>(ss: seq<seq<T>>): (r: seq<T>)
  {
    if ss == [] then [] else Flat(ss[..|ss| - 1]) + ss[|ss| - 1]
  }

  lemma {:induction false} InFlat<T>(ss: seq<seq<T>>, x: T)
    ensures x in Flat(ss) <==> exists k :: 0 <= k < |ss| && x in ss[k]
  {
    if ss != [] {
      var n := |ss| - 1;
      InFlat(ss[..n], x);
      assert forall k :: 0 <= k < n ==> ss[..n][k] == ss[k];
    }
  }

  function FirstAssessment(items: seq<Assessment>, id: string): (k: nat)
    ensures k <= |items| && (k < |items| ==> items[k].requirementId == id)
    ensures forall i :: 0 <= i < k ==> items[i].requirementId != id
  {
    if items == [] || items[0].requirementId == id then 0
    else
      var k := FirstAssessment(items[1..], id);
      assert forall i :: 1 <= i <= k ==> items[i] == items[1..][i - 1];
      1 + k
  }

  function FirstDecision(items: seq<FindingDecision>, id: string): (k: nat)
    ensures k <= |items| && (k < |items| ==> items[k].findingId == id)
    ensures forall i :: 0 <= i < k ==> items[i].findingId != id
  {
    if items == [] || items[0].findingId == id then 0
    else
      var k := FirstDecision(items[1..], id);
      assert forall i :: 1 <= i <= k ==> items[i] == items[1..][i - 1];
      1 + k
  }

  // ------------------------------------------------------------------ aggregateReviewReports: specification

  predicate Assesses(r: Report, id: string) { FirstAssessment(r.assessments, id) < |r.assessments| }

  predicate AllAssess(reports: seq<Report>, id: string) {
    forall k :: 0 <= k < |reports| ==> Assesses(reports[k], id)
  }

  function Sources(reports: seq<Report>, id: string): (r: seq<Assessment>)
    requires AllAssess(reports, id)
    ensures |r| == |reports|
    ensures forall k :: 0 <= k < |r| ==> r[k] in reports[k].assessments && r[k].requirementId == id
  {
    seq(|reports|, k requires 0 <= k < |reports| => reports[k].assessments[FirstAssessment(reports[k].assessments, id)])
  }

  predicate SomeVerdict(sources: seq<Assessment>, v: Verdict) {
    exists k :: 0 <= k < |sources| && sources[k].verdict == v
  }

  function StrongestVerdict(sources: seq<Assessment>): Verdict {
    if SomeVerdict(sources, Unsatisfied) then Unsatisfied
    else if SomeVerdict(sources, Undetermined) then Undetermined
    else Satisfied
  }

  function AssessmentRefs(sources: seq<Assessment>): seq<seq<string>> {
    seq(|sources|, k requires 0 <= k < |sources| => sources[k].evidenceRefs)
  }

  /** The nonempty missing-information texts of the undetermined sources, joined by line feeds. */
  function JoinMissing(sources: seq<Assessment>): string {
    if sources == [] then ""
    else
      var front, last := JoinMissing(sources[..|sources| - 1]), sources[|sources| - 1];
      if !last.verdict.Undetermined? || last.missingInformation.None? || last.missingInformation.value == "" then front
      else if front == "" then last.missingInformation.value
      else front + "\n" + last.missingInformation.value
  }

  function Decimal(n: nat): string {
    (if n < 10 then "" else Decimal(n / 10)) + ["0123456789"[n % 10]]
  }

  function MergedReason(n: nat): string {
    "Aggregated deterministic verdict from " + Decimal(n) + " required role reports."
  }

  const DECISION_REASON: string :=
    "Existing finding is resolved only when every required reviewer explicitly resolves it."

  const SUMMARY: string := "Controller aggregate of JUDGE and CRITIC assertions."

  function MergedAssessment(reports: seq<Report>, id: string): Assessment
    requires AllAssess(reports, id)
  {
    var sources := Sources(reports, id);
    var verdict := StrongestVerdict(sources);
    var missing := JoinMissing(sources);
    Assessment(id, verdict, Dedup(Flat(AssessmentRefs(sources))),
               MergedReason(|reports|),
               if !verdict.Undetermined? then None
               else Some(if missing == "" then "Reviewer evidence remains incomplete." else missing))
  }

  /** Each report's first decision about the finding, where it has one. */
  function DecisionsAbout(reports: seq<Report>, id: string): (r: seq<FindingDecision>)
    ensures |r| <= |reports|
  {
    if reports == [] then []
    else
      var front, last := DecisionsAbout(reports[..|reports| - 1], id), reports[|reports| - 1].findingDecisions;
      var k := FirstDecision(last, id);
      if k < |last| then front + [last[k]] else front
  }

  function DecisionRefs(ds: seq<FindingDecision>): seq<seq<string>> {
    seq(|ds|, k requires 0 <= k < |ds| => ds[k].evidenceRefs)
  }

  function MergedDecision(reports: seq<Report>, id: string): FindingDecision {
    var ds := DecisionsAbout(reports, id);
    var resolved := |ds| == |reports| && forall k :: 0 <= k < |ds| ==> ds[k].status.Resolved?;
    FindingDecision(id, if resolved then Resolved else Open, Dedup(Flat(DecisionRefs(ds))),
                    DECISION_REASON)
  }

  predicate SameKey(f: NewFinding, g: NewFinding) {
    f.requirementId == g.requirementId && f.problem == g.problem && f.resolutionCriteria == g.resolutionCriteria
  }

  function KeyIndex(fs: seq<NewFinding>, f: NewFinding): (k: nat)
    ensures k <= |fs| && (k < |fs| ==> SameKey(fs[k], f))
    ensures forall i :: 0 <= i < k ==> !SameKey(fs[i], f)
  {
    if fs == [] || SameKey(fs[0], f) then 0
    else
      var k := KeyIndex(fs[1..], f);
      assert forall i :: 1 <= i <= k ==> fs[i] == fs[1..][i - 1];
      1 + k
  }

  function MergedNew(f: NewFinding, g: NewFinding): NewFinding {
    f.(evidenceRefs := Dedup(f.evidenceRefs + g.evidenceRefs), required := f.required || g.required)
  }

  function AddNew(fs: seq<NewFinding>, f: NewFinding): seq<NewFinding> {
    var k := KeyIndex(fs, f);
    if k < |fs| then fs[k := MergedNew(fs[k], f)] else fs + [f]
  }

  /** New findings with the same requirement, problem and criteria merged into the first of them. */
  function MergedNews(fs: seq<NewFinding>): seq<NewFinding> {
    if fs == [] then [] else AddNew(MergedNews(fs[..|fs| - 1]), fs[|fs| - 1])
  }

  function News(reports: seq<Report>): seq<seq<NewFinding>> {
    seq(|reports|, k requires 0 <= k < |reports| => reports[k].newFindings)
  }

  predicate AllAssessed(reports: seq<Report>, c: Context) {
    forall i :: 0 <= i < |c.requirements| ==> AllAssess(reports, c.requirements[i].requirementId)
  }

  function AggregateOf(reports: seq<Report>, c: Context): Report
    requires AllAssessed(reports, c)
  {
    var active := ActiveFindings(c.findings);
    Report(c.runId, c.requestId, c.candidateId, c.requirementsRef,
           seq(|c.requirements|, i requires 0 <= i < |c.requirements| => MergedAssessment(reports, c.requirements[i].requirementId)),
           seq(|active|, i requires 0 <= i < |active| => MergedDecision(reports, active[i].findingId)),
           MergedNews(Flat(News(reports))), [], SUMMARY)
  }

  datatype AggregateError = TooFewReports | MissingAssessment

  function Aggregate(reports: seq<Report>, c: Context): Result<Report, AggregateError> {
    if |reports| < 2 then Err(TooFewReports)
    else if !AllAssessed(reports, c) then Err(MissingAssessment)
    else Ok(AggregateOf(reports, c))
  }

  // ------------------------------------------------------------------ aggregateReviewReports: the loops

  datatype Key = Key(requirementId: string, problem: string, resolutionCriteria: string)

  function KeyOf(f: NewFinding): Key { Key(f.requirementId, f.problem, f.resolutionCriteria) }

  /** The insertion-ordered Map of the source holds the merged findings, in order. */
  ghost predicate Holds(order: seq<Key>, entries: map<Key, NewFinding>, fs: seq<NewFinding>) {
    && |order| == |fs|
    && (forall k :: k in entries <==> k in order)
    && (forall i :: 0 <= i < |order| ==> order[i] == KeyOf(fs[i]) && entries[order[i]] == fs[i])
    && (forall i, j :: 0 <= i < j < |order| ==> order[i] != order[j])
  }

  lemma HoldsKeyIndex(order: seq<Key>, entries: map<Key, NewFinding>, fs: seq<NewFinding>, f: NewFinding)
    requires Holds(order, entries, fs)
    ensures KeyIndex(fs, f) < |fs| <==> KeyOf(f) in entries
    ensures KeyOf(f) in entries ==> order[KeyIndex(fs, f)] == KeyOf(f) && entries[KeyOf(f)] == fs[KeyIndex(fs, f)]
  {
    var k := KeyIndex(fs, f);
    if KeyOf(f) in entries {
      var i :| 0 <= i < |order| && order[i] == KeyOf(f);
      assert SameKey(fs[i], f);
    }
  }

  method AddNewInPlace(order: seq<Key>, entries: map<Key, NewFinding>, f: NewFinding, ghost fs: seq<NewFinding>)
    returns (order': seq<Key>, entries': map<Key, NewFinding>)
    requires Holds(order, entries, fs)
    ensures Holds(order', entries', AddNew(fs, f))
  {
    HoldsKeyIndex(order, entries, fs, f);
    var key := KeyOf(f);
    if key in entries {
      order', entries' := order, entries[key := MergedNew(entries[key], f)];
    } else {
      order', entries' := order + [key], entries[key := f];
    }
  }

  method AddAllNew(order: seq<Key>, entries: map<Key, NewFinding>, fs: seq<NewFinding>, ghost before: seq<NewFinding>)
    returns (order': seq<Key>, entries': map<Key, NewFinding>)
    requires Holds(order, entries, MergedNews(before))
    ensures Holds(order', entries', MergedNews(before + fs))
  {
    order', entries' := order, entries;
    assert before + fs[..0] == before;
    for j := 0 to |fs|
      invariant Holds(order', entries', MergedNews(before + fs[..j]))
    {
      ghost var done := before + fs[..j];
      assert before + fs[..j + 1] == done + [fs[j]];
      order', entries' := AddNewInPlace(order', entries', fs[j], MergedNews(done));
    }
    assert fs[..|fs|] == fs;
  }

  method MergeNews(reports: seq<Report>) returns (merged: seq<NewFinding>)
    ensures merged == MergedNews(Flat(News(reports)))
  {
    var order: seq<Key>, entries: map<Key, NewFinding> := [], map[];
    for k := 0 to |reports|
      invariant Holds(order, entries, MergedNews(Flat(News(reports[..k]))))
    {
      assert News(reports[..k + 1])[..k] == News(reports[..k]);
      order, entries := AddAllNew(order, entries, reports[k].newFindings, Flat(News(reports[..k])));
    }
    assert reports[..|reports|] == reports;
    merged := seq(|order|, i requires 0 <= i < |order| && order[i] in entries => entries[order[i]]);
  }

  method AggregateReviewReports(reports: seq<Report>, c: Context) returns (out: Result<Report, AggregateError>)
    ensures out == Aggregate(reports, c)
  {
    if |reports| < 2 { return Err(TooFewReports); }
    var assessments: seq<Assessment> := [];
    for i := 0 to |c.requirements|
      invariant forall j :: 0 <= j < i ==> AllAssess(reports, c.requirements[j].requirementId)
      invariant |assessments| == i
      invariant forall j :: 0 <= j < i ==> assessments[j] == MergedAssessment(reports, c.requirements[j].requirementId)
    {
      if !AllAssess(reports, c.requirements[i].requirementId) { return Err(MissingAssessment); }
      assessments := assessments + [MergedAssessment(reports, c.requirements[i].requirementId)];
    }
    var active := ActiveFindings(c.findings);
    var decisions := seq(|active|, i requires 0 <= i < |active| => MergedDecision(reports, active[i].findingId));
    var news := MergeNews(reports);
    assert assessments == AggregateOf(reports, c).assessments;
    out := Ok(Report(c.runId, c.requestId, c.candidateId, c.requirementsRef, assessments, decisions, news, [],
                     SUMMARY));
  }
}
