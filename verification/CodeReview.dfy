/** Validation and evaluation of review reports (src/domain/code-review.js). */
module CodeReview {
  import opened Common

  predicate NoDuplicates<T(==)>(s: seq<T>) {
    forall i, j :: 0 <= i < j < |s| ==> s[i] != s[j]
  }

  // ------------------------------------------------------------------ entities

  datatype Execution = Execution(
    verificationId: string, executionId: string, exitCode: int, timedOut: bool, aborted: bool, failed: bool,
    candidateUnchanged: bool, terminationConfirmed: bool, path: string)

  datatype Evidence = Evidence(
    evidenceId: string, candidateId: string, kind: string, producer: string, valid: Option<bool>,
    executionEvidenceId: string, result: Option<Execution>)

  datatype Check = Check(verificationId: string, expectedExitCode: int, requiredResultFiles: seq<string>)

  datatype Requirement = Requirement(requirementId: string, required: bool, kinds: seq<string>, checks: seq<Check>)

  datatype Verdict = Satisfied | Unsatisfied | Undetermined

  datatype Status = Open | FixSubmitted | Resolved | Withdrawn

  datatype Assessment = Assessment(
    requirementId: string, verdict: Verdict, evidenceRefs: seq<string>, reason: string,
    missingInformation: Option<string>)

  datatype FindingDecision = FindingDecision(findingId: string, status: Status, evidenceRefs: seq<string>, reason: string)

  datatype NewFinding = NewFinding(
    requirementId: string, problem: string, resolutionCriteria: string, evidenceRefs: seq<string>, required: bool)

  datatype Suggestion = Suggestion(requirementId: string, description: string, evidenceRefs: seq<string>)

  datatype Report = Report(
    runId: string, requestId: string, candidateId: string, requirementsRef: string,
    assessments: seq<Assessment>, findingDecisions: seq<FindingDecision>, newFindings: seq<NewFinding>,
    suggestions: seq<Suggestion>, summary: string)

  datatype HistoryEntry = HistoryEntry(status: Status, candidateId: string, reviewId: string, reason: string)

  datatype Finding = Finding(
    findingId: string, requirementId: string, problem: string, resolutionCriteria: string, required: bool,
    status: Status, detectedCandidateId: string, verifiedCandidateId: Option<string>, history: seq<HistoryEntry>)

  datatype Context = Context(
    runId: string, requestId: string, candidateId: string, requirementsRef: string,
    requirements: seq<Requirement>, unresolvedQuestions: seq<string>,
    findings: seq<Finding>, evidence: seq<Evidence>)

  // ------------------------------------------------------------------ lookups: Array.prototype.find and .at(-1)

  function FirstEvidence(evidence: seq<Evidence>, id: string): (k: nat)
    ensures k <= |evidence| && (k < |evidence| ==> evidence[k].evidenceId == id)
    ensures forall i :: 0 <= i < k ==> evidence[i].evidenceId != id
  {
    if evidence == [] || evidence[0].evidenceId == id then 0
    else
      var k := FirstEvidence(evidence[1..], id);
      assert forall i :: 1 <= i <= k ==> evidence[i] == evidence[1..][i - 1];
      1 + k
  }

  function FirstRequirement(requirements: seq<Requirement>, id: string): (k: nat)
    ensures k <= |requirements| && (k < |requirements| ==> requirements[k].requirementId == id)
    ensures forall i :: 0 <= i < k ==> requirements[i].requirementId != id
  {
    if requirements == [] || requirements[0].requirementId == id then 0
    else
      var k := FirstRequirement(requirements[1..], id);
      assert forall i :: 1 <= i <= k ==> requirements[i] == requirements[1..][i - 1];
      1 + k
  }

  function FirstFinding(findings: seq<Finding>, id: string): (k: nat)
    ensures k <= |findings| && (k < |findings| ==> findings[k].findingId == id)
    ensures forall i :: 0 <= i < k ==> findings[i].findingId != id
  {
    if findings == [] || findings[0].findingId == id then 0
    else
      var k := FirstFinding(findings[1..], id);
      assert forall i :: 1 <= i <= k ==> findings[i] == findings[1..][i - 1];
      1 + k
  }

  predicate IsExecution(e: Evidence, candidateId: string, verificationId: string) {
    e.candidateId == candidateId && e.kind == "EXECUTION" && e.result.Some? && e.result.value.verificationId == verificationId
  }

  /** Index of the latest execution record for a verification, or the length when there is none. */
  function LatestExecution(evidence: seq<Evidence>, candidateId: string, verificationId: string): (k: nat)
    ensures k <= |evidence|
    ensures k < |evidence| ==> IsExecution(evidence[k], candidateId, verificationId)
    ensures forall i :: 0 <= i < |evidence| && (i > k || k == |evidence|) ==> !IsExecution(evidence[i], candidateId, verificationId)
  {
    if evidence == [] then 0
    else
      var n := |evidence| - 1;
      if IsExecution(evidence[n], candidateId, verificationId) then n
      else
        var k := LatestExecution(evidence[..n], candidateId, verificationId);
        if k < n then k else |evidence|
  }

  // ------------------------------------------------------------------ validateAuditResponse

  predicate Bound(r: Report, c: Context) {
    r.runId == c.runId && r.requestId == c.requestId && r.candidateId == c.candidateId
    && r.requirementsRef == c.requirementsRef
  }

  predicate Usable(c: Context, id: string) {
    var k := FirstEvidence(c.evidence, id);
    k < |c.evidence| && c.evidence[k].candidateId == c.candidateId && c.evidence[k].valid != Some(false)
  }

  predicate ValidRefs(refs: seq<string>, c: Context, requireSome: bool) {
    (requireSome ==> refs != []) && NoDuplicates(refs) && forall i :: 0 <= i < |refs| ==> Usable(c, refs[i])
  }

  /** Record k of the context is among the cited evidence. */
  predicate Cited(refs: seq<string>, c: Context, k: nat) {
    k < |c.evidence| && exists i :: 0 <= i < |refs| && FirstEvidence(c.evidence, refs[i]) == k
  }

  predicate CoversKind(refs: seq<string>, c: Context, kind: string) {
    exists k: nat :: k < |c.evidence| && Cited(refs, c, k) && c.evidence[k].kind == kind && c.evidence[k].producer != "AGENT"
  }

  predicate HasResultFile(refs: seq<string>, c: Context, latest: Evidence, file: string)
    requires latest.result.Some?
  {
    exists k: nat :: k < |c.evidence| && Cited(refs, c, k)
      && var e := c.evidence[k];
         && e.kind == "ARTIFACT" && e.producer == "CONTROLLER" && e.valid == Some(true)
         && e.executionEvidenceId == latest.evidenceId && e.result.Some?
         && e.result.value.executionId == latest.result.value.executionId
         && e.result.value.verificationId == latest.result.value.verificationId
         && e.result.value.path == file
  }

  /** The latest execution of the check is cited, controller-made, clean and has its result files. */
  predicate CheckPasses(check: Check, refs: seq<string>, c: Context) {
    var k := LatestExecution(c.evidence, c.candidateId, check.verificationId);
    && k < |c.evidence| && Cited(refs, c, k)
    && var latest := c.evidence[k];
       var r := latest.result.value;
       && latest.producer == "CONTROLLER" && latest.valid == Some(true)
       && r.executionId != "" && r.exitCode == check.expectedExitCode && !r.timedOut && !r.aborted && !r.failed
       && r.candidateUnchanged && r.terminationConfirmed
       && forall i :: 0 <= i < |check.requiredResultFiles| ==> HasResultFile(refs, c, latest, check.requiredResultFiles[i])
  }

  predicate SupportsSatisfied(req: Requirement, refs: seq<string>, c: Context) {
    && (forall i :: 0 <= i < |req.kinds| ==> CoversKind(refs, c, req.kinds[i]))
    && ("EXECUTION" in req.kinds || "ARTIFACT" in req.kinds ==> req.checks != [])
    && (forall i :: 0 <= i < |req.checks| ==> CheckPasses(req.checks[i], refs, c))
  }

  predicate ValidAssessment(a: Assessment, c: Context) {
    var k := FirstRequirement(c.requirements, a.requirementId);
    && k < |c.requirements| && NonBlank(a.reason)
    && ValidRefs(a.evidenceRefs, c, !a.verdict.Undetermined?)
    && (a.verdict.Undetermined? ==> a.missingInformation.Some? && NonBlank(a.missingInformation.value))
    && (a.verdict.Satisfied? ==> SupportsSatisfied(c.requirements[k], a.evidenceRefs, c))
  }

  predicate ValidDecision(d: FindingDecision, c: Context) {
    FirstFinding(c.findings, d.findingId) < |c.findings| && NonBlank(d.reason) && ValidRefs(d.evidenceRefs, c, true)
  }

  predicate ValidNewFinding(f: NewFinding, c: Context) {
    FirstRequirement(c.requirements, f.requirementId) < |c.requirements| && NonBlank(f.problem)
    && NonBlank(f.resolutionCriteria) && ValidRefs(f.evidenceRefs, c, true)
  }

  predicate ValidSuggestion(s: Suggestion, c: Context) {
    FirstRequirement(c.requirements, s.requirementId) < |c.requirements| && NonBlank(s.description)
    && ValidRefs(s.evidenceRefs, c, true)
  }

  function RequirementIds(items: seq<Assessment>): seq<string> {
    seq(|items|, i requires 0 <= i < |items| => items[i].requirementId)
  }

  function DecisionIds(items: seq<FindingDecision>): seq<string> {
    seq(|items|, i requires 0 <= i < |items| => items[i].findingId)
  }

  /** What validateAuditResponse accepts as a REVIEW_REPORT. */
  predicate ValidReport(r: Report, c: Context) {
    && Bound(r, c) && NonBlank(r.summary)
    && NoDuplicates(RequirementIds(r.assessments))
    && (forall i :: 0 <= i < |r.assessments| ==> NonBlank(r.assessments[i].requirementId))
    && |r.assessments| == |c.requirements|
    && (forall i :: 0 <= i < |r.assessments| ==> ValidAssessment(r.assessments[i], c))
    && NoDuplicates(DecisionIds(r.findingDecisions))
    && (forall i :: 0 <= i < |r.findingDecisions| ==> NonBlank(r.findingDecisions[i].findingId))
    && (forall i :: 0 <= i < |r.findingDecisions| ==> ValidDecision(r.findingDecisions[i], c))
    && (forall i :: 0 <= i < |r.newFindings| ==> ValidNewFinding(r.newFindings[i], c))
    && (forall i :: 0 <= i < |r.suggestions| ==> ValidSuggestion(r.suggestions[i], c))
  }

  /** Record e is an execution of the check with the exit code it expects, and no execution of it follows. */
  predicate LastRun(c: Context, check: Check, e: nat) {
    && e < |c.evidence| && IsExecution(c.evidence[e], c.candidateId, check.verificationId)
    && c.evidence[e].result.value.exitCode == check.expectedExitCode
    && forall i :: e < i < |c.evidence| ==> !IsExecution(c.evidence[i], c.candidateId, check.verificationId)
  }

  predicate CitesLastRun(refs: seq<string>, c: Context, check: Check) {
    exists e: nat :: e < |c.evidence| && LastRun(c, check, e) && c.evidence[e].evidenceId in refs
  }

  /** Every requirement that is called satisfied has its last runs cited. */
  predicate SatisfiedByLastRuns(r: Report, c: Context) {
    forall i, k, j ::
      && 0 <= i < |r.assessments| && r.assessments[i].verdict.Satisfied?
      && 0 <= k < |c.requirements| && k == FirstRequirement(c.requirements, r.assessments[i].requirementId)
      && 0 <= j < |c.requirements[k].checks| ==>
        CitesLastRun(r.assessments[i].evidenceRefs, c, c.requirements[k].checks[j])
  }

  lemma AcceptedByLastRuns(r: Report, c: Context)
    requires ValidReport(r, c)
    ensures SatisfiedByLastRuns(r, c)
  {
    forall i, k, j |
      && 0 <= i < |r.assessments| && r.assessments[i].verdict.Satisfied?
      && 0 <= k < |c.requirements| && k == FirstRequirement(c.requirements, r.assessments[i].requirementId)
      && 0 <= j < |c.requirements[k].checks|
      ensures CitesLastRun(r.assessments[i].evidenceRefs, c, c.requirements[k].checks[j])
    {
      var check := c.requirements[k].checks[j];
      var e := LatestExecution(c.evidence, c.candidateId, check.verificationId);
      assert ValidAssessment(r.assessments[i], c) && CheckPasses(check, r.assessments[i].evidenceRefs, c);
      assert LastRun(c, check, e);
    }
  }

  // ------------------------------------------------------------------ evaluateCodeReview: specification

  function Decided(f: Finding, d: FindingDecision, c: Context, reviewId: string): Finding {
    f.(status := d.status,
       verifiedCandidateId := if d.status.Resolved? || d.status.Withdrawn? then Some(c.candidateId) else None,
       history := f.history + [HistoryEntry(d.status, c.candidateId, reviewId, d.reason)])
  }

  function ApplyDecisions(findings: seq<Finding>, ds: seq<FindingDecision>, c: Context, reviewId: string): (r: seq<Finding>)
    ensures |r| == |findings|
  {
    if ds == [] then findings
    else
      var past := ApplyDecisions(findings, ds[..|ds| - 1], c, reviewId);
      var d := ds[|ds| - 1];
      var k := FirstFinding(past, d.findingId);
      if k < |past| then past[k := Decided(past[k], d, c, reviewId)] else past
  }

  function Opened(f: NewFinding, id: string, c: Context, reviewId: string): Finding {
    Finding(id, f.requirementId, f.problem, f.resolutionCriteria, f.required, Open, c.candidateId, None,
            [HistoryEntry(Open, c.candidateId, reviewId, f.problem)])
  }

  function OpenedAll(fs: seq<NewFinding>, ids: seq<string>, c: Context, reviewId: string): seq<Finding>
    requires |ids| == |fs|
  {
    seq(|fs|, i requires 0 <= i < |fs| => Opened(fs[i], ids[i], c, reviewId))
  }

  predicate RequiredFinding(requirementId: string, c: Context) {
    exists i :: 0 <= i < |c.requirements| && c.requirements[i].requirementId == requirementId && c.requirements[i].required
  }

  function Upgraded(f: Finding, c: Context): Finding {
    f.(required := f.required || RequiredFinding(f.requirementId, c))
  }

  function UpgradedAll(fs: seq<Finding>, c: Context): seq<Finding> {
    seq(|fs|, i requires 0 <= i < |fs| => Upgraded(fs[i], c))
  }

  function FindingsAfter(r: Report, c: Context, reviewId: string, ids: seq<string>): seq<Finding>
    requires |ids| == |r.newFindings|
  {
    UpgradedAll(ApplyDecisions(c.findings, r.findingDecisions, c, reviewId)
                + OpenedAll(r.newFindings, ids, c, reviewId), c)
  }

  predicate Unresolved(f: Finding) { f.required && (f.status.Open? || f.status.FixSubmitted?) }

  predicate NeedsRecheck(f: Finding, c: Context) {
    f.required && f.status.Resolved? && f.verifiedCandidateId != Some(c.candidateId)
  }

  predicate RequiredVerdict(r: Report, c: Context, v: Verdict) {
    exists i :: 0 <= i < |r.assessments| && r.assessments[i].verdict == v
      && var k := FirstRequirement(c.requirements, r.assessments[i].requirementId);
         k < |c.requirements| && c.requirements[k].required
  }

  datatype Decision = Pass | Hold | Rework

  predicate SomeUnresolved(fs: seq<Finding>) { exists i :: 0 <= i < |fs| && Unresolved(fs[i]) }

  predicate SomeRecheck(fs: seq<Finding>, c: Context) { exists i :: 0 <= i < |fs| && NeedsRecheck(fs[i], c) }

  function Decide(r: Report, c: Context, findings: seq<Finding>): Decision {
    if RequiredVerdict(r, c, Unsatisfied) || SomeUnresolved(findings) then Rework
    else if RequiredVerdict(r, c, Undetermined) || SomeRecheck(findings, c) || c.unresolvedQuestions != [] then Hold
    else Pass
  }

  datatype Evaluation = Evaluation(decision: Decision, findings: seq<Finding>)

  datatype Error = InvalidReport | MissingIds

  function Evaluate(r: Report, c: Context, reviewId: string, ids: seq<string>): Evaluation
    requires |ids| == |r.newFindings|
  {
    var findings := FindingsAfter(r, c, reviewId, ids);
    Evaluation(Decide(r, c, findings), findings)
  }

  // ------------------------------------------------------------------ the loops of the source

  method ValidateAuditResponse(r: Report, c: Context) returns (ok: bool)
    ensures ok <==> ValidReport(r, c)
    ensures ok ==> SatisfiedByLastRuns(r, c)
  {
    if !Bound(r, c) || !NonBlank(r.summary) { return false; }
    if !NoDuplicates(RequirementIds(r.assessments)) || |r.assessments| != |c.requirements| { return false; }
    for i := 0 to |r.assessments|
      invariant forall j :: 0 <= j < i ==> NonBlank(r.assessments[j].requirementId) && ValidAssessment(r.assessments[j], c)
    {
      if !NonBlank(r.assessments[i].requirementId) || !ValidAssessment(r.assessments[i], c) { return false; }
    }
    if !NoDuplicates(DecisionIds(r.findingDecisions)) { return false; }
    for i := 0 to |r.findingDecisions|
      invariant forall j :: 0 <= j < i ==>
        NonBlank(r.findingDecisions[j].findingId) && ValidDecision(r.findingDecisions[j], c)
    {
      if !NonBlank(r.findingDecisions[i].findingId) || !ValidDecision(r.findingDecisions[i], c) { return false; }
    }
    for i := 0 to |r.newFindings|
      invariant forall j :: 0 <= j < i ==> ValidNewFinding(r.newFindings[j], c)
    {
      if !ValidNewFinding(r.newFindings[i], c) { return false; }
    }
    for i := 0 to |r.suggestions|
      invariant forall j :: 0 <= j < i ==> ValidSuggestion(r.suggestions[j], c)
    {
      if !ValidSuggestion(r.suggestions[i], c) { return false; }
    }
    AcceptedByLastRuns(r, c);
    ok := true;
  }

  /** Updates a copy of the context's findings in place, as the source does on its structured clone. */
  method EvaluateCodeReview(r: Report, c: Context, reviewId: string, ids: seq<string>)
    returns (out: Result<Evaluation, Error>)
    ensures out.Ok? <==> ValidReport(r, c) && |ids| == |r.newFindings|
    ensures out.Ok? ==> out.value == Evaluate(r, c, reviewId, ids)
  {
    var ok := ValidateAuditResponse(r, c);
    if !ok { return Err(InvalidReport); }
    if |ids| != |r.newFindings| { return Err(MissingIds); }
    var decided := DecideInPlace(r, c, reviewId);
    var grown := OpenNew(decided, r, c, reviewId, ids);
    var findings := UpgradeInPlace(grown, c);
    out := Ok(Evaluation(Decide(r, c, findings), findings));
  }

  method DecideInPlace(r: Report, c: Context, reviewId: string) returns (findings: seq<Finding>)
    ensures findings == ApplyDecisions(c.findings, r.findingDecisions, c, reviewId)
  {
    findings := c.findings;
    for i := 0 to |r.findingDecisions|
      invariant findings == ApplyDecisions(c.findings, r.findingDecisions[..i], c, reviewId)
    {
      var d := r.findingDecisions[i];
      assert r.findingDecisions[..i + 1][..i] == r.findingDecisions[..i];
      var k := FirstFinding(findings, d.findingId);
      if k < |findings| { findings := findings[k := Decided(findings[k], d, c, reviewId)]; }
    }
    assert r.findingDecisions[..|r.findingDecisions|] == r.findingDecisions;
  }

  method OpenNew(decided: seq<Finding>, r: Report, c: Context, reviewId: string, ids: seq<string>)
    returns (findings: seq<Finding>)
    requires |ids| == |r.newFindings|
    ensures findings == decided + OpenedAll(r.newFindings, ids, c, reviewId)
  {
    findings := decided;
    for i := 0 to |r.newFindings|
      invariant findings == decided + OpenedAll(r.newFindings[..i], ids[..i], c, reviewId)
    {
      findings := findings + [Opened(r.newFindings[i], ids[i], c, reviewId)];
    }
    assert r.newFindings[..|r.newFindings|] == r.newFindings && ids[..|ids|] == ids;
  }

  method UpgradeInPlace(grown: seq<Finding>, c: Context) returns (findings: seq<Finding>)
    ensures findings == UpgradedAll(grown, c)
  {
    findings := grown;
    for i := 0 to |findings|
      invariant |findings| == |grown|
      invariant forall j :: 0 <= j < |grown| ==> findings[j] == if j < i then Upgraded(grown[j], c) else grown[j]
    {
      findings := findings[i := Upgraded(findings[i], c)];
    }
  }

  // ------------------------------------------------------------------ what evaluation does to each finding

  /** The decision about a finding id, if the report has one. */
  ghost predicate DecidedBy(ds: seq<FindingDecision>, d: FindingDecision, id: string) {
    d in ds && d.findingId == id
  }

  ghost predicate IsDecided(ds: seq<FindingDecision>, id: string) {
    exists d :: DecidedBy(ds, d, id)
  }

  lemma {:induction false} SameFirst(a: seq<Finding>, b: seq<Finding>, id: string)
    requires |a| == |b| && forall i :: 0 <= i < |a| ==> a[i].findingId == b[i].findingId
    ensures FirstFinding(a, id) == FirstFinding(b, id)
  {
    if a != [] && a[0].findingId != id { SameFirst(a[1..], b[1..], id); }
  }

  lemma {:induction false} SameIds(findings: seq<Finding>, ds: seq<FindingDecision>, c: Context, reviewId: string)
    ensures var now := ApplyDecisions(findings, ds, c, reviewId);
            && (forall i :: 0 <= i < |findings| ==>
                  now[i].findingId == findings[i].findingId && now[i].requirementId == findings[i].requirementId
                  && now[i].required == findings[i].required && findings[i].history <= now[i].history)
            && (forall id :: FirstFinding(now, id) == FirstFinding(findings, id))
  {
    if ds != [] {
      SameIds(findings, ds[..|ds| - 1], c, reviewId);
    }
    var now := ApplyDecisions(findings, ds, c, reviewId);
    forall id ensures FirstFinding(now, id) == FirstFinding(findings, id) { SameFirst(now, findings, id); }
  }

  lemma LastDecision(ds: seq<FindingDecision>, id: string)
    requires ds != [] && NoDuplicates(DecisionIds(ds))
    ensures var past, last := ds[..|ds| - 1], ds[|ds| - 1];
            && NoDuplicates(DecisionIds(past))
            && (forall d :: DecidedBy(ds, d, id) <==> DecidedBy(past, d, id) || (d == last && last.findingId == id))
            && (last.findingId == id ==> !IsDecided(past, id))
            && (IsDecided(ds, id) <==> IsDecided(past, id) || last.findingId == id)
  {
    var n := |ds| - 1;
    var past, last := ds[..n], ds[n];
    assert ds == past + [last];
    assert forall j :: 0 <= j < n ==> DecisionIds(ds)[j] == DecisionIds(past)[j];
    forall d | d in past ensures d.findingId != last.findingId {
      var j :| 0 <= j < |past| && past[j] == d;
      assert DecisionIds(ds)[j] != DecisionIds(ds)[n];
    }
    assert last.findingId == id ==> DecidedBy(ds, last, id);
    assert forall d :: DecidedBy(past, d, id) ==> DecidedBy(ds, d, id);
  }

  /** With at most one decision per id, a finding is decided exactly when it is the first with its id and the
      report decides that id; otherwise it is untouched. */
  lemma {:induction false} DecisionsPointwise(
      findings: seq<Finding>, ds: seq<FindingDecision>, c: Context, reviewId: string, i: nat)
    requires i < |findings| && NoDuplicates(DecisionIds(ds))
    ensures var now := ApplyDecisions(findings, ds, c, reviewId);
            var f := findings[i];
            if FirstFinding(findings, f.findingId) == i && IsDecided(ds, f.findingId) then
              forall d :: DecidedBy(ds, d, f.findingId) ==> now[i] == Decided(f, d, c, reviewId)
            else now[i] == f
  {
    if ds != [] {
      var past := ds[..|ds| - 1];
      LastDecision(ds, findings[i].findingId);
      DecisionsPointwise(findings, past, c, reviewId, i);
      SameIds(findings, past, c, reviewId);
    }
  }

  /** Evaluation drops no finding, only appends to histories, and never downgrades `required`. */
  lemma FindingsOnlyGrow(r: Report, c: Context, reviewId: string, ids: seq<string>)
    requires |ids| == |r.newFindings|
    ensures var now := FindingsAfter(r, c, reviewId, ids);
            && |now| == |c.findings| + |r.newFindings|
            && (forall i :: 0 <= i < |c.findings| ==>
                  && now[i].findingId == c.findings[i].findingId && c.findings[i].history <= now[i].history
                  && (c.findings[i].required ==> now[i].required)
                  && (RequiredFinding(c.findings[i].requirementId, c) ==> now[i].required))
            && (forall i :: 0 <= i < |r.newFindings| ==>
                  var f := now[|c.findings| + i];
                  f.findingId == ids[i] && f.status == Open && f.problem == r.newFindings[i].problem
                  && (r.newFindings[i].required ==> f.required))
  {
    SameIds(c.findings, r.findingDecisions, c, reviewId);
  }

  // ------------------------------------------------------------------ certification stability

  predicate Fresh(ids: seq<string>, r: Report, c: Context) {
    && |ids| == |r.newFindings|
    && (forall i, j :: 0 <= i < |ids| && 0 <= j < |c.findings| ==> ids[i] != c.findings[j].findingId)
  }

  /** The context that persists an evaluation's findings. */
  function Recorded(r: Report, c: Context, reviewId: string, ids: seq<string>): Context
    requires |ids| == |r.newFindings|
  {
    c.(findings := FindingsAfter(r, c, reviewId, ids))
  }

  lemma RecordedStaysValid(r: Report, c: Context, reviewId: string, ids: seq<string>)
    requires ValidReport(r, c) && Fresh(ids, r, c)
    ensures ValidReport(r, Recorded(r, c, reviewId, ids))
  {
    var c' := Recorded(r, c, reviewId, ids);
    FindingsOnlyGrow(r, c, reviewId, ids);
    forall i | 0 <= i < |r.assessments| ensures ValidAssessment(r.assessments[i], c') {
      var a := r.assessments[i];
      SameSupport(a, c, c');
    }
    forall i | 0 <= i < |r.findingDecisions| ensures ValidDecision(r.findingDecisions[i], c') {
      var d := r.findingDecisions[i];
      var k := FirstFinding(c.findings, d.findingId);
      assert ValidDecision(d, c) && c'.findings[k].findingId == d.findingId;
      SameRefs(d.evidenceRefs, c, c', true);
    }
    forall i | 0 <= i < |r.newFindings| ensures ValidNewFinding(r.newFindings[i], c') {
      SameRefs(r.newFindings[i].evidenceRefs, c, c', true);
    }
    forall i | 0 <= i < |r.suggestions| ensures ValidSuggestion(r.suggestions[i], c') {
      SameRefs(r.suggestions[i].evidenceRefs, c, c', true);
    }
  }

  predicate SameEvidence(c: Context, d: Context) {
    d.evidence == c.evidence && d.candidateId == c.candidateId && d.requirements == c.requirements
  }

  lemma SameRefs(refs: seq<string>, c: Context, d: Context, some: bool)
    requires SameEvidence(c, d)
    ensures ValidRefs(refs, c, some) == ValidRefs(refs, d, some)
  {
    assert forall i :: 0 <= i < |refs| ==> Usable(c, refs[i]) == Usable(d, refs[i]);
  }

  lemma SameChecks(req: Requirement, refs: seq<string>, c: Context, d: Context)
    requires SameEvidence(c, d)
    ensures SupportsSatisfied(req, refs, c) == SupportsSatisfied(req, refs, d)
  {
    assert forall k: nat :: Cited(refs, c, k) == Cited(refs, d, k);
    assert forall kind :: CoversKind(refs, c, kind) == CoversKind(refs, d, kind);
    forall i | 0 <= i < |req.checks| ensures CheckPasses(req.checks[i], refs, c) == CheckPasses(req.checks[i], refs, d) {
      var k := LatestExecution(c.evidence, c.candidateId, req.checks[i].verificationId);
      if k < |c.evidence| {
        assert forall file :: HasResultFile(refs, c, c.evidence[k], file) == HasResultFile(refs, d, c.evidence[k], file);
      }
    }
  }

  lemma SameSupport(a: Assessment, c: Context, d: Context)
    requires SameEvidence(c, d)
    ensures ValidAssessment(a, c) == ValidAssessment(a, d)
  {
    SameRefs(a.evidenceRefs, c, d, !a.verdict.Undetermined?);
    var k := FirstRequirement(c.requirements, a.requirementId);
    if k < |c.requirements| { SameChecks(c.requirements[k], a.evidenceRefs, c, d); }
  }

  predicate SameStanding(a: Finding, b: Finding) {
    a.status == b.status && a.required == b.required && a.verifiedCandidateId == b.verifiedCandidateId
  }

  lemma ReevaluatedOld(
      r: Report, c: Context, reviewId: string, ids: seq<string>, reviewId': string, ids': seq<string>, i: nat)
    requires ValidReport(r, c) && Fresh(ids, r, c) && |ids'| == |r.newFindings| && i < |c.findings|
    ensures var c' := Recorded(r, c, reviewId, ids);
            SameStanding(FindingsAfter(r, c', reviewId', ids')[i], c'.findings[i])
  {
    var c' := Recorded(r, c, reviewId, ids);
    var ds := r.findingDecisions;
    SameIds(c.findings, ds, c, reviewId);
    SameIds(c'.findings, ds, c', reviewId');
    DecisionsPointwise(c.findings, ds, c, reviewId, i);
    DecisionsPointwise(c'.findings, ds, c', reviewId', i);
    assert forall id :: RequiredFinding(id, c') == RequiredFinding(id, c);
    var id := c.findings[i].findingId;
    assert forall j :: 0 <= j < |c.findings| ==> c'.findings[j].findingId == c.findings[j].findingId;
    assert (FirstFinding(c'.findings, id) == i) == (FirstFinding(c.findings, id) == i);
    if FirstFinding(c.findings, id) == i && IsDecided(ds, id) {
      var d :| DecidedBy(ds, d, id);
    }
  }

  lemma ReevaluatedNew(
      r: Report, c: Context, reviewId: string, ids: seq<string>, reviewId': string, ids': seq<string>, i: nat)
    requires ValidReport(r, c) && Fresh(ids, r, c) && |ids'| == |r.newFindings| && i < |r.newFindings|
    ensures var c' := Recorded(r, c, reviewId, ids);
            SameStanding(FindingsAfter(r, c', reviewId', ids')[|c.findings| + i], c'.findings[|c.findings| + i])
  {
    var c' := Recorded(r, c, reviewId, ids);
    var ds := r.findingDecisions;
    DecisionsPointwise(c'.findings, ds, c', reviewId', |c.findings| + i);
    assert forall id :: RequiredFinding(id, c') == RequiredFinding(id, c);
    var id := c'.findings[|c.findings| + i].findingId;
    forall d | d in ds ensures d.findingId != id {
      var j :| 0 <= j < |ds| && ds[j] == d;
      assert ValidDecision(ds[j], c);
      var k := FirstFinding(c.findings, d.findingId);
      assert ids[i] != c.findings[k].findingId;
    }
  }

  /** What the second evaluation appends stands as what the first one appended. */
  lemma ReevaluatedTail(r: Report, c: Context, reviewId: string, ids: seq<string>, reviewId': string, ids': seq<string>, i: nat)
    requires |ids| == |r.newFindings| && |ids'| == |r.newFindings| && i < |r.newFindings|
    ensures var c' := Recorded(r, c, reviewId, ids);
            var n := |c'.findings|;
            n == |c.findings| + |r.newFindings|
            && SameStanding(FindingsAfter(r, c', reviewId', ids')[n + i], c'.findings[|c.findings| + i])
  {
    var c' := Recorded(r, c, reviewId, ids);
    assert RequiredFinding(r.newFindings[i].requirementId, c') == RequiredFinding(r.newFindings[i].requirementId, c);
  }

  /** `twice` starts with `once`, and ends with its last n findings again, up to ids and histories. */
  predicate SameHead(once: seq<Finding>, twice: seq<Finding>) {
    |once| <= |twice| && forall i :: 0 <= i < |once| ==> SameStanding(twice[i], once[i])
  }

  predicate SameTail(once: seq<Finding>, twice: seq<Finding>, n: nat) {
    n <= |once| && |twice| == |once| + n
    && forall i :: |once| <= i < |twice| ==> SameStanding(twice[i], once[i - n])
  }

  lemma HeadStands(r: Report, c: Context, reviewId: string, ids: seq<string>, reviewId': string, ids': seq<string>)
    requires ValidReport(r, c) && Fresh(ids, r, c) && |ids'| == |r.newFindings|
    ensures var c' := Recorded(r, c, reviewId, ids);
            SameHead(c'.findings, FindingsAfter(r, c', reviewId', ids'))
  {
    var c' := Recorded(r, c, reviewId, ids);
    var once, twice := c'.findings, FindingsAfter(r, c', reviewId', ids');
    forall i | 0 <= i < |once| ensures SameStanding(twice[i], once[i]) {
      if i < |c.findings| { ReevaluatedOld(r, c, reviewId, ids, reviewId', ids', i); }
      else { ReevaluatedNew(r, c, reviewId, ids, reviewId', ids', i - |c.findings|); }
    }
  }

  lemma TailStands(r: Report, c: Context, reviewId: string, ids: seq<string>, reviewId': string, ids': seq<string>)
    requires |ids| == |r.newFindings| && |ids'| == |r.newFindings|
    ensures var c' := Recorded(r, c, reviewId, ids);
            SameTail(c'.findings, FindingsAfter(r, c', reviewId', ids'), |r.newFindings|)
  {
    var c' := Recorded(r, c, reviewId, ids);
    var once, twice := c'.findings, FindingsAfter(r, c', reviewId', ids');
    var n := |r.newFindings|;
    assert |once| - n == |c.findings|;
    forall i | |once| <= i < |twice| ensures SameStanding(twice[i], once[i - n]) {
      ReevaluatedTail(r, c, reviewId, ids, reviewId', ids', i - |once|);
    }
  }

  /** Repeating findings changes neither test. */
  lemma RepeatedStanding(once: seq<Finding>, twice: seq<Finding>, n: nat, c: Context, c': Context)
    requires SameHead(once, twice) && SameTail(once, twice, n) && c'.candidateId == c.candidateId
    ensures SomeUnresolved(twice) == SomeUnresolved(once) && SomeRecheck(twice, c') == SomeRecheck(once, c)
  {
    if SomeUnresolved(once) {
      var i :| 0 <= i < |once| && Unresolved(once[i]);
      assert Unresolved(twice[i]);
    }
    if SomeRecheck(once, c) {
      var i :| 0 <= i < |once| && NeedsRecheck(once[i], c);
      assert NeedsRecheck(twice[i], c');
    }
    forall i | 0 <= i < |twice|
      ensures Unresolved(twice[i]) ==> SomeUnresolved(once)
      ensures NeedsRecheck(twice[i], c') ==> SomeRecheck(once, c)
    {
      var j := if i < |once| then i else i - n;
      assert SameStanding(twice[i], once[j]);
      assert Unresolved(twice[i]) == Unresolved(once[j]) && NeedsRecheck(twice[i], c') == NeedsRecheck(once[j], c);
    }
  }

  /** Evaluating a report again, on the findings its own evaluation recorded, is again possible and gives the
      same decision: what scripts/certify.js relies on. */
  lemma ReevaluationIsStable(
      r: Report, c: Context, reviewId: string, ids: seq<string>, reviewId': string, ids': seq<string>)
    requires ValidReport(r, c) && Fresh(ids, r, c) && |ids'| == |r.newFindings|
    ensures var c' := Recorded(r, c, reviewId, ids);
            ValidReport(r, c')
            && Evaluate(r, c', reviewId', ids').decision == Evaluate(r, c, reviewId, ids).decision
  {
    var c' := Recorded(r, c, reviewId, ids);
    RecordedStaysValid(r, c, reviewId, ids);
    HeadStands(r, c, reviewId, ids, reviewId', ids');
    TailStands(r, c, reviewId, ids, reviewId', ids');
    RepeatedStanding(c'.findings, FindingsAfter(r, c', reviewId', ids'), |r.newFindings|, c, c');
    assert forall v :: RequiredVerdict(r, c', v) == RequiredVerdict(r, c, v);
  }
}
