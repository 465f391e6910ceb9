/** The rules of a review report, said of requirements, records and findings (src/domain/code-review.js). */
module ReviewRules {
  import opened Common
  import opened CodeReview

  // ------------------------------------------------------------------ evidence

  /** Record k is the one its id stands for: the first with that id. */
  predicate Stands(c: Context, k: nat) {
    k < |c.evidence| && forall i :: 0 <= i < k ==> c.evidence[i].evidenceId != c.evidence[k].evidenceId
  }

  /** The references name record k. */
  predicate Names(refs: seq<string>, c: Context, k: nat) {
    Stands(c, k) && c.evidence[k].evidenceId in refs
  }

  lemma CitedIsNamed(refs: seq<string>, c: Context, k: nat)
    ensures Cited(refs, c, k) <==> Names(refs, c, k)
  {
    if Names(refs, c, k) {
      var i :| 0 <= i < |refs| && refs[i] == c.evidence[k].evidenceId;
      var j := FirstEvidence(c.evidence, refs[i]);
      assert j == k;
      assert FirstEvidence(c.evidence, refs[i]) == k;
    }
  }

  /** The id stands for a record of this candidate that is not marked invalid. */
  predicate Fits(c: Context, id: string) {
    exists k: nat ::
      && k < |c.evidence| && Stands(c, k) && c.evidence[k].evidenceId == id
      && c.evidence[k].candidateId == c.candidateId && c.evidence[k].valid != Some(false)
  }

  lemma UsableFits(c: Context, id: string)
    ensures Usable(c, id) <==> Fits(c, id)
  {
    var j := FirstEvidence(c.evidence, id);
    if j < |c.evidence| { assert Stands(c, j); }
  }

  /** The references are different and fit. */
  predicate ProperRefs(refs: seq<string>, c: Context) {
    && (forall i, j :: 0 <= i < |refs| && 0 <= j < |refs| && refs[i] == refs[j] ==> i == j)
    && forall i :: 0 <= i < |refs| ==> Fits(c, refs[i])
  }

  lemma RefsAreProper(refs: seq<string>, c: Context, some: bool)
    ensures ValidRefs(refs, c, some) <==> ProperRefs(refs, c) && (some ==> |refs| > 0)
  {
    forall i | 0 <= i < |refs| ensures Usable(c, refs[i]) <==> Fits(c, refs[i]) { UsableFits(c, refs[i]); }
  }

  // ------------------------------------------------------------------ what supports SATISFIED

  /** Record k is an execution of the check on this candidate, and no later record is. */
  predicate Latest(c: Context, k: nat, verificationId: string) {
    && k < |c.evidence|
    && forall i :: k <= i < |c.evidence| ==>
         (i == k <==> c.evidence[i].candidateId == c.candidateId && c.evidence[i].kind == "EXECUTION"
                      && c.evidence[i].result.Some? && c.evidence[i].result.value.verificationId == verificationId)
  }

  /** The execution was made by the controller and ended as the check expects, undisturbed and confirmed. */
  predicate Clean(e: Evidence, expectedExitCode: int) {
    && e.producer == "CONTROLLER" && e.valid == Some(true) && e.result.Some?
    && var r := e.result.value;
       && r.executionId != "" && r.exitCode == expectedExitCode
       && r.timedOut == false && r.aborted == false && r.failed == false
       && r.candidateUnchanged == true && r.terminationConfirmed == true
  }

  /** The record is the controller's valid copy of a result file of the execution. */
  predicate ResultFile(e: Evidence, execution: Evidence, file: string) {
    && e.kind == "ARTIFACT" && e.producer == "CONTROLLER" && e.valid == Some(true)
    && e.executionEvidenceId == execution.evidenceId && e.result.Some? && execution.result.Some?
    && e.result.value.executionId == execution.result.value.executionId
    && e.result.value.verificationId == execution.result.value.verificationId && e.result.value.path == file
  }

  predicate NamesFile(refs: seq<string>, c: Context, execution: Evidence, file: string) {
    exists a: nat :: a < |c.evidence| && Names(refs, c, a) && ResultFile(c.evidence[a], execution, file)
  }

  predicate PassesWith(check: Check, refs: seq<string>, c: Context, k: nat)
    requires k < |c.evidence|
  {
    && Names(refs, c, k) && Clean(c.evidence[k], check.expectedExitCode)
    && forall i :: 0 <= i < |check.requiredResultFiles| ==> NamesFile(refs, c, c.evidence[k], check.requiredResultFiles[i])
  }

  /** The references name the check's latest execution, it is clean, and they name all its result files. */
  predicate Passes(check: Check, refs: seq<string>, c: Context) {
    exists k: nat :: k < |c.evidence| && Latest(c, k, check.verificationId) && PassesWith(check, refs, c, k)
  }

  lemma LatestIsOne(c: Context, k: nat, verificationId: string)
    ensures Latest(c, k, verificationId) <==>
            k < |c.evidence| && k == LatestExecution(c.evidence, c.candidateId, verificationId)
  {
    var j := LatestExecution(c.evidence, c.candidateId, verificationId);
    if Latest(c, k, verificationId) {
      assert IsExecution(c.evidence[k], c.candidateId, verificationId);
      assert k <= j < |c.evidence|;
      assert IsExecution(c.evidence[j], c.candidateId, verificationId);
    }
    if k == j < |c.evidence| {
      forall i | k <= i < |c.evidence| ensures i == k <==> IsExecution(c.evidence[i], c.candidateId, verificationId) { }
    }
  }

  lemma FileIsNamed(refs: seq<string>, c: Context, execution: Evidence, file: string)
    requires execution.result.Some?
    ensures HasResultFile(refs, c, execution, file) <==> NamesFile(refs, c, execution, file)
  {
    forall k: nat ensures Cited(refs, c, k) <==> Names(refs, c, k) { CitedIsNamed(refs, c, k); }
  }

  lemma PassesWithLatest(check: Check, refs: seq<string>, c: Context, k: nat)
    requires k < |c.evidence| && k == LatestExecution(c.evidence, c.candidateId, check.verificationId)
    ensures CheckPasses(check, refs, c) <==> PassesWith(check, refs, c, k)
  {
    CitedIsNamed(refs, c, k);
    var files := check.requiredResultFiles;
    forall i | 0 <= i < |files|
      ensures HasResultFile(refs, c, c.evidence[k], files[i]) <==> NamesFile(refs, c, c.evidence[k], files[i])
    {
      FileIsNamed(refs, c, c.evidence[k], files[i]);
    }
  }

  /** A check passes exactly if the report cites its latest execution, and that one is clean and has its files. */
  lemma PassesExactly(check: Check, refs: seq<string>, c: Context)
    ensures CheckPasses(check, refs, c) <==> Passes(check, refs, c)
  {
    var k := LatestExecution(c.evidence, c.candidateId, check.verificationId);
    forall i: nat ensures Latest(c, i, check.verificationId) <==> i < |c.evidence| && i == k {
      LatestIsOne(c, i, check.verificationId);
    }
    if k < |c.evidence| { PassesWithLatest(check, refs, c, k); }
  }

  /** The references name a record of the kind that no agent made. */
  predicate NamesKind(refs: seq<string>, c: Context, kind: string) {
    exists k: nat :: k < |c.evidence| && Names(refs, c, k) && c.evidence[k].kind == kind && c.evidence[k].producer != "AGENT"
  }

  /** Every kind the requirement asks for is named, executions and artifacts come from checks, and every check
      passes. */
  predicate Supports(req: Requirement, refs: seq<string>, c: Context) {
    && (forall kind <- req.kinds :: NamesKind(refs, c, kind))
    && (req.checks == [] ==> "EXECUTION" !in req.kinds && "ARTIFACT" !in req.kinds)
    && forall check <- req.checks :: Passes(check, refs, c)
  }

  lemma SupportsExactly(req: Requirement, refs: seq<string>, c: Context)
    ensures SupportsSatisfied(req, refs, c) <==> Supports(req, refs, c)
  {
    forall kind ensures CoversKind(refs, c, kind) <==> NamesKind(refs, c, kind) { KindIsNamed(refs, c, kind); }
    forall check ensures CheckPasses(check, refs, c) <==> Passes(check, refs, c) { PassesExactly(check, refs, c); }
    if forall i :: 0 <= i < |req.kinds| ==> CoversKind(refs, c, req.kinds[i]) {
      forall kind | kind in req.kinds ensures NamesKind(refs, c, kind) { }
    }
    if forall i :: 0 <= i < |req.checks| ==> CheckPasses(req.checks[i], refs, c) {
      forall check | check in req.checks ensures Passes(check, refs, c) { }
    }
  }

  lemma KindIsNamed(refs: seq<string>, c: Context, kind: string)
    ensures CoversKind(refs, c, kind) <==> NamesKind(refs, c, kind)
  {
    forall k: nat ensures Cited(refs, c, k) <==> Names(refs, c, k) { CitedIsNamed(refs, c, k); }
  }

  // ------------------------------------------------------------------ the whole report

  /** The requirement an id stands for. */
  predicate StandsFor(c: Context, k: nat, id: string) {
    && k < |c.requirements| && c.requirements[k].requirementId == id
    && forall i :: 0 <= i < k ==> c.requirements[i].requirementId != id
  }

  predicate SoundAssessment(a: Assessment, c: Context) {
    && NonBlank(a.reason) && ProperRefs(a.evidenceRefs, c)
    && (a.verdict == Undetermined ==> a.missingInformation.Some? && NonBlank(a.missingInformation.value))
    && (a.verdict != Undetermined ==> a.evidenceRefs != [])
    && (a.verdict == Satisfied ==>
          forall k: nat :: k < |c.requirements| && StandsFor(c, k, a.requirementId) ==> Supports(c.requirements[k], a.evidenceRefs, c))
  }

  predicate KnownFinding(c: Context, id: string) { exists i :: 0 <= i < |c.findings| && c.findings[i].findingId == id }

  predicate KnownRequirement(c: Context, id: string) {
    exists i :: 0 <= i < |c.requirements| && c.requirements[i].requirementId == id
  }

  predicate Cites(refs: seq<string>, c: Context) { refs != [] && ProperRefs(refs, c) }

  predicate SoundDecision(d: FindingDecision, c: Context) {
    NonBlank(d.findingId) && KnownFinding(c, d.findingId) && NonBlank(d.reason) && Cites(d.evidenceRefs, c)
  }

  predicate SoundFinding(f: NewFinding, c: Context) {
    && KnownRequirement(c, f.requirementId) && NonBlank(f.problem) && NonBlank(f.resolutionCriteria)
    && Cites(f.evidenceRefs, c)
  }

  predicate SoundSuggestion(s: Suggestion, c: Context) {
    KnownRequirement(c, s.requirementId) && NonBlank(s.description) && Cites(s.evidenceRefs, c)
  }

  function Ids(requirements: seq<Requirement>): seq<string> {
    seq(|requirements|, i requires 0 <= i < |requirements| => requirements[i].requirementId)
  }

  predicate AllDifferent(ids: seq<string>) {
    forall i, j :: 0 <= i < |ids| && 0 <= j < |ids| && i != j ==> ids[i] != ids[j]
  }

  lemma RequirementKnown(c: Context, id: string)
    ensures FirstRequirement(c.requirements, id) < |c.requirements| <==> KnownRequirement(c, id)
    ensures KnownRequirement(c, id) ==> forall k: nat :: StandsFor(c, k, id) <==> k == FirstRequirement(c.requirements, id)
  {
  }

  lemma FindingKnown(c: Context, id: string)
    ensures FirstFinding(c.findings, id) < |c.findings| <==> KnownFinding(c, id)
  {
  }

  lemma AssessmentIsSound(a: Assessment, c: Context)
    ensures ValidAssessment(a, c) <==> KnownRequirement(c, a.requirementId) && SoundAssessment(a, c)
  {
    RequirementKnown(c, a.requirementId);
    RefsAreProper(a.evidenceRefs, c, !a.verdict.Undetermined?);
    if KnownRequirement(c, a.requirementId) {
      SupportsExactly(c.requirements[FirstRequirement(c.requirements, a.requirementId)], a.evidenceRefs, c);
    }
  }

  lemma DecisionIsSound(c: Context, d: FindingDecision)
    ensures NonBlank(d.findingId) && ValidDecision(d, c) <==> SoundDecision(d, c)
  {
    FindingKnown(c, d.findingId);
    RefsAreProper(d.evidenceRefs, c, true);
  }

  lemma FindingIsSound(c: Context, f: NewFinding)
    ensures ValidNewFinding(f, c) <==> SoundFinding(f, c)
  {
    RequirementKnown(c, f.requirementId);
    RefsAreProper(f.evidenceRefs, c, true);
  }

  lemma SuggestionIsSound(c: Context, s: Suggestion)
    ensures ValidSuggestion(s, c) <==> SoundSuggestion(s, c)
  {
    RequirementKnown(c, s.requirementId);
    RefsAreProper(s.evidenceRefs, c, true);
  }

  /** As many different known ids as there are requirements are all of them, once each. */
  lemma {:induction false} PermutesAll(ids: seq<string>, all: seq<string>)
    requires |ids| == |all|
    ensures AllDifferent(ids) && (forall i :: 0 <= i < |ids| ==> ids[i] in all) <==>
            AllDifferent(all) && multiset(ids) == multiset(all)
  {
    if AllDifferent(ids) && forall i :: 0 <= i < |ids| ==> ids[i] in all { EachOnce(ids, all); }
    if AllDifferent(all) && multiset(ids) == multiset(all) {
      forall i | 0 <= i < |ids| ensures ids[i] in all { assert ids[i] in multiset(all); }
      forall i | 0 <= i < |all| ensures all[i] in ids { assert all[i] in multiset(ids); }
      EachOnce(all, ids);
    }
  }

  function Without(all: seq<string>, k: nat): seq<string>
    requires k < |all|
  {
    all[..k] + all[k + 1..]
  }

  lemma WithoutOne(all: seq<string>, k: nat, id: string)
    requires k < |all|
    ensures multiset(all) == multiset(Without(all, k)) + multiset{all[k]}
    ensures id in all && id != all[k] ==> id in Without(all, k)
  {
    assert all == all[..k] + [all[k]] + all[k + 1..];
  }

  lemma DifferentWith(all: seq<string>, k: nat)
    requires k < |all| && AllDifferent(Without(all, k)) && all[k] !in Without(all, k)
    ensures AllDifferent(all)
  {
    var rest := Without(all, k);
    forall i, j | 0 <= i < |all| && 0 <= j < |all| && i != j ensures all[i] != all[j] {
      if i != k { assert all[i] == rest[if i < k then i else i - 1]; }
      if j != k { assert all[j] == rest[if j < k then j else j - 1]; }
    }
  }

  lemma {:induction false} EachOnce(ids: seq<string>, all: seq<string>)
    requires |ids| == |all| && AllDifferent(ids) && forall i :: 0 <= i < |ids| ==> ids[i] in all
    ensures AllDifferent(all) && multiset(ids) == multiset(all)
    decreases |ids|
  {
    if ids != [] {
      var n := |ids| - 1;
      var k :| 0 <= k < |all| && all[k] == ids[n];
      forall i | 0 <= i < n ensures ids[..n][i] in Without(all, k) { WithoutOne(all, k, ids[i]); }
      EachOnce(ids[..n], Without(all, k));
      WithoutOne(all, k, all[k]);
      assert ids == ids[..n] + [ids[n]];
      assert all[k] !in multiset(ids[..n]);
      DifferentWith(all, k);
    }
  }

  predicate PartsSound(r: Report, c: Context) {
    && (forall i :: 0 <= i < |r.findingDecisions| ==> SoundDecision(r.findingDecisions[i], c))
    && (forall i :: 0 <= i < |r.newFindings| ==> SoundFinding(r.newFindings[i], c))
    && forall i :: 0 <= i < |r.suggestions| ==> SoundSuggestion(r.suggestions[i], c)
  }

  predicate PartsValid(r: Report, c: Context) {
    && (forall i :: 0 <= i < |r.findingDecisions| ==>
          NonBlank(r.findingDecisions[i].findingId) && ValidDecision(r.findingDecisions[i], c))
    && (forall i :: 0 <= i < |r.newFindings| ==> ValidNewFinding(r.newFindings[i], c))
    && forall i :: 0 <= i < |r.suggestions| ==> ValidSuggestion(r.suggestions[i], c)
  }

  lemma PartsAlike(r: Report, c: Context)
    ensures PartsValid(r, c) <==> PartsSound(r, c)
  {
    forall i | 0 <= i < |r.findingDecisions|
      ensures NonBlank(r.findingDecisions[i].findingId) && ValidDecision(r.findingDecisions[i], c)
              <==> SoundDecision(r.findingDecisions[i], c)
    {
      DecisionIsSound(c, r.findingDecisions[i]);
    }
    forall i | 0 <= i < |r.newFindings| ensures ValidNewFinding(r.newFindings[i], c) <==> SoundFinding(r.newFindings[i], c) {
      FindingIsSound(c, r.newFindings[i]);
    }
    forall i | 0 <= i < |r.suggestions| ensures ValidSuggestion(r.suggestions[i], c) <==> SoundSuggestion(r.suggestions[i], c) {
      SuggestionIsSound(c, r.suggestions[i]);
    }
  }

  /** Every requirement is assessed soundly. */
  ghost predicate AllAssessedSoundly(r: Report, c: Context) {
    && AllDifferent(Ids(c.requirements)) && multiset(RequirementIds(r.assessments)) == multiset(Ids(c.requirements))
    && forall i :: 0 <= i < |r.assessments| ==>
         NonBlank(r.assessments[i].requirementId) && SoundAssessment(r.assessments[i], c)
  }

  predicate AllAssessedValidly(r: Report, c: Context) {
    && NoDuplicates(RequirementIds(r.assessments)) && |r.assessments| == |c.requirements|
    && forall i :: 0 <= i < |r.assessments| ==>
         NonBlank(r.assessments[i].requirementId) && ValidAssessment(r.assessments[i], c)
  }

  lemma DifferentIds(ids: seq<string>)
    ensures NoDuplicates(ids) <==> AllDifferent(ids)
  {
  }

  lemma KnownIds(c: Context, id: string)
    ensures KnownRequirement(c, id) <==> id in Ids(c.requirements)
  {
    if KnownRequirement(c, id) {
      var i :| 0 <= i < |c.requirements| && c.requirements[i].requirementId == id;
      assert Ids(c.requirements)[i] == id;
    }
  }

  lemma SameLength(a: seq<string>, b: seq<string>)
    requires multiset(a) == multiset(b)
    ensures |a| == |b|
  {
    assert |multiset(a)| == |a| && |multiset(b)| == |b|;
  }

  lemma AssessmentsAlike(r: Report, c: Context)
    ensures AllAssessedValidly(r, c) <==> AllAssessedSoundly(r, c)
  {
    var ids, all := RequirementIds(r.assessments), Ids(c.requirements);
    forall i | 0 <= i < |r.assessments|
      ensures ValidAssessment(r.assessments[i], c) <==> ids[i] in all && SoundAssessment(r.assessments[i], c)
    {
      AssessmentIsSound(r.assessments[i], c);
      KnownIds(c, ids[i]);
    }
    DifferentIds(ids);
    if |ids| == |all| { PermutesAll(ids, all); }
    if multiset(ids) == multiset(all) { SameLength(ids, all); }
  }

  /** A report is accepted exactly if it answers this very request, its assessments are about exactly the requirements,
      each once, and every part of it is sound. */
  ghost predicate Acceptable(r: Report, c: Context) {
    && r.runId == c.runId && r.requestId == c.requestId && r.candidateId == c.candidateId
    && r.requirementsRef == c.requirementsRef && NonBlank(r.summary)
    && AllAssessedSoundly(r, c) && AllDifferent(DecisionIds(r.findingDecisions)) && PartsSound(r, c)
  }

  lemma AcceptsExactly(r: Report, c: Context)
    ensures ValidReport(r, c) <==> Acceptable(r, c)
  {
    AssessmentsAlike(r, c);
    PartsAlike(r, c);
    DifferentIds(DecisionIds(r.findingDecisions));
    assert ValidReport(r, c) <==> Bound(r, c) && NonBlank(r.summary) && AllAssessedValidly(r, c)
                                  && NoDuplicates(DecisionIds(r.findingDecisions)) && PartsValid(r, c);
  }

  /** In particular an accepted SATISFIED cites, for every check of its requirement, the controller's execution with the
      expected exit code after which no execution of that check follows. */
  lemma SatisfiedCitesTheLatest(r: Report, c: Context, i: nat, k: nat, check: Check)
    requires ValidReport(r, c) && i < |r.assessments| && r.assessments[i].verdict == Satisfied
    requires StandsFor(c, k, r.assessments[i].requirementId) && check in c.requirements[k].checks
    ensures exists e: nat ::
              e < |c.evidence| && Latest(c, e, check.verificationId) && Names(r.assessments[i].evidenceRefs, c, e)
              && Clean(c.evidence[e], check.expectedExitCode)
  {
    AcceptsExactly(r, c);
    assert SoundAssessment(r.assessments[i], c);
    assert Passes(check, r.assessments[i].evidenceRefs, c);
    var e: nat :| e < |c.evidence| && Latest(c, e, check.verificationId) && PassesWith(check, r.assessments[i].evidenceRefs, c, e);
  }
}
