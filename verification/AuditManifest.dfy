/** Audit manifests and what they bind (src/domain/audit-manifest.js). A hash stands for the value it is taken of. */
module AuditManifest {
  import opened Common
  import opened CodeReview
  import Ordering

  datatype Item = Item(record: Evidence, contentHash: string)
  datatype Verification = Verification(verificationId: string, definition: string)
  datatype UserDecision = UserDecision(decisionId: string, candidateId: string, responses: string, requirementsRef: string)
  datatype Candidate = Candidate(candidateId: string, baseCommit: string, candidateTree: string, patchHash: string)

  datatype Run = Run(
    runId: string, objective: string, candidate: Option<Candidate>, requirementsRef: string,
    evidence: seq<Item>, findings: seq<Finding>, verifications: seq<Verification>, userDecisions: seq<UserDecision>)

  datatype EvidenceRef = EvidenceRef(evidenceId: string, kind: string, producer: string, contentHash: string, record: Item)

  datatype FindingRef = FindingRef(
    findingId: string, requirementId: string, problem: string, resolutionCriteria: string, required: bool,
    detectedCandidateId: string)

  datatype VerificationRef = VerificationRef(verificationId: string, definition: Verification)
  datatype DecisionRef = DecisionRef(decisionId: string, responses: string, candidateId: string, requirementsRef: string)

  /** The part of a manifest that must stay as it was. */
  datatype Stable = Stable(
    runId: string, objective: string, candidate: Candidate, requirementsRef: string, evidenceRefs: seq<EvidenceRef>,
    decisionRefs: Option<seq<DecisionRef>>, verificationRefs: seq<VerificationRef>)

  datatype Authority = Authority(stable: Stable, priorFindingRefs: seq<FindingRef>)
  datatype Manifest = Manifest(hashed: Authority, authority: Authority)
  datatype Error = MissingField | NoCandidate

  type Order = (string, string) -> bool

  // ------------------------------------------------------------------ references

  function CandidateEvidence(items: seq<Item>, candidateId: string): (r: seq<Item>)
    ensures forall x :: x in r <==> x in items && x.record.candidateId == candidateId
  {
    if items == [] then []
    else
      var n := |items| - 1;
      assert items == items[..n] + [items[n]];
      var front := CandidateEvidence(items[..n], candidateId);
      if items[n].record.candidateId == candidateId then front + [items[n]] else front
  }

  function CandidateDecisions(ds: seq<UserDecision>, candidateId: string): (r: seq<UserDecision>)
    ensures forall x :: x in r <==> x in ds && x.candidateId == candidateId
  {
    if ds == [] then []
    else
      var n := |ds| - 1;
      assert ds == ds[..n] + [ds[n]];
      var front := CandidateDecisions(ds[..n], candidateId);
      if ds[n].candidateId == candidateId then front + [ds[n]] else front
  }

  function EvidenceRefOf(x: Item): EvidenceRef {
    EvidenceRef(x.record.evidenceId, x.record.kind, x.record.producer, x.contentHash, x)
  }

  /** What a manifest keeps of a finding: not its status, history or verification. */
  function FindingRefOf(f: Finding): FindingRef {
    FindingRef(f.findingId, f.requirementId, f.problem, f.resolutionCriteria, f.required, f.detectedCandidateId)
  }

  function VerificationRefOf(v: Verification): VerificationRef { VerificationRef(v.verificationId, v) }

  function DecisionRefOf(d: UserDecision): DecisionRef {
    DecisionRef(d.decisionId, d.responses, d.candidateId, d.requirementsRef)
  }

  function EvidenceRefs(items: seq<Item>, candidateId: string): seq<EvidenceRef> {
    Mapped(CandidateEvidence(items, candidateId), EvidenceRefOf)
  }

  function DecisionRefs(ds: seq<UserDecision>, candidateId: string): seq<DecisionRef> {
    Mapped(CandidateDecisions(ds, candidateId), DecisionRefOf)
  }

  function FindingRefs(fs: seq<Finding>): seq<FindingRef> { Mapped(fs, FindingRefOf) }

  function VerificationRefs(vs: seq<Verification>): seq<VerificationRef> { Mapped(vs, VerificationRefOf) }

  // ------------------------------------------------------------------ sorting by id

  function EvidenceKey(e: EvidenceRef): string { e.evidenceId }
  function DecisionKey(d: DecisionRef): string { d.decisionId }
  function FindingKey(f: FindingRef): string { f.findingId }
  function VerificationKey(v: VerificationRef): string { v.verificationId }

  function StableOf(run: Run, candidate: Candidate, leq: Order): Stable {
    var ds := DecisionRefs(run.userDecisions, candidate.candidateId);
    Stable(run.runId, run.objective, candidate, run.requirementsRef,
           Ordering.SortBy(EvidenceRefs(run.evidence, candidate.candidateId), EvidenceKey, leq),
           if ds == [] then None else Some(Ordering.SortBy(ds, DecisionKey, leq)),
           Ordering.SortBy(VerificationRefs(run.verifications), VerificationKey, leq))
  }

  // ------------------------------------------------------------------ createAuditManifest

  predicate NamedItem(x: Item) { x.record.evidenceId != "" && x.record.kind != "" && x.contentHash != "" }

  predicate NamedFinding(f: Finding) {
    f.findingId != "" && f.requirementId != "" && f.problem != "" && f.resolutionCriteria != ""
  }

  predicate NamedStable(run: Run, candidateId: string) {
    && (forall x <- run.evidence :: x.record.candidateId == candidateId ==> NamedItem(x))
    && (forall d <- run.userDecisions :: d.candidateId == candidateId ==> d.decisionId != "")
    && (forall v <- run.verifications :: v.verificationId != "")
  }

  predicate NamedFindings(fs: seq<Finding>) { forall f <- fs :: NamedFinding(f) }

  predicate NamedCandidate(run: Run, candidate: Candidate) {
    run.runId != "" && candidate.candidateId != "" && candidate.baseCommit != "" && candidate.candidateTree != ""
    && candidate.patchHash != ""
  }

  function CreateAuditManifest(run: Run, leq: Order): Result<Manifest, Error> {
    if run.candidate.None? then Err(NoCandidate)
    else
      var candidate := run.candidate.value;
      if !NamedCandidate(run, candidate) || !NamedStable(run, candidate.candidateId) || !NamedFindings(run.findings)
      then Err(MissingField)
      else
        var authority := Authority(StableOf(run, candidate, leq), Ordering.SortBy(FindingRefs(run.findings), FindingKey, leq));
        Ok(Manifest(authority, authority))
  }

  // ------------------------------------------------------------------ auditManifestMatchesRun

  /** The Map built from the references keeps the last one of each id. */
  function LastRef(refs: seq<FindingRef>, id: string): Option<FindingRef> {
    if refs == [] then None
    else if refs[|refs| - 1].findingId == id then Some(refs[|refs| - 1])
    else LastRef(refs[..|refs| - 1], id)
  }

  predicate PriorFindingsKept(prior: seq<FindingRef>, now: seq<FindingRef>) {
    forall f <- prior :: LastRef(now, f.findingId) == Some(f)
  }

  function MatchesRun(m: Manifest, run: Run, leq: Order): Result<bool, Error> {
    if run.candidate.None? || m.authority != m.hashed then Ok(false)
    else
      var candidate := run.candidate.value;
      if !NamedStable(run, candidate.candidateId) then Err(MissingField)
      else if StableOf(run, candidate, leq) != m.authority.stable then Ok(false)
      else if !NamedFindings(run.findings) then Err(MissingField)
      else Ok(PriorFindingsKept(m.authority.priorFindingRefs, Ordering.SortBy(FindingRefs(run.findings), FindingKey, leq)))
  }

  // ------------------------------------------------------------------ what the sorted references determine

  predicate WellFormed(run: Run) {
    run.candidate.Some? && NamedCandidate(run, run.candidate.value)
    && NamedStable(run, run.candidate.value.candidateId) && NamedFindings(run.findings)
  }

  /** The bound parts carry distinct ids, or at least the same content under the same id. */
  predicate DistinctIds(run: Run)
    requires run.candidate.Some?
  {
    var id := run.candidate.value.candidateId;
    && Ordering.KeysIdentify(EvidenceRefs(run.evidence, id), EvidenceKey)
    && Ordering.KeysIdentify(DecisionRefs(run.userDecisions, id), DecisionKey)
    && Ordering.KeysIdentify(VerificationRefs(run.verifications), VerificationKey)
  }

  predicate FindingsAgree(fs: seq<Finding>) { Ordering.KeysIdentify(FindingRefs(fs), FindingKey) }

  /** Same identity, objective, requirements and, up to order, the same evidence of the candidate, the same
      decisions about it and the same verifications. */
  predicate SameBasis(a: Run, b: Run)
    requires a.candidate.Some? && b.candidate.Some?
  {
    var id := a.candidate.value.candidateId;
    && a.runId == b.runId && a.objective == b.objective && a.candidate == b.candidate
    && a.requirementsRef == b.requirementsRef
    && multiset(EvidenceRefs(a.evidence, id)) == multiset(EvidenceRefs(b.evidence, id))
    && multiset(DecisionRefs(a.userDecisions, id)) == multiset(DecisionRefs(b.userDecisions, id))
    && multiset(VerificationRefs(a.verifications)) == multiset(VerificationRefs(b.verifications))
  }

  lemma SameDecisionRefs(a: seq<DecisionRef>, b: seq<DecisionRef>, leq: Order)
    requires Ordering.TotalOrder(leq) && Ordering.KeysIdentify(a, DecisionKey)
    ensures (if a == [] then None else Some(Ordering.SortBy(a, DecisionKey, leq)))
            == (if b == [] then None else Some(Ordering.SortBy(b, DecisionKey, leq)))
            <==> multiset(a) == multiset(b)
  {
    Ordering.SortIsCanonical(a, b, DecisionKey, leq);
    if multiset(a) == multiset(b) { Ordering.SameSize(a, b); }
  }

  lemma StableDetermines(a: Run, b: Run, leq: Order)
    requires Ordering.TotalOrder(leq) && a.candidate.Some? && b.candidate.Some? && DistinctIds(a)
    ensures StableOf(a, a.candidate.value, leq) == StableOf(b, b.candidate.value, leq) <==> SameBasis(a, b)
  {
    if a.candidate == b.candidate {
      var id := a.candidate.value.candidateId;
      Ordering.SortIsCanonical(EvidenceRefs(a.evidence, id), EvidenceRefs(b.evidence, id), EvidenceKey, leq);
      SameDecisionRefs(DecisionRefs(a.userDecisions, id), DecisionRefs(b.userDecisions, id), leq);
      Ordering.SortIsCanonical(VerificationRefs(a.verifications), VerificationRefs(b.verifications), VerificationKey, leq);
    }
  }

  /** Two runs get the same manifest exactly when they agree, up to order, on everything it binds. */
  lemma ManifestDetermines(a: Run, b: Run, leq: Order)
    requires Ordering.TotalOrder(leq) && WellFormed(a) && WellFormed(b) && DistinctIds(a) && FindingsAgree(a.findings)
    ensures CreateAuditManifest(a, leq) == CreateAuditManifest(b, leq) <==>
            SameBasis(a, b) && multiset(FindingRefs(a.findings)) == multiset(FindingRefs(b.findings))
  {
    StableDetermines(a, b, leq);
    Ordering.SortIsCanonical(FindingRefs(a.findings), FindingRefs(b.findings), FindingKey, leq);
  }

  // ------------------------------------------------------------------ the findings a run must still have

  lemma {:induction false} LastRefIn(refs: seq<FindingRef>, id: string)
    ensures LastRef(refs, id).Some? ==> LastRef(refs, id).value in refs && LastRef(refs, id).value.findingId == id
    ensures LastRef(refs, id).None? ==> forall f <- refs :: f.findingId != id
  {
    if refs != [] && refs[|refs| - 1].findingId != id {
      var n := |refs| - 1;
      assert refs == refs[..n] + [refs[n]];
      LastRefIn(refs[..n], id);
    }
  }

  /** With one content per id, the last reference of an id is the only one. */
  lemma KeptIffPresent(prior: seq<FindingRef>, now: seq<FindingRef>)
    requires Ordering.KeysIdentify(now, FindingKey)
    ensures PriorFindingsKept(prior, now) <==> forall f <- prior :: f in now
  {
    forall f | f in prior ensures LastRef(now, f.findingId) == Some(f) <==> f in now {
      LastRefIn(now, f.findingId);
    }
  }

  lemma SortedRefs(fs: seq<Finding>, leq: Order)
    ensures var sorted := Ordering.SortBy(FindingRefs(fs), FindingKey, leq);
            && (forall f :: f in sorted <==> f in FindingRefs(fs))
            && (Ordering.KeysIdentify(sorted, FindingKey) <==> FindingsAgree(fs))
  {
    var refs := FindingRefs(fs);
    var sorted := Ordering.SortBy(refs, FindingKey, leq);
    forall f ensures f in sorted <==> f in refs {
      assert f in sorted <==> f in multiset(sorted);
      assert f in refs <==> f in multiset(refs);
    }
    IdentifyByMembership(refs);
    IdentifyByMembership(sorted);
  }

  lemma IdentifyByMembership(refs: seq<FindingRef>)
    ensures Ordering.KeysIdentify(refs, FindingKey) <==>
            forall f, g :: f in refs && g in refs && f.findingId == g.findingId ==> f == g
  {
    if Ordering.KeysIdentify(refs, FindingKey) {
      forall f, g | f in refs && g in refs && f.findingId == g.findingId ensures f == g {
        var i :| 0 <= i < |refs| && refs[i] == f;
        var j :| 0 <= j < |refs| && refs[j] == g;
        assert FindingKey(refs[i]) == FindingKey(refs[j]);
      }
    }
  }

  lemma KeptIffIncluded(a: seq<Finding>, b: seq<Finding>, leq: Order)
    requires FindingsAgree(b)
    ensures PriorFindingsKept(Ordering.SortBy(FindingRefs(a), FindingKey, leq), Ordering.SortBy(FindingRefs(b), FindingKey, leq))
            <==> forall f <- FindingRefs(a) :: f in FindingRefs(b)
  {
    SortedRefs(a, leq);
    SortedRefs(b, leq);
    KeptIffPresent(Ordering.SortBy(FindingRefs(a), FindingKey, leq), Ordering.SortBy(FindingRefs(b), FindingKey, leq));
  }

  lemma FreshIffAgree(fs: seq<Finding>, leq: Order)
    ensures var refs := Ordering.SortBy(FindingRefs(fs), FindingKey, leq);
            PriorFindingsKept(refs, refs) <==> FindingsAgree(fs)
  {
    var refs := Ordering.SortBy(FindingRefs(fs), FindingKey, leq);
    SortedRefs(fs, leq);
    IdentifyByMembership(refs);
    if FindingsAgree(fs) {
      KeptIffPresent(refs, refs);
    } else {
      var f, g :| f in refs && g in refs && f.findingId == g.findingId && f != g;
      assert !PriorFindingsKept(refs, refs);
    }
  }

  /** A manifest just created matches its own run exactly when no two findings share an id but differ in content. */
  lemma FreshManifestMatches(run: Run, leq: Order)
    requires Ordering.TotalOrder(leq) && WellFormed(run)
    ensures CreateAuditManifest(run, leq).Ok?
    ensures MatchesRun(CreateAuditManifest(run, leq).value, run, leq) == Ok(FindingsAgree(run.findings))
  {
    FreshIffAgree(run.findings, leq);
  }

  /** What binding means: a manifest of run a is accepted for run b exactly when b agrees with a on the stable
      basis and still has every finding of a, unchanged in what the manifest keeps of it. */
  lemma ManifestBinds(a: Run, b: Run, leq: Order)
    requires Ordering.TotalOrder(leq) && WellFormed(a) && WellFormed(b) && DistinctIds(a) && FindingsAgree(b.findings)
    ensures CreateAuditManifest(a, leq).Ok?
    ensures MatchesRun(CreateAuditManifest(a, leq).value, b, leq)
            == Ok(SameBasis(a, b) && forall f <- FindingRefs(a.findings) :: f in FindingRefs(b.findings))
  {
    StableDetermines(a, b, leq);
    KeptIffIncluded(a.findings, b.findings, leq);
  }

  // ------------------------------------------------------------------ across an evaluation

  predicate DistinctFindings(fs: seq<Finding>) {
    forall i, j :: 0 <= i < j < |fs| ==> fs[i].findingId != fs[j].findingId
  }

  /** Evaluating a report records decisions, appends findings and may turn `required` on; the run's manifest
      survives exactly when the last does not happen to a finding it already had. */
  lemma EvaluationKeepsManifest(run: Run, r: Report, c: Context, reviewId: string, ids: seq<string>, leq: Order)
    requires Ordering.TotalOrder(leq) && WellFormed(run) && DistinctIds(run)
    requires ValidReport(r, c) && |ids| == |r.newFindings| && c.findings == run.findings
    requires var after := run.(findings := FindingsAfter(r, c, reviewId, ids));
             WellFormed(after) && DistinctFindings(after.findings)
    ensures CreateAuditManifest(run, leq).Ok?
    ensures var after := run.(findings := FindingsAfter(r, c, reviewId, ids));
            MatchesRun(CreateAuditManifest(run, leq).value, after, leq)
            == Ok(forall f <- run.findings :: RequiredFinding(f.requirementId, c) ==> f.required)
  {
    var after := run.(findings := FindingsAfter(r, c, reviewId, ids));
    DistinctAgree(after.findings);
    ManifestBinds(run, after, leq);
    assert SameBasis(run, after);
    SurvivingRefs(r, c, reviewId, ids);
  }

  lemma DistinctAgree(fs: seq<Finding>)
    requires DistinctFindings(fs)
    ensures FindingsAgree(fs)
  {
  }

  lemma ContentsKept(findings: seq<Finding>, ds: seq<FindingDecision>, c: Context, reviewId: string)
    ensures FindingRefs(ApplyDecisions(findings, ds, c, reviewId)) == FindingRefs(findings)
  {
    if ds != [] { ContentsKept(findings, ds[..|ds| - 1], c, reviewId); }
  }

  lemma SurvivingRefs(r: Report, c: Context, reviewId: string, ids: seq<string>)
    requires |ids| == |r.newFindings|
    requires DistinctFindings(FindingsAfter(r, c, reviewId, ids))
    ensures (forall f <- FindingRefs(c.findings) :: f in FindingRefs(FindingsAfter(r, c, reviewId, ids))) <==>
            forall f <- c.findings :: RequiredFinding(f.requirementId, c) ==> f.required
  {
    var now, before := FindingsAfter(r, c, reviewId, ids), c.findings;
    ContentsKept(before, r.findingDecisions, c, reviewId);
    var decided := ApplyDecisions(before, r.findingDecisions, c, reviewId);
    forall i | 0 <= i < |before|
      ensures FindingRefs(now)[i] == FindingRefs(before)[i].(required := before[i].required || RequiredFinding(before[i].requirementId, c))
      ensures FindingRefs(before)[i] in FindingRefs(now) <==> FindingRefs(before)[i] == FindingRefs(now)[i]
    {
      assert FindingRefs(decided)[i] == FindingRefs(before)[i];
      assert now[i] == Upgraded(decided[i], c);
      if FindingRefs(before)[i] in FindingRefs(now) {
        var j :| 0 <= j < |now| && FindingRefs(now)[j] == FindingRefs(before)[i];
        assert now[j].findingId == now[i].findingId;
      }
    }
    forall i | 0 <= i < |before| ensures before[i] in before && FindingRefs(before)[i] in FindingRefs(before) { }
  }
}
