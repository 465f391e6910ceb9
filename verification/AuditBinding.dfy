/** What an audit manifest binds, said of the runs themselves (src/domain/audit-manifest.js). */
module AuditBinding {
  import opened Common
  import opened CodeReview
  import opened AuditManifest
  import Ordering

  // ------------------------------------------------------------------ mapping and multisets

  function Without<A>(t: seq<A>, k: nat): seq<A>
    requires k < |t|
  {
    t[..k] + t[k + 1..]
  }

  lemma WithoutOne<A>(t: seq<A>, k: nat)
    requires k < |t|
    ensures multiset(Without(t, k)) == multiset(t) - multiset{t[k]}
  {
    assert t == t[..k] + [t[k]] + t[k + 1..];
  }

  lemma {:induction false} MappedPermutes<A, B>(s: seq<A>, t: seq<A>, f: A -> B)
    requires multiset(s) == multiset(t)
    ensures multiset(Mapped(s, f)) == multiset(Mapped(t, f))
    decreases |s|
  {
    Ordering.SameSize(s, t);
    if s != [] {
      var n := |s| - 1;
      assert s[n] in multiset(t);
      var k :| 0 <= k < |t| && t[k] == s[n];
      WithoutOne(s, n);
      WithoutOne(t, k);
      MappedPermutes(Without(s, n), Without(t, k), f);
      MappedSplits(s, n, f);
      MappedSplits(t, k, f);
    }
  }

  lemma MappedSplits<A, B>(t: seq<A>, k: nat, f: A -> B)
    requires k < |t|
    ensures multiset(Mapped(t, f)) == multiset(Mapped(Without(t, k), f)) + multiset{f(t[k])}
  {
    var m, rest := Mapped(t, f), Mapped(Without(t, k), f);
    assert m == rest[..k] + [f(t[k])] + rest[k..];
    assert rest == rest[..k] + rest[k..];
  }

  /** A mapping that can be undone keeps multisets apart. */
  lemma MappedIdentifies<A, B>(s: seq<A>, t: seq<A>, f: A -> B, undo: B -> A)
    requires forall x :: undo(f(x)) == x
    ensures multiset(Mapped(s, f)) == multiset(Mapped(t, f)) <==> multiset(s) == multiset(t)
  {
    if multiset(s) == multiset(t) { MappedPermutes(s, t, f); }
    if multiset(Mapped(s, f)) == multiset(Mapped(t, f)) {
      MappedPermutes(Mapped(s, f), Mapped(t, f), undo);
      assert Mapped(Mapped(s, f), undo) == s && Mapped(Mapped(t, f), undo) == t;
    }
  }

  // ------------------------------------------------------------------ what is bound

  /** The evidence of the candidate, as often as it is there. */
  lemma {:induction false} CountsEvidence(items: seq<Item>, id: string, x: Item)
    ensures multiset(CandidateEvidence(items, id))[x] == if x.record.candidateId == id then multiset(items)[x] else 0
  {
    if items != [] {
      CountsEvidence(items[..|items| - 1], id, x);
      assert items == items[..|items| - 1] + [items[|items| - 1]];
    }
  }

  lemma {:induction false} CountsDecisions(ds: seq<UserDecision>, id: string, x: UserDecision)
    ensures multiset(CandidateDecisions(ds, id))[x] == if x.candidateId == id then multiset(ds)[x] else 0
  {
    if ds != [] {
      CountsDecisions(ds[..|ds| - 1], id, x);
      assert ds == ds[..|ds| - 1] + [ds[|ds| - 1]];
    }
  }

  /** The runs agree on identity, objective, candidate and requirements and, up to order, have the same evidence of the
      candidate with the same content hashes, the same decisions about it and the same verifications. */
  ghost predicate SameBound(a: Run, b: Run)
    requires a.candidate.Some? && b.candidate.Some?
  {
    var id := a.candidate.value.candidateId;
    && a.runId == b.runId && a.objective == b.objective && a.candidate == b.candidate && a.requirementsRef == b.requirementsRef
    && (forall x: Item :: x.record.candidateId == id ==> multiset(a.evidence)[x] == multiset(b.evidence)[x])
    && (forall d: UserDecision :: d.candidateId == id ==> multiset(a.userDecisions)[d] == multiset(b.userDecisions)[d])
    && multiset(a.verifications) == multiset(b.verifications)
  }

  lemma SameEvidence(a: seq<Item>, b: seq<Item>, id: string)
    ensures multiset(EvidenceRefs(a, id)) == multiset(EvidenceRefs(b, id)) <==>
            forall x: Item :: x.record.candidateId == id ==> multiset(a)[x] == multiset(b)[x]
  {
    var s, t := CandidateEvidence(a, id), CandidateEvidence(b, id);
    MappedIdentifies(s, t, EvidenceRefOf, (r: EvidenceRef) => r.record);
    forall x: Item ensures multiset(s)[x] == (if x.record.candidateId == id then multiset(a)[x] else 0)
                     && multiset(t)[x] == (if x.record.candidateId == id then multiset(b)[x] else 0)
    {
      CountsEvidence(a, id, x);
      CountsEvidence(b, id, x);
    }
    if multiset(s) == multiset(t) {
      forall x: Item | x.record.candidateId == id ensures multiset(a)[x] == multiset(b)[x] {
        assert multiset(s)[x] == multiset(t)[x];
      }
    }
  }

  lemma SameDecisions(a: seq<UserDecision>, b: seq<UserDecision>, id: string)
    ensures multiset(DecisionRefs(a, id)) == multiset(DecisionRefs(b, id)) <==>
            forall d: UserDecision :: d.candidateId == id ==> multiset(a)[d] == multiset(b)[d]
  {
    var s, t := CandidateDecisions(a, id), CandidateDecisions(b, id);
    MappedIdentifies(s, t, DecisionRefOf,
                     (r: DecisionRef) => UserDecision(r.decisionId, r.candidateId, r.responses, r.requirementsRef));
    forall x: UserDecision ensures multiset(s)[x] == (if x.candidateId == id then multiset(a)[x] else 0)
                     && multiset(t)[x] == (if x.candidateId == id then multiset(b)[x] else 0)
    {
      CountsDecisions(a, id, x);
      CountsDecisions(b, id, x);
    }
    if multiset(s) == multiset(t) {
      forall d: UserDecision | d.candidateId == id ensures multiset(a)[d] == multiset(b)[d] {
        assert multiset(s)[d] == multiset(t)[d];
      }
    }
  }

  lemma BasisIsBound(a: Run, b: Run)
    requires a.candidate.Some? && b.candidate.Some?
    ensures SameBasis(a, b) <==> SameBound(a, b)
  {
    var id := a.candidate.value.candidateId;
    SameEvidence(a.evidence, b.evidence, id);
    SameDecisions(a.userDecisions, b.userDecisions, id);
    MappedIdentifies(a.verifications, b.verifications, VerificationRefOf, (r: VerificationRef) => r.definition);
  }

  /** The same finding, but for its status, its verification and its history. */
  predicate SameContent(f: Finding, g: Finding) {
    && f.findingId == g.findingId && f.requirementId == g.requirementId && f.problem == g.problem
    && f.resolutionCriteria == g.resolutionCriteria && f.required == g.required
    && f.detectedCandidateId == g.detectedCandidateId
  }

  lemma RefIsContent(f: Finding, g: Finding)
    ensures FindingRefOf(f) == FindingRefOf(g) <==> SameContent(f, g)
  {
  }

  ghost predicate Has(now: seq<Finding>, f: Finding) { exists g <- now :: SameContent(f, g) }

  lemma RefHeld(before: seq<Finding>, now: seq<Finding>, i: nat)
    requires i < |before|
    ensures FindingRefs(before)[i] in FindingRefs(now) <==> Has(now, before[i])
  {
    RefPresent(before[i], now);
  }

  lemma KeptContents(before: seq<Finding>, now: seq<Finding>)
    ensures (forall r <- FindingRefs(before) :: r in FindingRefs(now)) <==> forall f <- before :: Has(now, f)
  {
    var refs := FindingRefs(before);
    forall i | 0 <= i < |before| ensures refs[i] in FindingRefs(now) <==> Has(now, before[i]) { RefHeld(before, now, i); }
    EachOrAll(refs, before, FindingRefs(now), now);
  }

  lemma EachOrAll(refs: seq<FindingRef>, before: seq<Finding>, held: seq<FindingRef>, now: seq<Finding>)
    requires |refs| == |before| && forall i :: 0 <= i < |before| ==> (refs[i] in held <==> Has(now, before[i]))
    ensures (forall r <- refs :: r in held) <==> forall f <- before :: Has(now, f)
  {
    if forall r <- refs :: r in held {
      forall f | f in before ensures Has(now, f) {
        var i :| 0 <= i < |before| && before[i] == f;
        assert refs[i] in refs;
      }
    }
    if forall f <- before :: Has(now, f) {
      forall r | r in refs ensures r in held {
        var i :| 0 <= i < |refs| && refs[i] == r;
        assert before[i] in before;
      }
    }
  }

  lemma RefPresent(f: Finding, now: seq<Finding>)
    ensures FindingRefOf(f) in FindingRefs(now) <==> Has(now, f)
  {
    if FindingRefOf(f) in FindingRefs(now) {
      var i :| 0 <= i < |now| && FindingRefs(now)[i] == FindingRefOf(f);
      RefIsContent(f, now[i]);
      assert now[i] in now;
    }
    if g :| g in now && SameContent(f, g) {
      var i :| 0 <= i < |now| && now[i] == g;
      RefIsContent(f, g);
      assert FindingRefs(now)[i] == FindingRefOf(f);
    }
  }

  /** Bound records with one id are one record. */
  ghost predicate IdsIdentify(run: Run)
    requires run.candidate.Some?
  {
    var id := run.candidate.value.candidateId;
    && (forall x <- run.evidence, y <- run.evidence ::
          (x.record.candidateId == id && y.record.candidateId == id && x.record.evidenceId == y.record.evidenceId) ==> x == y)
    && (forall d <- run.userDecisions, e <- run.userDecisions ::
          (d.candidateId == id && e.candidateId == id && d.decisionId == e.decisionId) ==> d == e)
    && (forall v <- run.verifications, w <- run.verifications :: v.verificationId == w.verificationId ==> v == w)
  }

  lemma IdentifiedIsDistinct(run: Run)
    requires run.candidate.Some? && IdsIdentify(run)
    ensures DistinctIds(run)
  {
    var id := run.candidate.value.candidateId;
    var x, d := CandidateEvidence(run.evidence, id), CandidateDecisions(run.userDecisions, id);
    forall i, j | 0 <= i < |x| && 0 <= j < |x| && x[i].record.evidenceId == x[j].record.evidenceId ensures x[i] == x[j] {
      assert x[i] in x && x[j] in x;
    }
    forall i, j | 0 <= i < |d| && 0 <= j < |d| && d[i].decisionId == d[j].decisionId ensures d[i] == d[j] {
      assert d[i] in d && d[j] in d;
    }
  }

  /** No two findings share an id but differ in content. */
  predicate OneContentEach(fs: seq<Finding>) {
    forall f <- fs, g <- fs :: f.findingId == g.findingId ==> SameContent(f, g)
  }

  lemma AgreeIsOneContent(fs: seq<Finding>)
    ensures FindingsAgree(fs) <==> OneContentEach(fs)
  {
    if FindingsAgree(fs) {
      forall f, g | f in fs && g in fs && f.findingId == g.findingId ensures SameContent(f, g) {
        var i :| 0 <= i < |fs| && fs[i] == f;
        var j :| 0 <= j < |fs| && fs[j] == g;
        assert FindingKey(FindingRefs(fs)[i]) == FindingKey(FindingRefs(fs)[j]);
        RefIsContent(f, g);
      }
    }
    if OneContentEach(fs) {
      forall i, j | 0 <= i < |fs| && 0 <= j < |fs| && FindingRefs(fs)[i].findingId == FindingRefs(fs)[j].findingId
        ensures FindingRefs(fs)[i] == FindingRefs(fs)[j]
      {
        assert fs[i] in fs && fs[j] in fs;
        RefIsContent(fs[i], fs[j]);
      }
    }
  }

  /** A manifest of a is accepted for b exactly if both agree on what is bound and b still has every finding of a with
      its content. */
  lemma BindsExactly(a: Run, b: Run, leq: Order)
    requires Ordering.TotalOrder(leq) && WellFormed(a) && WellFormed(b) && IdsIdentify(a) && OneContentEach(b.findings)
    ensures CreateAuditManifest(a, leq).Ok?
    ensures MatchesRun(CreateAuditManifest(a, leq).value, b, leq)
            == Ok(SameBound(a, b) && forall f <- a.findings :: Has(b.findings, f))
  {
    IdentifiedIsDistinct(a);
    AgreeIsOneContent(b.findings);
    ManifestBinds(a, b, leq);
    BasisIsBound(a, b);
    KeptContents(a.findings, b.findings);
  }

  // ------------------------------------------------------------------ when a manifest can be made

  /** Every bound record and every finding has its identifying texts. */
  predicate AllNamed(run: Run) {
    && run.runId != "" && run.candidate.Some?
    && var c := run.candidate.value;
       && c.candidateId != "" && c.baseCommit != "" && c.candidateTree != "" && c.patchHash != ""
       && (forall x <- run.evidence :: x.record.candidateId == c.candidateId ==>
             x.record.evidenceId != "" && x.record.kind != "" && x.contentHash != "")
       && (forall d <- run.userDecisions :: d.candidateId == c.candidateId ==> d.decisionId != "")
       && (forall v <- run.verifications :: v.verificationId != "")
       && (forall f <- run.findings :: f.findingId != "" && f.requirementId != "" && f.problem != "" && f.resolutionCriteria != "")
  }

  lemma MadeExactly(run: Run, leq: Order)
    ensures CreateAuditManifest(run, leq).Ok? <==> AllNamed(run)
    ensures WellFormed(run) <==> AllNamed(run)
    ensures CreateAuditManifest(run, leq).Err? ==>
              CreateAuditManifest(run, leq).error == if run.candidate == None then NoCandidate else MissingField
  {
  }

  /** A manifest whose content is not the one that was hashed matches no run. */
  lemma AlteredMatchesNothing(m: Manifest, run: Run, leq: Order)
    requires m.authority != m.hashed
    ensures MatchesRun(m, run, leq) == Ok(false)
  {
  }
}
