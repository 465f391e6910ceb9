/** What a report made from assertions and an aggregate of reports say, part by part
    (src/domain/review-coordination.js). */
module ReviewAggregates {
  import opened Common
  import opened CodeReview
  import opened ReviewAggregation

  // ------------------------------------------------------------------ a report from assertions

  /** The report carries the request's identity, each assertion's requirement, verdict and evidence, each answer's
      finding, status and evidence, and the new findings, all unchanged and in order; the missing information goes with
      UNDETERMINED only, and the reasons name role and artifact. */
  lemma ReportTells(p: Packet, c: Context, role: string, artifactId: string)
    ensures var r := ToReport(p, c, role, artifactId);
            && r.runId == c.runId && r.requestId == c.requestId && r.candidateId == c.candidateId
            && r.requirementsRef == c.requirementsRef && r.newFindings == p.newFindings && r.suggestions == []
            && |r.assessments| == |p.assessments| && |r.findingDecisions| == |p.findingDecisions|
            && (forall i :: 0 <= i < |r.assessments| ==>
                  var a, b := r.assessments[i], p.assessments[i];
                  && a.requirementId == b.requirementId && a.verdict == b.verdict && a.evidenceRefs == b.evidenceRefs
                  && a.missingInformation == (if b.verdict == Undetermined then b.missingInformation else None)
                  && a.reason == role + " reasoning is stored in " + artifactId + ".")
            && (forall i :: 0 <= i < |r.findingDecisions| ==>
                  var a, b := r.findingDecisions[i], p.findingDecisions[i];
                  && a.findingId == b.findingId && a.status == b.status && a.evidenceRefs == b.evidenceRefs
                  && a.reason == role + " finding decision reasoning is stored in " + artifactId + ".")
            && r.summary == role + " review assertions; reasoning artifact " + artifactId + "."
  {
  }

  // ------------------------------------------------------------------ which findings are active

  /** The indices below n that are kept, ascending. */
  function Indices(n: nat, keep: nat -> bool): (at: seq<nat>)
    ensures forall i :: 0 <= i < |at| ==> at[i] < n && keep(at[i])
    ensures forall i, j :: 0 <= i < j < |at| ==> at[i] < at[j]
    ensures forall k :: 0 <= k < n && keep(k) ==> k in at
  {
    if n == 0 then [] else Indices(n - 1, keep) + if keep(n - 1) then [n - 1] else []
  }

  function Picked<T>(items: seq<T>, at: seq<nat>): seq<T>
    requires forall k <- at :: k < |items|
  {
    seq(|at|, i requires 0 <= i < |at| => assert at[i] in at; items[at[i]])
  }

  lemma PickedMore<T>(items: seq<T>, at: seq<nat>, n: nat)
    requires (forall k <- at :: k < |items|) && n < |items|
    ensures Picked(items, at + [n]) == Picked(items, at) + [items[n]]
  {
  }

  /** The active findings are all that are not withdrawn, in their order. */
  lemma {:induction false} ActiveInOrder(fs: seq<Finding>, n: nat)
    requires n <= |fs|
    ensures ActiveFindings(fs[..n]) == Picked(fs, Indices(n, (i: nat) => i < |fs| && fs[i].status != Withdrawn))
  {
    if n > 0 {
      ActiveInOrder(fs, n - 1);
      assert fs[..n][..n - 1] == fs[..n - 1];
      if fs[n - 1].status != Withdrawn {
        PickedMore(fs, Indices(n - 1, (i: nat) => i < |fs| && fs[i].status != Withdrawn), n - 1);
      }
    }
  }

  // ------------------------------------------------------------------ evidence

  /** Everything once, in the order of first occurrence. */
  predicate FirstsOf(s: seq<string>, r: seq<string>) {
    && (forall x <- r :: x in s) && (forall x <- s :: x in r)
    && forall i, j :: 0 <= i < j < |r| ==> ComesFirst(s, r[i], r[j])
  }

  /** Some x comes before every y. */
  predicate ComesFirst(s: seq<string>, x: string, y: string) {
    x != y && exists p :: 0 <= p < |s| && s[p] == x && y !in s[..p]
  }

  lemma {:induction false} DedupKeepsFirsts(s: seq<string>)
    ensures FirstsOf(s, Dedup(s))
  {
    if s != [] {
      var n := |s| - 1;
      var front, r := Dedup(s[..n]), Dedup(s);
      DedupKeepsFirsts(s[..n]);
      forall i, j | 0 <= i < j < |r| ensures ComesFirst(s, r[i], r[j]) {
        if j < |front| {
          LaterEnd(s, r[i], r[j]);
        } else {
          assert r[i] in s[..n];
          var p :| 0 <= p < n && s[..n][p] == r[i];
          assert s[p] == r[i] && s[n] !in s[..p] by { assert forall q :: 0 <= q < p ==> s[q] == s[..n][q] && s[q] in s[..n]; }
        }
      }
    }
  }

  lemma LaterEnd(s: seq<string>, x: string, y: string)
    requires s != [] && ComesFirst(s[..|s| - 1], x, y)
    ensures ComesFirst(s, x, y)
  {
    var n := |s| - 1;
    var p :| 0 <= p < n && s[..n][p] == x && y !in s[..n][..p];
    assert s[..n][..p] == s[..p] && s[p] == x;
  }

  // ------------------------------------------------------------------ the merged assessments

  /** Assessment k is the report's one about the requirement: the first. */
  predicate About(r: Report, id: string, k: nat) {
    && k < |r.assessments| && r.assessments[k].requirementId == id
    && forall i :: 0 <= i < k ==> r.assessments[i].requirementId != id
  }

  /** Some report says v of the requirement. */
  predicate SomeSays(reports: seq<Report>, id: string, v: Verdict) {
    exists n, k :: 0 <= n < |reports| && 0 <= k < |reports[n].assessments| && About(reports[n], id, k)
                   && reports[n].assessments[k].verdict == v
  }

  predicate SomeCites(reports: seq<Report>, id: string, x: string) {
    exists n, k :: 0 <= n < |reports| && 0 <= k < |reports[n].assessments| && About(reports[n], id, k)
                   && x in reports[n].assessments[k].evidenceRefs
  }

  lemma SourceIsAbout(reports: seq<Report>, id: string, n: nat, k: nat)
    requires AllAssess(reports, id) && n < |reports|
    ensures About(reports[n], id, k) <==> k == FirstAssessment(reports[n].assessments, id)
    ensures Sources(reports, id)[n] == reports[n].assessments[FirstAssessment(reports[n].assessments, id)]
  {
    assert Assesses(reports[n], id);
  }

  lemma VerdictSaid(reports: seq<Report>, id: string, v: Verdict)
    requires AllAssess(reports, id)
    ensures SomeVerdict(Sources(reports, id), v) <==> SomeSays(reports, id, v)
  {
    var sources := Sources(reports, id);
    forall n: nat, k: nat | n < |reports|
      ensures About(reports[n], id, k) ==> sources[n] == reports[n].assessments[k]
    {
      SourceIsAbout(reports, id, n, k);
    }
    if n :| 0 <= n < |sources| && sources[n].verdict == v {
      var k := FirstAssessment(reports[n].assessments, id);
      SourceIsAbout(reports, id, n, k);
      assert About(reports[n], id, k);
    }
  }

  lemma EvidenceCited(reports: seq<Report>, id: string, x: string)
    requires AllAssess(reports, id)
    ensures x in Flat(AssessmentRefs(Sources(reports, id))) <==> SomeCites(reports, id, x)
  {
    var sources := Sources(reports, id);
    InFlat(AssessmentRefs(sources), x);
    forall n: nat, k: nat | n < |reports|
      ensures About(reports[n], id, k) ==> sources[n] == reports[n].assessments[k]
    {
      SourceIsAbout(reports, id, n, k);
    }
    if n :| 0 <= n < |sources| && x in sources[n].evidenceRefs {
      var k := FirstAssessment(reports[n].assessments, id);
      SourceIsAbout(reports, id, n, k);
      assert About(reports[n], id, k);
    }
    if SomeCites(reports, id, x) {
      var n, k :| 0 <= n < |reports| && 0 <= k < |reports[n].assessments| && About(reports[n], id, k)
                  && x in reports[n].assessments[k].evidenceRefs;
      assert x in AssessmentRefs(sources)[n];
    }
  }

  /** One assessment a requirement, in order: UNSATISFIED if some report says so, else UNDETERMINED if some report says
      so, else SATISFIED; it cites what the reports cite about the requirement, each once. */
  lemma AssessmentTells(reports: seq<Report>, c: Context, i: nat)
    requires AllAssessed(reports, c) && i < |c.requirements|
    ensures |AggregateOf(reports, c).assessments| == |c.requirements|
    ensures var a, id := AggregateOf(reports, c).assessments[i], c.requirements[i].requirementId;
            && a.requirementId == id
            && (a.verdict == Unsatisfied <==> SomeSays(reports, id, Unsatisfied))
            && (a.verdict == Undetermined <==> !SomeSays(reports, id, Unsatisfied) && SomeSays(reports, id, Undetermined))
            && (forall x :: x in a.evidenceRefs <==> SomeCites(reports, id, x))
            && FirstsOf(Flat(AssessmentRefs(Sources(reports, id))), a.evidenceRefs)
            && (a.missingInformation.Some? <==> a.verdict == Undetermined)
  {
    var id := c.requirements[i].requirementId;
    VerdictSaid(reports, id, Unsatisfied);
    VerdictSaid(reports, id, Undetermined);
    DedupKeepsFirsts(Flat(AssessmentRefs(Sources(reports, id))));
    forall x ensures x in Flat(AssessmentRefs(Sources(reports, id))) <==> SomeCites(reports, id, x) {
      EvidenceCited(reports, id, x);
    }
  }

  // ------------------------------------------------------------------ what is missing

  /** The source is undetermined and says what is missing. */
  predicate Gives(a: Assessment) {
    a.verdict == Undetermined && a.missingInformation.Some? && a.missingInformation.value != ""
  }

  function Lines(texts: seq<string>): string {
    if texts == [] then "" else if |texts| == 1 then texts[0] else Lines(texts[..|texts| - 1]) + "\n" + texts[|texts| - 1]
  }

  function Texts(sources: seq<Assessment>): seq<string> {
    seq(|sources|, i requires 0 <= i < |sources| => if sources[i].missingInformation.Some? then sources[i].missingInformation.value else "")
  }

  lemma LinesMore(texts: seq<string>, last: string)
    requires last != ""
    ensures Lines(texts + [last]) == (if texts == [] then last else Lines(texts) + "\n" + last) && Lines(texts + [last]) != ""
  {
    assert (texts + [last])[..|texts|] == texts;
  }

  function GivesAt(sources: seq<Assessment>): nat -> bool { (i: nat) => i < |sources| && Gives(sources[i]) }

  function Given(sources: seq<Assessment>, n: nat): seq<string>
    requires n <= |sources|
  {
    Picked(Texts(sources), Indices(n, GivesAt(sources)))
  }

  lemma GivenMore(sources: seq<Assessment>, n: nat)
    requires 0 < n <= |sources|
    ensures Given(sources, n) == Given(sources, n - 1) + if Gives(sources[n - 1]) then [Texts(sources)[n - 1]] else []
  {
    if Gives(sources[n - 1]) { PickedMore(Texts(sources), Indices(n - 1, GivesAt(sources)), n - 1); }
  }

  lemma JoinStep(sources: seq<Assessment>, n: nat)
    requires 0 < n <= |sources|
    ensures var front, text := JoinMissing(sources[..n - 1]), Texts(sources)[n - 1];
            JoinMissing(sources[..n])
            == if !Gives(sources[n - 1]) then front else if front == "" then text else front + "\n" + text
  {
    assert sources[..n][..n - 1] == sources[..n - 1];
  }

  predicate Told(sources: seq<Assessment>, n: nat)
    requires n <= |sources|
  {
    && JoinMissing(sources[..n]) == Lines(Given(sources, n))
    && (Given(sources, n) == [] <==> JoinMissing(sources[..n]) == "")
  }

  /** The missing information is what the undetermined sources say, in order, one line each. */
  lemma {:induction false} MissingTells(sources: seq<Assessment>, n: nat)
    requires n <= |sources|
    ensures Told(sources, n)
  {
    if n > 0 {
      MissingTells(sources, n - 1);
      GivenMore(sources, n);
      JoinStep(sources, n);
      ToldStep(JoinMissing(sources[..n - 1]), JoinMissing(sources[..n]), Given(sources, n - 1), Given(sources, n),
               Gives(sources[n - 1]), Texts(sources)[n - 1]);
    }
  }

  lemma ToldStep(before: string, after: string, given: seq<string>, more: seq<string>, gives: bool, text: string)
    requires before == Lines(given) && (given == [] <==> before == "") && (gives ==> text != "")
    requires more == given + if gives then [text] else []
    requires after == if !gives then before else if before == "" then text else before + "\n" + text
    ensures after == Lines(more) && (more == [] <==> after == "")
  {
    if gives { LinesMore(given, text); } else { assert more == given; }
  }

  /** An undetermined assessment says what they say, or that evidence is incomplete if none says anything. */
  lemma MissingIsTold(reports: seq<Report>, c: Context, i: nat)
    requires AllAssessed(reports, c) && i < |c.requirements|
    requires AggregateOf(reports, c).assessments[i].verdict == Undetermined
    ensures var sources := Sources(reports, c.requirements[i].requirementId);
            var given := Given(sources, |sources|);
            AggregateOf(reports, c).assessments[i].missingInformation
            == Some(if |given| == 0 then "Reviewer evidence remains incomplete." else Lines(given))
  {
    var sources := Sources(reports, c.requirements[i].requirementId);
    MissingTells(sources, |sources|);
    assert sources[..|sources|] == sources;
  }

  // ------------------------------------------------------------------ the merged decisions

  predicate DecisionAbout(r: Report, id: string, k: nat) {
    && k < |r.findingDecisions| && r.findingDecisions[k].findingId == id
    && forall i :: 0 <= i < k ==> r.findingDecisions[i].findingId != id
  }

  /** The report resolves the finding. */
  predicate Resolves(r: Report, id: string) {
    exists k :: 0 <= k < |r.findingDecisions| && DecisionAbout(r, id, k) && r.findingDecisions[k].status == Resolved
  }

  lemma FirstIsAbout(r: Report, id: string, k: nat)
    ensures DecisionAbout(r, id, k) <==> k < |r.findingDecisions| && k == FirstDecision(r.findingDecisions, id)
  {
  }

  predicate AllAreResolved(ds: seq<FindingDecision>, n: nat) { |ds| == n && forall k :: 0 <= k < n ==> ds[k].status.Resolved? }

  lemma ResolvesFirst(r: Report, id: string)
    ensures var k := FirstDecision(r.findingDecisions, id);
            Resolves(r, id) <==> k < |r.findingDecisions| && r.findingDecisions[k].status == Resolved
  {
    forall i: nat ensures DecisionAbout(r, id, i) <==> i < |r.findingDecisions| && i == FirstDecision(r.findingDecisions, id) {
      FirstIsAbout(r, id, i);
    }
  }

  lemma {:induction false} AllResolve(reports: seq<Report>, id: string)
    ensures AllAreResolved(DecisionsAbout(reports, id), |reports|) <==> forall r <- reports :: Resolves(r, id)
  {
    if reports != [] {
      var n := |reports| - 1;
      AllResolve(reports[..n], id);
      ResolvesFirst(reports[n], id);
      assert reports == reports[..n] + [reports[n]];
      var front := DecisionsAbout(reports[..n], id);
      var k := FirstDecision(reports[n].findingDecisions, id);
      if k < |reports[n].findingDecisions| {
        var last := reports[n].findingDecisions[k];
        assert AllAreResolved(front + [last], n + 1) <==> AllAreResolved(front, n) && last.status.Resolved? by {
          assert forall i :: 0 <= i < |front| ==> (front + [last])[i] == front[i];
          assert (front + [last])[|front|] == last;
        }
      }
    }
  }

  predicate DecisionCites(r: Report, id: string, x: string) {
    exists k :: 0 <= k < |r.findingDecisions| && DecisionAbout(r, id, k) && x in r.findingDecisions[k].evidenceRefs
  }

  lemma {:induction false} DecisionEvidence(reports: seq<Report>, id: string, x: string)
    ensures x in Flat(DecisionRefs(DecisionsAbout(reports, id))) <==>
            exists n :: 0 <= n < |reports| && DecisionCites(reports[n], id, x)
  {
    if reports != [] {
      var n := |reports| - 1;
      var last := reports[n];
      var k := FirstDecision(last.findingDecisions, id);
      var front := DecisionsAbout(reports[..n], id);
      DecisionEvidence(reports[..n], id, x);
      forall i: nat ensures DecisionAbout(last, id, i) <==> i < |last.findingDecisions| && i == k { FirstIsAbout(last, id, i); }
      if k < |last.findingDecisions| {
        var ds := front + [last.findingDecisions[k]];
        assert DecisionRefs(ds)[..|front|] == DecisionRefs(front);
        assert Flat(DecisionRefs(ds)) == Flat(DecisionRefs(front)) + last.findingDecisions[k].evidenceRefs;
      }
      if m :| 0 <= m < n && DecisionCites(reports[..n][m], id, x) { assert DecisionCites(reports[m], id, x); }
      if m :| 0 <= m < n && DecisionCites(reports[m], id, x) { assert DecisionCites(reports[..n][m], id, x); }
    }
  }

  /** One decision an active finding, in order: RESOLVED if every report resolves it, else OPEN; it cites what the
      reports' decisions about the finding cite. */
  lemma DecisionTells(reports: seq<Report>, c: Context, i: nat)
    requires AllAssessed(reports, c) && i < |ActiveFindings(c.findings)|
    ensures |AggregateOf(reports, c).findingDecisions| == |ActiveFindings(c.findings)|
    ensures var d, id := AggregateOf(reports, c).findingDecisions[i], ActiveFindings(c.findings)[i].findingId;
            && d.findingId == id
            && d.status == (if forall r <- reports :: Resolves(r, id) then Resolved else Open)
            && forall x :: x in d.evidenceRefs <==> exists n :: 0 <= n < |reports| && DecisionCites(reports[n], id, x)
  {
    var id := ActiveFindings(c.findings)[i].findingId;
    AllResolve(reports, id);
    forall x ensures x in Flat(DecisionRefs(DecisionsAbout(reports, id))) <==>
                       exists n :: 0 <= n < |reports| && DecisionCites(reports[n], id, x)
    {
      DecisionEvidence(reports, id, x);
    }
  }

  // ------------------------------------------------------------------ the merged new findings

  /** Two findings that say the same: the first, with the evidence of both and required if one is. */
  lemma MergedNewTells(f: NewFinding, g: NewFinding)
    ensures var m := MergedNew(f, g);
            && m.requirementId == f.requirementId && m.problem == f.problem && m.resolutionCriteria == f.resolutionCriteria
            && m.required == (f.required || g.required) && FirstsOf(f.evidenceRefs + g.evidenceRefs, m.evidenceRefs)
  {
    DedupKeepsFirsts(f.evidenceRefs + g.evidenceRefs);
  }

  /** One more finding is merged into the first that says the same, in its place, or appended. */
  lemma AddNewTells(fs: seq<NewFinding>, f: NewFinding)
    ensures var now := AddNew(fs, f);
            || (now == fs + [f] && forall g <- fs :: (g.requirementId, g.problem, g.resolutionCriteria)
                                                     != (f.requirementId, f.problem, f.resolutionCriteria))
            || (exists k :: 0 <= k < |fs| && now == fs[k := MergedNew(fs[k], f)]
                  && (fs[k].requirementId, fs[k].problem, fs[k].resolutionCriteria)
                     == (f.requirementId, f.problem, f.resolutionCriteria))
  {
    var k := KeyIndex(fs, f);
    if k < |fs| { assert AddNew(fs, f) == fs[k := MergedNew(fs[k], f)]; }
  }

  predicate Assessed(r: Report, id: string) { exists k :: 0 <= k < |r.assessments| && About(r, id, k) }

  lemma AssessedFirst(r: Report, id: string)
    ensures Assesses(r, id) <==> Assessed(r, id)
  {
    var j := FirstAssessment(r.assessments, id);
    if j < |r.assessments| { assert About(r, id, j); }
  }

  lemma AllAreAssessed(reports: seq<Report>, c: Context)
    ensures AllAssessed(reports, c) <==> forall r <- reports, q <- c.requirements :: Assessed(r, q.requirementId)
  {
    forall r, id ensures Assesses(r, id) <==> Assessed(r, id) { AssessedFirst(r, id); }
    if AllAssessed(reports, c) {
      forall r, q | r in reports && q in c.requirements ensures Assessed(r, q.requirementId) {
        var i :| 0 <= i < |c.requirements| && c.requirements[i] == q;
        assert AllAssess(reports, c.requirements[i].requirementId);
      }
    }
    if forall r <- reports, q <- c.requirements :: Assessed(r, q.requirementId) {
      forall i, k | 0 <= i < |c.requirements| && 0 <= k < |reports|
        ensures Assesses(reports[k], c.requirements[i].requirementId)
      {
        assert reports[k] in reports && c.requirements[i] in c.requirements;
      }
    }
  }

  /** The aggregate answers the request of the context, and it exists exactly with two reports or more that all assess
      every requirement. */
  lemma AggregateTells(reports: seq<Report>, c: Context)
    ensures Aggregate(reports, c).Ok? <==>
            |reports| >= 2 && forall r <- reports, q <- c.requirements :: Assessed(r, q.requirementId)
    ensures Aggregate(reports, c).Ok? ==>
              var r := Aggregate(reports, c).value;
              && AllAssessed(reports, c) && r == AggregateOf(reports, c) && r.runId == c.runId && r.requestId == c.requestId
              && r.candidateId == c.candidateId && r.requirementsRef == c.requirementsRef && r.suggestions == []
  {
    AllAreAssessed(reports, c);
  }
}
