/** When two agents agree, said of the stored messages and proposals (src/domain/consensus.js). */
module ConsensusRules {
  import opened Common
  import opened Consensus

  /** Message i counts: it is of this run and of one of the two agents. */
  predicate Counts(messages: seq<Message>, runId: string, i: nat) {
    && i < |messages| && messages[i].Envelope? && messages[i].runId == runId
    && (messages[i].actor == Codex || messages[i].actor == Web)
  }

  /** Every message that counts has a positive safe sequence number of its own. */
  predicate OwnNumbers(messages: seq<Message>, runId: string) {
    && (forall i: nat :: i < |messages| && Counts(messages, runId, i) ==>
          messages[i].sequence.Some? && 1 <= messages[i].sequence.value <= 9007199254740991)
    && forall i: nat, j: nat :: i < j < |messages| && Counts(messages, runId, i) && Counts(messages, runId, j) ==>
         messages[i].sequence != messages[j].sequence
  }

  /** Message i is the actor's, and no message of the actor has a higher number. */
  predicate Newest(messages: seq<Message>, runId: string, actor: Actor, i: nat) {
    && Counts(messages, runId, i) && messages[i].actor == actor && messages[i].sequence.Some?
    && forall j: nat :: j < |messages| && Counts(messages, runId, j) && messages[j].actor == actor && messages[j].sequence.Some? ==>
         messages[j].sequence.value <= messages[i].sequence.value
  }

  /** A valid acceptance of h without objections, for the context's objective and policy. */
  predicate Agrees(m: Message, c: Context, h: RefHash) {
    && m.Envelope? && m.valid && m.acceptance && m.packet.Accept? && m.packet.proposal == h && |m.packet.blockingFindings| == 0
    && m.objectiveHash == c.objectiveHash && m.policyHash == c.policyHash
  }

  /** The actor's newest message agrees. */
  predicate ActorAgrees(messages: seq<Message>, c: Context, actor: Actor, h: RefHash) {
    exists i: nat :: i < |messages| && Newest(messages, c.runId, actor, i) && Agrees(messages[i], c, h)
  }

  /** The proposal is well formed, decided, and hashes, with the context's run, objective and policy, to h. */
  predicate Stored(p: Proposal, c: Context, h: RefHash) {
    && p.wellFormed && p.openDecisions == [] && p.runId == c.runId
    && p.objectiveHash == c.objectiveHash && p.policyHash == c.policyHash
    && p.contentHash == ContentHash(p.summary, p.body, p.assumptions, [])
    && p.refHash == h && h == RefHash(c.runId, c.objectiveHash, c.policyHash, ContentHash(p.summary, p.body, p.assumptions, []))
  }

  predicate Agreement(messages: seq<Message>, proposals: seq<Proposal>, c: Context, h: RefHash) {
    && !c.policyViolation && OwnNumbers(messages, c.runId)
    && ActorAgrees(messages, c, Codex, h) && ActorAgrees(messages, c, Web, h)
    && exists p <- proposals :: Stored(p, c, h)
  }

  lemma {:induction false} CountedTwice<T>(s: seq<T>, x: T)
    ensures multiset(s)[x] >= 1 <==> exists i :: 0 <= i < |s| && s[i] == x
    ensures multiset(s)[x] >= 2 <==> exists i, j :: 0 <= i < j < |s| && s[i] == x && s[j] == x
  {
    if s != [] {
      var n := |s| - 1;
      assert s == s[..n] + [s[n]];
      CountedTwice(s[..n], x);
      if s[n] == x {
        if i :| 0 <= i < n && s[..n][i] == x { assert s[i] == x && s[n] == x; }
        if i, j :| 0 <= i < j < |s| && s[i] == x && s[j] == x { assert s[..n][i] == x; }
      } else {
        if i, j :| 0 <= i < j < |s| && s[i] == x && s[j] == x { assert s[..n][i] == x && s[..n][j] == x; }
        if i, j :| 0 <= i < j < n && s[..n][i] == x && s[..n][j] == x { assert s[i] == x && s[j] == x; }
      }
    }
  }

  lemma RelevantCounts(messages: seq<Message>, runId: string, i: nat)
    requires i < |messages|
    ensures Counts(messages, runId, i) <==> Relevant(messages[i], runId)
    ensures Numbered(messages[i]) <==> messages[i].Envelope? && messages[i].sequence.Some? && 1 <= messages[i].sequence.value <= 9007199254740991
  {
  }

  lemma SequencedMeansOwn(messages: seq<Message>, runId: string)
    requires WellSequenced(multiset(messages), runId)
    ensures OwnNumbers(messages, runId)
  {
    forall i: nat | i < |messages| && Counts(messages, runId, i)
      ensures messages[i].sequence.Some? && 1 <= messages[i].sequence.value <= 9007199254740991
    {
      assert messages[i] in multiset(messages);
    }
    forall i: nat, j: nat | i < j < |messages| && Counts(messages, runId, i) && Counts(messages, runId, j)
      ensures messages[i].sequence != messages[j].sequence
    {
      assert messages[i] in multiset(messages) && messages[j] in multiset(messages);
      if messages[i] == messages[j] {
        CountedTwice(messages, messages[i]);
      } else {
        assert !SameNumber(messages[i], messages[j]);
      }
    }
  }

  lemma OwnMeansSequenced(messages: seq<Message>, runId: string)
    requires OwnNumbers(messages, runId)
    ensures WellSequenced(multiset(messages), runId)
  {
    forall m | m in multiset(messages) && Relevant(m, runId) ensures Numbered(m) && multiset(messages)[m] == 1 {
      var i :| 0 <= i < |messages| && messages[i] == m;
      assert Counts(messages, runId, i);
      CountedTwice(messages, m);
      forall j, k | 0 <= j < k < |messages| && messages[j] == m ensures messages[k] != m {
        assert Counts(messages, runId, j);
        if Counts(messages, runId, k) { assert messages[j].sequence != messages[k].sequence; }
      }
    }
    forall m, n | m in multiset(messages) && n in multiset(messages) && m != n && Relevant(m, runId) && Relevant(n, runId)
      ensures !SameNumber(m, n)
    {
      var i :| 0 <= i < |messages| && messages[i] == m;
      var j :| 0 <= j < |messages| && messages[j] == n;
      assert Counts(messages, runId, i) && Counts(messages, runId, j);
      if i < j { assert messages[i].sequence != messages[j].sequence; } else { assert messages[j].sequence != messages[i].sequence; }
    }
  }

  lemma AcceptsIsAgrees(m: Message, c: Context, h: RefHash)
    ensures Accepts(m, c, h) <==> Agrees(m, c, h)
  {
  }

  lemma LatestIsNewest(messages: seq<Message>, runId: string, actor: Actor, i: nat)
    requires OwnNumbers(messages, runId) && i < |messages|
    ensures Latest(multiset(messages), runId, actor, messages[i]) <==> Newest(messages, runId, actor, i)
  {
    assert messages[i] in multiset(messages);
    forall j: nat | j < |messages| ensures Counts(messages, runId, j) <==> Relevant(messages[j], runId) {
      RelevantCounts(messages, runId, j);
    }
    if Newest(messages, runId, actor, i) {
      forall m | m in multiset(messages) && Relevant(m, runId) && m.actor == actor && Numbered(m)
        ensures m.sequence.value <= messages[i].sequence.value
      {
        var j :| 0 <= j < |messages| && messages[j] == m;
        assert Counts(messages, runId, j);
      }
    }
    if Latest(multiset(messages), runId, actor, messages[i]) {
      forall j: nat | j < |messages| && Counts(messages, runId, j) && messages[j].actor == actor && messages[j].sequence.Some?
        ensures messages[j].sequence.value <= messages[i].sequence.value
      {
        assert messages[j] in multiset(messages) && Numbered(messages[j]);
      }
    }
  }

  lemma ActorAgreesIs(messages: seq<Message>, c: Context, actor: Actor, h: RefHash)
    requires OwnNumbers(messages, c.runId)
    ensures (exists e :: Latest(multiset(messages), c.runId, actor, e) && Accepts(e, c, h)) <==> ActorAgrees(messages, c, actor, h)
  {
    if e :| Latest(multiset(messages), c.runId, actor, e) && Accepts(e, c, h) {
      var i :| 0 <= i < |messages| && messages[i] == e;
      LatestIsNewest(messages, c.runId, actor, i);
      AcceptsIsAgrees(e, c, h);
    }
    if i: nat :| i < |messages| && Newest(messages, c.runId, actor, i) && Agrees(messages[i], c, h) {
      LatestIsNewest(messages, c.runId, actor, i);
      AcceptsIsAgrees(messages[i], c, h);
    }
  }

  lemma StoredIsPersisted(p: Proposal, c: Context, h: RefHash)
    ensures Persisted(p, c, h) && p.openDecisions == [] <==> Stored(p, c, h)
  {
  }

  /** The evaluation answers h exactly if there is this agreement on h. */
  lemma EvaluatesExactly(messages: seq<Message>, proposals: seq<Proposal>, c: Context, h: RefHash)
    ensures Evaluate(messages, proposals, c) == Some(h) <==> Agreement(messages, proposals, c, h)
  {
    EvaluateIffConsensus(messages, proposals, c, h);
    if WellSequenced(multiset(messages), c.runId) { SequencedMeansOwn(messages, c.runId); }
    if OwnNumbers(messages, c.runId) {
      OwnMeansSequenced(messages, c.runId);
      ActorAgreesIs(messages, c, Codex, h);
      ActorAgreesIs(messages, c, Web, h);
    }
    forall p ensures Persisted(p, c, h) && p.openDecisions == [] <==> Stored(p, c, h) { StoredIsPersisted(p, c, h); }
    if p :| p in Elements(proposals) && Persisted(p, c, h) && p.openDecisions == [] { assert p in proposals && Stored(p, c, h); }
    if p :| p in proposals && Stored(p, c, h) { assert p in Elements(proposals); }
  }
}
