/** Consensus detection over the stored messages (src/domain/consensus.js, src/domain/contracts.js).

    SHA-256 is modelled as an injective function: a digest is the value that was hashed. The shape checks of
    validateAgentMessage and validateProposalArtifact appear as the flags `valid` and `wellFormed`. */
module Consensus {
  import opened Common

  const MAX_SAFE := 0x1F_FFFF_FFFF_FFFF

  datatype ContentHash = ContentHash(
    summary: string, body: string, assumptions: seq<string>, openDecisions: seq<string>)

  datatype RefHash = RefHash(runId: string, objectiveHash: string, policyHash: string, content: ContentHash)

  datatype Proposal = Proposal(
    runId: string, summary: string, body: string, assumptions: seq<string>, openDecisions: seq<string>,
    objectiveHash: string, policyHash: string, contentHash: ContentHash, refHash: RefHash, wellFormed: bool)

  predicate ValidProposal(p: Proposal) {
    && p.wellFormed
    && p.contentHash == ContentHash(p.summary, p.body, p.assumptions, p.openDecisions)
    && p.refHash == RefHash(p.runId, p.objectiveHash, p.policyHash, p.contentHash)
  }

  datatype Actor = Codex | Web | OtherActor

  datatype Packet = Accept(proposal: RefHash, blockingFindings: seq<string>) | OtherPacket

  /** One stored element; `sequence` is None when it is not a safe integer. */
  datatype Message =
    | NotAnObject
    | Envelope(runId: string, actor: Actor, sequence: Option<int>, valid: bool, acceptance: bool,
               packet: Packet, objectiveHash: string, policyHash: string)

  datatype Context = Context(runId: string, objectiveHash: string, policyHash: string, policyViolation: bool)

  // ------------------------------------------------------------------ what consensus means

  predicate Relevant(m: Message, runId: string) {
    m.Envelope? && m.runId == runId && (m.actor.Codex? || m.actor.Web?)
  }

  predicate Numbered(m: Message) {
    m.Envelope? && m.sequence.Some? && 1 <= m.sequence.value <= MAX_SAFE
  }

  predicate SameNumber(a: Message, b: Message) {
    a.Envelope? && b.Envelope? && a.sequence == b.sequence
  }

  /** Every message of the two actors in this run carries its own positive sequence number. */
  ghost predicate WellSequenced(ms: multiset<Message>, runId: string) {
    && (forall m :: m in ms && Relevant(m, runId) ==> Numbered(m) && ms[m] == 1)
    && (forall m, n :: m in ms && n in ms && m != n && Relevant(m, runId) && Relevant(n, runId) ==> !SameNumber(m, n))
  }

  ghost predicate Latest(ms: multiset<Message>, runId: string, actor: Actor, e: Message) {
    && e in ms && Relevant(e, runId) && e.actor == actor && Numbered(e)
    && forall m :: m in ms && Relevant(m, runId) && m.actor == actor && Numbered(m) ==>
         m.sequence.value <= e.sequence.value
  }

  /** An unconditional acceptance of this proposal, bound to the run's objective and policy. */
  predicate Accepts(e: Message, c: Context, h: RefHash) {
    && e.Envelope? && e.objectiveHash == c.objectiveHash && e.policyHash == c.policyHash
    && e.valid && e.acceptance && e.packet == Accept(h, [])
  }

  predicate Persisted(p: Proposal, c: Context, h: RefHash) {
    && ValidProposal(p) && p.refHash == h && p.runId == c.runId
    && p.objectiveHash == c.objectiveHash && p.policyHash == c.policyHash
  }

  /** Both actors' newest messages accept h, which is a persisted proposal of this run without open decisions. */
  ghost predicate ConsensusOn(ms: multiset<Message>, proposals: set<Proposal>, c: Context, h: RefHash) {
    && !c.policyViolation
    && WellSequenced(ms, c.runId)
    && (exists e :: Latest(ms, c.runId, Codex, e) && Accepts(e, c, h))
    && (exists e :: Latest(ms, c.runId, Web, e) && Accepts(e, c, h))
    && (exists p :: p in proposals && Persisted(p, c, h) && p.openDecisions == [])
  }

  // ------------------------------------------------------------------ latestEnvelopeByActor

  ghost function Numbers(ms: multiset<Message>, runId: string): set<int> {
    set m | m in ms && Relevant(m, runId) && Numbered(m) :: m.sequence.value
  }

  ghost predicate Selected(latest: map<Actor, Message>, ms: multiset<Message>, runId: string) {
    forall a: Actor ::
      if a in latest then Latest(ms, runId, a, latest[a])
      else forall m :: m in ms && Relevant(m, runId) ==> m.actor != a
  }

  lemma SubsetOfWellSequenced(part: multiset<Message>, whole: multiset<Message>, runId: string)
    requires part <= whole && WellSequenced(whole, runId)
    ensures WellSequenced(part, runId)
  {
    forall m | m in part && Relevant(m, runId) ensures Numbered(m) && part[m] == 1 {
      assert m in whole && part[m] <= whole[m];
    }
  }

  lemma OneMoreMessage(ms: multiset<Message>, m: Message, runId: string)
    requires WellSequenced(ms, runId) && Relevant(m, runId)
    ensures WellSequenced(ms + multiset{m}, runId) <==>
            Numbered(m) && m.sequence.value !in Numbers(ms, runId)
  {
    var now := ms + multiset{m};
    assert m in now && now[m] == ms[m] + 1;
    if WellSequenced(now, runId) {
      forall n | n in ms && Relevant(n, runId) && Numbered(n) ensures n.sequence.value != m.sequence.value {
        assert n in now && n != m && !SameNumber(m, n);
      }
    }
    if Numbered(m) && m.sequence.value !in Numbers(ms, runId) {
      assert m !in ms;
      forall n | n in now && Relevant(n, runId) ensures Numbered(n) && now[n] == 1 {
        assert n == m || n in ms;
      }
      forall a, b | a in now && b in now && a != b && Relevant(a, runId) && Relevant(b, runId)
        ensures !SameNumber(a, b)
      {
        assert a == m || a in ms;
        assert b == m || b in ms;
      }
    }
  }

  lemma PrefixFails(messages: seq<Message>, n: nat, runId: string)
    requires n <= |messages| && !WellSequenced(multiset(messages[..n]), runId)
    ensures !WellSequenced(multiset(messages), runId)
  {
    assert messages == messages[..n] + messages[n..];
    if WellSequenced(multiset(messages), runId) {
      SubsetOfWellSequenced(multiset(messages[..n]), multiset(messages), runId);
    }
  }

  /** What the selection loop carries: each actor's newest message so far, and the numbers seen. */
  datatype Scan = Scan(chosen: map<Actor, Message>, sequences: set<int>)

  function Number(m: Message): int { if m.Envelope? && m.sequence.Some? then m.sequence.value else 0 }

  /** One round of the loop; None is the early return. */
  function TakeMessage(scan: Scan, m: Message, runId: string): Option<Scan> {
    if !Relevant(m, runId) then Some(scan)
    else if !Numbered(m) || m.sequence.value in scan.sequences then None
    else
      var newest := m.actor !in scan.chosen || m.sequence.value > Number(scan.chosen[m.actor]);
      Some(Scan(if newest then scan.chosen[m.actor := m] else scan.chosen, scan.sequences + {m.sequence.value}))
  }

  function ScanMessages(messages: seq<Message>, runId: string): Option<Scan> {
    if messages == [] then Some(Scan(map[], {}))
    else
      var before := ScanMessages(messages[..|messages| - 1], runId);
      if before.None? then None else TakeMessage(before.value, messages[|messages| - 1], runId)
  }

  function LatestOf(messages: seq<Message>, runId: string): Option<map<Actor, Message>> {
    var scan := ScanMessages(messages, runId);
    if scan.None? then None else Some(scan.value.chosen)
  }

  ghost predicate Scanned(ms: multiset<Message>, runId: string, scan: Scan) {
    WellSequenced(ms, runId) && scan.sequences == Numbers(ms, runId) && Selected(scan.chosen, ms, runId)
  }

  lemma TakeIsScanned(scan: Scan, m: Message, runId: string, ms: multiset<Message>)
    requires Scanned(ms, runId, scan)
    ensures TakeMessage(scan, m, runId).Some? <==> WellSequenced(ms + multiset{m}, runId)
    ensures TakeMessage(scan, m, runId).Some? ==> Scanned(ms + multiset{m}, runId, TakeMessage(scan, m, runId).value)
  {
    if !Relevant(m, runId) {
      IrrelevantMessage(ms, m, runId, scan.chosen);
    } else {
      OneMoreMessage(ms, m, runId);
      if Numbered(m) && m.sequence.value !in scan.sequences {
        NumbersGrow(ms, m, runId);
        if m.actor !in scan.chosen || m.sequence.value > scan.chosen[m.actor].sequence.value {
          SelectNewest(ms, m, runId, scan.chosen);
        } else {
          KeepNewest(ms, m, runId, scan.chosen);
        }
      }
    }
  }

  /** The selection fails exactly when some message of the two actors in this run lacks a number of its own. */
  lemma {:induction false} ScanIsScanned(messages: seq<Message>, runId: string)
    ensures ScanMessages(messages, runId).Some? <==> WellSequenced(multiset(messages), runId)
    ensures ScanMessages(messages, runId).Some? ==> Scanned(multiset(messages), runId, ScanMessages(messages, runId).value)
  {
    if messages != [] {
      var n := |messages| - 1;
      ScanIsScanned(messages[..n], runId);
      assert messages == messages[..n] + [messages[n]];
      var before := ScanMessages(messages[..n], runId);
      if before.Some? { TakeIsScanned(before.value, messages[n], runId, multiset(messages[..n])); }
      else { PrefixFails(messages, n, runId); }
    }
  }

  lemma ScanStep(messages: seq<Message>, i: nat, runId: string)
    requires i < |messages| && ScanMessages(messages[..i], runId).Some?
    ensures ScanMessages(messages[..i + 1], runId) == TakeMessage(ScanMessages(messages[..i], runId).value, messages[i], runId)
  {
    assert messages[..i + 1][..i] == messages[..i];
  }

  lemma {:induction false} ScanStops(messages: seq<Message>, n: nat, runId: string)
    requires n <= |messages| && ScanMessages(messages[..n], runId).None?
    ensures ScanMessages(messages, runId).None?
    decreases |messages|
  {
    if n < |messages| {
      assert messages[..|messages| - 1][..n] == messages[..n];
      ScanStops(messages[..|messages| - 1], n, runId);
    } else {
      assert messages[..n] == messages;
    }
  }

  /** The selection loop: newest first by number, before any packet is looked at; any unnumbered or repeated
      sequence number of the two actors in this run makes the whole selection fail. */
  method LatestEnvelopeByActor(messages: seq<Message>, runId: string) returns (latest: Option<map<Actor, Message>>)
    ensures latest == LatestOf(messages, runId)
    ensures latest.Some? <==> WellSequenced(multiset(messages), runId)
    ensures latest.Some? ==> Selected(latest.value, multiset(messages), runId)
  {
    var chosen: map<Actor, Message>, sequences: set<int> := map[], {};
    ScanIsScanned(messages, runId);
    for i := 0 to |messages|
      invariant ScanMessages(messages[..i], runId) == Some(Scan(chosen, sequences))
    {
      var m := messages[i];
      ScanStep(messages, i, runId);
      if !Relevant(m, runId) { continue; }
      if !Numbered(m) || m.sequence.value in sequences {
        ScanStops(messages, i + 1, runId);
        return None;
      }
      sequences := sequences + {m.sequence.value};
      if m.actor !in chosen || m.sequence.value > Number(chosen[m.actor]) {
        chosen := chosen[m.actor := m];
      }
    }
    assert messages[..|messages|] == messages;
    latest := Some(chosen);
  }

  lemma IrrelevantMessage(ms: multiset<Message>, m: Message, runId: string, latest: map<Actor, Message>)
    requires !Relevant(m, runId) && WellSequenced(ms, runId) && Selected(latest, ms, runId)
    ensures var now := ms + multiset{m};
            WellSequenced(now, runId) && Numbers(now, runId) == Numbers(ms, runId) && Selected(latest, now, runId)
  {
    var now := ms + multiset{m};
    assert forall n :: Relevant(n, runId) ==> now[n] == ms[n];
    assert forall n :: Relevant(n, runId) ==> (n in now <==> n in ms);
  }

  lemma NumbersGrow(ms: multiset<Message>, m: Message, runId: string)
    requires Relevant(m, runId) && Numbered(m)
    ensures Numbers(ms + multiset{m}, runId) == Numbers(ms, runId) + {m.sequence.value}
  {
    var now := ms + multiset{m};
    assert forall n :: n in now <==> n in ms || n == m;
    assert m in now;
  }

  lemma SelectNewest(ms: multiset<Message>, m: Message, runId: string, latest: map<Actor, Message>)
    requires Relevant(m, runId) && Numbered(m) && Selected(latest, ms, runId)
    requires m.actor in latest ==> Numbered(latest[m.actor]) && m.sequence.value > latest[m.actor].sequence.value
    ensures Selected(latest[m.actor := m], ms + multiset{m}, runId)
  {
    var now := ms + multiset{m};
    assert forall n :: n in now <==> n in ms || n == m;
    assert m in now;
    forall a: Actor | a in latest && a != m.actor ensures Latest(now, runId, a, latest[a]) {
      assert Latest(ms, runId, a, latest[a]);
    }
    if m.actor in latest { assert Latest(ms, runId, m.actor, latest[m.actor]); }
    assert Latest(now, runId, m.actor, m);
  }

  lemma KeepNewest(ms: multiset<Message>, m: Message, runId: string, latest: map<Actor, Message>)
    requires Relevant(m, runId) && Numbered(m) && Selected(latest, ms, runId)
    requires m.actor in latest && Numbered(latest[m.actor]) && m.sequence.value <= latest[m.actor].sequence.value
    ensures Selected(latest, ms + multiset{m}, runId)
  {
    var now := ms + multiset{m};
    assert forall n :: n in now <==> n in ms || n == m;
    forall a: Actor | a in latest ensures Latest(now, runId, a, latest[a]) {
      assert Latest(ms, runId, a, latest[a]);
    }
  }

  // ------------------------------------------------------------------ evaluateConsensus

  /** Array.prototype.find: the first persisted proposal with this hash. */
  function FirstPersisted(proposals: seq<Proposal>, c: Context, h: RefHash): (found: Option<Proposal>)
    ensures found.Some? ==> found.value in proposals && Persisted(found.value, c, h)
    ensures found.None? ==> forall p :: p in proposals ==> !Persisted(p, c, h)
  {
    if proposals == [] then None
    else if Persisted(proposals[0], c, h) then Some(proposals[0])
    else
      assert proposals == [proposals[0]] + proposals[1..];
      FirstPersisted(proposals[1..], c, h)
  }

  method FindPersistedProposal(proposals: seq<Proposal>, c: Context, h: RefHash) returns (found: Option<Proposal>)
    ensures found.Some? ==>
              exists i :: 0 <= i < |proposals| && found == Some(proposals[i]) && Persisted(proposals[i], c, h)
                          && forall j :: 0 <= j < i ==> !Persisted(proposals[j], c, h)
    ensures found.None? ==> forall p :: p in proposals ==> !Persisted(p, c, h)
    ensures found == FirstPersisted(proposals, c, h)
  {
    for i := 0 to |proposals|
      invariant forall j :: 0 <= j < i ==> !Persisted(proposals[j], c, h)
      invariant FirstPersisted(proposals, c, h) == FirstPersisted(proposals[i..], c, h)
    {
      assert proposals[i..][0] == proposals[i] && proposals[i..][1..] == proposals[i + 1..];
      if Persisted(proposals[i], c, h) { return Some(proposals[i]); }
    }
    found := None;
  }

  /** Two persisted proposals with one reference hash have the same content, whatever else differs. */
  lemma ReferenceFixesContent(p: Proposal, q: Proposal, c: Context, h: RefHash)
    requires Persisted(p, c, h) && Persisted(q, c, h)
    ensures p.summary == q.summary && p.body == q.body && p.assumptions == q.assumptions
            && p.openDecisions == q.openDecisions
  {
    assert p.refHash.content == q.refHash.content;
  }

  ghost function Elements<T>(s: seq<T>): set<T> {
    set x | x in s
  }

  lemma LatestIsUnique(ms: multiset<Message>, runId: string, a: Actor, e: Message, f: Message)
    requires WellSequenced(ms, runId) && Latest(ms, runId, a, e) && Latest(ms, runId, a, f)
    ensures e == f
  {
    assert e == f || !SameNumber(e, f);
  }

  predicate SameHashes(m: Message, c: Context) {
    m.Envelope? && m.objectiveHash == c.objectiveHash && m.policyHash == c.policyHash
  }

  /** validatedAcceptance: the proposal an unconditional acceptance names. */
  function AcceptedBy(m: Message): Option<RefHash> {
    if m.Envelope? && m.valid && m.acceptance && m.packet.Accept? && m.packet.blockingFindings == []
    then Some(m.packet.proposal) else None
  }

  /** evaluateConsensus, check by check. */
  function Evaluate(messages: seq<Message>, proposals: seq<Proposal>, c: Context): Option<RefHash> {
    var latest := LatestOf(messages, c.runId);
    if c.policyViolation || latest.None? || Codex !in latest.value || Web !in latest.value then None
    else
      var codex, web := latest.value[Codex], latest.value[Web];
      var h := AcceptedBy(codex);
      if !SameHashes(codex, c) || !SameHashes(web, c) || h.None? || AcceptedBy(web) != h then None
      else
        var proposal := FirstPersisted(proposals, c, h.value);
        if proposal.None? || proposal.value.openDecisions != [] then None else h
  }

  lemma NewestAccepts(ms: multiset<Message>, c: Context, a: Actor, e: Message, h: RefHash)
    requires WellSequenced(ms, c.runId) && Latest(ms, c.runId, a, e)
    ensures (exists f :: Latest(ms, c.runId, a, f) && Accepts(f, c, h)) <==> SameHashes(e, c) && AcceptedBy(e) == Some(h)
  {
    assert Accepts(e, c, h) <==> SameHashes(e, c) && AcceptedBy(e) == Some(h);
    forall f | Latest(ms, c.runId, a, f) ensures f == e { LatestIsUnique(ms, c.runId, a, f, e); }
  }

  lemma OpenlessProposal(proposals: seq<Proposal>, c: Context, h: RefHash)
    ensures (exists p :: p in Elements(proposals) && Persisted(p, c, h) && p.openDecisions == []) <==>
            FirstPersisted(proposals, c, h).Some? && FirstPersisted(proposals, c, h).value.openDecisions == []
  {
    var found := FirstPersisted(proposals, c, h);
    forall p | p in proposals && Persisted(p, c, h) ensures found.Some? && p.openDecisions == found.value.openDecisions {
      ReferenceFixesContent(p, found.value, c, h);
    }
  }

  /** The evaluation answers with h exactly when there is consensus on h. */
  lemma EvaluateIffConsensus(messages: seq<Message>, proposals: seq<Proposal>, c: Context, h: RefHash)
    ensures Evaluate(messages, proposals, c) == Some(h) <==> ConsensusOn(multiset(messages), Elements(proposals), c, h)
  {
    var ms, latest := multiset(messages), LatestOf(messages, c.runId);
    ScanIsScanned(messages, c.runId);
    OpenlessProposal(proposals, c, h);
    if latest.Some? {
      if Codex in latest.value { NewestAccepts(ms, c, Codex, latest.value[Codex], h); }
      if Web in latest.value { NewestAccepts(ms, c, Web, latest.value[Web], h); }
    }
  }

  method EvaluateConsensus(messages: seq<Message>, proposals: seq<Proposal>, c: Context) returns (outcome: Option<RefHash>)
    ensures outcome == Evaluate(messages, proposals, c)
    ensures forall h :: outcome == Some(h) <==> ConsensusOn(multiset(messages), Elements(proposals), c, h)
  {
    forall h ensures Evaluate(messages, proposals, c) == Some(h) <==> ConsensusOn(multiset(messages), Elements(proposals), c, h) {
      EvaluateIffConsensus(messages, proposals, c, h);
    }
    if c.policyViolation { return None; }
    var latest := LatestEnvelopeByActor(messages, c.runId);
    if latest.None? || Codex !in latest.value || Web !in latest.value { return None; }
    var codex, web := latest.value[Codex], latest.value[Web];
    if !SameHashes(codex, c) || !SameHashes(web, c) { return None; }
    var h := AcceptedBy(codex);
    if h.None? || AcceptedBy(web) != h { return None; }
    var proposal := FindPersistedProposal(proposals, c, h.value);
    if proposal.None? || proposal.value.openDecisions != [] { return None; }
    outcome := h;
  }

  // ------------------------------------------------------------------ properties

  /** There is consensus on at most one proposal, and it fixes the text that was agreed. */
  lemma ConsensusIsSound(ms: multiset<Message>, proposals: set<Proposal>, c: Context, h: RefHash, g: RefHash)
    requires ConsensusOn(ms, proposals, c, h) && ConsensusOn(ms, proposals, c, g)
    ensures g == h
    ensures forall p :: p in proposals && Persisted(p, c, h) ==> p.openDecisions == [] && p.body == h.content.body
  {
    var e :| Latest(ms, c.runId, Codex, e) && Accepts(e, c, h);
    var f :| Latest(ms, c.runId, Codex, f) && Accepts(f, c, g);
    LatestIsUnique(ms, c.runId, Codex, e, f);
    var q :| q in proposals && Persisted(q, c, h) && q.openDecisions == [];
    forall p | p in proposals && Persisted(p, c, h) ensures p.openDecisions == [] && p.body == h.content.body {
      ReferenceFixesContent(p, q, c, h);
    }
  }

  lemma SelectionIsUnique(ms: multiset<Message>, runId: string, a: map<Actor, Message>, b: map<Actor, Message>)
    requires WellSequenced(ms, runId) && Selected(a, ms, runId) && Selected(b, ms, runId)
    ensures a == b
  {
    forall actor: Actor ensures actor in a <==> actor in b {
      if actor in a { assert Latest(ms, runId, actor, a[actor]); }
      if actor in b { assert Latest(ms, runId, actor, b[actor]); }
    }
    forall actor | actor in a ensures a[actor] == b[actor] {
      LatestIsUnique(ms, runId, actor, a[actor], b[actor]);
    }
  }

  /** Scanning the messages in any order selects the same ones, or fails in every order. */
  lemma SelectionIgnoresOrder(a: seq<Message>, b: seq<Message>, runId: string)
    requires multiset(a) == multiset(b)
    ensures LatestOf(a, runId) == LatestOf(b, runId)
  {
    ScanIsScanned(a, runId);
    ScanIsScanned(b, runId);
    if LatestOf(a, runId).Some? {
      SelectionIsUnique(multiset(a), runId, LatestOf(a, runId).value, LatestOf(b, runId).value);
    }
  }

  /** Whatever the order of the messages and the order or repetition of the proposals, the evaluation gives the
      same result, although the scan and the search for a proposal stop at different places. */
  lemma EvaluationIgnoresOrder(
      messages: seq<Message>, other: seq<Message>, proposals: seq<Proposal>, others: seq<Proposal>, c: Context)
    requires multiset(messages) == multiset(other)
    requires forall p :: p in proposals <==> p in others
    ensures Evaluate(messages, proposals, c) == Evaluate(other, others, c)
  {
    SelectionIgnoresOrder(messages, other, c.runId);
    forall h ensures FirstPersisted(proposals, c, h).Some? <==> FirstPersisted(others, c, h).Some? { }
    forall h | FirstPersisted(proposals, c, h).Some?
      ensures FirstPersisted(proposals, c, h).value.openDecisions == FirstPersisted(others, c, h).value.openDecisions
    {
      ReferenceFixesContent(FirstPersisted(proposals, c, h).value, FirstPersisted(others, c, h).value, c, h);
    }
  }

  /** A newer message of either actor supersedes its consent: afterwards there is consensus only on what that
      message itself accepts, and on nothing if it is unnumbered, malformed or no acceptance. */
  lemma NewerMessageRevokes(ms: multiset<Message>, proposals: set<Proposal>, c: Context, m: Message, h: RefHash)
    requires Relevant(m, c.runId)
    requires Numbered(m) ==>
               forall n :: n in ms && Relevant(n, c.runId) && n.actor == m.actor && Numbered(n) ==>
                 n.sequence.value < m.sequence.value
    requires ConsensusOn(ms + multiset{m}, proposals, c, h)
    ensures Numbered(m) && Accepts(m, c, h)
  {
    var now := ms + multiset{m};
    assert m in now;
    assert forall n :: n in now <==> n in ms || n == m;
    assert Latest(now, c.runId, m.actor, m);
    var e :| Latest(now, c.runId, m.actor, e) && Accepts(e, c, h);
    LatestIsUnique(now, c.runId, m.actor, e, m);
  }
}
