/** Who answers after whom in a discussion run (src/domain/run-state-machine.js). */
module RunAlternation {
  import opened Common
  import opened RunMachine

  // ------------------------------------------------------------------ what happens at an index of a history

  /** The run before operation n. */
  function At(r0: Run, ops: seq<Op>, n: nat): Run
    requires n <= |ops|
  {
    Replay(r0, ops[..n])
  }

  lemma AtNext(r0: Run, ops: seq<Op>, n: nat)
    requires n < |ops|
    ensures At(r0, ops, n + 1) == After(At(r0, ops, n), ops[n])
  {
    assert ops[..n + 1][..n] == ops[..n];
  }

  predicate MovesAt(r0: Run, ops: seq<Op>, n: nat) { n < |ops| && At(r0, ops, n + 1).phase != At(r0, ops, n).phase }

  /** Operation n stores a response. */
  predicate StoresAt(r0: Run, ops: seq<Op>, n: nat) {
    n < |ops| && StoresResponse(At(r0, ops, n), At(r0, ops, n + 1))
  }

  function ActorAt(r0: Run, ops: seq<Op>, n: nat): Actor
    requires StoresAt(r0, ops, n)
  {
    ActorOfStored(At(r0, ops, n + 1).phase)
  }

  /** Operation n queues the next turn; an operation that is refused queues nothing. */
  predicate QueuesAt(r0: Run, ops: seq<Op>, n: nat) { MovesAt(r0, ops, n) && PeerPending(At(r0, ops, n + 1).phase) }

  /** The actor whose response the queued turn answers. */
  function SourceAt(r0: Run, ops: seq<Op>, n: nat): Actor
    requires QueuesAt(r0, ops, n)
  {
    if At(r0, ops, n + 1).phase.CodexToWebPending? then Codex else Web
  }

  function Other(a: Actor): Actor { if a.Codex? then Web else Codex }

  lemma QueueNamesSource(state: Run, op: Op)
    requires var next := After(state, op); PeerPending(next.phase) && next.phase != state.phase
    ensures op.OpTransition? && op.q.sourceActor.Some? && After(state, op).phase == PeerPendingOf(op.q.sourceActor.value)
  {
  }

  /** That actor is the one the caller named. */
  lemma SourceIsNamed(r0: Run, ops: seq<Op>, n: nat)
    requires QueuesAt(r0, ops, n)
    ensures ops[n].OpTransition? && ops[n].q.sourceActor == Some(SourceAt(r0, ops, n))
  {
    AtNext(r0, ops, n);
    QueueNamesSource(At(r0, ops, n), ops[n]);
  }

  /** Operation n starts a protocol repair, or goes to the human gate or to recovery. */
  predicate ExcusesAt(r0: Run, ops: seq<Op>, n: nat) {
    MovesAt(r0, ops, n) && (Detour(At(r0, ops, n + 1).phase) || StartsRepair(At(r0, ops, n), At(r0, ops, n + 1)))
  }

  // ------------------------------------------------------------------ from one response to the next

  /** Nothing is stored and nothing excuses a repetition from operation i up to n. */
  predicate Quiet(r0: Run, ops: seq<Op>, i: nat, n: nat) {
    forall m :: i <= m < n ==> !StoresAt(r0, ops, m) && !ExcusesAt(r0, ops, m)
  }

  predicate NoQueue(r0: Run, ops: seq<Op>, i: nat, n: nat) { forall m :: i <= m < n ==> !QueuesAt(r0, ops, m) }

  predicate OnlyQueue(r0: Run, ops: seq<Op>, i: nat, n: nat, q: nat) {
    i <= q < n && QueuesAt(r0, ops, q) && forall m :: i <= m < n && m != q ==> !QueuesAt(r0, ops, m)
  }

  /** Where a run can be between two responses. */
  predicate Between(r0: Run, ops: seq<Op>, i: nat, n: nat, last: Actor, queued: Option<nat>)
    requires n <= |ops|
  {
    var phase := At(r0, ops, n).phase;
    match queued
    case None => NoQueue(r0, ops, i, n) && (phase == StoredPhase(last) || phase.ConsensusCheck? || Terminal(phase))
    case Some(q) =>
      OnlyQueue(r0, ops, i, n, q)
      && (phase == PeerPendingOf(SourceAt(r0, ops, q)) || phase == RunningPhase(Other(SourceAt(r0, ops, q))) || Terminal(phase))
  }

  /** One more quiet operation. */
  lemma StaysBetween(r0: Run, ops: seq<Op>, i: nat, n: nat, last: Actor, queued: Option<nat>) returns (q: Option<nat>)
    requires i <= n < |ops| && Between(r0, ops, i, n, last, queued)
    requires !StoresAt(r0, ops, n) && !ExcusesAt(r0, ops, n)
    ensures Between(r0, ops, i, n + 1, last, q)
  {
    AtNext(r0, ops, n);
    OperationMoves(At(r0, ops, n), ops[n]);
    q := if QueuesAt(r0, ops, n) then Some(n) else queued;
  }

  lemma {:induction false} ComesBetween(r0: Run, ops: seq<Op>, i: nat, n: nat, last: Actor) returns (queued: Option<nat>)
    requires i <= n <= |ops| && Quiet(r0, ops, i, n) && At(r0, ops, i).phase == StoredPhase(last)
    ensures Between(r0, ops, i, n, last, queued)
  {
    if n == i {
      queued := None;
    } else {
      queued := ComesBetween(r0, ops, i, n - 1, last);
      queued := StaysBetween(r0, ops, i, n - 1, last, queued);
    }
  }

  /** Two responses follow one another with nothing that excuses a repetition. */
  predicate Consecutive(r0: Run, ops: seq<Op>, i: nat, j: nat) {
    i < j && StoresAt(r0, ops, i) && StoresAt(r0, ops, j) && Quiet(r0, ops, i + 1, j)
  }

  lemma StoredMoves(r0: Run, ops: seq<Op>, j: nat)
    requires StoresAt(r0, ops, j)
    ensures LegalMove(At(r0, ops, j), At(r0, ops, j + 1))
  {
    AtNext(r0, ops, j);
    OperationMoves(At(r0, ops, j), ops[j]);
  }

  /** Between them exactly one turn is queued, and it is the other actor's answer that follows exactly when the
      caller named the actor of the first response. */
  lemma AlternatesIffNamed(r0: Run, ops: seq<Op>, i: nat, j: nat) returns (q: nat)
    requires Consecutive(r0, ops, i, j)
    ensures OnlyQueue(r0, ops, i + 1, j, q)
    ensures ActorAt(r0, ops, j) == Other(SourceAt(r0, ops, q))
    ensures ActorAt(r0, ops, j) != ActorAt(r0, ops, i) <==> SourceAt(r0, ops, q) == ActorAt(r0, ops, i)
  {
    var last := ActorAt(r0, ops, i);
    var queued := ComesBetween(r0, ops, i + 1, j, last);
    StoredMoves(r0, ops, j);
    q := queued.value;
  }

  /** Every queued turn names the actor of the last response, if no excuse came since. */
  ghost predicate NamesLast(r0: Run, ops: seq<Op>) {
    forall i, q :: 0 <= i < q && StoresAt(r0, ops, i) && QueuesAt(r0, ops, q) && Quiet(r0, ops, i + 1, q) ==>
      SourceAt(r0, ops, q) == ActorAt(r0, ops, i)
  }

  /** Then no actor answers twice in a row, over any history. */
  lemma ActorsAlternate(r0: Run, ops: seq<Op>, i: nat, j: nat)
    requires NamesLast(r0, ops) && Consecutive(r0, ops, i, j)
    ensures ActorAt(r0, ops, j) == Other(ActorAt(r0, ops, i))
  {
    var q := AlternatesIffNamed(r0, ops, i, j);
  }

  predicate Early(p: Phase) { p.Created? || p.StartingSessions? || p.CodexTurnPending? || p.CodexTurnRunning? || Terminal(p) }

  lemma {:induction false} StaysEarly(r0: Run, ops: seq<Op>, n: nat)
    requires r0.phase.Created? && n <= |ops| && Quiet(r0, ops, 0, n)
    ensures Early(At(r0, ops, n).phase)
  {
    if n > 0 {
      StaysEarly(r0, ops, n - 1);
      assert !StoresAt(r0, ops, n - 1) && !ExcusesAt(r0, ops, n - 1);
      AtNext(r0, ops, n - 1);
      OperationMoves(At(r0, ops, n - 1), ops[n - 1]);
    }
  }

  /** The first response of a new run is Codex's, whatever the caller names, unless an excuse came before it. */
  lemma FirstIsCodex(r0: Run, ops: seq<Op>, j: nat)
    requires r0.phase.Created? && StoresAt(r0, ops, j) && Quiet(r0, ops, 0, j)
    ensures ActorAt(r0, ops, j) == Codex
  {
    StaysEarly(r0, ops, j);
    AtNext(r0, ops, j);
    OperationMoves(At(r0, ops, j), ops[j]);
  }

  // ------------------------------------------------------------------ the machine does not enforce the naming

  function Step(to: Phase, source: Actor, version: int): Op {
    OpTransition(Request(to, None, Keep, Some(source), version, "t"))
  }

  function Snapshot(phase: Phase, turn: int, version: int): Run {
    Run(phase, RequiredActor(phase), 2, turn, false, None, version, "t")
  }

  /** The history went through these phases, one operation each. */
  predicate Went(r0: Run, ops: seq<Op>, phases: seq<Phase>) {
    |phases| == |ops| + 1 && forall n :: 0 <= n <= |ops| ==> At(r0, ops, n).phase == phases[n]
  }

  /** One more transition of a plain run; the history is returned as a value of which only this is known. */
  lemma OneMore(
      r0: Run, ops: seq<Op>, phases: seq<Phase>, to: Phase, source: Actor, turn: int) returns (all: seq<Op>, more: seq<Phase>)
    requires Went(r0, ops, phases) && |ops| < 100
    requires var from := phases[|ops|];
             && At(r0, ops, |ops|) == Snapshot(from, turn, |ops| + 1)
             && Allowed(from, to) && !Detour(from) && !Detour(to) && !Terminal(to)
             && (Running(to) || PeerPending(to) ==> turn < 2)
             && (PeerPending(to) ==> to == PeerPendingOf(source))
             && Valid(Snapshot(from, turn, |ops| + 1))
             && Valid(Snapshot(to, turn + (if CompletesResponse(from, to) then 1 else 0), |ops| + 2))
    ensures |all| == |ops| + 1 && more == phases + [to] && Went(r0, all, more)
    ensures At(r0, all, |all|) == Snapshot(to, turn + (if CompletesResponse(phases[|ops|], to) then 1 else 0), |all| + 1)
  {
    all, more := ops + [Step(to, source, |ops| + 1)], phases + [to];
    assert all[..|ops|] == ops[..|ops|] == ops && all[..|all|] == all;
    AtNext(r0, all, |ops|);
    forall n | 0 <= n <= |ops| ensures At(r0, all, n) == At(r0, ops, n) { assert all[..n] == ops[..n]; }
  }

  /** The phases of a run whose second turn is queued in the name of an actor that has not answered yet. */
  function MisnamedPhases(): seq<Phase> {
    [Created, StartingSessions, CodexTurnPending, CodexTurnRunning, CodexResponseStored, ConsensusCheck,
     WebToCodexPending, CodexTurnRunning, CodexResponseStored]
  }

  lemma CodexAnswers(r0: Run) returns (ops: seq<Op>, phases: seq<Phase>)
    requires r0 == Snapshot(Created, 0, 1)
    ensures |ops| == 4 && phases == MisnamedPhases()[..5] && Went(r0, ops, phases)
    ensures At(r0, ops, 4) == Snapshot(CodexResponseStored, 1, 5)
  {
    ops, phases := [], [Created];
    ops, phases := OneMore(r0, ops, phases, StartingSessions, Codex, 0);
    ops, phases := OneMore(r0, ops, phases, CodexTurnPending, Codex, 0);
    ops, phases := OneMore(r0, ops, phases, CodexTurnRunning, Codex, 0);
    ops, phases := OneMore(r0, ops, phases, CodexResponseStored, Codex, 0);
  }

  lemma CodexChecked(r0: Run) returns (ops: seq<Op>, phases: seq<Phase>)
    requires r0 == Snapshot(Created, 0, 1)
    ensures |ops| == 6 && phases == MisnamedPhases()[..7] && Went(r0, ops, phases)
    ensures At(r0, ops, 6) == Snapshot(WebToCodexPending, 1, 7)
  {
    ops, phases := CodexAnswers(r0);
    ops, phases := OneMore(r0, ops, phases, ConsensusCheck, Codex, 1);
    ops, phases := OneMore(r0, ops, phases, WebToCodexPending, Web, 1);
  }

  lemma Misnamed(r0: Run) returns (ops: seq<Op>)
    requires r0 == Snapshot(Created, 0, 1)
    ensures Went(r0, ops, MisnamedPhases())
  {
    var phases: seq<Phase>;
    ops, phases := CodexChecked(r0);
    ops, phases := OneMore(r0, ops, phases, CodexTurnRunning, Codex, 1);
    ops, phases := OneMore(r0, ops, phases, CodexResponseStored, Codex, 1);
  }

  lemma WentConsecutive(r0: Run, ops: seq<Op>)
    requires Went(r0, ops, MisnamedPhases())
    ensures Consecutive(r0, ops, 3, 7) && ActorAt(r0, ops, 3) == Codex && ActorAt(r0, ops, 7) == Codex
  {
    forall m | 4 <= m < 7 ensures !StoresAt(r0, ops, m) && !ExcusesAt(r0, ops, m) {
      assert m == 4 || m == 5 || m == 6;
    }
  }

  /** A new run in which the source of a queued turn is misnamed, and one actor answers twice in a row. */
  lemma MisnamedSourceRepeats() returns (r0: Run, ops: seq<Op>)
    ensures CreateInitial(2, "t") == Ok(r0)
    ensures Consecutive(r0, ops, 3, 7) && ActorAt(r0, ops, 7) == ActorAt(r0, ops, 3)
  {
    r0 := Snapshot(Created, 0, 1);
    ops := Misnamed(r0);
    WentConsecutive(r0, ops);
  }
}
