/** What each operation on a discussion run accepts and what it leaves (src/domain/run-state-machine.js). */
module RunOperations {
  import opened Common
  import opened RunMachine

  // ------------------------------------------------------------------ the phases a run moves between

  /** The moves, read by their target. */
  lemma MovesByTarget(from: Phase, to: Phase)
    ensures Allowed(from, to) <==>
      match to
      case Created => false
      case StartingSessions => from in {Created, RecoveryRequired, HumanGate}
      case CodexTurnPending => from in {StartingSessions, RecoveryRequired, HumanGate}
      case CodexTurnRunning => from in {CodexTurnPending, WebToCodexPending}
      case CodexResponseStored => from == CodexTurnRunning
      case CodexToWebPending => from in {ConsensusCheck, RecoveryRequired, HumanGate}
      case WebTurnRunning => from == CodexToWebPending
      case WebResponseStored => from == WebTurnRunning
      case WebToCodexPending => from in {ConsensusCheck, RecoveryRequired, HumanGate}
      case ConsensusCheck => from in {CodexResponseStored, WebResponseStored, RecoveryRequired, HumanGate}
      case HumanGate =>
        from !in {Created, CodexTurnRunning, WebTurnRunning, HumanGate, Complete, Phase.Failed, Cancelled}
      case RecoveryRequired => from !in {Created, RecoveryRequired, HumanGate, Complete, Phase.Failed, Cancelled}
      case Complete => from == ConsensusCheck
      case Failed => from !in {Created, Complete, Phase.Failed, Cancelled}
      case Cancelled => from !in {Complete, Phase.Failed, Cancelled}
  {
  }

  // ------------------------------------------------------------------ what a run satisfies

  /** An actor is active exactly while its turn runs, a gate shows what it waits for, a finished run waits for
      nothing, and the phases after a response have one. */
  predicate Coherent(r: Run) {
    && r.activeActor == (match r.phase case CodexTurnRunning => Some(Codex) case WebTurnRunning => Some(Web) case _ => None)
    && (r.phase in {CodexTurnRunning, WebTurnRunning} ==> r.currentTurn < r.maxTurns)
    && (r.phase == HumanGate ==> r.blocker.Some?)
    && (r.phase == RecoveryRequired ==> r.blocker.Some? && r.blocker.value.RecoveryConfirmation?)
    && (r.phase in {Complete, Phase.Failed, Cancelled} ==> r.blocker == None)
    && (r.phase in {CodexResponseStored, WebResponseStored, CodexToWebPending, WebToCodexPending, ConsensusCheck} ==>
          r.currentTurn > 0)
    && (r.blocker.Some? ==> WellNamed(r.blocker.value))
  }

  predicate WellNamed(b: Blocker) {
    && (b.RuntimeApproval? ==> b.approvalId != "") && (b.UserDecision? ==> "" !in b.decisionIds)
    && (b.RecoveryConfirmation? ==> b.operationId != "")
  }

  /** What a run is created with, and when it can be. */
  lemma CreatedExactly(maxTurns: int, createdAt: string)
    ensures CreateInitial(maxTurns, createdAt).Ok? <==> 1 <= maxTurns <= 0x1F_FFFF_FFFF_FFFF && createdAt != ""
    ensures CreateInitial(maxTurns, createdAt).Ok? ==>
              CreateInitial(maxTurns, createdAt).value == Run(Created, None, maxTurns, 0, false, None, 1, createdAt)
  {
  }

  function Changes(r0: Run, ops: seq<Op>): nat {
    if ops == [] then 0
    else
      var before := Replay(r0, ops[..|ops| - 1]);
      Changes(r0, ops[..|ops| - 1]) + (if After(before, ops[|ops| - 1]) == before then 0 else 1)
  }

  /** That is what every operation checks of the run it is given, besides the ranges of its numbers. */
  lemma ValidIffCoherent(r: Run)
    ensures Valid(r) <==> Coherent(r) && 1 <= r.maxTurns <= 0x1F_FFFF_FFFF_FFFF && 0 <= r.currentTurn <= r.maxTurns
                          && 1 <= r.version <= 0x1F_FFFF_FFFF_FFFF && r.updatedAt != ""
  {
  }

  lemma InvalidIsRefused(state: Run, op: Op)
    requires !Valid(state)
    ensures Perform(state, op) == Err(InvalidRun)
  {
  }

  /** Over any history of a new run it stays coherent, and its version counts the changes. */
  lemma {:induction false} HistoryIsCoherent(maxTurns: int, createdAt: string, ops: seq<Op>)
    requires CreateInitial(maxTurns, createdAt).Ok?
    ensures var r0 := CreateInitial(maxTurns, createdAt).value;
            var r := Replay(r0, ops);
            Coherent(r) && r.maxTurns == maxTurns && 0 <= r.currentTurn <= maxTurns && r.version == 1 + Changes(r0, ops)
  {
    var r0 := CreateInitial(maxTurns, createdAt).value;
    HistoryIsValid(maxTurns, createdAt, ops);
    ValidIffCoherent(Replay(r0, ops));
    if ops != [] {
      HistoryIsCoherent(maxTurns, createdAt, ops[..|ops| - 1]);
      OneChange(Replay(r0, ops[..|ops| - 1]), ops[|ops| - 1]);
    }
  }

  lemma OneChange(state: Run, op: Op)
    ensures var next := After(state, op); next == state || next.version == state.version + 1
  {
    OperationIsValid(state, op);
  }

  // ------------------------------------------------------------------ versions

  function VersionOf(op: Op): int {
    match op
    case OpTransition(q) => q.expectedVersion
    case OpRepair(_, _, v, _) => v
    case OpClaim(_, _, v, _) => v
    case OpAdopt(_, _, v, _) => v
    case OpPause(_, v, _) => v
    case OpBlocker(_, v, _) => v
    case OpTurnLimit(_, v, _) => v
  }

  /** An operation that names another version than the run's is refused. */
  lemma OtherVersionIsRefused(state: Run, op: Op)
    requires VersionOf(op) != state.version
    ensures Perform(state, op).Err?
  {
  }

  /** Of two operations that saw the same version, the second is refused once the first has changed the run: no
      writer overwrites a change it has not seen, however many come between. */
  lemma {:induction false} NoBlindOverwrite(state: Run, first: Op, between: seq<Op>, second: Op)
    requires VersionOf(first) == VersionOf(second) && After(state, first) != state
    ensures Perform(Replay(After(state, first), between), second).Err?
  {
    OneChange(state, first);
    ChangerSawVersion(state, first);
    VersionGrows(After(state, first), between);
    OtherVersionIsRefused(Replay(After(state, first), between), second);
  }

  lemma ChangerSawVersion(state: Run, op: Op)
    requires After(state, op) != state
    ensures VersionOf(op) == state.version
  {
    if VersionOf(op) != state.version { OtherVersionIsRefused(state, op); }
  }

  lemma {:induction false} VersionGrows(r0: Run, ops: seq<Op>)
    ensures Replay(r0, ops).version >= r0.version
  {
    if ops != [] {
      VersionGrows(r0, ops[..|ops| - 1]);
      OneChange(Replay(r0, ops[..|ops| - 1]), ops[|ops| - 1]);
    }
  }

  // ------------------------------------------------------------------ each operation, exactly

  /** A valid run whose version the caller has seen, with a time for the change. */
  predicate Seen(state: Run, v: int, at: string) {
    Valid(state) && state.version < 0x1F_FFFF_FFFF_FFFF && v == state.version && at != ""
  }

  predicate Finished(p: Phase) { p in {Complete, Phase.Failed, Cancelled} }

  /** A response found after a failure is adopted exactly in recovery from that very operation and with a turn left;
      it is then stored as its actor's, counted, and the recovery is over. */
  lemma AdoptsExactly(state: Run, a: Actor, id: string, v: int, at: string)
    requires Seen(state, v, at)
    ensures var out := Perform(state, OpAdopt(a, id, v, at));
            && (out.Ok? <==> state.phase == RecoveryRequired && state.blocker == Some(RecoveryConfirmation(id))
                             && state.currentTurn < state.maxTurns)
            && (out.Ok? ==>
                  var next := out.value;
                  && next.phase == (match a case Codex => CodexResponseStored case Web => WebResponseStored)
                  && next.blocker == None && next.currentTurn == state.currentTurn + 1 && next.activeActor == None
                  && next.paused == state.paused && next.maxTurns == state.maxTurns
                  && next.version == state.version + 1 && next.updatedAt == at)
  {
  }

  /** Below the limit nothing happens; at the limit a run whose consensus is being checked is completed, and no
      other is. */
  lemma TurnLimitExactly(state: Run, unresolved: seq<string>, v: int, at: string)
    requires Seen(state, v, at)
    ensures var out := Perform(state, OpTurnLimit(unresolved, v, at));
            && (out.Ok? <==> "" !in unresolved && (state.currentTurn < state.maxTurns || state.phase == ConsensusCheck))
            && (out.Ok? && state.currentTurn < state.maxTurns ==> out.value == state)
            && (out.Ok? && state.currentTurn == state.maxTurns ==>
                  out.value == Run(Complete, None, state.maxTurns, state.currentTurn, state.paused, None, v + 1, at))
  {
  }

  /** Pausing and resuming fail exactly on a finished run, and change only the flag. */
  lemma PausesExactly(state: Run, paused: bool, v: int, at: string)
    requires Seen(state, v, at)
    ensures var out := Perform(state, OpPause(paused, v, at));
            && (out.Ok? <==> !Finished(state.phase))
            && (out.Ok? ==> out.value == if state.paused == paused then state
                                         else state.(paused := paused, version := v + 1, updatedAt := at))
  {
  }

  /** A blocker can be set or cleared exactly on an unfinished run, if a gate keeps one and a recovery keeps a
      confirmation; nothing else changes. */
  lemma BlocksExactly(state: Run, b: Option<Blocker>, v: int, at: string)
    requires Seen(state, v, at)
    ensures var out := Perform(state, OpBlocker(b, v, at));
            && (out.Ok? <==> !Finished(state.phase) && (b.Some? ==> WellNamed(b.value))
                             && (state.phase == HumanGate ==> b.Some?)
                             && (state.phase == RecoveryRequired ==> b.Some? && b.value.RecoveryConfirmation?))
            && (out.Ok? ==> out.value == state.(blocker := b, version := v + 1, updatedAt := at))
  {
  }

  /** The turn of an actor is running, and nothing else has changed. */
  predicate Started(state: Run, next: Run, a: Actor, at: string) {
    next == state.(phase := match a case Codex => CodexTurnRunning case Web => WebTurnRunning,
                   activeActor := Some(a), version := state.version + 1, updatedAt := at)
  }

  /** The actor's own response has just been stored, nothing blocks the run and a turn is left. */
  predicate CanRepair(state: Run, a: Actor) {
    && state.phase == (match a case Codex => CodexResponseStored case Web => WebResponseStored)
    && state.blocker == None && state.currentTurn < state.maxTurns
  }

  /** It is the actor's turn, nothing blocks the run and a turn is left. */
  predicate CanStart(state: Run, a: Actor) {
    && state.phase in (match a case Codex => {CodexTurnPending, WebToCodexPending} case Web => {CodexToWebPending})
    && state.blocker == None && state.currentTurn < state.maxTurns
  }

  /** A repair runs the actor of the stored response again. */
  lemma RepairsExactly(state: Run, a: Actor, kind: TurnKind, v: int, at: string)
    requires Seen(state, v, at)
    ensures var out := Perform(state, OpRepair(a, kind, v, at));
            && (out.Ok? <==> kind == ProtocolRepair && CanRepair(state, a) && !state.paused)
            && (out.Ok? ==> Started(state, out.value, a, at))
  {
  }

  /** A turn that was claimed before a pause starts all the same. */
  lemma ClaimsExactly(state: Run, a: Actor, kind: TurnKind, v: int, at: string)
    requires Seen(state, v, at)
    ensures var out := Perform(state, OpClaim(a, kind, v, at));
            && (out.Ok? <==> (kind == ProtocolRepair && CanRepair(state, a))
                             || (kind in {InitialObjective, PeerRelay} && CanStart(state, a)))
            && (out.Ok? ==> Started(state, out.value, a, at))
  {
  }

  // ------------------------------------------------------------------ transitions, exactly

  /** The blocker the run would have: the one the request names, or its own. */
  function NextBlocker(state: Run, q: Request): Option<Blocker> {
    if q.to in {Complete, Phase.Failed, Cancelled} then None
    else match q.change case Set(b) => b case Keep => state.blocker
  }

  /** The blocker fits the target: named, cleared where the run goes on, present where it waits. */
  predicate BlockerFits(state: Run, q: Request) {
    var b := NextBlocker(state, q);
    && (q.change.Set? && q.change.blocker.Some? ==> WellNamed(q.change.blocker.value) && !Finished(q.to))
    && (state.phase in {HumanGate, RecoveryRequired} && q.to !in {HumanGate, RecoveryRequired} ==> b == None)
    && (q.to in {CodexTurnRunning, WebTurnRunning} ==> b == None)
    && (q.to == HumanGate ==> b.Some?)
    && (q.to == RecoveryRequired ==> b.Some? && b.value.RecoveryConfirmation?)
  }

  /** A running turn needs a run that is not paused, a turn of any kind needs one left, and a queued turn names
      the actor it answers. */
  predicate TurnFits(state: Run, q: Request) {
    && (q.to in {CodexTurnRunning, WebTurnRunning} ==> !state.paused)
    && (q.to in {CodexTurnRunning, WebTurnRunning, CodexToWebPending, WebToCodexPending} ==> state.currentTurn < state.maxTurns)
    && (q.to == CodexToWebPending ==> q.sourceActor == Some(Codex))
    && (q.to == WebToCodexPending ==> q.sourceActor == Some(Web))
    && (q.to in {CodexToWebPending, WebToCodexPending, ConsensusCheck} ==> state.currentTurn > 0)
  }

  function ActorIn(p: Phase): Option<Actor> {
    match p case CodexTurnRunning => Some(Codex) case WebTurnRunning => Some(Web) case _ => None
  }

  /** What a transition changes: phase, actor, blocker, time and version, and the turn counter when a running turn
      is stored. */
  function Moved(state: Run, q: Request): Run {
    Run(q.to, ActorIn(q.to), state.maxTurns,
        state.currentTurn + (if q.to in {CodexResponseStored, WebResponseStored} then 1 else 0),
        state.paused, NextBlocker(state, q), state.version + 1, q.updatedAt)
  }

  lemma TransitionsExactly(state: Run, q: Request)
    requires Seen(state, q.expectedVersion, q.updatedAt)
    ensures var out := Perform(state, OpTransition(q));
            && (out.Ok? <==> Allowed(state.phase, q.to) && (q.activeActor.Some? ==> q.activeActor.value == ActorIn(q.to))
                             && BlockerFits(state, q) && TurnFits(state, q))
            && (out.Ok? ==> out.value == Moved(state, q))
  {
    MovesByTarget(state.phase, q.to);
  }

  // ------------------------------------------------------------------ refusals

  /** Every refusal gives a reason that is true of the run and the request. */
  predicate True(state: Run, op: Op, e: Error) {
    match e
    case VersionConflict => VersionOf(op) != state.version
    case RunPaused => state.paused && (op.OpTransition? || op.OpRepair?)
    case RunBlocked => op.OpTransition? || state.blocker.Some?
    case TurnLimitReached => state.currentTurn >= state.maxTurns
    case TransitionNotAllowed =>
      !Allowed(state.phase, match op
                            case OpTransition(q) => q.to
                            case OpTurnLimit(_, _, _) => Complete
                            case OpClaim(Codex, _, _, _) => CodexTurnRunning
                            case _ => WebTurnRunning)
    case ActorPhaseMismatch => op.OpTransition? && op.q.activeActor.Some? && op.q.activeActor.value != ActorIn(op.q.to)
    case BlockerNotResolved => op.OpTransition? && state.phase in {HumanGate, RecoveryRequired} && NextBlocker(state, op.q).Some?
    case TerminalBlockerPresent => op.OpTransition? && Finished(op.q.to) && op.q.change.Set? && op.q.change.blocker.Some?
    case AlternationViolation => op.OpTransition? && op.q.sourceActor.Some? && op.q.to in {CodexToWebPending, WebToCodexPending}
    case RepairIntentRequired => op.OpRepair? && op.kind != ProtocolRepair
    case RepairPhaseMismatch => state.phase !in {CodexResponseStored, WebResponseStored}
    case RepairActorMismatch =>
      (op.OpRepair? || op.OpClaim?) && state.phase == (match op.actor case Codex => WebResponseStored case Web => CodexResponseStored)
    case ClaimedIntentRequired => op.OpClaim? && op.kind == UserSteer
    case RecoveryPhaseMismatch => op.OpAdopt? && state.phase != RecoveryRequired
    case RecoveryOperationMismatch => op.OpAdopt? && state.blocker != Some(RecoveryConfirmation(op.operationId))
    case TerminalMutation => Finished(state.phase) && (op.OpPause? || op.OpBlocker?)
    case CompletionPhaseMismatch => op.OpTurnLimit? && state.currentTurn >= state.maxTurns && state.phase != ConsensusCheck
    case _ => true
  }

  predicate Truthful(state: Run, op: Op) {
    var out := Perform(state, op); out.Err? ==> True(state, op, out.error)
  }

  lemma RefusedTransition(state: Run, op: Op)
    requires op.OpTransition?
    ensures Truthful(state, op)
  {
  }

  lemma RefusedRepair(state: Run, op: Op)
    requires op.OpRepair? || (op.OpClaim? && op.kind == ProtocolRepair)
    ensures Truthful(state, op)
  {
  }

  lemma RefusedClaim(state: Run, op: Op)
    requires op.OpClaim? && op.kind != ProtocolRepair
    ensures Truthful(state, op)
  {
  }

  lemma RefusedChange(state: Run, op: Op)
    requires op.OpAdopt? || op.OpPause? || op.OpBlocker? || op.OpTurnLimit?
    ensures Truthful(state, op)
  {
  }

  lemma RefusalsAreTrue(state: Run, op: Op)
    ensures Truthful(state, op)
  {
    if op.OpTransition? { RefusedTransition(state, op); }
    else if op.OpRepair? || (op.OpClaim? && op.kind == ProtocolRepair) { RefusedRepair(state, op); }
    else if op.OpClaim? { RefusedClaim(state, op); }
    else { RefusedChange(state, op); }
  }
}
