/** The discussion run state machine (src/domain/run-state-machine.js, src/domain/contracts.js).

    Every operation takes an immutable run and returns a new one or an error. Identity fields that no
    operation changes (run id, mode, objective, hashes, creation time) are not carried. */
module RunMachine {
  import opened Common

  /** Number.MAX_SAFE_INTEGER: the validator refuses larger versions and turn counts. */
  const MAX_SAFE := 0x1F_FFFF_FFFF_FFFF

  datatype Actor = Codex | Web

  datatype Phase =
    | Created | StartingSessions
    | CodexTurnPending | CodexTurnRunning | CodexResponseStored | CodexToWebPending
    | WebTurnRunning | WebResponseStored | WebToCodexPending
    | ConsensusCheck | HumanGate | RecoveryRequired
    | Complete | Failed | Cancelled

  datatype Blocker =
    | RuntimeApproval(approvalId: string)
    | UserDecision(decisionIds: seq<string>)
    | SessionAuth(actor: Actor)
    | RecoveryConfirmation(operationId: string)

  datatype Run = Run(
    phase: Phase, activeActor: Option<Actor>, maxTurns: int, currentTurn: int,
    paused: bool, blocker: Option<Blocker>, version: int, updatedAt: string)

  datatype Error =
    | InvalidInput | InvalidRun | VersionConflict | TransitionNotAllowed | ActorPhaseMismatch
    | BlockerNotResolved | TerminalBlockerPresent | RunPaused | RunBlocked | TurnLimitReached
    | AlternationViolation | RepairIntentRequired | RepairPhaseMismatch | RepairActorMismatch
    | ClaimedIntentRequired | RecoveryPhaseMismatch | RecoveryOperationMismatch
    | TerminalMutation | CompletionPhaseMismatch

  predicate Terminal(p: Phase) { p.Complete? || p.Failed? || p.Cancelled? }

  predicate SafeResume(p: Phase) {
    p.StartingSessions? || p.CodexTurnPending? || p.CodexToWebPending? || p.WebToCodexPending? || p.ConsensusCheck?
  }

  predicate Allowed(from: Phase, to: Phase) {
    match from
    case Created => to.StartingSessions? || to.Cancelled?
    case StartingSessions => to.CodexTurnPending? || Detour(to) || to.Failed? || to.Cancelled?
    case CodexTurnPending => to.CodexTurnRunning? || Detour(to) || to.Failed? || to.Cancelled?
    case CodexTurnRunning => to.CodexResponseStored? || to.RecoveryRequired? || to.Failed? || to.Cancelled?
    case CodexResponseStored => to.ConsensusCheck? || Detour(to) || to.Failed? || to.Cancelled?
    case CodexToWebPending => to.WebTurnRunning? || Detour(to) || to.Failed? || to.Cancelled?
    case WebTurnRunning => to.WebResponseStored? || to.RecoveryRequired? || to.Failed? || to.Cancelled?
    case WebResponseStored => to.ConsensusCheck? || Detour(to) || to.Failed? || to.Cancelled?
    case WebToCodexPending => to.CodexTurnRunning? || Detour(to) || to.Failed? || to.Cancelled?
    case ConsensusCheck =>
      to.CodexToWebPending? || to.WebToCodexPending? || to.Complete? || Detour(to) || to.Failed? || to.Cancelled?
    case RecoveryRequired => SafeResume(to) || to.HumanGate? || to.Failed? || to.Cancelled?
    case HumanGate => SafeResume(to) || to.Failed? || to.Cancelled?
    case _ => false
  }

  predicate Detour(p: Phase) { p.HumanGate? || p.RecoveryRequired? }

  predicate Running(p: Phase) { p.CodexTurnRunning? || p.WebTurnRunning? }

  predicate Stored(p: Phase) { p.CodexResponseStored? || p.WebResponseStored? }

  predicate PeerPending(p: Phase) { p.CodexToWebPending? || p.WebToCodexPending? }

  function RequiredActor(p: Phase): Option<Actor> {
    if p.CodexTurnRunning? then Some(Codex) else if p.WebTurnRunning? then Some(Web) else None
  }

  function RunningPhase(a: Actor): Phase { if a.Codex? then CodexTurnRunning else WebTurnRunning }

  function StoredPhase(a: Actor): Phase { if a.Codex? then CodexResponseStored else WebResponseStored }

  function PeerPendingOf(source: Actor): Phase { if source.Codex? then CodexToWebPending else WebToCodexPending }

  function ActorOfStored(p: Phase): Actor
    requires Stored(p)
  {
    if p.CodexResponseStored? then Codex else Web
  }

  predicate ValidBlocker(b: Blocker) {
    match b
    case RuntimeApproval(id) => id != ""
    case UserDecision(ids) => forall i :: 0 <= i < |ids| ==> ids[i] != ""
    case SessionAuth(_) => true
    case RecoveryConfirmation(id) => id != ""
  }

  /** validateAgentRun together with validatePhaseInvariants. */
  predicate Valid(r: Run) {
    && 1 <= r.maxTurns <= MAX_SAFE && 0 <= r.currentTurn <= r.maxTurns
    && 1 <= r.version <= MAX_SAFE && r.updatedAt != ""
    && (r.blocker.Some? ==> ValidBlocker(r.blocker.value))
    && r.activeActor == RequiredActor(r.phase)
    && (Running(r.phase) ==> r.currentTurn < r.maxTurns)
    && (r.phase.HumanGate? ==> r.blocker.Some?)
    && (r.phase.RecoveryRequired? ==> r.blocker.Some? && r.blocker.value.RecoveryConfirmation?)
    && (Terminal(r.phase) ==> r.blocker.None?)
    && (Stored(r.phase) || PeerPending(r.phase) || r.phase.ConsensusCheck? ==> r.currentTurn > 0)
  }

  type Outcome = Result<Run, Error>

  /** What an operation makes of a run before the result is validated as a whole. */
  datatype Draft = Refused(error: Error) | Unchanged | Changed(run: Run)

  /** Bumps the version and validates the whole result. */
  function BuildNext(state: Run, changed: Run): Outcome {
    var next := changed.(version := state.version + 1);
    if Valid(next) then Ok(next) else Err(InvalidRun)
  }

  function CreateInitial(maxTurns: int, createdAt: string): Outcome {
    var r := Run(Created, None, maxTurns, 0, false, None, 1, createdAt);
    if Valid(r) then Ok(r) else Err(InvalidRun)
  }

  /** assertRunState, requireMutationInput and assertExpectedVersion, in the order every operation runs them. */
  function Guard(state: Run, expectedVersion: int, updatedAt: string): Option<Error> {
    if !Valid(state) then Some(InvalidRun)
    else if !(1 <= expectedVersion <= MAX_SAFE) || updatedAt == "" then Some(InvalidInput)
    else if state.version != expectedVersion then Some(VersionConflict)
    else None
  }

  function TurnMayStart(state: Run, blocker: Option<Blocker>, allowPaused: bool, allowBlocked: bool): Option<Error> {
    if state.paused && !allowPaused then Some(RunPaused)
    else if blocker.Some? && !allowBlocked then Some(RunBlocked)
    else if state.currentTurn >= state.maxTurns then Some(TurnLimitReached)
    else None
  }

  /** A blocker field is absent, or present with a blocker or null. */
  datatype BlockerChange = Keep | Set(blocker: Option<Blocker>)

  datatype Request = Request(
    to: Phase, activeActor: Option<Option<Actor>>, change: BlockerChange, sourceActor: Option<Actor>,
    expectedVersion: int, updatedAt: string)

  function TransitionBlocker(state: Run, q: Request): Result<Option<Blocker>, Error> {
    var next := if q.change.Set? then q.change.blocker else state.blocker;
    if next.Some? && !ValidBlocker(next.value) then Err(InvalidInput)
    else if Detour(state.phase) && !Detour(q.to) && !Terminal(q.to) && next.Some? then Err(BlockerNotResolved)
    else if Terminal(q.to) then
      if q.change.Set? && q.change.blocker.Some? then Err(TerminalBlockerPresent) else Ok(None)
    else Ok(next)
  }

  function BoundaryCheck(state: Run, q: Request, blocker: Option<Blocker>, allowPausedStart: bool): Option<Error> {
    if Running(q.to) || PeerPending(q.to) then
      TurnMayStart(state, blocker, PeerPending(q.to) || (allowPausedStart && Running(q.to)), PeerPending(q.to))
    else None
  }

  function SourceCheck(q: Request): Option<Error> {
    if !PeerPending(q.to) then None
    else if q.sourceActor.None? then Some(InvalidInput)
    else if q.to != PeerPendingOf(q.sourceActor.value) then Some(AlternationViolation)
    else None
  }

  predicate CompletesResponse(from: Phase, to: Phase) {
    (from.CodexTurnRunning? && to.CodexResponseStored?) || (from.WebTurnRunning? && to.WebResponseStored?)
  }

  function TransitionInternal(state: Run, q: Request, allowPausedStart: bool): Draft {
    var guard := Guard(state, q.expectedVersion, q.updatedAt);
    if guard.Some? then Refused(guard.value)
    else if !Allowed(state.phase, q.to) then Refused(TransitionNotAllowed)
    else if q.activeActor.Some? && q.activeActor.value != RequiredActor(q.to) then Refused(ActorPhaseMismatch)
    else
      var blocker := TransitionBlocker(state, q);
      if blocker.Err? then Refused(blocker.error)
      else
        var boundary := BoundaryCheck(state, q, blocker.value, allowPausedStart);
        if boundary.Some? then Refused(boundary.value)
        else if SourceCheck(q).Some? then Refused(SourceCheck(q).value)
        else
          var turn := state.currentTurn + (if CompletesResponse(state.phase, q.to) then 1 else 0);
          if turn > state.maxTurns then Refused(TurnLimitReached)
          else
            Changed(state.(phase := q.to, activeActor := RequiredActor(q.to), currentTurn := turn,
                           blocker := blocker.value, updatedAt := q.updatedAt))
  }

  function Transition(state: Run, q: Request): Draft {
    TransitionInternal(state, q, false)
  }

  datatype TurnKind = InitialObjective | PeerRelay | ProtocolRepair | UserSteer

  function RepairInternal(
      state: Run, actor: Actor, kind: TurnKind, expectedVersion: int, updatedAt: string, allowPaused: bool): Draft {
    var guard := Guard(state, expectedVersion, updatedAt);
    if guard.Some? then Refused(guard.value)
    else if !kind.ProtocolRepair? then Refused(RepairIntentRequired)
    else if !Stored(state.phase) then Refused(RepairPhaseMismatch)
    else if actor != ActorOfStored(state.phase) then Refused(RepairActorMismatch)
    else
      var start := TurnMayStart(state, state.blocker, allowPaused, false);
      if start.Some? then Refused(start.value)
      else
        Changed(state.(phase := RunningPhase(actor), activeActor := Some(actor), updatedAt := updatedAt))
  }

  function StartProtocolRepair(state: Run, actor: Actor, kind: TurnKind, expectedVersion: int, updatedAt: string): Draft {
    RepairInternal(state, actor, kind, expectedVersion, updatedAt, false)
  }

  function StartClaimedTurn(state: Run, actor: Actor, kind: TurnKind, expectedVersion: int, updatedAt: string): Draft {
    if !Valid(state) then Refused(InvalidRun)
    else if !(1 <= expectedVersion <= MAX_SAFE) || updatedAt == "" then Refused(InvalidInput)
    else if kind.ProtocolRepair? then RepairInternal(state, actor, kind, expectedVersion, updatedAt, true)
    else if kind.UserSteer? then Refused(ClaimedIntentRequired)
    else
      TransitionInternal(
        state, Request(RunningPhase(actor), None, Keep, None, expectedVersion, updatedAt), true)
  }

  function AdoptRecovered(state: Run, actor: Actor, operationId: string, expectedVersion: int, updatedAt: string): Draft {
    var guard := Guard(state, expectedVersion, updatedAt);
    if guard.Some? then Refused(guard.value)
    else if !state.phase.RecoveryRequired? then Refused(RecoveryPhaseMismatch)
    else if operationId == "" then Refused(InvalidInput)
    else if state.blocker != Some(RecoveryConfirmation(operationId)) then Refused(RecoveryOperationMismatch)
    else if state.currentTurn >= state.maxTurns then Refused(TurnLimitReached)
    else
      Changed(state.(phase := StoredPhase(actor), activeActor := None, currentTurn := state.currentTurn + 1,
                     blocker := None, updatedAt := updatedAt))
  }

  function SetPaused(state: Run, paused: bool, expectedVersion: int, updatedAt: string): Draft {
    var guard := Guard(state, expectedVersion, updatedAt);
    if guard.Some? then Refused(guard.value)
    else if Terminal(state.phase) then Refused(TerminalMutation)
    else if state.paused == paused then Unchanged
    else Changed(state.(paused := paused, updatedAt := updatedAt))
  }

  function SetBlocker(state: Run, blocker: Option<Blocker>, expectedVersion: int, updatedAt: string): Draft {
    var guard := Guard(state, expectedVersion, updatedAt);
    if guard.Some? then Refused(guard.value)
    else if Terminal(state.phase) then Refused(TerminalMutation)
    else if blocker.Some? && !ValidBlocker(blocker.value) then Refused(InvalidInput)
    else Changed(state.(blocker := blocker, updatedAt := updatedAt))
  }

  function EnforceTurnLimit(
      state: Run, unresolvedFindings: seq<string>, expectedVersion: int, updatedAt: string): Draft {
    var guard := Guard(state, expectedVersion, updatedAt);
    if guard.Some? then Refused(guard.value)
    else if exists i :: 0 <= i < |unresolvedFindings| && unresolvedFindings[i] == "" then Refused(InvalidInput)
    else if state.currentTurn < state.maxTurns then Unchanged
    else if !state.phase.ConsensusCheck? then Refused(CompletionPhaseMismatch)
    else Transition(state, Request(Complete, None, Set(None), None, expectedVersion, updatedAt))
  }

  // ------------------------------------------------------------------ operations as data, and histories

  datatype Op =
    | OpTransition(q: Request)
    | OpRepair(actor: Actor, kind: TurnKind, expectedVersion: int, updatedAt: string)
    | OpClaim(actor: Actor, kind: TurnKind, expectedVersion: int, updatedAt: string)
    | OpAdopt(actor: Actor, operationId: string, expectedVersion: int, updatedAt: string)
    | OpPause(paused: bool, expectedVersion: int, updatedAt: string)
    | OpBlocker(blocker: Option<Blocker>, expectedVersion: int, updatedAt: string)
    | OpTurnLimit(unresolvedFindings: seq<string>, expectedVersion: int, updatedAt: string)

  function DraftOf(state: Run, op: Op): Draft {
    match op
    case OpTransition(q) => Transition(state, q)
    case OpRepair(a, k, v, t) => StartProtocolRepair(state, a, k, v, t)
    case OpClaim(a, k, v, t) => StartClaimedTurn(state, a, k, v, t)
    case OpAdopt(a, o, v, t) => AdoptRecovered(state, a, o, v, t)
    case OpPause(p, v, t) => SetPaused(state, p, v, t)
    case OpBlocker(b, v, t) => SetBlocker(state, b, v, t)
    case OpTurnLimit(f, v, t) => EnforceTurnLimit(state, f, v, t)
  }

  function Perform(state: Run, op: Op): Outcome {
    match DraftOf(state, op)
    case Refused(e) => Err(e)
    case Unchanged => Ok(state)
    case Changed(draft) => BuildNext(state, draft)
  }

  /** The run after an operation; an operation that throws leaves it as it was. */
  function After(state: Run, op: Op): Run {
    var out := Perform(state, op);
    if out.Ok? then out.value else state
  }

  function Replay(state: Run, ops: seq<Op>): Run {
    if ops == [] then state else After(Replay(state, ops[..|ops| - 1]), ops[|ops| - 1])
  }

  /** A response was stored: the phase became a stored phase with this operation. */
  predicate StoresResponse(before: Run, after: Run) {
    Stored(after.phase) && after.phase != before.phase
  }

  function StoredResponses(state: Run, ops: seq<Op>): nat {
    if ops == [] then 0
    else
      var before := Replay(state, ops[..|ops| - 1]);
      StoredResponses(state, ops[..|ops| - 1])
      + (if StoresResponse(before, After(before, ops[|ops| - 1])) then 1 else 0)
  }

  function PhaseChanges(state: Run, ops: seq<Op>): nat {
    if ops == [] then 0
    else
      var before := Replay(state, ops[..|ops| - 1]);
      PhaseChanges(state, ops[..|ops| - 1])
      + (if After(before, ops[|ops| - 1]).phase != before.phase then 1 else 0)
  }

  /** The run was at the human gate or in recovery at some point of the history. */
  predicate Detours(state: Run, ops: seq<Op>) {
    exists n :: 0 <= n <= |ops| && Detour(Replay(state, ops[..n]).phase)
  }

  // ------------------------------------------------------------------ one operation

  /** Every operation returns a valid run: the one it was given, or one at the next version. */
  lemma OperationIsValid(state: Run, op: Op)
    ensures var out := Perform(state, op);
            out.Ok? ==> Valid(state) && Valid(out.value)
                        && (out.value == state || out.value.version == state.version + 1)
                        && out.value.maxTurns == state.maxTurns
  {
  }

  /** A run in a terminal phase is final: no operation returns anything but that very run. */
  lemma TerminalIsFinal(state: Run, op: Op)
    requires Terminal(state.phase)
    ensures After(state, op) == state
  {
  }

  /** What the guards of the operations do not look at. */
  predicate Gap(state: Run, draft: Run) {
    || state.version == MAX_SAFE
    || (draft.phase.HumanGate? && draft.blocker.None?)
    || (draft.phase.RecoveryRequired? && !(draft.blocker.Some? && draft.blocker.value.RecoveryConfirmation?))
    || (draft.currentTurn == 0 && (PeerPending(draft.phase) || draft.phase.ConsensusCheck?))
  }

  /** On a valid run the final validation of what an operation made refuses exactly when the version is used up,
      a gate or a recovery would have no fitting blocker, or a run without responses would resume after one. */
  lemma FinalValidationRefuses(state: Run, op: Op)
    requires Valid(state) && DraftOf(state, op).Changed?
    ensures var draft := DraftOf(state, op).run;
            Perform(state, op) == (if Gap(state, draft) then Err(InvalidRun) else Ok(draft.(version := state.version + 1)))
  {
  }

  /** Resuming undoes a pause: only the version and the time differ, whatever the phase. */
  lemma ResumeUndoesPause(state: Run, v: int, at: string, later: string)
    requires Perform(state, OpPause(true, v, at)).Ok? && !state.paused && later != "" && state.version + 1 < MAX_SAFE
    ensures var paused := Perform(state, OpPause(true, v, at)).value;
            && paused.paused && paused.version == state.version + 1
            && Perform(paused, OpPause(false, paused.version, later))
               == Ok(state.(version := state.version + 2, updatedAt := later))
  {
  }

  /** Clearing a blocker that was set gives back an unblocked run, phase and turns untouched. */
  lemma ClearUndoesBlocker(state: Run, b: Blocker, v: int, at: string, later: string)
    requires Perform(state, OpBlocker(Some(b), v, at)).Ok? && state.blocker == None && later != ""
    requires state.version + 1 < MAX_SAFE
    ensures var blocked := Perform(state, OpBlocker(Some(b), v, at)).value;
            && blocked.blocker == Some(b) && blocked.version == state.version + 1
            && Perform(blocked, OpBlocker(None, blocked.version, later))
               == Ok(state.(version := state.version + 2, updatedAt := later))
  {
  }

  predicate StartsRepair(before: Run, after: Run) {
    Stored(before.phase) && after.phase == RunningPhase(ActorOfStored(before.phase))
  }

  predicate StartsOrQueuesTurn(r: Run) {
    Running(r.phase) || PeerPending(r.phase)
  }

  /** All the ways an operation can move the phase and the turn counter. */
  predicate LegalMove(a: Run, b: Run) {
    && b.maxTurns == a.maxTurns
    && (b.phase != a.phase && StartsOrQueuesTurn(b) ==> a.currentTurn < a.maxTurns)
    && (b.phase != a.phase && Running(b.phase) ==> b.blocker.None?)
    && if b.phase == a.phase then b.currentTurn == a.currentTurn
       else if Allowed(a.phase, b.phase) then
         b.currentTurn == a.currentTurn + (if CompletesResponse(a.phase, b.phase) then 1 else 0)
       else if StartsRepair(a, b) then b.currentTurn == a.currentTurn
       else a.phase.RecoveryRequired? && Stored(b.phase) && b.currentTurn == a.currentTurn + 1
  }

  lemma OperationMoves(state: Run, op: Op)
    ensures LegalMove(state, After(state, op))
  {
  }

  /** A turn starts only on an unblocked run with budget left, and the turn counter moves exactly when a
      response is stored. */
  lemma TurnsStartUnblockedAndCount(state: Run, op: Op)
    ensures var next := After(state, op);
            && (Running(next.phase) && next.phase != state.phase ==>
                  next.blocker.None? && next.currentTurn < next.maxTurns && (state.paused ==> op.OpClaim?))
            && next.currentTurn == state.currentTurn + (if StoresResponse(state, next) then 1 else 0)
  {
    OperationMoves(state, op);
  }

  // ------------------------------------------------------------------ whole histories

  /** Over any history of a new run: it stays valid, and its turn counter is the number of responses stored,
      never above the limit. */
  lemma {:induction false} HistoryIsValid(maxTurns: int, createdAt: string, ops: seq<Op>)
    requires CreateInitial(maxTurns, createdAt).Ok?
    ensures var r0 := CreateInitial(maxTurns, createdAt).value;
            var r := Replay(r0, ops);
            Valid(r) && r.maxTurns == maxTurns
            && r.currentTurn == StoredResponses(r0, ops) && StoredResponses(r0, ops) <= maxTurns
  {
    var r0 := CreateInitial(maxTurns, createdAt).value;
    if ops != [] {
      HistoryIsValid(maxTurns, createdAt, ops[..|ops| - 1]);
      var before := Replay(r0, ops[..|ops| - 1]);
      OperationIsValid(before, ops[|ops| - 1]);
      TurnsStartUnblockedAndCount(before, ops[|ops| - 1]);
    }
  }

  // ------------------------------------------------------------------ termination

  function PendingPotential(left: int): int { if left > 0 then 4 * left else 1 }

  /** How many phase changes a run can still make when it never leaves for the gate or recovery. */
  function Potential(r: Run): int {
    var left := r.maxTurns - r.currentTurn;
    match r.phase
    case Created => PendingPotential(left) + 2
    case StartingSessions => PendingPotential(left) + 1
    case CodexTurnPending => PendingPotential(left)
    case CodexToWebPending => PendingPotential(left)
    case WebToCodexPending => PendingPotential(left)
    case CodexTurnRunning => 4 * left - 1
    case WebTurnRunning => 4 * left - 1
    case CodexResponseStored => 4 * left + 2
    case WebResponseStored => 4 * left + 2
    case ConsensusCheck => 4 * left + 1
    case _ => 0
  }

  lemma PotentialDecreases(a: Run, b: Run)
    requires Valid(a) && Valid(b) && LegalMove(a, b) && !Detour(a.phase) && !Detour(b.phase)
    ensures if b.phase != a.phase then Potential(b) + 1 <= Potential(a) else Potential(b) == Potential(a)
    ensures Potential(b) >= 0
  {
  }

  /** A run that never visits the gate or recovery makes at most 4 * maxTurns + 2 phase changes, protocol
      repairs included. */
  lemma {:induction false} PhaseChangesAreBounded(maxTurns: int, createdAt: string, ops: seq<Op>)
    requires CreateInitial(maxTurns, createdAt).Ok?
    requires !Detours(CreateInitial(maxTurns, createdAt).value, ops)
    ensures var r0 := CreateInitial(maxTurns, createdAt).value;
            PhaseChanges(r0, ops) + Potential(Replay(r0, ops)) <= 4 * maxTurns + 2
            && 0 <= Potential(Replay(r0, ops))
  {
    var r0 := CreateInitial(maxTurns, createdAt).value;
    if ops != [] {
      var past := ops[..|ops| - 1];
      assert !Detours(r0, past) by {
        forall n | 0 <= n <= |past| ensures !Detour(Replay(r0, past[..n]).phase) { assert past[..n] == ops[..n]; }
      }
      PhaseChangesAreBounded(maxTurns, createdAt, past);
      HistoryIsValid(maxTurns, createdAt, past);
      HistoryIsValid(maxTurns, createdAt, ops);
      assert past[..|past|] == past && ops[..|ops|] == ops;
      OperationMoves(Replay(r0, past), ops[|ops| - 1]);
      PotentialDecreases(Replay(r0, past), Replay(r0, ops));
    }
  }

  /** The longest way forward from each phase. */
  function Forward(r: Run): Op {
    var left := r.maxTurns - r.currentTurn;
    var to :=
      match r.phase
      case Created => StartingSessions
      case StartingSessions => CodexTurnPending
      case CodexTurnPending => if left > 0 then CodexTurnRunning else Phase.Failed
      case CodexToWebPending => if left > 0 then WebTurnRunning else Phase.Failed
      case WebToCodexPending => if left > 0 then CodexTurnRunning else Phase.Failed
      case CodexTurnRunning => CodexResponseStored
      case WebTurnRunning => WebResponseStored
      case CodexResponseStored => ConsensusCheck
      case WebResponseStored => ConsensusCheck
      case _ => if left > 0 then CodexToWebPending else Complete;
    OpTransition(Request(to, None, Keep, Some(Codex), r.version, r.updatedAt))
  }

  predicate Plain(r: Run) {
    Valid(r) && !r.paused && r.blocker.None? && !Detour(r.phase)
  }

  lemma ForwardStep(r: Run)
    requires Plain(r) && r.version < MAX_SAFE && Potential(r) > 0
    ensures var next := After(r, Forward(r));
            Plain(next) && next.phase != r.phase && Potential(next) == Potential(r) - 1
            && next.version == r.version + 1 && next.maxTurns == r.maxTurns
  {
  }

  function ForwardOps(r: Run, n: nat): seq<Op> {
    if n == 0 then [] else
      var past := ForwardOps(r, n - 1);
      past + [Forward(Replay(r, past))]
  }

  lemma {:induction false} ForwardRun(r: Run, n: nat)
    requires Plain(r) && n <= Potential(r) && r.version + n <= MAX_SAFE
    ensures |ForwardOps(r, n)| == n
    ensures var next := Replay(r, ForwardOps(r, n));
            Plain(next) && Potential(next) == Potential(r) - n && next.version == r.version + n
    ensures PhaseChanges(r, ForwardOps(r, n)) == n
    ensures !Detours(r, ForwardOps(r, n))
  {
    var ops := ForwardOps(r, n);
    if n > 0 {
      var past := ForwardOps(r, n - 1);
      ForwardRun(r, n - 1);
      ForwardStep(Replay(r, past));
      assert ops[..n - 1] == past;
      forall k | 0 <= k <= n ensures !Detour(Replay(r, ops[..k]).phase) {
        if k < n {
          assert ops[..k] == past[..k];
        } else {
          assert ops[..k] == ops;
        }
      }
    }
  }

  /** The bound is reached: for every turn limit some run makes exactly 4 * maxTurns + 2 phase changes. */
  lemma BoundIsReached(maxTurns: int, createdAt: string)
    requires CreateInitial(maxTurns, createdAt).Ok? && 4 * maxTurns + 3 <= MAX_SAFE
    ensures var r0 := CreateInitial(maxTurns, createdAt).value;
            exists ops: seq<Op> :: !Detours(r0, ops) && PhaseChanges(r0, ops) == 4 * maxTurns + 2
  {
    ForwardRun(CreateInitial(maxTurns, createdAt).value, 4 * maxTurns + 2);
  }
}
