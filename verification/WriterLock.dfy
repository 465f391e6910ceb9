/** The crash-tolerant writer of the diagnostic report (src/diagnostics/report-store.js).

    Any number of processes share one directory holding the report, an exclusive-create lock file,
    a recovery-guard directory and private staging directories. One step of the model is one
    filesystem operation or one liveness test by one process; any process may die between two steps,
    and every operation may fail (`Fault`). */
module WriterLock {
  import opened Common
  import D = DiagnosticReport

  type Pid = nat

  /** A random UUID: no two are equal, and its creator is known to the model only. */
  datatype Token = Token(pid: Pid, serial: nat)

  /** Content of the lock file: just created, being written, or naming its owner. */
  datatype LockContent = Empty | Partial | Owner(pid: Pid, token: Token)

  /** `creator` is a ghost of the model: no step's decision reads it. */
  datatype LockFile = LockFile(ino: nat, content: LockContent, creator: Pid)

  /** A guard or staging directory and the owner marker it contains. */
  datatype Dir = Dir(ino: nat, marker: Option<Token>)

  datatype TempFile = Unwritten | Written(report: D.Report)

  /** What `recoveryObservation` concludes. */
  datatype Sight = Missing | EmptyDir(ino: nat) | DeadOwner(ino: nat, token: Token) | LiveOwner

  /** What `lockObservation` reads from a lock file that names an owner. */
  datatype LockSeen = LockSeen(ino: nat, pid: Pid, token: Token)

  datatype Status = Undecided | Succeeded | Busy | Failed

  /** Which caller `recoveryAvailable` returns to. */
  datatype Purpose = BeforeOpen | BeforePublish

  datatype Pc =
    | Idle
    // writeAgentReport: preliminaries
    | Prune | PruneMarker(target: Token) | PruneDir(target: Token)
    // recoveryAvailable
    | GuardStat | GuardList | GuardMark | GuardLive | ReapMarker | ReapDir
    // first attempt at the lock
    | OpenLock | LockStat | LockRead | LockLive
    // acquireRecovery
    | MakeStaging | MakeMarker | Publish | UnstageMarker | UnstageDir
    // reclaimDeadWriter, guard held
    | ReclaimStat | ReclaimRead | ReclaimLive | ReclaimTemp | ReclaimUnlink | ReleaseMarker | ReleaseDir
    | Reopen
    // lock held
    | WriteOwnerBegin | WriteOwnerEnd | ReadReport | OpenTemp | WriteTemp | RenameTemp
    | RemoveTemp | CloseLock | DetachLock
    | RemoveDetached
    // enqueueAgentReport after a busy attempt
    | Waiting

  datatype Proc = Proc(
    alive: bool, pc: Pc,
    serial: nat,                     // next unused UUID
    call: nat, update: D.Update,     // the enqueueAgentReport call in progress
    status: Status,
    purpose: Purpose, first: Option<Sight>, seenIno: nat, seenMarker: Token,
    current: LockSeen,               // lock observation in progress
    observed: LockSeen,              // the dead owner reclaimDeadWriter was called with
    marker: Token, reclaimed: bool,
    token: Token, fd: nat, acquisition: nat, previous: D.Report,
    abandoned: set<Token>)

  datatype Commit = Commit(pid: Pid, call: nat, update: D.Update, acquisition: nat)

  datatype State = State(
    procs: map<Pid, Proc>,
    lock: Option<LockFile>,
    guard: Option<Dir>,
    staging: map<Token, Dir>,
    temps: map<Token, TempFile>,
    report: D.Report,
    nextIno: nat,
    // history, read by no step
    acquisitions: nat, commits: seq<Commit>, successes: set<(Pid, nat)>)

  /** How the environment resolves a step: the operation runs, fails, is retried, or a choice is made. */
  datatype Choice = Go | Fault | Retry | Pick(target: Token) | Begin(update: D.Update)

  datatype Event = Act(pid: Pid, choice: Choice) | Crash(pid: Pid)

  predicate Live(s: State, p: Pid) { p in s.procs && s.procs[p].alive }

  function Put(s: State, p: Pid, proc: Proc): State {
    s.(procs := s.procs[p := proc])
  }

  function Goto(s: State, p: Pid, proc: Proc, pc: Pc): State {
    Put(s, p, proc.(pc := pc))
  }

  /** End of one writeAgentReport attempt, as enqueueAgentReport sees it. */
  function Finish(s: State, p: Pid, proc: Proc): State {
    match proc.status
    case Busy => Goto(s, p, proc, Waiting)
    case Succeeded => Goto(s, p, proc, Idle).(successes := s.successes + {(p, proc.call)})
    case _ => Goto(s, p, proc, Idle)
  }

  function End(s: State, p: Pid, proc: Proc, status: Status): State {
    Finish(s, p, proc.(status := status))
  }

  function Start(s: State, p: Pid, proc: Proc): State {
    Goto(s, p, proc.(status := Undecided, reclaimed := false), Prune)
  }

  function StepIdle(s: State, p: Pid, proc: Proc, c: Choice): State {
    match c
    case Begin(u) => Start(s, p, proc.(call := proc.call + 1, update := u))
    case _ => s
  }

  function StepWaiting(s: State, p: Pid, proc: Proc, c: Choice): State {
    match c
    case Retry => Start(s, p, proc)
    case Go => End(s, p, proc, Failed)
    case _ => s
  }

  // ------------------------------------------------------------------ pruneRecoveryPreparations

  function StepPrune(s: State, p: Pid, proc: Proc, c: Choice): State {
    match c
    case Pick(t) =>
      if t in s.staging && (t in proc.abandoned || !Live(s, t.pid)) then Goto(s, p, proc, PruneMarker(t)) else s
    case Fault => End(s, p, proc, Failed)
    case _ => Goto(s, p, proc.(purpose := BeforeOpen, first := None), GuardStat)
  }

  function RemoveMarkerAt(s: State, t: Token): State {
    if t in s.staging then s.(staging := s.staging[t := s.staging[t].(marker := None)]) else s
  }

  function RemoveStagingAt(s: State, t: Token): State {
    if t in s.staging && s.staging[t].marker == None then s.(staging := s.staging - {t}) else s
  }

  function StepPruneMarker(s: State, p: Pid, proc: Proc, t: Token, c: Choice): State {
    if c == Fault then End(s, p, proc, Failed)
    else Goto(RemoveMarkerAt(s, t), p, proc, PruneDir(t))
  }

  function StepPruneDir(s: State, p: Pid, proc: Proc, t: Token, c: Choice): State {
    if c == Fault then End(s, p, proc, Failed)
    else
      var removed := RemoveStagingAt(s, t);
      var abandoned := if t in removed.staging then proc.abandoned else proc.abandoned - {t};
      Goto(removed, p, proc.(abandoned := abandoned), Prune)
  }

  // ------------------------------------------------------------------ recoveryAvailable

  function Proceed(s: State, p: Pid, proc: Proc): State {
    Goto(s, p, proc, if proc.purpose == BeforeOpen then OpenLock else MakeStaging)
  }

  /** The decision after a completed observation; a dead or empty guard is observed twice. */
  function Decide(s: State, p: Pid, proc: Proc, sight: Sight): State {
    match proc.first
    case None =>
      if sight == Missing then Proceed(s, p, proc)
      else if sight == LiveOwner then End(s, p, proc, Busy)
      else Goto(s, p, proc.(first := Some(sight)), GuardStat)
    case Some(first) =>
      if sight == first then
        Goto(s, p, proc, if sight.DeadOwner? then ReapMarker else ReapDir)
      else if sight == Missing then Proceed(s, p, proc)
      else End(s, p, proc, Busy)
  }

  function StepGuardStat(s: State, p: Pid, proc: Proc, c: Choice): State {
    if c == Fault then End(s, p, proc, Failed)
    else if s.guard == None then Decide(s, p, proc, Missing)
    else Goto(s, p, proc.(seenIno := s.guard.value.ino), GuardList)
  }

  function StepGuardList(s: State, p: Pid, proc: Proc, c: Choice): State {
    if c == Fault then End(s, p, proc, Failed)
    else if s.guard == None then Decide(s, p, proc, Missing)
    else
      match s.guard.value.marker
      case None => Decide(s, p, proc, EmptyDir(proc.seenIno))
      case Some(t) => Goto(s, p, proc.(seenMarker := t), GuardMark)
  }

  predicate GuardHas(s: State, t: Token) {
    s.guard.Some? && s.guard.value.marker == Some(t)
  }

  function StepGuardMark(s: State, p: Pid, proc: Proc, c: Choice): State {
    if c == Fault then End(s, p, proc, Failed)
    else if GuardHas(s, proc.seenMarker) then Goto(s, p, proc, GuardLive)
    else Decide(s, p, proc, Missing)
  }

  function StepGuardLive(s: State, p: Pid, proc: Proc): State {
    Decide(s, p, proc,
           if Live(s, proc.seenMarker.pid) then LiveOwner else DeadOwner(proc.seenIno, proc.seenMarker))
  }

  /** rmdir of the marker that was seen: a different marker is not touched. */
  function RemoveGuardMarker(s: State, t: Token): State {
    if GuardHas(s, t) then s.(guard := Some(s.guard.value.(marker := None))) else s
  }

  /** Nonrecursive rmdir of the guard: it fails on a nonempty directory. */
  function RemoveEmptyGuard(s: State): State {
    if s.guard.Some? && s.guard.value.marker == None then s.(guard := None) else s
  }

  function StepReapMarker(s: State, p: Pid, proc: Proc, c: Choice): State {
    if c == Fault then End(s, p, proc, Failed)
    else Goto(RemoveGuardMarker(s, proc.seenMarker), p, proc, ReapDir)
  }

  function StepReapDir(s: State, p: Pid, proc: Proc, c: Choice): State {
    if c == Fault then End(s, p, proc, Failed)
    else
      var s' := RemoveEmptyGuard(s);
      if s'.guard == None then Proceed(s', p, proc) else End(s', p, proc, Busy)
  }

  // ------------------------------------------------------------------ the lock

  function Open(s: State, p: Pid, proc: Proc, otherwise: State): State {
    if s.lock == None then
      Goto(s, p, proc.(fd := s.nextIno, acquisition := s.acquisitions + 1), WriteOwnerBegin)
        .(lock := Some(LockFile(s.nextIno, Empty, p)), nextIno := s.nextIno + 1,
          acquisitions := s.acquisitions + 1)
    else otherwise
  }

  function StepOpenLock(s: State, p: Pid, proc: Proc, c: Choice): State {
    if c == Fault then End(s, p, proc, Failed) else Open(s, p, proc, Goto(s, p, proc, LockStat))
  }

  function StepReopen(s: State, p: Pid, proc: Proc, c: Choice): State {
    if c == Fault then End(s, p, proc, Failed) else Open(s, p, proc, End(s, p, proc, Busy))
  }

  function StepLockStat(s: State, p: Pid, proc: Proc, c: Choice): State {
    if c == Fault || s.lock == None then End(s, p, proc, Busy)
    else Goto(s, p, proc.(current := proc.current.(ino := s.lock.value.ino)), LockRead)
  }

  function StepLockRead(s: State, p: Pid, proc: Proc, c: Choice): State {
    if c != Fault && s.lock.Some? && s.lock.value.content.Owner? then
      var o := s.lock.value.content;
      Goto(s, p, proc.(current := proc.current.(pid := o.pid, token := o.token)), LockLive)
    else End(s, p, proc, Busy)
  }

  function StepLockLive(s: State, p: Pid, proc: Proc): State {
    if Live(s, proc.current.pid) then End(s, p, proc, Busy)
    else Goto(s, p, proc.(observed := proc.current, purpose := BeforePublish, first := None), GuardStat)
  }

  // ------------------------------------------------------------------ acquireRecovery

  function StepMakeStaging(s: State, p: Pid, proc: Proc, c: Choice): State {
    if c == Fault then End(s, p, proc, Failed)
    else
      var t := Token(p, proc.serial);
      Goto(s, p, proc.(marker := t, serial := proc.serial + 1), MakeMarker)
        .(staging := s.staging[t := Dir(s.nextIno, None)], nextIno := s.nextIno + 1)
  }

  function StepMakeMarker(s: State, p: Pid, proc: Proc, c: Choice): State {
    if c == Fault || proc.marker !in s.staging then Goto(s, p, proc.(status := Failed), UnstageMarker)
    else
      Goto(s, p, proc, Publish)
        .(staging := s.staging[proc.marker := s.staging[proc.marker].(marker := Some(proc.marker))])
  }

  /** rename(staging, guard): atomic; it replaces a missing or empty directory only. */
  function StepPublish(s: State, p: Pid, proc: Proc, c: Choice): State {
    if c == Retry then s
    else if c == Fault || proc.marker !in s.staging then Goto(s, p, proc.(status := Failed), UnstageMarker)
    else if s.guard.Some? && s.guard.value.marker.Some? then Goto(s, p, proc.(status := Busy), UnstageMarker)
    else
      Goto(s, p, proc, ReclaimStat)
        .(guard := Some(s.staging[proc.marker]), staging := s.staging - {proc.marker})
  }

  /** A failed cleanup is remembered as abandoned, and turns a busy attempt into a failed one. */
  function StepUnstageMarker(s: State, p: Pid, proc: Proc, c: Choice): State {
    if c == Fault then End(s, p, proc.(abandoned := proc.abandoned + {proc.marker}), Failed)
    else Goto(RemoveMarkerAt(s, proc.marker), p, proc, UnstageDir)
  }

  function StepUnstageDir(s: State, p: Pid, proc: Proc, c: Choice): State {
    if c == Fault then End(s, p, proc.(abandoned := proc.abandoned + {proc.marker}), Failed)
    else Finish(RemoveStagingAt(s, proc.marker), p, proc)
  }

  // ------------------------------------------------------------------ reclaimDeadWriter under the guard

  function Release(s: State, p: Pid, proc: Proc, status: Status, reclaimed: bool): State {
    Goto(s, p, proc.(status := status, reclaimed := reclaimed), ReleaseMarker)
  }

  function StepReclaimStat(s: State, p: Pid, proc: Proc, c: Choice): State {
    if c == Fault || s.lock == None then Release(s, p, proc, Busy, false)
    else Goto(s, p, proc.(current := proc.current.(ino := s.lock.value.ino)), ReclaimRead)
  }

  function StepReclaimRead(s: State, p: Pid, proc: Proc, c: Choice): State {
    if c != Fault && s.lock.Some? && s.lock.value.content.Owner? then
      var o := s.lock.value.content;
      Goto(s, p, proc.(current := proc.current.(pid := o.pid, token := o.token)), ReclaimLive)
    else Release(s, p, proc, Busy, false)
  }

  function StepReclaimLive(s: State, p: Pid, proc: Proc): State {
    if Live(s, proc.current.pid) || proc.current != proc.observed then Release(s, p, proc, Busy, false)
    else Goto(s, p, proc, ReclaimTemp)
  }

  function StepReclaimTemp(s: State, p: Pid, proc: Proc, c: Choice): State {
    if c == Fault then Release(s, p, proc, Failed, false)
    else Goto(s, p, proc, ReclaimUnlink).(temps := s.temps - {proc.observed.token})
  }

  /** unlink by path: it removes whatever lock file is there. */
  function StepReclaimUnlink(s: State, p: Pid, proc: Proc, c: Choice): State {
    if c == Fault || s.lock == None then Release(s, p, proc, Failed, false)
    else Release(s.(lock := None), p, proc, Undecided, true)
  }

  function StepReleaseMarker(s: State, p: Pid, proc: Proc, c: Choice): State {
    if c == Fault then End(s, p, proc, Failed)
    else Goto(RemoveGuardMarker(s, proc.marker), p, proc, ReleaseDir)
  }

  function StepReleaseDir(s: State, p: Pid, proc: Proc, c: Choice): State {
    if c == Fault then End(s, p, proc, Failed)
    else
      var s' := RemoveEmptyGuard(s);
      if proc.status == Undecided && proc.reclaimed then Goto(s', p, proc, Reopen)
      else Finish(s', p, proc)
  }

  // ------------------------------------------------------------------ with the lock held

  /** A write through the descriptor reaches the lock file only while its inode is still at the path. */
  function WriteFd(s: State, fd: nat, content: LockContent): State {
    if s.lock.Some? && s.lock.value.ino == fd then s.(lock := Some(s.lock.value.(content := content))) else s
  }

  function Abort(s: State, p: Pid, proc: Proc): State {
    Goto(s, p, proc.(status := Failed), RemoveTemp)
  }

  function StepWriteOwnerBegin(s: State, p: Pid, proc: Proc, c: Choice): State {
    var proc' := proc.(token := Token(p, proc.serial), serial := proc.serial + 1);
    if c == Fault then Abort(s, p, proc')
    else Goto(WriteFd(s, proc.fd, Partial), p, proc', WriteOwnerEnd)
  }

  function StepWriteOwnerEnd(s: State, p: Pid, proc: Proc, c: Choice): State {
    if c == Fault then Abort(s, p, proc)
    else Goto(WriteFd(s, proc.fd, Owner(p, proc.token)), p, proc, ReadReport)
  }

  function StepReadReport(s: State, p: Pid, proc: Proc, c: Choice): State {
    if c == Fault then Abort(s, p, proc) else Goto(s, p, proc.(previous := s.report), OpenTemp)
  }

  function StepOpenTemp(s: State, p: Pid, proc: Proc, c: Choice): State {
    if c == Fault || proc.token in s.temps then Abort(s, p, proc)
    else Goto(s, p, proc, WriteTemp).(temps := s.temps[proc.token := Unwritten])
  }

  function StepWriteTemp(s: State, p: Pid, proc: Proc, c: Choice): State {
    if c == Fault || proc.token !in s.temps then Abort(s, p, proc)
    else
      Goto(s, p, proc, RenameTemp)
        .(temps := s.temps[proc.token := Written(D.Apply(proc.previous, proc.update))])
  }

  /** The commit point: rename(temporary, report). */
  function StepRenameTemp(s: State, p: Pid, proc: Proc, c: Choice): State {
    if c == Fault || proc.token !in s.temps || !s.temps[proc.token].Written? then Abort(s, p, proc)
    else
      Goto(s, p, proc.(status := Succeeded), CloseLock)
        .(report := s.temps[proc.token].report, temps := s.temps - {proc.token},
          commits := s.commits + [Commit(p, proc.call, proc.update, proc.acquisition)])
  }

  function StepRemoveTemp(s: State, p: Pid, proc: Proc, c: Choice): State {
    if c == Fault then Goto(s, p, proc, CloseLock)
    else Goto(s, p, proc, CloseLock).(temps := s.temps - {proc.token})
  }

  function StepCloseLock(s: State, p: Pid, proc: Proc, c: Choice): State {
    Goto(s, p, if c == Fault then proc.(status := Failed) else proc, DetachLock)
  }

  /** rename(lock, private name): by path, like the unlink of a reclaimer. */
  function StepDetachLock(s: State, p: Pid, proc: Proc, c: Choice): State {
    if c == Fault || s.lock == None then End(s, p, proc, Failed)
    else Goto(s, p, proc, RemoveDetached).(lock := None)
  }

  function StepRemoveDetached(s: State, p: Pid, proc: Proc, c: Choice): State {
    if c == Fault then End(s, p, proc, Failed) else Finish(s, p, proc)
  }

  // ------------------------------------------------------------------ one step, and runs

  /** The process created the lock file and has not detached it. */
  predicate Holding(pc: Pc) {
    pc.WriteOwnerBegin? || pc.WriteOwnerEnd? || pc.ReadReport? || pc.OpenTemp? || pc.WriteTemp?
    || pc.RenameTemp? || pc.RemoveTemp? || pc.CloseLock? || pc.DetachLock?
  }

  /** The process published its guard and has not begun to release it. */
  predicate Guarding(pc: Pc) {
    pc.ReclaimStat? || pc.ReclaimRead? || pc.ReclaimLive? || pc.ReclaimTemp? || pc.ReclaimUnlink?
    || pc.ReleaseMarker?
  }

  predicate Observing(pc: Pc) {
    pc.GuardStat? || pc.GuardList? || pc.GuardMark? || pc.GuardLive? || pc.ReapMarker? || pc.ReapDir?
  }

  function ActObserving(s: State, p: Pid, proc: Proc, c: Choice): State
    requires Observing(proc.pc)
  {
    match proc.pc
    case GuardStat => StepGuardStat(s, p, proc, c)
    case GuardList => StepGuardList(s, p, proc, c)
    case GuardMark => StepGuardMark(s, p, proc, c)
    case GuardLive => StepGuardLive(s, p, proc)
    case ReapMarker => StepReapMarker(s, p, proc, c)
    case ReapDir => StepReapDir(s, p, proc, c)
  }

  function ActHolding(s: State, p: Pid, proc: Proc, c: Choice): State
    requires Holding(proc.pc)
  {
    match proc.pc
    case WriteOwnerBegin => StepWriteOwnerBegin(s, p, proc, c)
    case WriteOwnerEnd => StepWriteOwnerEnd(s, p, proc, c)
    case ReadReport => StepReadReport(s, p, proc, c)
    case OpenTemp => StepOpenTemp(s, p, proc, c)
    case WriteTemp => StepWriteTemp(s, p, proc, c)
    case RenameTemp => StepRenameTemp(s, p, proc, c)
    case RemoveTemp => StepRemoveTemp(s, p, proc, c)
    case CloseLock => StepCloseLock(s, p, proc, c)
    case DetachLock => StepDetachLock(s, p, proc, c)
  }

  function ActGuarding(s: State, p: Pid, proc: Proc, c: Choice): State
    requires Guarding(proc.pc)
  {
    match proc.pc
    case ReclaimStat => StepReclaimStat(s, p, proc, c)
    case ReclaimRead => StepReclaimRead(s, p, proc, c)
    case ReclaimLive => StepReclaimLive(s, p, proc)
    case ReclaimTemp => StepReclaimTemp(s, p, proc, c)
    case ReclaimUnlink => StepReclaimUnlink(s, p, proc, c)
    case ReleaseMarker => StepReleaseMarker(s, p, proc, c)
  }

  function ActOtherwise(s: State, p: Pid, proc: Proc, c: Choice): State
    requires !Observing(proc.pc) && !Holding(proc.pc) && !Guarding(proc.pc)
  {
    match proc.pc
    case Idle => StepIdle(s, p, proc, c)
    case Waiting => StepWaiting(s, p, proc, c)
    case Prune => StepPrune(s, p, proc, c)
    case PruneMarker(t) => StepPruneMarker(s, p, proc, t, c)
    case PruneDir(t) => StepPruneDir(s, p, proc, t, c)
    case OpenLock => StepOpenLock(s, p, proc, c)
    case LockStat => StepLockStat(s, p, proc, c)
    case LockRead => StepLockRead(s, p, proc, c)
    case LockLive => StepLockLive(s, p, proc)
    case MakeStaging => StepMakeStaging(s, p, proc, c)
    case MakeMarker => StepMakeMarker(s, p, proc, c)
    case Publish => StepPublish(s, p, proc, c)
    case UnstageMarker => StepUnstageMarker(s, p, proc, c)
    case UnstageDir => StepUnstageDir(s, p, proc, c)
    case ReleaseDir => StepReleaseDir(s, p, proc, c)
    case Reopen => StepReopen(s, p, proc, c)
    case RemoveDetached => StepRemoveDetached(s, p, proc, c)
  }

  function Act1(s: State, p: Pid, proc: Proc, c: Choice): State {
    if Observing(proc.pc) then ActObserving(s, p, proc, c)
    else if Holding(proc.pc) then ActHolding(s, p, proc, c)
    else if Guarding(proc.pc) then ActGuarding(s, p, proc, c)
    else ActOtherwise(s, p, proc, c)
  }

  /** Dead processes do nothing. */
  function Step(s: State, e: Event): State {
    if !Live(s, e.pid) then s
    else
      match e
      case Crash(p) => Put(s, p, s.procs[p].(alive := false))
      case Act(p, c) => Act1(s, p, s.procs[p], c)
  }

  function Run(s: State, events: seq<Event>): State {
    if events == [] then s else Step(Run(s, events[..|events| - 1]), events[|events| - 1])
  }

  predicate Initial(s: State) {
    && (forall p :: p in s.procs ==>
          s.procs[p].pc == Idle && s.procs[p].call == 0 && s.procs[p].abandoned == {})
    && s.lock == None && s.guard == None && s.staging == map[] && s.temps == map[]
    && s.report == D.EMPTY_REPORT
    && s.acquisitions == 0 && s.commits == [] && s.successes == {}
  }
}
