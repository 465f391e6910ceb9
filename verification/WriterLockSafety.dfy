/** Safety of the diagnostic writer over every interleaving, with crashes and failed operations. */
module WriterLockSafety {
  import opened Common
  import D = DiagnosticReport
  import opened WriterLock

  // ------------------------------------------------------------------ who owns what, by program counter

  /** Lock held, commit point still ahead. */
  predicate BeforeCommit(pc: Pc) {
    pc.WriteOwnerBegin? || pc.WriteOwnerEnd? || pc.ReadReport? || pc.OpenTemp? || pc.WriteTemp?
    || pc.RenameTemp?
  }

  /** The call may already have committed. */
  predicate AfterCommit(pc: Pc) {
    pc.CloseLock? || pc.DetachLock? || pc.RemoveDetached?
  }

  predicate Staging(pc: Pc) {
    pc.MakeMarker? || pc.Publish?
  }

  predicate Reclaiming(pc: Pc) {
    pc.ReclaimTemp? || pc.ReclaimUnlink?
  }

  /** `observed` names the dead owner the process is about to reclaim from. */
  predicate Targeting(proc: Proc) {
    (Observing(proc.pc) && proc.purpose == BeforePublish) || proc.pc.MakeStaging? || Staging(proc.pc)
    || Guarding(proc.pc)
  }

  // ------------------------------------------------------------------ the invariant

  /** A token its creator really generated. */
  predicate Issued(s: State, t: Token) {
    t.pid in s.procs && t.serial < s.procs[t.pid].serial
  }

  predicate Committed(s: State, p: Pid, call: nat) {
    exists i :: 0 <= i < |s.commits| && s.commits[i].pid == p && s.commits[i].call == call
  }

  predicate LockNames(s: State, pid: Pid, t: Token) {
    s.lock.Some? && s.lock.value.content == Owner(pid, t)
  }

  predicate FilesInv(s: State) {
    && (s.lock.Some? ==>
          var f := s.lock.value;
          f.ino < s.nextIno && (f.content.Owner? ==>
            f.content.pid == f.creator && f.content.token.pid == f.creator && Issued(s, f.content.token)))
    && (s.guard.Some? && s.guard.value.marker.Some? ==> Issued(s, s.guard.value.marker.value))
    && (forall t :: t in s.staging ==> Issued(s, t) && (s.staging[t].marker == None || s.staging[t].marker == Some(t)))
    && (forall t :: t in s.temps ==> Issued(s, t))
  }

  function Updates(commits: seq<Commit>): seq<D.Update> {
    seq(|commits|, i requires 0 <= i < |commits| => commits[i].update)
  }

  /** Commits happen in the order the lock was acquired, at most one per call, and make up the report. */
  predicate HistoryInv(s: State) {
    && s.report == D.Fold(Updates(s.commits))
    && (forall i :: 0 <= i < |s.commits| ==>
          var c := s.commits[i];
          c.pid in s.procs && c.call <= s.procs[c.pid].call && c.acquisition <= s.acquisitions)
    && (forall i, j :: 0 <= i < j < |s.commits| ==>
          s.commits[i].acquisition < s.commits[j].acquisition
          && !(s.commits[i].pid == s.commits[j].pid && s.commits[i].call == s.commits[j].call))
    && (forall r :: r in s.successes ==> Committed(s, r.0, r.1))
  }

  predicate LockPart(s: State, p: Pid)
    requires p in s.procs
  {
    var proc := s.procs[p];
    && (Holding(proc.pc) ==>
          s.lock.Some? && s.lock.value.creator == p && s.lock.value.ino == proc.fd
          && proc.acquisition == s.acquisitions)
    && (Holding(proc.pc) && !proc.pc.WriteOwnerBegin? ==> proc.token.pid == p && proc.token.serial < proc.serial)
    && (proc.pc.WriteOwnerBegin? ==> s.lock.value.content == Empty)
    && (BeforeCommit(proc.pc) ==>
          forall i :: 0 <= i < |s.commits| ==> s.commits[i].acquisition < proc.acquisition)
    && (proc.pc.OpenTemp? || proc.pc.WriteTemp? || proc.pc.RenameTemp? ==> proc.previous == s.report)
    && (proc.pc.WriteTemp? ==> proc.token in s.temps)
    && (proc.pc.RenameTemp? ==>
          proc.token in s.temps && s.temps[proc.token] == Written(D.Apply(proc.previous, proc.update)))
  }

  predicate GuardPart(s: State, p: Pid)
    requires p in s.procs
  {
    var proc := s.procs[p];
    && (forall t :: t in proc.abandoned ==> t.pid == p && t.serial < proc.serial)
    && (Staging(proc.pc) || Guarding(proc.pc) || proc.pc.UnstageMarker? || proc.pc.UnstageDir? ==>
          proc.marker.pid == p && proc.marker.serial < proc.serial)
    && (Staging(proc.pc) ==>
          proc.marker in s.staging && proc.marker !in proc.abandoned
          && s.staging[proc.marker].marker == if proc.pc.Publish? then Some(proc.marker) else None)
    && (Guarding(proc.pc) ==> GuardHas(s, proc.marker))
    && (proc.pc.PruneMarker? || proc.pc.PruneDir? ==>
          proc.pc.target in proc.abandoned || !Live(s, proc.pc.target.pid))
    && (Observing(proc.pc) && proc.first.Some? ==>
          proc.first.value.EmptyDir? || (proc.first.value.DeadOwner? && !Live(s, proc.first.value.token.pid)))
    && (proc.pc.ReapMarker? ==> !Live(s, proc.seenMarker.pid))
  }

  predicate ReclaimPart(s: State, p: Pid)
    requires p in s.procs
  {
    var proc := s.procs[p];
    var target := proc.observed;
    && (Targeting(proc) ==> !Live(s, target.pid))
    && (proc.pc.ReclaimLive? && proc.current == target ==> LockNames(s, target.pid, target.token))
    && (Reclaiming(proc.pc) ==> LockNames(s, target.pid, target.token))
  }

  predicate CallPart(s: State, p: Pid)
    requires p in s.procs
  {
    var proc := s.procs[p];
    && (!proc.pc.Idle? && !AfterCommit(proc.pc) ==> !Committed(s, p, proc.call) && proc.status != Succeeded)
    && (proc.pc.RemoveTemp? ==> proc.status == Failed)
    && (AfterCommit(proc.pc) ==>
          proc.status == Failed || (proc.status == Succeeded && Committed(s, p, proc.call)))
  }

  predicate ProcInv(s: State, p: Pid)
    requires p in s.procs
  {
    LockPart(s, p) && GuardPart(s, p) && ReclaimPart(s, p) && CallPart(s, p)
  }

  ghost predicate Inv(s: State) {
    FilesInv(s) && HistoryInv(s) && forall p :: Live(s, p) ==> ProcInv(s, p)
  }

  // ------------------------------------------------------------------ preservation

  predicate Others(s: State, p: Pid, q: Pid) {
    q != p && Live(s, q)
  }

  ghost predicate AppendsCommitOf(s: State, s': State, p: Pid) {
    exists c: Commit :: c.pid == p && s'.commits == s.commits + [c]
  }

  /** What a live process q sees of another process's step. */
  ghost predicate Undisturbed(s: State, s': State, q: Pid)
    requires q in s.procs
  {
    var pc := s.procs[q].pc;
    && (Holding(pc) ==>
          s'.lock == s.lock && s'.acquisitions == s.acquisitions && s'.report == s.report && s'.commits == s.commits)
    && (forall t: Token :: t.pid == q && t in s.temps ==> t in s'.temps && s'.temps[t] == s.temps[t])
    && (forall t: Token :: t.pid == q && t in s.staging ==> t in s'.staging && s'.staging[t] == s.staging[t])
    && (Guarding(pc) ==>
          s'.guard == s.guard
          && forall d, t :: !Live(s, d) && LockNames(s, d, t) ==> LockNames(s', d, t))
  }

  /** What the other processes may rely on while p takes a step. */
  ghost predicate Rely(s: State, s': State, p: Pid) {
    && s'.procs.Keys == s.procs.Keys
    && (forall r :: r in s.procs && r != p ==> s'.procs[r] == s.procs[r])
    && (p in s.procs ==> s'.procs[p].serial >= s.procs[p].serial && (s'.procs[p].alive ==> s.procs[p].alive))
    && (forall q :: Others(s, p, q) ==> Undisturbed(s, s', q))
    && (s'.commits == s.commits || AppendsCommitOf(s, s', p))
  }

  ghost predicate Kept(s: State, s': State, p: Pid) {
    && FilesInv(s') && HistoryInv(s') && Rely(s, s', p)
    && p in s'.procs && (s'.procs[p].alive ==> ProcInv(s', p))
  }

  /** The shared part of a step: files and history change, no process moves. */
  ghost predicate Shared(s: State, s1: State, p: Pid) {
    FilesInv(s1) && HistoryInv(s1) && Rely(s, s1, p) && s1.procs == s.procs
  }

  lemma NothingShared(s: State, p: Pid)
    requires Inv(s) && Live(s, p)
    ensures Shared(s, s, p)
  {
  }

  predicate Continues(a: Proc, b: Proc) {
    a.alive && b.alive && b.serial >= a.serial && b.call >= a.call
  }

  lemma MoveFiles(s1: State, p: Pid, proc: Proc)
    requires p in s1.procs && FilesInv(s1) && Continues(s1.procs[p], proc)
    ensures FilesInv(Put(s1, p, proc))
  {
    assert forall t :: Issued(s1, t) ==> Issued(Put(s1, p, proc), t);
  }

  lemma MoveHistory(s1: State, p: Pid, proc: Proc)
    requires p in s1.procs && HistoryInv(s1) && Continues(s1.procs[p], proc)
    ensures HistoryInv(Put(s1, p, proc))
  {
    assert forall q, call :: Committed(Put(s1, p, proc), q, call) == Committed(s1, q, call);
  }

  lemma MoveUndisturbed(s: State, s1: State, p: Pid, proc: Proc, q: Pid)
    requires p in s1.procs && s1.procs == s.procs && Others(s, p, q) && Undisturbed(s, s1, q)
    ensures Undisturbed(s, Put(s1, p, proc), q)
  {
  }

  lemma MoveRely(s: State, s1: State, p: Pid, proc: Proc)
    requires p in s.procs && Rely(s, s1, p) && s1.procs == s.procs && Continues(s.procs[p], proc)
    ensures Rely(s, Put(s1, p, proc), p)
  {
    var s2 := Put(s1, p, proc);
    forall q | Others(s, p, q) ensures Undisturbed(s, s2, q) {
      MoveUndisturbed(s, s1, p, proc, q);
    }
    if s1.commits != s.commits {
      var c: Commit :| c.pid == p && s1.commits == s.commits + [c];
      assert s2.commits == s.commits + [c];
    }
  }

  lemma MoveKeeps(s: State, s1: State, p: Pid, proc: Proc)
    requires p in s.procs && Shared(s, s1, p) && Continues(s.procs[p], proc)
    requires ProcInv(Put(s1, p, proc), p)
    ensures Kept(s, Put(s1, p, proc), p)
  {
    MoveFiles(s1, p, proc);
    MoveHistory(s1, p, proc);
    MoveRely(s, s1, p, proc);
  }

  lemma IdleInv(s: State, p: Pid)
    requires p in s.procs && (s.procs[p].pc.Idle? || s.procs[p].pc.Waiting?)
    requires forall t :: t in s.procs[p].abandoned ==> t.pid == p && t.serial < s.procs[p].serial
    requires s.procs[p].pc.Waiting? ==> !Committed(s, p, s.procs[p].call) && s.procs[p].status != Succeeded
    ensures ProcInv(s, p)
  {
  }

  lemma SuccessHistory(s: State, p: Pid, call: nat)
    requires HistoryInv(s) && Committed(s, p, call)
    ensures HistoryInv(s.(successes := s.successes + {(p, call)}))
  {
    var s' := s.(successes := s.successes + {(p, call)});
    assert forall q, n :: Committed(s', q, n) == Committed(s, q, n);
  }

  lemma SuccessRely(s: State, s1: State, p: Pid, more: set<(Pid, nat)>)
    requires Rely(s, s1, p)
    ensures Rely(s, s1.(successes := more), p)
  {
    var s2 := s1.(successes := more);
    forall q | Others(s, p, q) ensures Undisturbed(s, s2, q) {
      assert Undisturbed(s, s1, q);
    }
    if s1.commits != s.commits {
      var c: Commit :| c.pid == p && s1.commits == s.commits + [c];
      assert s2.commits == s.commits + [c];
    }
  }

  lemma SuccessKeeps(s: State, s1: State, p: Pid)
    requires Kept(s, s1, p) && s1.procs[p].pc.Idle? && Committed(s1, p, s1.procs[p].call)
    requires forall t :: t in s1.procs[p].abandoned ==> t.pid == p && t.serial < s1.procs[p].serial
    ensures Kept(s, s1.(successes := s1.successes + {(p, s1.procs[p].call)}), p)
  {
    var more := s1.successes + {(p, s1.procs[p].call)};
    SuccessHistory(s1, p, s1.procs[p].call);
    SuccessRely(s, s1, p, more);
    IdleInv(s1.(successes := more), p);
    assert FilesInv(s1.(successes := more)) by {
      assert forall t :: Issued(s1, t) ==> Issued(s1.(successes := more), t);
    }
  }

  /** Ending an attempt keeps the invariant when its status tells the truth about the commit. */
  lemma FinishKeeps(s: State, s1: State, p: Pid, proc: Proc)
    requires p in s.procs && Shared(s, s1, p) && Continues(s.procs[p], proc)
    requires proc.status == Busy ==> !Committed(s1, p, proc.call)
    requires proc.status == Succeeded ==> Committed(s1, p, proc.call)
    requires forall t :: t in proc.abandoned ==> t.pid == p && t.serial < proc.serial
    ensures Kept(s, Finish(s1, p, proc), p)
  {
    var ended := proc.(pc := if proc.status == Busy then Waiting else Idle);
    var s2 := Put(s1, p, ended);
    assert Committed(s2, p, proc.call) == Committed(s1, p, proc.call);
    IdleInv(s2, p);
    MoveKeeps(s, s1, p, ended);
    if proc.status == Succeeded {
      SuccessKeeps(s, s2, p);
    }
  }

  lemma EndKeeps(s: State, s1: State, p: Pid, proc: Proc, status: Status)
    requires p in s.procs && Shared(s, s1, p) && Continues(s.procs[p], proc)
    requires status == Failed || (status == Busy && !Committed(s1, p, proc.call))
    requires forall t :: t in proc.abandoned ==> t.pid == p && t.serial < proc.serial
    ensures Kept(s, End(s1, p, proc, status), p)
  {
    FinishKeeps(s, s1, p, proc.(status := status));
  }

  // ------------------------------------------------------------------ steps that touch no shared file

  /** A call in progress before its commit point. */
  predicate InCall(s: State, p: Pid, proc: Proc) {
    && p in s.procs && Continues(s.procs[p], proc)
    && (forall t :: t in proc.abandoned ==> t.pid == p && t.serial < proc.serial)
    && !Committed(s, p, proc.call) && proc.status != Succeeded
  }

  predicate InObservation(s: State, p: Pid, proc: Proc) {
    && InCall(s, p, proc)
    && (proc.purpose == BeforePublish ==> !Live(s, proc.observed.pid))
    && (proc.first.Some? ==>
          proc.first.value.EmptyDir? || (proc.first.value.DeadOwner? && !Live(s, proc.first.value.token.pid)))
  }

  lemma ObservingInv(s: State, p: Pid)
    requires p in s.procs && InObservation(s, p, s.procs[p])
    requires var pc := s.procs[p].pc; Observing(pc) || pc.OpenLock? || pc.MakeStaging?
    requires s.procs[p].pc.ReapMarker? ==> !Live(s, s.procs[p].seenMarker.pid)
    requires s.procs[p].pc.MakeStaging? ==> s.procs[p].purpose == BeforePublish
    ensures ProcInv(s, p)
  {
  }

  lemma MoveObserving(s: State, s1: State, p: Pid, proc: Proc)
    requires Shared(s, s1, p) && InObservation(s1, p, proc)
    requires Observing(proc.pc) || proc.pc.OpenLock? || proc.pc.MakeStaging?
    requires proc.pc.ReapMarker? ==> !Live(s1, proc.seenMarker.pid)
    requires proc.pc.MakeStaging? ==> proc.purpose == BeforePublish
    ensures Kept(s, Put(s1, p, proc), p)
  {
    var s2 := Put(s1, p, proc);
    assert Committed(s2, p, proc.call) == Committed(s1, p, proc.call);
    assert forall q :: Live(s2, q) ==> Live(s1, q);
    ObservingInv(s2, p);
    MoveKeeps(s, s1, p, proc);
  }

  lemma ProceedKeeps(s: State, s1: State, p: Pid, proc: Proc)
    requires Shared(s, s1, p) && InObservation(s1, p, proc)
    ensures Kept(s, Proceed(s1, p, proc), p)
  {
    MoveObserving(s, s1, p, proc.(pc := if proc.purpose == BeforeOpen then OpenLock else MakeStaging));
  }

  lemma DecideKeeps(s: State, p: Pid, proc: Proc, sight: Sight)
    requires Inv(s) && Live(s, p) && InObservation(s, p, proc)
    requires sight.DeadOwner? ==> sight.token == proc.seenMarker && !Live(s, proc.seenMarker.pid)
    ensures Kept(s, Decide(s, p, proc, sight), p)
  {
    NothingShared(s, p);
    match proc.first
    case None =>
      if sight == Missing { ProceedKeeps(s, s, p, proc); }
      else if sight == LiveOwner { EndKeeps(s, s, p, proc, Busy); }
      else { MoveObserving(s, s, p, proc.(first := Some(sight), pc := GuardStat)); }
    case Some(first) =>
      if sight == first {
        MoveObserving(s, s, p, proc.(pc := if sight.DeadOwner? then ReapMarker else ReapDir));
      } else if sight == Missing { ProceedKeeps(s, s, p, proc); }
      else { EndKeeps(s, s, p, proc, Busy); }
  }

  lemma ObservationOf(s: State, p: Pid)
    requires Inv(s) && Live(s, p) && Observing(s.procs[p].pc)
    ensures InObservation(s, p, s.procs[p])
  {
    assert ProcInv(s, p);
  }

  lemma GuardStatKeeps(s: State, p: Pid, c: Choice)
    requires Inv(s) && Live(s, p) && s.procs[p].pc.GuardStat?
    ensures Kept(s, StepGuardStat(s, p, s.procs[p], c), p)
  {
    var proc := s.procs[p];
    ObservationOf(s, p);
    NothingShared(s, p);
    if c == Fault { EndKeeps(s, s, p, proc, Failed); }
    else if s.guard == None { DecideKeeps(s, p, proc, Missing); }
    else { MoveObserving(s, s, p, proc.(seenIno := s.guard.value.ino, pc := GuardList)); }
  }

  lemma GuardListKeeps(s: State, p: Pid, c: Choice)
    requires Inv(s) && Live(s, p) && s.procs[p].pc.GuardList?
    ensures Kept(s, StepGuardList(s, p, s.procs[p], c), p)
  {
    var proc := s.procs[p];
    ObservationOf(s, p);
    NothingShared(s, p);
    if c == Fault { EndKeeps(s, s, p, proc, Failed); }
    else if s.guard == None { DecideKeeps(s, p, proc, Missing); }
    else if s.guard.value.marker == None { DecideKeeps(s, p, proc, EmptyDir(proc.seenIno)); }
    else { MoveObserving(s, s, p, proc.(seenMarker := s.guard.value.marker.value, pc := GuardMark)); }
  }

  lemma GuardMarkKeeps(s: State, p: Pid, c: Choice)
    requires Inv(s) && Live(s, p) && s.procs[p].pc.GuardMark?
    ensures Kept(s, StepGuardMark(s, p, s.procs[p], c), p)
  {
    var proc := s.procs[p];
    ObservationOf(s, p);
    NothingShared(s, p);
    if c == Fault { EndKeeps(s, s, p, proc, Failed); }
    else if GuardHas(s, proc.seenMarker) { MoveObserving(s, s, p, proc.(pc := GuardLive)); }
    else { DecideKeeps(s, p, proc, Missing); }
  }

  lemma GuardLiveKeeps(s: State, p: Pid)
    requires Inv(s) && Live(s, p) && s.procs[p].pc.GuardLive?
    ensures Kept(s, StepGuardLive(s, p, s.procs[p]), p)
  {
    var proc := s.procs[p];
    ObservationOf(s, p);
    DecideKeeps(s, p, proc, if Live(s, proc.seenMarker.pid) then LiveOwner else DeadOwner(proc.seenIno, proc.seenMarker));
  }

  predicate Plain(pc: Pc) {
    pc.Prune? || pc.LockStat? || pc.LockRead? || pc.LockLive? || pc.Reopen?
  }

  lemma PlainInv(s: State, p: Pid)
    requires p in s.procs && InCall(s, p, s.procs[p]) && Plain(s.procs[p].pc)
    ensures ProcInv(s, p)
  {
  }

  lemma MovePlain(s: State, s1: State, p: Pid, proc: Proc)
    requires Shared(s, s1, p) && InCall(s1, p, proc) && Plain(proc.pc)
    ensures Kept(s, Put(s1, p, proc), p)
  {
    assert Committed(Put(s1, p, proc), p, proc.call) == Committed(s1, p, proc.call);
    PlainInv(Put(s1, p, proc), p);
    MoveKeeps(s, s1, p, proc);
  }

  lemma FreshCall(s: State, p: Pid, call: nat)
    requires HistoryInv(s) && p in s.procs && call > s.procs[p].call
    ensures !Committed(s, p, call)
  {
  }

  function Begun(proc: Proc, update: D.Update): Proc {
    proc.(call := proc.call + 1, update := update, status := Undecided, reclaimed := false, pc := Prune)
  }

  lemma BegunInCall(s: State, p: Pid, update: D.Update)
    requires Inv(s) && Live(s, p) && s.procs[p].pc.Idle?
    ensures InCall(s, p, Begun(s.procs[p], update))
  {
    assert ProcInv(s, p);
    FreshCall(s, p, s.procs[p].call + 1);
  }

  lemma IdleKeeps(s: State, p: Pid, c: Choice)
    requires Inv(s) && Live(s, p) && s.procs[p].pc.Idle?
    ensures Kept(s, StepIdle(s, p, s.procs[p], c), p)
  {
    NothingShared(s, p);
    if c.Begin? {
      BegunInCall(s, p, c.update);
      MovePlain(s, s, p, Begun(s.procs[p], c.update));
    } else {
      assert ProcInv(s, p);
    }
  }

  lemma WaitingKeeps(s: State, p: Pid, c: Choice)
    requires Inv(s) && Live(s, p) && s.procs[p].pc.Waiting?
    ensures Kept(s, StepWaiting(s, p, s.procs[p], c), p)
  {
    var proc := s.procs[p];
    assert ProcInv(s, p);
    NothingShared(s, p);
    if c.Retry? {
      MovePlain(s, s, p, proc.(status := Undecided, reclaimed := false, pc := Prune));
    } else if c.Go? {
      EndKeeps(s, s, p, proc, Failed);
    }
  }

  lemma LockLiveKeeps(s: State, p: Pid, c: Choice)
    requires Inv(s) && Live(s, p) && s.procs[p].pc.LockLive?
    ensures Kept(s, StepLockLive(s, p, s.procs[p]), p)
  {
    var proc := s.procs[p];
    assert ProcInv(s, p);
    NothingShared(s, p);
    if Live(s, proc.current.pid) { EndKeeps(s, s, p, proc, Busy); }
    else { MoveObserving(s, s, p, proc.(observed := proc.current, purpose := BeforePublish, first := None, pc := GuardStat)); }
  }

  lemma LockStatKeeps(s: State, p: Pid, c: Choice)
    requires Inv(s) && Live(s, p) && s.procs[p].pc.LockStat?
    ensures Kept(s, StepLockStat(s, p, s.procs[p], c), p)
  {
    var proc := s.procs[p];
    assert ProcInv(s, p);
    NothingShared(s, p);
    if c == Fault || s.lock == None { EndKeeps(s, s, p, proc, Busy); }
    else { MovePlain(s, s, p, proc.(current := proc.current.(ino := s.lock.value.ino), pc := LockRead)); }
  }

  lemma LockReadKeeps(s: State, p: Pid, c: Choice)
    requires Inv(s) && Live(s, p) && s.procs[p].pc.LockRead?
    ensures Kept(s, StepLockRead(s, p, s.procs[p], c), p)
  {
    var proc := s.procs[p];
    assert ProcInv(s, p);
    NothingShared(s, p);
    if c != Fault && s.lock.Some? && s.lock.value.content.Owner? {
      var o := s.lock.value.content;
      MovePlain(s, s, p, proc.(current := proc.current.(pid := o.pid, token := o.token), pc := LockLive));
    } else { EndKeeps(s, s, p, proc, Busy); }
  }

  // ------------------------------------------------------------------ effects on the guard directory

  /** A reaper acting on a dead owner's marker, however stale, cannot touch a live owner's guard. */
  lemma ReapMarkerShared(s: State, p: Pid, t: Token)
    requires Inv(s) && Live(s, p) && !Live(s, t.pid)
    ensures Shared(s, RemoveGuardMarker(s, t), p)
  {
    var s1 := RemoveGuardMarker(s, t);
    forall q | Others(s, p, q) ensures Undisturbed(s, s1, q) {
      assert ProcInv(s, q);
    }
    assert forall u :: Issued(s, u) ==> Issued(s1, u);
    SameHistory(s, s1);
  }

  lemma SameHistory(s: State, s1: State)
    requires HistoryInv(s) && s1.procs == s.procs && s1.report == s.report
    requires s1.commits == s.commits && s1.successes == s.successes && s1.acquisitions >= s.acquisitions
    ensures HistoryInv(s1)
  {
    assert forall q, call :: Committed(s1, q, call) == Committed(s, q, call);
  }

  lemma ReleaseMarkerShared(s: State, p: Pid)
    requires Inv(s) && Live(s, p) && Guarding(s.procs[p].pc)
    ensures Shared(s, RemoveGuardMarker(s, s.procs[p].marker), p)
  {
    var s1 := RemoveGuardMarker(s, s.procs[p].marker);
    assert ProcInv(s, p);
    forall q | Others(s, p, q) ensures Undisturbed(s, s1, q) {
      assert ProcInv(s, q);
    }
    assert forall u :: Issued(s, u) ==> Issued(s1, u);
    SameHistory(s, s1);
  }

  lemma RemoveEmptyGuardShared(s: State, p: Pid)
    requires Inv(s) && Live(s, p)
    ensures Shared(s, RemoveEmptyGuard(s), p)
  {
    var s1 := RemoveEmptyGuard(s);
    forall q | Others(s, p, q) ensures Undisturbed(s, s1, q) {
      assert ProcInv(s, q);
    }
    assert forall u :: Issued(s, u) ==> Issued(s1, u);
    SameHistory(s, s1);
  }

  lemma ReapMarkerKeeps(s: State, p: Pid, c: Choice)
    requires Inv(s) && Live(s, p) && s.procs[p].pc.ReapMarker?
    ensures Kept(s, StepReapMarker(s, p, s.procs[p], c), p)
  {
    var proc := s.procs[p];
    ObservationOf(s, p);
    assert ProcInv(s, p);
    if c == Fault {
      NothingShared(s, p);
      EndKeeps(s, s, p, proc, Failed);
    } else {
      var s1 := RemoveGuardMarker(s, proc.seenMarker);
      ReapMarkerShared(s, p, proc.seenMarker);
      assert Committed(s1, p, proc.call) == Committed(s, p, proc.call);
      MoveObserving(s, s1, p, proc.(pc := ReapDir));
    }
  }

  lemma ReapDirKeeps(s: State, p: Pid, c: Choice)
    requires Inv(s) && Live(s, p) && s.procs[p].pc.ReapDir?
    ensures Kept(s, StepReapDir(s, p, s.procs[p], c), p)
  {
    var proc := s.procs[p];
    ObservationOf(s, p);
    if c == Fault {
      NothingShared(s, p);
      EndKeeps(s, s, p, proc, Failed);
    } else {
      var s1 := RemoveEmptyGuard(s);
      RemoveEmptyGuardShared(s, p);
      assert Committed(s1, p, proc.call) == Committed(s, p, proc.call);
      if s1.guard == None { ProceedKeeps(s, s1, p, proc); } else { EndKeeps(s, s1, p, proc, Busy); }
    }
  }

  // ------------------------------------------------------------------ staging directories

  /** Files that change only under tokens of p or of dead processes disturb nobody. */
  lemma StagingShared(s: State, p: Pid, t: Token, staging: map<Token, Dir>)
    requires Inv(s) && Live(s, p) && (t.pid == p || !Live(s, t.pid))
    requires staging.Keys <= s.staging.Keys && forall u :: u in s.staging && u != t ==> u in staging && staging[u] == s.staging[u]
    requires t in staging ==> staging[t].marker == None || staging[t].marker == Some(t)
    ensures Shared(s, s.(staging := staging), p)
  {
    var s1 := s.(staging := staging);
    forall q | Others(s, p, q) ensures Undisturbed(s, s1, q) {
    }
    assert forall u :: Issued(s, u) ==> Issued(s1, u);
    SameHistory(s, s1);
  }

  lemma PruneKeeps(s: State, p: Pid, c: Choice)
    requires Inv(s) && Live(s, p) && s.procs[p].pc.Prune?
    ensures Kept(s, StepPrune(s, p, s.procs[p], c), p)
  {
    var proc := s.procs[p];
    assert ProcInv(s, p);
    NothingShared(s, p);
    match c
    case Pick(t) =>
      if t in s.staging && (t in proc.abandoned || !Live(s, t.pid)) {
        PruneTargetInv(s, p, proc.(pc := PruneMarker(t)));
        MoveKeeps(s, s, p, proc.(pc := PruneMarker(t)));
      }
    case Fault => EndKeeps(s, s, p, proc, Failed);
    case _ => MoveObserving(s, s, p, proc.(purpose := BeforeOpen, first := None, pc := GuardStat));
  }

  lemma PruneTargetInv(s: State, p: Pid, proc: Proc)
    requires InCall(s, p, proc) && (proc.pc.PruneMarker? || proc.pc.PruneDir?)
    requires proc.pc.target in proc.abandoned || !Live(s, proc.pc.target.pid)
    ensures ProcInv(Put(s, p, proc), p)
  {
    assert Committed(Put(s, p, proc), p, proc.call) == Committed(s, p, proc.call);
  }

  lemma PruneTarget(s: State, p: Pid)
    requires Inv(s) && Live(s, p) && (s.procs[p].pc.PruneMarker? || s.procs[p].pc.PruneDir?)
    ensures var t := s.procs[p].pc.target;
            InCall(s, p, s.procs[p]) && (t in s.procs[p].abandoned || !Live(s, t.pid)) && (t.pid == p || !Live(s, t.pid))
  {
    assert ProcInv(s, p);
  }

  lemma PruneMarkerKeeps(s: State, p: Pid, c: Choice)
    requires Inv(s) && Live(s, p) && s.procs[p].pc.PruneMarker?
    ensures Kept(s, StepPruneMarker(s, p, s.procs[p], s.procs[p].pc.target, c), p)
  {
    var proc := s.procs[p];
    PruneTarget(s, p);
    if c == Fault {
      NothingShared(s, p);
      EndKeeps(s, s, p, proc, Failed);
    } else {
      var t := proc.pc.target;
      RemoveMarkerShared(s, p, t);
      PruneTargetInv(RemoveMarkerAt(s, t), p, proc.(pc := PruneDir(t)));
      MoveKeeps(s, RemoveMarkerAt(s, t), p, proc.(pc := PruneDir(t)));
    }
  }

  lemma PruneDirKeeps(s: State, p: Pid, c: Choice)
    requires Inv(s) && Live(s, p) && s.procs[p].pc.PruneDir?
    ensures Kept(s, StepPruneDir(s, p, s.procs[p], s.procs[p].pc.target, c), p)
  {
    var proc := s.procs[p];
    PruneTarget(s, p);
    if c == Fault {
      NothingShared(s, p);
      EndKeeps(s, s, p, proc, Failed);
    } else {
      var t := proc.pc.target;
      var s1 := RemoveStagingAt(s, t);
      RemoveStagingShared(s, p, t);
      var left := if t in s1.staging then proc.abandoned else proc.abandoned - {t};
      FewerAbandoned(s, s1, p, left);
      MovePlain(s, s1, p, proc.(abandoned := left, pc := Prune));
    }
  }

  lemma FewerAbandoned(s: State, s1: State, p: Pid, left: set<Token>)
    requires p in s.procs && InCall(s, p, s.procs[p]) && s1.procs == s.procs && left <= s.procs[p].abandoned
    requires forall call :: Committed(s1, p, call) == Committed(s, p, call)
    ensures InCall(s1, p, s.procs[p].(abandoned := left, pc := Prune))
  {
  }

  lemma RemoveMarkerShared(s: State, p: Pid, t: Token)
    requires Inv(s) && Live(s, p) && (t.pid == p || !Live(s, t.pid))
    ensures Shared(s, RemoveMarkerAt(s, t), p)
    ensures forall call :: Committed(RemoveMarkerAt(s, t), p, call) == Committed(s, p, call)
  {
    var s1 := RemoveMarkerAt(s, t);
    StagingShared(s, p, t, s1.staging);
    assert s1 == s.(staging := s1.staging);
  }

  lemma RemoveStagingShared(s: State, p: Pid, t: Token)
    requires Inv(s) && Live(s, p) && (t.pid == p || !Live(s, t.pid))
    ensures Shared(s, RemoveStagingAt(s, t), p)
    ensures forall call :: Committed(RemoveStagingAt(s, t), p, call) == Committed(s, p, call)
  {
    var s1 := RemoveStagingAt(s, t);
    StagingShared(s, p, t, s1.staging);
    assert s1 == s.(staging := s1.staging);
  }

  predicate Ending(pc: Pc) {
    pc.UnstageMarker? || pc.UnstageDir? || pc.ReleaseDir?
  }

  lemma MoveEnding(s: State, s1: State, p: Pid, proc: Proc)
    requires Shared(s, s1, p) && InCall(s1, p, proc) && Ending(proc.pc)
    requires proc.marker.pid == p && proc.marker.serial < proc.serial
    ensures Kept(s, Put(s1, p, proc), p)
  {
    var s2 := Put(s1, p, proc);
    assert Committed(s2, p, proc.call) == Committed(s1, p, proc.call);
    EndingInv(s2, p);
    MoveKeeps(s, s1, p, proc);
  }

  lemma EndingInv(s: State, p: Pid)
    requires p in s.procs && InCall(s, p, s.procs[p]) && Ending(s.procs[p].pc)
    requires s.procs[p].marker.pid == p && s.procs[p].marker.serial < s.procs[p].serial
    ensures ProcInv(s, p)
  {
  }

  lemma UnstageMarkerKeeps(s: State, p: Pid, c: Choice)
    requires Inv(s) && Live(s, p) && s.procs[p].pc.UnstageMarker?
    ensures Kept(s, StepUnstageMarker(s, p, s.procs[p], c), p)
  {
    var proc := s.procs[p];
    assert ProcInv(s, p);
    if c == Fault {
      NothingShared(s, p);
      EndKeeps(s, s, p, proc.(abandoned := proc.abandoned + {proc.marker}), Failed);
    } else {
      RemoveMarkerShared(s, p, proc.marker);
      MoveEnding(s, RemoveMarkerAt(s, proc.marker), p, proc.(pc := UnstageDir));
    }
  }

  lemma UnstageDirKeeps(s: State, p: Pid, c: Choice)
    requires Inv(s) && Live(s, p) && s.procs[p].pc.UnstageDir?
    ensures Kept(s, StepUnstageDir(s, p, s.procs[p], c), p)
  {
    var proc := s.procs[p];
    assert ProcInv(s, p);
    if c == Fault {
      NothingShared(s, p);
      EndKeeps(s, s, p, proc.(abandoned := proc.abandoned + {proc.marker}), Failed);
    } else {
      RemoveStagingShared(s, p, proc.marker);
      FinishKeeps(s, RemoveStagingAt(s, proc.marker), p, proc);
    }
  }

  function Staged(s: State, p: Pid, proc: Proc): State {
    Put(s, p, proc).(staging := s.staging[proc.marker := Dir(s.nextIno, None)], nextIno := s.nextIno + 1)
  }

  predicate Stages(s: State, p: Pid, proc: Proc) {
    && p in s.procs && Continues(s.procs[p], proc)
    && proc.marker == Token(p, s.procs[p].serial) && proc.serial == s.procs[p].serial + 1
  }

  lemma NewStagingFiles(s: State, p: Pid, proc: Proc)
    requires Inv(s) && Live(s, p) && Stages(s, p, proc)
    ensures FilesInv(Staged(s, p, proc))
  {
    var s2 := Staged(s, p, proc);
    assert forall u :: Issued(s, u) ==> Issued(s2, u);
    assert Issued(s2, proc.marker);
  }

  lemma NewStagingRely(s: State, p: Pid, proc: Proc)
    requires Inv(s) && Live(s, p) && Stages(s, p, proc)
    ensures Rely(s, Staged(s, p, proc), p)
  {
    forall q | Others(s, p, q) ensures Undisturbed(s, Staged(s, p, proc), q) {
    }
  }

  lemma StagingInv(s: State, p: Pid)
    requires p in s.procs && InCall(s, p, s.procs[p]) && Staging(s.procs[p].pc)
    requires var proc := s.procs[p];
             && proc.marker.pid == p && proc.marker.serial < proc.serial
             && proc.marker in s.staging && proc.marker !in proc.abandoned
             && s.staging[proc.marker].marker == (if proc.pc.Publish? then Some(proc.marker) else None)
             && !Live(s, proc.observed.pid)
    ensures ProcInv(s, p)
  {
  }

  /** The new token is fresh, so the new directory belongs to p alone. */
  lemma NewStagingKeeps(s: State, p: Pid, proc: Proc)
    requires Inv(s) && Live(s, p) && Stages(s, p, proc) && InCall(s, p, proc) && proc.pc.MakeMarker?
    requires !Live(s, proc.observed.pid) && proc.abandoned == s.procs[p].abandoned
    ensures Kept(s, Staged(s, p, proc), p)
  {
    var s2 := Staged(s, p, proc);
    assert ProcInv(s, p);
    NewStagingFiles(s, p, proc);
    NewStagingRely(s, p, proc);
    MoveHistory(s, p, proc);
    SameHistory(Put(s, p, proc), s2);
    assert Committed(s2, p, proc.call) == Committed(s, p, proc.call);
    StagingInv(s2, p);
  }

  lemma MakeStagingKeeps(s: State, p: Pid, c: Choice)
    requires Inv(s) && Live(s, p) && s.procs[p].pc.MakeStaging?
    ensures Kept(s, StepMakeStaging(s, p, s.procs[p], c), p)
  {
    var proc := s.procs[p];
    assert ProcInv(s, p);
    if c == Fault {
      NothingShared(s, p);
      EndKeeps(s, s, p, proc, Failed);
    } else {
      NewStagingKeeps(s, p, proc.(marker := Token(p, proc.serial), serial := proc.serial + 1, pc := MakeMarker));
    }
  }

  lemma MakeMarkerKeeps(s: State, p: Pid, c: Choice)
    requires Inv(s) && Live(s, p) && s.procs[p].pc.MakeMarker?
    ensures Kept(s, StepMakeMarker(s, p, s.procs[p], c), p)
  {
    var proc := s.procs[p];
    assert ProcInv(s, p);
    if c == Fault {
      NothingShared(s, p);
      MoveEnding(s, s, p, proc.(status := Failed, pc := UnstageMarker));
    } else {
      var s1 := s.(staging := s.staging[proc.marker := s.staging[proc.marker].(marker := Some(proc.marker))]);
      StagingShared(s, p, proc.marker, s1.staging);
      var proc' := proc.(pc := Publish);
      assert Committed(Put(s1, p, proc'), p, proc.call) == Committed(s, p, proc.call);
      StagingInv(Put(s1, p, proc'), p);
      MoveKeeps(s, s1, p, proc');
    }
  }

  /** Publication replaces a missing or empty directory, so nobody live was holding the guard. */
  lemma PublishShared(s: State, p: Pid)
    requires Inv(s) && Live(s, p) && s.procs[p].pc.Publish?
    requires s.guard == None || s.guard.value.marker == None
    requires s.procs[p].marker in s.staging
    ensures Shared(s, s.(guard := Some(s.staging[s.procs[p].marker]), staging := s.staging - {s.procs[p].marker}), p)
  {
    var s1 := s.(guard := Some(s.staging[s.procs[p].marker]), staging := s.staging - {s.procs[p].marker});
    assert ProcInv(s, p);
    forall q | Others(s, p, q) ensures Undisturbed(s, s1, q) {
      assert ProcInv(s, q);
    }
    assert forall u :: Issued(s, u) ==> Issued(s1, u);
    SameHistory(s, s1);
  }

  lemma GuardingInv(s: State, p: Pid)
    requires p in s.procs && InCall(s, p, s.procs[p]) && Guarding(s.procs[p].pc)
    requires var proc := s.procs[p];
             && proc.marker.pid == p && proc.marker.serial < proc.serial
             && GuardHas(s, proc.marker) && !Live(s, proc.observed.pid)
             && (proc.pc.ReclaimLive? && proc.current == proc.observed ==>
                   LockNames(s, proc.observed.pid, proc.observed.token))
             && (Reclaiming(proc.pc) ==> LockNames(s, proc.observed.pid, proc.observed.token))
    ensures ProcInv(s, p)
  {
  }

  lemma PublishKeeps(s: State, p: Pid, c: Choice)
    requires Inv(s) && Live(s, p) && s.procs[p].pc.Publish?
    ensures Kept(s, StepPublish(s, p, s.procs[p], c), p)
  {
    var proc := s.procs[p];
    assert ProcInv(s, p);
    NothingShared(s, p);
    if c == Retry {
    } else if c == Fault {
      MoveEnding(s, s, p, proc.(status := Failed, pc := UnstageMarker));
    } else if s.guard.Some? && s.guard.value.marker.Some? {
      MoveEnding(s, s, p, proc.(status := Busy, pc := UnstageMarker));
    } else {
      var s1 := s.(guard := Some(s.staging[proc.marker]), staging := s.staging - {proc.marker});
      PublishShared(s, p);
      var proc' := proc.(pc := ReclaimStat);
      assert Committed(Put(s1, p, proc'), p, proc.call) == Committed(s, p, proc.call);
      GuardingInv(Put(s1, p, proc'), p);
      MoveKeeps(s, s1, p, proc');
    }
  }

  // ------------------------------------------------------------------ under the guard

  lemma MoveGuarding(s: State, p: Pid, proc: Proc)
    requires Inv(s) && Live(s, p) && InCall(s, p, proc) && Guarding(proc.pc)
    requires Guarding(s.procs[p].pc) && proc.marker == s.procs[p].marker && proc.observed == s.procs[p].observed
    requires (proc.pc.ReclaimLive? && proc.current == proc.observed) || Reclaiming(proc.pc) ==>
               LockNames(s, proc.observed.pid, proc.observed.token)
    ensures Kept(s, Put(s, p, proc), p)
  {
    assert ProcInv(s, p);
    NothingShared(s, p);
    assert Committed(Put(s, p, proc), p, proc.call) == Committed(s, p, proc.call);
    GuardingInv(Put(s, p, proc), p);
    MoveKeeps(s, s, p, proc);
  }

  lemma ReclaimStatKeeps(s: State, p: Pid, c: Choice)
    requires Inv(s) && Live(s, p) && s.procs[p].pc.ReclaimStat?
    ensures Kept(s, StepReclaimStat(s, p, s.procs[p], c), p)
  {
    var proc := s.procs[p];
    assert ProcInv(s, p);
    NothingShared(s, p);
    if c == Fault || s.lock == None { MoveGuarding(s, p, proc.(status := Busy, reclaimed := false, pc := ReleaseMarker)); }
    else { MoveGuarding(s, p, proc.(current := proc.current.(ino := s.lock.value.ino), pc := ReclaimRead)); }
  }

  lemma ReclaimReadKeeps(s: State, p: Pid, c: Choice)
    requires Inv(s) && Live(s, p) && s.procs[p].pc.ReclaimRead?
    ensures Kept(s, StepReclaimRead(s, p, s.procs[p], c), p)
  {
    var proc := s.procs[p];
    assert ProcInv(s, p);
    NothingShared(s, p);
    if c != Fault && s.lock.Some? && s.lock.value.content.Owner? {
      var o := s.lock.value.content;
      MoveGuarding(s, p, proc.(current := proc.current.(pid := o.pid, token := o.token), pc := ReclaimLive));
    } else { MoveGuarding(s, p, proc.(status := Busy, reclaimed := false, pc := ReleaseMarker)); }
  }

  lemma ReclaimLiveKeeps(s: State, p: Pid, c: Choice)
    requires Inv(s) && Live(s, p) && s.procs[p].pc.ReclaimLive?
    ensures Kept(s, StepReclaimLive(s, p, s.procs[p]), p)
  {
    var proc := s.procs[p];
    assert ProcInv(s, p);
    if Live(s, proc.current.pid) || proc.current != proc.observed {
      MoveGuarding(s, p, proc.(status := Busy, reclaimed := false, pc := ReleaseMarker));
    } else {
      MoveGuarding(s, p, proc.(pc := ReclaimTemp));
    }
  }

  /** While p holds the guard and the lock names the dead owner p targets, no live process holds the lock. */
  lemma DeadLockHasNoHolder(s: State, p: Pid, q: Pid)
    requires Inv(s) && Live(s, p) && Reclaiming(s.procs[p].pc) && Live(s, q)
    ensures !Holding(s.procs[q].pc)
  {
    assert ProcInv(s, p) && ProcInv(s, q);
  }

  lemma ReclaimTempShared(s: State, p: Pid)
    requires Inv(s) && Live(s, p) && s.procs[p].pc.ReclaimTemp?
    ensures Shared(s, s.(temps := s.temps - {s.procs[p].observed.token}), p)
  {
    var s1 := s.(temps := s.temps - {s.procs[p].observed.token});
    assert ProcInv(s, p);
    forall q | Others(s, p, q) ensures Undisturbed(s, s1, q) {
    }
    assert forall u :: Issued(s, u) ==> Issued(s1, u);
    SameHistory(s, s1);
  }

  lemma ReclaimTempKeeps(s: State, p: Pid, c: Choice)
    requires Inv(s) && Live(s, p) && s.procs[p].pc.ReclaimTemp?
    ensures Kept(s, StepReclaimTemp(s, p, s.procs[p], c), p)
  {
    var proc := s.procs[p];
    assert ProcInv(s, p);
    if c == Fault {
      MoveGuarding(s, p, proc.(status := Failed, reclaimed := false, pc := ReleaseMarker));
    } else {
      var s1 := s.(temps := s.temps - {proc.observed.token});
      ReclaimTempShared(s, p);
      var proc' := proc.(pc := ReclaimUnlink);
      assert Committed(Put(s1, p, proc'), p, proc.call) == Committed(s, p, proc.call);
      GuardingInv(Put(s1, p, proc'), p);
      MoveKeeps(s, s1, p, proc');
    }
  }

  lemma ReclaimUnlinkShared(s: State, p: Pid)
    requires Inv(s) && Live(s, p) && s.procs[p].pc.ReclaimUnlink?
    ensures Shared(s, s.(lock := None), p)
  {
    var s1 := s.(lock := None);
    assert ProcInv(s, p);
    forall q | Others(s, p, q) ensures Undisturbed(s, s1, q) {
      assert ProcInv(s, q);
      DeadLockHasNoHolder(s, p, q);
    }
    assert forall u :: Issued(s, u) ==> Issued(s1, u);
    SameHistory(s, s1);
  }

  lemma ReclaimUnlinkKeeps(s: State, p: Pid, c: Choice)
    requires Inv(s) && Live(s, p) && s.procs[p].pc.ReclaimUnlink?
    ensures Kept(s, StepReclaimUnlink(s, p, s.procs[p], c), p)
  {
    var proc := s.procs[p];
    assert ProcInv(s, p);
    if c == Fault {
      MoveGuarding(s, p, proc.(status := Failed, reclaimed := false, pc := ReleaseMarker));
    } else {
      var s1 := s.(lock := None);
      ReclaimUnlinkShared(s, p);
      var proc' := proc.(status := Undecided, reclaimed := true, pc := ReleaseMarker);
      assert Committed(Put(s1, p, proc'), p, proc.call) == Committed(s, p, proc.call);
      GuardingInv(Put(s1, p, proc'), p);
      MoveKeeps(s, s1, p, proc');
    }
  }

  lemma ReleaseMarkerKeeps(s: State, p: Pid, c: Choice)
    requires Inv(s) && Live(s, p) && s.procs[p].pc.ReleaseMarker?
    ensures Kept(s, StepReleaseMarker(s, p, s.procs[p], c), p)
  {
    var proc := s.procs[p];
    assert ProcInv(s, p);
    if c == Fault {
      NothingShared(s, p);
      EndKeeps(s, s, p, proc, Failed);
    } else {
      var s1 := RemoveGuardMarker(s, proc.marker);
      ReleaseMarkerShared(s, p);
      assert Committed(s1, p, proc.call) == Committed(s, p, proc.call);
      MoveEnding(s, s1, p, proc.(pc := ReleaseDir));
    }
  }

  lemma ReleaseDirKeeps(s: State, p: Pid, c: Choice)
    requires Inv(s) && Live(s, p) && s.procs[p].pc.ReleaseDir?
    ensures Kept(s, StepReleaseDir(s, p, s.procs[p], c), p)
  {
    var proc := s.procs[p];
    assert ProcInv(s, p);
    if c == Fault {
      NothingShared(s, p);
      EndKeeps(s, s, p, proc, Failed);
    } else {
      var s1 := RemoveEmptyGuard(s);
      RemoveEmptyGuardShared(s, p);
      assert Committed(s1, p, proc.call) == Committed(s, p, proc.call);
      if proc.status == Undecided && proc.reclaimed { MovePlain(s, s1, p, proc.(pc := Reopen)); }
      else { FinishKeeps(s, s1, p, proc); }
    }
  }

  // ------------------------------------------------------------------ with the lock held

  lemma HoldingInv(s: State, p: Pid)
    requires p in s.procs && InCall(s, p, s.procs[p]) && Holding(s.procs[p].pc) && !AfterCommit(s.procs[p].pc)
    requires LockPart(s, p) && (s.procs[p].pc.RemoveTemp? ==> s.procs[p].status == Failed)
    ensures ProcInv(s, p)
  {
  }

  /** Moves inside the lock that leave the lock file alone. */
  lemma MoveHolding(s: State, s1: State, p: Pid, proc: Proc)
    requires Shared(s, s1, p) && InCall(s1, p, proc) && Holding(proc.pc) && !AfterCommit(proc.pc)
    requires LockPart(Put(s1, p, proc), p) && (proc.pc.RemoveTemp? ==> proc.status == Failed)
    ensures Kept(s, Put(s1, p, proc), p)
  {
    assert Committed(Put(s1, p, proc), p, proc.call) == Committed(s1, p, proc.call);
    HoldingInv(Put(s1, p, proc), p);
    MoveKeeps(s, s1, p, proc);
  }

  function Created(s: State, p: Pid): State {
    s.(lock := Some(LockFile(s.nextIno, Empty, p)), nextIno := s.nextIno + 1, acquisitions := s.acquisitions + 1)
  }

  /** Exclusive creation succeeds only when there is no lock file, hence no live holder. */
  lemma CreatedShared(s: State, p: Pid)
    requires Inv(s) && Live(s, p) && s.lock == None
    ensures Shared(s, Created(s, p), p)
  {
    var s1 := Created(s, p);
    forall q | Others(s, p, q) ensures Undisturbed(s, s1, q) {
      assert ProcInv(s, q);
    }
    assert forall u :: Issued(s, u) ==> Issued(s1, u);
    SameHistory(s, s1);
  }

  function Creator(s: State, p: Pid): Proc
    requires p in s.procs
  {
    s.procs[p].(fd := s.nextIno, acquisition := s.acquisitions + 1, pc := WriteOwnerBegin)
  }

  lemma CreatedLockPart(s: State, p: Pid)
    requires Inv(s) && Live(s, p) && s.lock == None && InCall(s, p, s.procs[p])
    ensures InCall(Created(s, p), p, Creator(s, p)) && LockPart(Put(Created(s, p), p, Creator(s, p)), p)
  {
    assert forall call :: Committed(Created(s, p), p, call) == Committed(s, p, call);
  }

  lemma CreatedKeeps(s: State, p: Pid)
    requires Inv(s) && Live(s, p) && s.lock == None && InCall(s, p, s.procs[p])
    ensures Kept(s, Open(s, p, s.procs[p], s), p)
  {
    var s1, proc := Created(s, p), Creator(s, p);
    CreatedShared(s, p);
    CreatedLockPart(s, p);
    MoveHolding(s, s1, p, proc);
    assert Open(s, p, s.procs[p], s) == Put(s1, p, proc);
  }

  lemma OpenLockKeeps(s: State, p: Pid, c: Choice)
    requires Inv(s) && Live(s, p) && s.procs[p].pc.OpenLock?
    ensures Kept(s, StepOpenLock(s, p, s.procs[p], c), p)
  {
    var proc := s.procs[p];
    assert ProcInv(s, p);
    NothingShared(s, p);
    if c == Fault { EndKeeps(s, s, p, proc, Failed); }
    else if s.lock == None { CreatedKeeps(s, p); }
    else { MovePlain(s, s, p, proc.(pc := LockStat)); }
  }

  lemma ReopenKeeps(s: State, p: Pid, c: Choice)
    requires Inv(s) && Live(s, p) && s.procs[p].pc.Reopen?
    ensures Kept(s, StepReopen(s, p, s.procs[p], c), p)
  {
    var proc := s.procs[p];
    assert ProcInv(s, p);
    NothingShared(s, p);
    if c == Fault { EndKeeps(s, s, p, proc, Failed); }
    else if s.lock == None { CreatedKeeps(s, p); }
    else { EndKeeps(s, s, p, proc, Busy); }
  }

  lemma OneHolder(s: State, p: Pid, q: Pid)
    requires Inv(s) && Live(s, p) && Live(s, q) && Holding(s.procs[p].pc) && Holding(s.procs[q].pc)
    ensures p == q
  {
    assert ProcInv(s, p) && ProcInv(s, q);
  }

  lemma WriteFdShared(s: State, p: Pid, content: LockContent)
    requires Inv(s) && Live(s, p) && Holding(s.procs[p].pc)
    requires content.Owner? ==> content.pid == p && content.token.pid == p && Issued(s, content.token)
    ensures Shared(s, WriteFd(s, s.procs[p].fd, content), p)
  {
    var s1 := WriteFd(s, s.procs[p].fd, content);
    assert ProcInv(s, p);
    forall q | Others(s, p, q) ensures Undisturbed(s, s1, q) {
      assert ProcInv(s, q);
    }
    assert forall u :: Issued(s, u) ==> Issued(s1, u);
    SameHistory(s, s1);
  }

  lemma AbortKeeps(s: State, p: Pid, proc: Proc)
    requires Inv(s) && Live(s, p) && InCall(s, p, proc) && Holding(s.procs[p].pc)
    requires proc.fd == s.procs[p].fd && proc.acquisition == s.procs[p].acquisition
    requires proc.token.pid == p && proc.token.serial < proc.serial
    ensures Kept(s, Abort(s, p, proc), p)
  {
    assert ProcInv(s, p);
    NothingShared(s, p);
    MoveHolding(s, s, p, proc.(status := Failed, pc := RemoveTemp));
  }

  function Tokened(p: Pid, proc: Proc): Proc {
    proc.(token := Token(p, proc.serial), serial := proc.serial + 1)
  }

  lemma WriteFdUncommitted(s: State, p: Pid, fd: nat, content: LockContent)
    ensures var s1 := WriteFd(s, fd, content);
            s1.commits == s.commits && s1.procs == s.procs && forall call :: Committed(s1, p, call) == Committed(s, p, call)
  {
  }

  lemma TokenedInCall(s: State, p: Pid)
    requires Inv(s) && Live(s, p) && s.procs[p].pc.WriteOwnerBegin?
    ensures InCall(s, p, Tokened(p, s.procs[p]))
  {
    assert ProcInv(s, p);
  }

  lemma BegunOwner(s: State, p: Pid)
    requires Inv(s) && Live(s, p) && s.procs[p].pc.WriteOwnerBegin?
    ensures var proc := Tokened(p, s.procs[p]).(pc := WriteOwnerEnd);
            var s1 := WriteFd(s, proc.fd, Partial);
            InCall(s1, p, proc) && LockPart(Put(s1, p, proc), p)
  {
    assert ProcInv(s, p);
    TokenedInCall(s, p);
    WriteFdUncommitted(s, p, s.procs[p].fd, Partial);
  }

  lemma WriteOwnerBeginKeeps(s: State, p: Pid, c: Choice)
    requires Inv(s) && Live(s, p) && s.procs[p].pc.WriteOwnerBegin?
    ensures Kept(s, StepWriteOwnerBegin(s, p, s.procs[p], c), p)
  {
    var proc := Tokened(p, s.procs[p]);
    if c == Fault {
      TokenedInCall(s, p);
      AbortKeeps(s, p, proc);
    } else {
      WriteFdShared(s, p, Partial);
      BegunOwner(s, p);
      MoveHolding(s, WriteFd(s, proc.fd, Partial), p, proc.(pc := WriteOwnerEnd));
    }
  }

  lemma WriteOwnerEndKeeps(s: State, p: Pid, c: Choice)
    requires Inv(s) && Live(s, p) && s.procs[p].pc.WriteOwnerEnd?
    ensures Kept(s, StepWriteOwnerEnd(s, p, s.procs[p], c), p)
  {
    var proc := s.procs[p];
    assert ProcInv(s, p);
    if c == Fault { AbortKeeps(s, p, proc); }
    else {
      var s1 := WriteFd(s, proc.fd, Owner(p, proc.token));
      WriteFdShared(s, p, Owner(p, proc.token));
      assert Committed(s1, p, proc.call) == Committed(s, p, proc.call);
      MoveHolding(s, s1, p, proc.(pc := ReadReport));
    }
  }

  lemma ReadReportKeeps(s: State, p: Pid, c: Choice)
    requires Inv(s) && Live(s, p) && s.procs[p].pc.ReadReport?
    ensures Kept(s, StepReadReport(s, p, s.procs[p], c), p)
  {
    var proc := s.procs[p];
    assert ProcInv(s, p);
    NothingShared(s, p);
    if c == Fault { AbortKeeps(s, p, proc); }
    else { MoveHolding(s, s, p, proc.(previous := s.report, pc := OpenTemp)); }
  }

  lemma TempsShared(s: State, p: Pid, t: Token, temps: map<Token, TempFile>)
    requires Inv(s) && Live(s, p) && t.pid == p && Issued(s, t)
    requires forall u :: u in temps ==> u == t || u in s.temps
    requires forall u :: u in s.temps && u != t ==> u in temps && temps[u] == s.temps[u]
    ensures Shared(s, s.(temps := temps), p)
  {
    var s1 := s.(temps := temps);
    forall q | Others(s, p, q) ensures Undisturbed(s, s1, q) {
    }
    assert forall u :: Issued(s, u) ==> Issued(s1, u);
    SameHistory(s, s1);
  }

  lemma OpenTempKeeps(s: State, p: Pid, c: Choice)
    requires Inv(s) && Live(s, p) && s.procs[p].pc.OpenTemp?
    ensures Kept(s, StepOpenTemp(s, p, s.procs[p], c), p)
  {
    var proc := s.procs[p];
    assert ProcInv(s, p);
    if c == Fault || proc.token in s.temps { AbortKeeps(s, p, proc); }
    else {
      var s1 := s.(temps := s.temps[proc.token := Unwritten]);
      TempsShared(s, p, proc.token, s1.temps);
      assert Committed(s1, p, proc.call) == Committed(s, p, proc.call);
      MoveHolding(s, s1, p, proc.(pc := WriteTemp));
    }
  }

  lemma WriteTempKeeps(s: State, p: Pid, c: Choice)
    requires Inv(s) && Live(s, p) && s.procs[p].pc.WriteTemp?
    ensures Kept(s, StepWriteTemp(s, p, s.procs[p], c), p)
  {
    var proc := s.procs[p];
    assert ProcInv(s, p);
    if c == Fault { AbortKeeps(s, p, proc); }
    else {
      var s1 := s.(temps := s.temps[proc.token := Written(D.Apply(proc.previous, proc.update))]);
      TempsShared(s, p, proc.token, s1.temps);
      assert Committed(s1, p, proc.call) == Committed(s, p, proc.call);
      MoveHolding(s, s1, p, proc.(pc := RenameTemp));
    }
  }

  function Renamed(s: State, p: Pid): State
    requires p in s.procs
  {
    var proc := s.procs[p];
    s.(report := D.Apply(proc.previous, proc.update), temps := s.temps - {proc.token},
       commits := s.commits + [Commit(p, proc.call, proc.update, proc.acquisition)])
  }

  lemma RenamedHistory(s: State, p: Pid)
    requires Inv(s) && Live(s, p) && s.procs[p].pc.RenameTemp?
    ensures HistoryInv(Renamed(s, p))
    ensures Committed(Renamed(s, p), p, s.procs[p].call)
  {
    var s1 := Renamed(s, p);
    var proc := s.procs[p];
    assert ProcInv(s, p);
    var n := |s.commits|;
    assert Updates(s1.commits)[..n] == Updates(s.commits);
    assert s1.commits[n] == Commit(p, proc.call, proc.update, proc.acquisition);
    forall q, call | Committed(s, q, call) ensures Committed(s1, q, call) {
      var i :| 0 <= i < n && s.commits[i].pid == q && s.commits[i].call == call;
      assert s1.commits[i] == s.commits[i];
    }
  }

  lemma RenamedRely(s: State, p: Pid)
    requires Inv(s) && Live(s, p) && s.procs[p].pc.RenameTemp?
    ensures Rely(s, Renamed(s, p), p)
  {
    var s1 := Renamed(s, p);
    assert ProcInv(s, p);
    forall q | Others(s, p, q) ensures Undisturbed(s, s1, q) {
      assert ProcInv(s, q);
    }
    assert AppendsCommitOf(s, s1, p);
  }

  lemma ClosingInv(s: State, p: Pid)
    requires p in s.procs && AfterCommit(s.procs[p].pc) && LockPart(s, p)
    requires forall t :: t in s.procs[p].abandoned ==> t.pid == p && t.serial < s.procs[p].serial
    requires var proc := s.procs[p]; proc.status == Failed || (proc.status == Succeeded && Committed(s, p, proc.call))
    ensures ProcInv(s, p)
  {
  }

  lemma MoveClosing(s: State, s1: State, p: Pid, proc: Proc)
    requires p in s.procs && Shared(s, s1, p) && Continues(s.procs[p], proc) && AfterCommit(proc.pc)
    requires forall t :: t in proc.abandoned ==> t.pid == p && t.serial < proc.serial
    requires LockPart(Put(s1, p, proc), p)
    requires proc.status == Failed || (proc.status == Succeeded && Committed(s1, p, proc.call))
    ensures Kept(s, Put(s1, p, proc), p)
  {
    assert Committed(Put(s1, p, proc), p, proc.call) == Committed(s1, p, proc.call);
    ClosingInv(Put(s1, p, proc), p);
    MoveKeeps(s, s1, p, proc);
  }

  /** The commit: the report becomes its predecessor plus this update. */
  lemma RenameTempKeeps(s: State, p: Pid, c: Choice)
    requires Inv(s) && Live(s, p) && s.procs[p].pc.RenameTemp?
    ensures Kept(s, StepRenameTemp(s, p, s.procs[p], c), p)
  {
    var proc := s.procs[p];
    assert ProcInv(s, p);
    if c == Fault { AbortKeeps(s, p, proc); }
    else {
      var s1 := Renamed(s, p);
      RenamedHistory(s, p);
      RenamedRely(s, p);
      assert FilesInv(s1) by {
        assert forall u :: Issued(s, u) ==> Issued(s1, u);
      }
      MoveClosing(s, s1, p, proc.(status := Succeeded, pc := CloseLock));
    }
  }

  lemma RemoveTempKeeps(s: State, p: Pid, c: Choice)
    requires Inv(s) && Live(s, p) && s.procs[p].pc.RemoveTemp?
    ensures Kept(s, StepRemoveTemp(s, p, s.procs[p], c), p)
  {
    var proc := s.procs[p];
    assert ProcInv(s, p);
    NothingShared(s, p);
    if c == Fault { MoveClosing(s, s, p, proc.(pc := CloseLock)); }
    else {
      var s1 := s.(temps := s.temps - {proc.token});
      TempsShared(s, p, proc.token, s1.temps);
      MoveClosing(s, s1, p, proc.(pc := CloseLock));
    }
  }

  lemma CloseLockKeeps(s: State, p: Pid, c: Choice)
    requires Inv(s) && Live(s, p) && s.procs[p].pc.CloseLock?
    ensures Kept(s, StepCloseLock(s, p, s.procs[p], c), p)
  {
    var proc := s.procs[p];
    assert ProcInv(s, p);
    NothingShared(s, p);
    MoveClosing(s, s, p, (if c == Fault then proc.(status := Failed) else proc).(pc := DetachLock));
  }

  lemma DetachShared(s: State, p: Pid)
    requires Inv(s) && Live(s, p) && Holding(s.procs[p].pc)
    ensures Shared(s, s.(lock := None), p)
    ensures forall call :: Committed(s.(lock := None), p, call) == Committed(s, p, call)
  {
    var s1 := s.(lock := None);
    assert ProcInv(s, p);
    forall q | Others(s, p, q) ensures Undisturbed(s, s1, q) {
      assert ProcInv(s, q);
    }
    assert forall u :: Issued(s, u) ==> Issued(s1, u);
    SameHistory(s, s1);
  }

  lemma DetachLockKeeps(s: State, p: Pid, c: Choice)
    requires Inv(s) && Live(s, p) && s.procs[p].pc.DetachLock?
    ensures Kept(s, StepDetachLock(s, p, s.procs[p], c), p)
  {
    var proc := s.procs[p];
    assert ProcInv(s, p);
    NothingShared(s, p);
    if c == Fault { EndKeeps(s, s, p, proc, Failed); }
    else {
      DetachShared(s, p);
      MoveClosing(s, s.(lock := None), p, proc.(pc := RemoveDetached));
    }
  }

  lemma RemoveDetachedKeeps(s: State, p: Pid, c: Choice)
    requires Inv(s) && Live(s, p) && s.procs[p].pc.RemoveDetached?
    ensures Kept(s, StepRemoveDetached(s, p, s.procs[p], c), p)
  {
    var proc := s.procs[p];
    assert ProcInv(s, p);
    NothingShared(s, p);
    if c == Fault { EndKeeps(s, s, p, proc, Failed); } else { FinishKeeps(s, s, p, proc); }
  }

  // ------------------------------------------------------------------ every step, every run

  lemma CrashKeeps(s: State, p: Pid)
    requires Inv(s) && Live(s, p)
    ensures Kept(s, Put(s, p, s.procs[p].(alive := false)), p)
  {
    var s1 := Put(s, p, s.procs[p].(alive := false));
    forall q | Others(s, p, q) ensures Undisturbed(s, s1, q) {
    }
    assert forall u :: Issued(s, u) ==> Issued(s1, u);
    assert forall q, call :: Committed(s1, q, call) == Committed(s, q, call);
  }

  lemma ObservingKeeps(s: State, p: Pid, c: Choice)
    requires Inv(s) && Live(s, p)
    requires Observing(s.procs[p].pc)
    ensures Kept(s, ActObserving(s, p, s.procs[p], c), p)
  {
    var pc := s.procs[p].pc;
    if pc.GuardStat? { GuardStatKeeps(s, p, c); }
    else if pc.GuardList? { GuardListKeeps(s, p, c); }
    else if pc.GuardMark? { GuardMarkKeeps(s, p, c); }
    else if pc.GuardLive? { GuardLiveKeeps(s, p); }
    else if pc.ReapMarker? { ReapMarkerKeeps(s, p, c); }
    else { ReapDirKeeps(s, p, c); }
  }

  lemma HoldingKeeps(s: State, p: Pid, c: Choice)
    requires Inv(s) && Live(s, p)
    requires Holding(s.procs[p].pc)
    ensures Kept(s, ActHolding(s, p, s.procs[p], c), p)
  {
    var pc := s.procs[p].pc;
    if pc.WriteOwnerBegin? { WriteOwnerBeginKeeps(s, p, c); }
    else if pc.WriteOwnerEnd? { WriteOwnerEndKeeps(s, p, c); }
    else if pc.ReadReport? { ReadReportKeeps(s, p, c); }
    else if pc.OpenTemp? { OpenTempKeeps(s, p, c); }
    else if pc.WriteTemp? { WriteTempKeeps(s, p, c); }
    else if pc.RenameTemp? { RenameTempKeeps(s, p, c); }
    else if pc.RemoveTemp? { RemoveTempKeeps(s, p, c); }
    else if pc.CloseLock? { CloseLockKeeps(s, p, c); }
    else { DetachLockKeeps(s, p, c); }
  }

  lemma GuardingKeeps(s: State, p: Pid, c: Choice)
    requires Inv(s) && Live(s, p)
    requires Guarding(s.procs[p].pc)
    ensures Kept(s, ActGuarding(s, p, s.procs[p], c), p)
  {
    var pc := s.procs[p].pc;
    if pc.ReclaimStat? { ReclaimStatKeeps(s, p, c); }
    else if pc.ReclaimRead? { ReclaimReadKeeps(s, p, c); }
    else if pc.ReclaimLive? { ReclaimLiveKeeps(s, p, c); }
    else if pc.ReclaimTemp? { ReclaimTempKeeps(s, p, c); }
    else if pc.ReclaimUnlink? { ReclaimUnlinkKeeps(s, p, c); }
    else { ReleaseMarkerKeeps(s, p, c); }
  }

  lemma OtherwiseKeeps(s: State, p: Pid, c: Choice)
    requires Inv(s) && Live(s, p)
    requires var pc := s.procs[p].pc; !Observing(pc) && !Holding(pc) && !Guarding(pc)
    ensures Kept(s, ActOtherwise(s, p, s.procs[p], c), p)
  {
    var pc := s.procs[p].pc;
    if pc.Idle? { IdleKeeps(s, p, c); }
    else if pc.Waiting? { WaitingKeeps(s, p, c); }
    else if pc.Prune? { PruneKeeps(s, p, c); }
    else if pc.PruneMarker? { PruneMarkerKeeps(s, p, c); }
    else if pc.PruneDir? { PruneDirKeeps(s, p, c); }
    else if pc.OpenLock? { OpenLockKeeps(s, p, c); }
    else if pc.LockStat? { LockStatKeeps(s, p, c); }
    else if pc.LockRead? { LockReadKeeps(s, p, c); }
    else if pc.LockLive? { LockLiveKeeps(s, p, c); }
    else if pc.MakeStaging? { MakeStagingKeeps(s, p, c); }
    else if pc.MakeMarker? { MakeMarkerKeeps(s, p, c); }
    else if pc.Publish? { PublishKeeps(s, p, c); }
    else if pc.UnstageMarker? { UnstageMarkerKeeps(s, p, c); }
    else if pc.UnstageDir? { UnstageDirKeeps(s, p, c); }
    else if pc.ReleaseDir? { ReleaseDirKeeps(s, p, c); }
    else if pc.Reopen? { ReopenKeeps(s, p, c); }
    else { RemoveDetachedKeeps(s, p, c); }
  }

  lemma ActKeeps(s: State, p: Pid, c: Choice)
    requires Inv(s) && Live(s, p)
    ensures Kept(s, Act1(s, p, s.procs[p], c), p)
  {
    var pc := s.procs[p].pc;
    if Observing(pc) { ObservingKeeps(s, p, c); }
    else if Holding(pc) { HoldingKeeps(s, p, c); }
    else if Guarding(pc) { GuardingKeeps(s, p, c); }
    else { OtherwiseKeeps(s, p, c); }
  }
}
