/** What the writer's invariant means over whole runs. */
module WriterLockTheorems {
  import opened Common
  import D = DiagnosticReport
  import opened WriterLock
  import opened WriterLockSafety

  lemma OtherKeeps(s: State, s': State, p: Pid, q: Pid)
    requires Inv(s) && Kept(s, s', p) && Others(s, p, q)
    ensures ProcInv(s', q)
  {
    OtherLock(s, s', p, q);
    OtherGuard(s, s', p, q);
    OtherReclaim(s, s', p, q);
    OtherCall(s, s', p, q);
  }

  lemma OtherLock(s: State, s': State, p: Pid, q: Pid)
    requires Inv(s) && Kept(s, s', p) && Others(s, p, q)
    ensures LockPart(s', q)
  {
    assert ProcInv(s, q) && Undisturbed(s, s', q);
  }

  lemma OtherGuard(s: State, s': State, p: Pid, q: Pid)
    requires Inv(s) && Kept(s, s', p) && Others(s, p, q)
    ensures GuardPart(s', q)
  {
    DeadStayDead(s, s', p);
    assert GuardPart(s, q) && Undisturbed(s, s', q);
  }

  lemma DeadStayDead(s: State, s': State, p: Pid)
    requires Kept(s, s', p)
    ensures forall r :: Live(s', r) ==> Live(s, r)
  {
  }

  lemma OtherReclaim(s: State, s': State, p: Pid, q: Pid)
    requires Inv(s) && Kept(s, s', p) && Others(s, p, q)
    ensures ReclaimPart(s', q)
  {
    DeadStayDead(s, s', p);
    assert ReclaimPart(s, q) && Undisturbed(s, s', q);
  }

  lemma OtherCall(s: State, s': State, p: Pid, q: Pid)
    requires Inv(s) && Kept(s, s', p) && Others(s, p, q)
    ensures CallPart(s', q)
  {
    assert ProcInv(s, q);
    var call := s.procs[q].call;
    assert Committed(s', q, call) == Committed(s, q, call) by {
      if s'.commits != s.commits {
        var c: Commit :| c.pid == p && s'.commits == s.commits + [c];
        if Committed(s, q, call) {
          var i :| 0 <= i < |s.commits| && s.commits[i].pid == q && s.commits[i].call == call;
          assert s'.commits[i] == s.commits[i];
        }
      }
    }
  }

  /** Every step by anybody, crashes included, keeps the invariant. */
  lemma StepKeepsInv(s: State, e: Event)
    requires Inv(s)
    ensures Inv(Step(s, e))
  {
    var s' := Step(s, e);
    if Live(s, e.pid) {
      match e {
        case Crash(p) => CrashKeeps(s, p);
        case Act(p, c) => ActKeeps(s, p, c);
      }
      forall q | Live(s', q) ensures ProcInv(s', q) {
        if q != e.pid { OtherKeeps(s, s', e.pid, q); }
      }
    }
  }

  lemma InitialInv(s: State)
    requires Initial(s)
    ensures Inv(s)
  {
    forall p | Live(s, p) ensures ProcInv(s, p) { }
    assert Updates(s.commits) == [];
  }

  lemma {:induction false} RunKeepsInv(s: State, events: seq<Event>)
    requires Inv(s)
    ensures Inv(Run(s, events))
  {
    if events != [] {
      RunKeepsInv(s, events[..|events| - 1]);
      StepKeepsInv(Run(s, events[..|events| - 1]), events[|events| - 1]);
    }
  }

  lemma ReachableInv(s0: State, events: seq<Event>)
    requires Initial(s0)
    ensures Inv(Run(s0, events))
  {
    InitialInv(s0);
    RunKeepsInv(s0, events);
  }

  // ------------------------------------------------------------------ mutual exclusion

  /** In every reachable state at most one live process is between creating the lock file and detaching it,
      and the file at the lock path is the one it created. */
  lemma MutualExclusion(s0: State, events: seq<Event>, p: Pid, q: Pid)
    requires Initial(s0)
    requires var s := Run(s0, events); Live(s, p) && Holding(s.procs[p].pc)
    ensures var s := Run(s0, events);
            && s.lock.Some? && s.lock.value.creator == p && s.lock.value.ino == s.procs[p].fd
            && (Live(s, q) && Holding(s.procs[q].pc) ==> q == p)
  {
    var s := Run(s0, events);
    ReachableInv(s0, events);
    assert ProcInv(s, p);
    if Live(s, q) && Holding(s.procs[q].pc) { OneHolder(s, p, q); }
  }

  /** Nobody else's step, a reclaimer's unlink included, changes or removes a live process's lock file. */
  lemma LiveLockIsUntouched(s0: State, events: seq<Event>, e: Event)
    requires Initial(s0)
    requires var s := Run(s0, events);
             s.lock.Some? && Live(s, s.lock.value.creator) && s.lock.value.creator != e.pid
    ensures Step(Run(s0, events), e).lock == Run(s0, events).lock
  {
    ReachableInv(s0, events);
    LiveLockStep(Run(s0, events), e);
  }

  lemma LiveLockStep(s: State, e: Event)
    requires Inv(s) && s.lock.Some? && Live(s, s.lock.value.creator) && s.lock.value.creator != e.pid
    ensures Step(s, e).lock == s.lock
  {
    if Live(s, e.pid) && e.Act? {
      assert ProcInv(s, e.pid);
      OnlyTheseMove(s, e.pid, e.choice);
    }
  }

  predicate MovesLock(pc: Pc) {
    pc.OpenLock? || pc.Reopen? || pc.ReclaimUnlink? || pc.WriteOwnerBegin? || pc.WriteOwnerEnd? || pc.DetachLock?
  }

  predicate SameLock(s: State, s': State) {
    s'.lock == s.lock
  }

  predicate SameReport(s: State, s': State) {
    s'.report == s.report && s'.commits == s.commits
  }

  lemma PruningIsLocal(s: State, p: Pid, c: Choice)
    requires Live(s, p)
    requires var pc := s.procs[p].pc;
             pc.Idle? || pc.Waiting? || pc.Prune? || pc.PruneMarker? || pc.PruneDir?
    ensures var s' := ActOtherwise(s, p, s.procs[p], c); SameLock(s, s') && SameReport(s, s')
  {
  }

  lemma UnstagingIsLocal(s: State, p: Pid, c: Choice)
    requires Live(s, p) && (s.procs[p].pc.UnstageMarker? || s.procs[p].pc.UnstageDir?)
    ensures var s' := ActOtherwise(s, p, s.procs[p], c); SameLock(s, s') && SameReport(s, s')
  {
  }

  lemma ObservingIsLocal(s: State, p: Pid, c: Choice)
    requires Live(s, p)
    requires var pc := s.procs[p].pc; pc.GuardStat? || pc.GuardList? || pc.GuardMark? || pc.GuardLive?
    ensures var s' := ActObserving(s, p, s.procs[p], c); SameLock(s, s') && SameReport(s, s')
  {
  }

  lemma ReapingIsLocal(s: State, p: Pid, c: Choice)
    requires Live(s, p) && (s.procs[p].pc.ReapMarker? || s.procs[p].pc.ReapDir?)
    ensures var s' := ActObserving(s, p, s.procs[p], c); SameLock(s, s') && SameReport(s, s')
  {
  }

  lemma LookingIsLocal(s: State, p: Pid, c: Choice)
    requires Live(s, p)
    requires var pc := s.procs[p].pc; pc.LockStat? || pc.LockRead? || pc.LockLive?
    ensures var s' := ActOtherwise(s, p, s.procs[p], c); SameLock(s, s') && SameReport(s, s')
  {
  }

  lemma StagingIsLocal(s: State, p: Pid, c: Choice)
    requires Live(s, p) && (s.procs[p].pc.MakeStaging? || Staging(s.procs[p].pc))
    ensures var s' := ActOtherwise(s, p, s.procs[p], c); SameLock(s, s') && SameReport(s, s')
  {
  }

  lemma ReclaimingIsLocal(s: State, p: Pid, c: Choice)
    requires Live(s, p)
    requires var pc := s.procs[p].pc;
             pc.ReclaimStat? || pc.ReclaimRead? || pc.ReclaimLive? || pc.ReclaimTemp? || pc.ReclaimUnlink?
    ensures var s' := Act1(s, p, s.procs[p], c);
            (s.procs[p].pc.ReclaimUnlink? || SameLock(s, s')) && SameReport(s, s')
  {
  }

  lemma ReleasingIsLocal(s: State, p: Pid, c: Choice)
    requires Live(s, p) && (s.procs[p].pc.ReleaseMarker? || s.procs[p].pc.ReleaseDir?)
    ensures var s' := Act1(s, p, s.procs[p], c); SameLock(s, s') && SameReport(s, s')
  {
  }

  lemma OpeningIsLocal(s: State, p: Pid, c: Choice)
    requires Live(s, p) && (s.procs[p].pc.OpenLock? || s.procs[p].pc.Reopen?)
    ensures var s' := Act1(s, p, s.procs[p], c); (s.lock == None || SameLock(s, s')) && SameReport(s, s')
  {
  }

  lemma ClosingIsLocal(s: State, p: Pid, c: Choice)
    requires Live(s, p)
    requires s.procs[p].pc.RemoveTemp? || AfterCommit(s.procs[p].pc)
    ensures var s' := Act1(s, p, s.procs[p], c);
            (s.procs[p].pc.DetachLock? || SameLock(s, s')) && SameReport(s, s')
  {
  }

  lemma WritingIsLocal(s: State, p: Pid, c: Choice)
    requires Live(s, p) && BeforeCommit(s.procs[p].pc)
    ensures var s' := Act1(s, p, s.procs[p], c);
            (MovesLock(s.procs[p].pc) || SameLock(s, s')) && (s.procs[p].pc.RenameTemp? || SameReport(s, s'))
  {
  }

  lemma OnlyTheseMove(s: State, p: Pid, c: Choice)
    requires Live(s, p)
    ensures var s' := Act1(s, p, s.procs[p], c);
            (MovesLock(s.procs[p].pc) || SameLock(s, s')) && (s.procs[p].pc.RenameTemp? || SameReport(s, s'))
    ensures (s.procs[p].pc.OpenLock? || s.procs[p].pc.Reopen?) && s.lock.Some? ==>
              SameLock(s, Act1(s, p, s.procs[p], c))
  {
    var pc := s.procs[p].pc;
    if pc.ReapMarker? || pc.ReapDir? { ReapingIsLocal(s, p, c); }
    else if Observing(pc) { ObservingIsLocal(s, p, c); }
    else if pc.ReleaseMarker? || pc.ReleaseDir? { ReleasingIsLocal(s, p, c); }
    else if Guarding(pc) { ReclaimingIsLocal(s, p, c); }
    else if pc.OpenLock? || pc.Reopen? { OpeningIsLocal(s, p, c); }
    else if pc.RemoveTemp? || AfterCommit(pc) { ClosingIsLocal(s, p, c); }
    else if BeforeCommit(pc) { WritingIsLocal(s, p, c); }
    else if pc.LockStat? || pc.LockRead? || pc.LockLive? { LookingIsLocal(s, p, c); }
    else if pc.MakeStaging? || Staging(pc) { StagingIsLocal(s, p, c); }
    else if pc.UnstageMarker? || pc.UnstageDir? { UnstagingIsLocal(s, p, c); }
    else { PruningIsLocal(s, p, c); }
  }

  // ------------------------------------------------------------------ the recovery guard

  /** At most one live process holds the published guard, and the guard directory contains its marker. */
  lemma GuardExclusive(s0: State, events: seq<Event>, p: Pid, q: Pid)
    requires Initial(s0)
    requires var s := Run(s0, events); Live(s, p) && Guarding(s.procs[p].pc)
    ensures var s := Run(s0, events);
            GuardHas(s, s.procs[p].marker) && (Live(s, q) && Guarding(s.procs[q].pc) ==> q == p)
  {
    ReachableInv(s0, events);
    assert ProcInv(Run(s0, events), p);
    if Live(Run(s0, events), q) { assert ProcInv(Run(s0, events), q); }
  }

  /** No step of another process, a late reaper's included, changes a live holder's guard. */
  lemma StaleReaperIsHarmless(s0: State, events: seq<Event>, p: Pid, e: Event)
    requires Initial(s0) && e.pid != p
    requires var s := Run(s0, events); Live(s, p) && Guarding(s.procs[p].pc)
    ensures Step(Run(s0, events), e).guard == Run(s0, events).guard
  {
    var s := Run(s0, events);
    ReachableInv(s0, events);
    if Live(s, e.pid) {
      match e {
        case Crash(r) => CrashKeeps(s, r);
        case Act(r, c) => ActKeeps(s, r, c);
      }
      assert Undisturbed(s, Step(s, e), p);
    }
  }

  // ------------------------------------------------------------------ no lost update

  /** Commit i set the section, and no later one did. */
  predicate LastCommitSets(s: State, i: nat, section: D.Section) {
    && i < |s.commits| && D.Sets(s.commits[i].update, section)
    && forall j :: i < j < |s.commits| ==> !D.Sets(s.commits[j].update, section)
  }

  /** In every reachable state each section of the report is the record of the last commit that set it, a section is
      there exactly if some commit set it, and the incidents are the merge of all committed ones in order. Commits are
      in the order their writers acquired the lock, no call commits twice, and every reported success is committed. */
  lemma NoLostUpdate(s0: State, events: seq<Event>)
    requires Initial(s0)
    ensures var s := Run(s0, events);
            && (forall section :: section in s.report.sections <==>
                  exists i :: 0 <= i < |s.commits| && D.Sets(s.commits[i].update, section))
            && (forall i: nat, section :: LastCommitSets(s, i, section) ==>
                  section in s.report.sections && s.report.sections[section] == s.commits[i].update.record)
            && s.report.incidents == D.MergeAll(D.IncidentsOf(Updates(s.commits)))
            && (forall i, j :: 0 <= i < j < |s.commits| ==>
                  s.commits[i].acquisition < s.commits[j].acquisition
                  && (s.commits[i].pid, s.commits[i].call) != (s.commits[j].pid, s.commits[j].call))
            && (forall r :: r in s.successes ==> Committed(s, r.0, r.1))
  {
    var s := Run(s0, events);
    ReachableInv(s0, events);
    forall section ensures section in s.report.sections <==>
                             exists i :: 0 <= i < |s.commits| && D.Sets(s.commits[i].update, section) {
      CommittedSection(s, section);
    }
    forall i: nat, section | LastCommitSets(s, i, section)
      ensures section in s.report.sections && s.report.sections[section] == s.commits[i].update.record
    {
      assert D.LastSets(Updates(s.commits), i, section);
      D.FoldedRecord(Updates(s.commits), i, section);
    }
    D.FoldedIncidents(Updates(s.commits));
  }

  lemma CommittedSection(s: State, section: D.Section)
    requires s.report == D.Fold(Updates(s.commits))
    ensures section in s.report.sections <==> exists i :: 0 <= i < |s.commits| && D.Sets(s.commits[i].update, section)
  {
    var updates := Updates(s.commits);
    D.FoldedSections(updates, section);
    if i :| 0 <= i < |s.commits| && D.Sets(s.commits[i].update, section) { assert D.Sets(updates[i], section); }
    if i :| 0 <= i < |updates| && D.Sets(updates[i], section) { assert D.Sets(s.commits[i].update, section); }
  }

  /** A busy attempt, the only kind that is retried, has not committed. */
  lemma RetriedCallsAreUncommitted(s0: State, events: seq<Event>, p: Pid)
    requires Initial(s0)
    requires var s := Run(s0, events); Live(s, p) && s.procs[p].pc.Waiting?
    ensures var s := Run(s0, events); !Committed(s, p, s.procs[p].call)
  {
    ReachableInv(s0, events);
    assert ProcInv(Run(s0, events), p);
  }

  /** Crash atomicity: one step either leaves the report alone or makes one whole update to it: it sets the update's
      section or merges its incident, and keeps every other section and the incidents as they were. */
  lemma CommitsAreAtomic(s0: State, events: seq<Event>, e: Event)
    requires Initial(s0)
    ensures var s := Run(s0, events); var s' := Step(s, e);
            || (s'.report == s.report && s'.commits == s.commits)
            || (Live(s, e.pid)
                && D.OneUpdate(s.report, s'.report, s.procs[e.pid].update)
                && s'.commits == s.commits + [Commit(e.pid, s.procs[e.pid].call, s.procs[e.pid].update, s.acquisitions)])
  {
    var s := Run(s0, events);
    ReachableInv(s0, events);
    if Live(s, e.pid) && e.Act? {
      OnlyTheseMove(s, e.pid, e.choice);
      if s.procs[e.pid].pc.RenameTemp? { RenamingCommits(s, e.pid, e.choice); }
    }
  }

  lemma RenamingCommits(s: State, p: Pid, c: Choice)
    requires Inv(s) && Live(s, p) && s.procs[p].pc.RenameTemp?
    ensures var s' := Act1(s, p, s.procs[p], c);
            || (s'.report == s.report && s'.commits == s.commits)
            || (D.OneUpdate(s.report, s'.report, s.procs[p].update)
                && s'.commits == s.commits + [Commit(p, s.procs[p].call, s.procs[p].update, s.acquisitions)])
  {
    assert LockPart(s, p) by { assert ProcInv(s, p); }
    D.AppliesOne(s.report, s.procs[p].update);
  }
}
