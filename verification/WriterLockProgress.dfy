/** What the writer achieves: a call that nothing disturbs commits its own update and gives everything back. */
module WriterLockProgress {
  import opened Common
  import D = DiagnosticReport
  import opened WriterLock
  import opened WriterLockSafety
  import opened WriterLockTheorems
  import opened WriterLockRecovery

  // ------------------------------------------------------------------ with the lock held

  /** p's lock file is at the path. */
  predicate Owns(s: State, p: Pid, pc: Pc) {
    At(s, p, pc) && s.lock.Some? && s.lock.value.ino == s.procs[p].fd
  }

  predicate Reported(s: State, p: Pid, pc: Pc) { Owns(s, p, pc) && s.procs[p].previous == s.report }

  lemma OwnerBegun(s: State, p: Pid)
    requires Inv(s) && At(s, p, WriteOwnerBegin)
    ensures var s' := Next(s, p); Owns(s', p, WriteOwnerEnd) && s'.procs[p].token !in s'.temps
    ensures Calm(s, Next(s, p), p) && Next(s, p).successes == s.successes
  {
    assert ProcInv(s, p);
    assert Token(p, s.procs[p].serial) !in s.temps;
  }

  lemma OwnerEnded(s: State, p: Pid)
    requires Owns(s, p, WriteOwnerEnd) && s.procs[p].token !in s.temps
    ensures var s' := Next(s, p); Owns(s', p, ReadReport) && s'.procs[p].token !in s'.temps
    ensures Calm(s, Next(s, p), p) && Next(s, p).successes == s.successes
    ensures Next(s, p).lock.value.content == Owner(p, Next(s, p).procs[p].token)
  {
  }

  lemma ReportIsRead(s: State, p: Pid)
    requires Owns(s, p, ReadReport) && s.procs[p].token !in s.temps
    ensures var s' := Next(s, p); Reported(s', p, OpenTemp) && s'.procs[p].token !in s'.temps
    ensures Calm(s, Next(s, p), p) && Next(s, p).successes == s.successes
  {
  }

  lemma TempOpened(s: State, p: Pid)
    requires Reported(s, p, OpenTemp) && s.procs[p].token !in s.temps
    ensures var s' := Next(s, p); Reported(s', p, WriteTemp) && s'.procs[p].token in s'.temps
    ensures Calm(s, Next(s, p), p) && Next(s, p).successes == s.successes
  {
  }

  lemma TempWritten(s: State, p: Pid)
    requires Reported(s, p, WriteTemp) && s.procs[p].token in s.temps
    ensures var s' := Next(s, p);
            && Owns(s', p, RenameTemp) && s'.procs[p].token in s'.temps
            && s'.temps[s'.procs[p].token] == Written(D.Apply(s.report, s.procs[p].update))
    ensures Calm(s, Next(s, p), p) && Next(s, p).successes == s.successes
  {
  }

  /** One commit of p's call more, and the report updated by it. */
  predicate CommitsOne(s: State, s': State, p: Pid) {
    && p in s.procs && |s'.commits| == |s.commits| + 1 && s'.commits[..|s.commits|] == s.commits
    && s'.commits[|s.commits|].pid == p && s'.commits[|s.commits|].call == s.procs[p].call
    && s'.commits[|s.commits|].update == s.procs[p].update
    && D.OneUpdate(s.report, s'.report, s.procs[p].update)
  }

  lemma TempRenamed(s: State, p: Pid)
    requires Owns(s, p, RenameTemp) && s.procs[p].token in s.temps
    requires s.temps[s.procs[p].token] == Written(D.Apply(s.report, s.procs[p].update))
    ensures var s' := Next(s, p);
            && Owns(s', p, CloseLock) && s'.procs[p].status == Succeeded && s'.procs[p].call == s.procs[p].call
            && s'.successes == s.successes && CommitsOne(s, s', p)
  {
    D.AppliesOne(s.report, s.procs[p].update);
  }

  lemma LockClosed(s: State, p: Pid)
    requires Owns(s, p, CloseLock) && s.procs[p].status == Succeeded
    ensures var s' := Next(s, p); Owns(s', p, DetachLock) && s'.procs[p].status == Succeeded
    ensures Calm(s, Next(s, p), p) && Next(s, p).successes == s.successes
  {
  }

  lemma LockDetached(s: State, p: Pid)
    requires Owns(s, p, DetachLock) && s.procs[p].status == Succeeded
    ensures var s' := Next(s, p); At(s', p, RemoveDetached) && s'.lock == None && s'.procs[p].status == Succeeded
    ensures Calm(s, Next(s, p), p) && Next(s, p).successes == s.successes
  {
  }

  lemma LockRemoved(s: State, p: Pid)
    requires At(s, p, RemoveDetached) && s.lock == None && s.procs[p].status == Succeeded
    ensures var s' := Next(s, p); At(s', p, Idle) && s'.lock == None && s'.successes == s.successes + {(p, s.procs[p].call)}
    ensures Calm(s, Next(s, p), p)
  {
  }

  lemma SoloWrites(s: State, p: Pid)
    requires Inv(s) && At(s, p, WriteOwnerBegin)
    ensures var s' := Solo(s, p, 3);
            && Reported(s', p, OpenTemp) && s'.procs[p].token !in s'.temps
            && Calm(s, s', p) && s'.successes == s.successes
  {
    Solo3(s, p);
    OwnerBegun(s, p);
    OwnerEnded(Next(s, p), p);
    ReportIsRead(Next(Next(s, p), p), p);
  }

  lemma SoloCommits(s: State, p: Pid)
    requires Reported(s, p, OpenTemp) && s.procs[p].token !in s.temps
    ensures var s' := Solo(s, p, 3);
            && Owns(s', p, CloseLock) && s'.procs[p].status == Succeeded
            && CommitsOne(s, s', p) && s'.procs[p].call == s.procs[p].call && s'.successes == s.successes
  {
    Solo3(s, p);
    TempOpened(s, p);
    TempWritten(Next(s, p), p);
    TempRenamed(Next(Next(s, p), p), p);
  }

  lemma SoloReleases(s: State, p: Pid)
    requires Owns(s, p, CloseLock) && s.procs[p].status == Succeeded
    ensures var s' := Solo(s, p, 3);
            && At(s', p, Idle) && s'.lock == None && Calm(s, s', p)
            && s'.successes == s.successes + {(p, s.procs[p].call)}
  {
    Solo3(s, p);
    LockClosed(s, p);
    LockDetached(Next(s, p), p);
    LockRemoved(Next(Next(s, p), p), p);
  }

  /** p's call has succeeded: its update, and nothing else, has been committed, and the lock is free. */
  predicate Succeeds(s: State, s': State, p: Pid) {
    CommitsOne(s, s', p) && At(s', p, Idle) && s'.lock == None && (p, s.procs[p].call) in s'.successes
  }

  /** A holder that nothing disturbs commits and releases in nine steps. */
  lemma HolderSucceeds(s: State, p: Pid)
    requires Inv(s) && At(s, p, WriteOwnerBegin)
    ensures Succeeds(s, Solo(s, p, 9), p)
  {
    SoloWrites(s, p);
    SoloCommits(Solo(s, p, 3), p);
    SoloAdd(s, p, 3, 3);
    SoloReleases(Solo(s, p, 6), p);
    SoloAdd(s, p, 6, 3);
  }

  // ------------------------------------------------------------------ the whole call

  lemma OpensFree(s: State, p: Pid)
    requires Passing(s, p, OpenLock, false)
    ensures At(Solo(s, p, 1), p, WriteOwnerBegin) && Calm(s, Solo(s, p, 1), p)
  {
    SoloOne(s, p);
  }

  /** An attempt that finds no lock, or the complete lock of a dead process, and no guard that somebody holds. */
  lemma AttemptSucceeds(s: State, p: Pid, dead: bool) returns (n: nat)
    requires Inv(s) && LockIs(s, dead) && Reapable(s) && At(s, p, Prune)
    ensures n <= 36 && Succeeds(s, Solo(s, p, n), p)
  {
    n := SoloThrough(s, p, dead);
    var s1 := Solo(s, p, n);
    var m := if dead then 16 else 1;
    if dead { SoloTakesOver(s1, p); } else { OpensFree(s1, p); }
    SoloAdd(s, p, n, m);
    RunKeepsInv(s, SoloEvents(p, n + m));
    HolderSucceeds(Solo(s, p, n + m), p);
    SoloAdd(s, p, n + m, 9);
    n := n + m + 9;
  }

  /** The next call of p, with update u, has succeeded: exactly that update is committed, and the lock is free. */
  predicate CallSucceeds(s: State, s': State, p: Pid, u: D.Update) {
    && p in s.procs && D.OneUpdate(s.report, s'.report, u)
    && |s'.commits| == |s.commits| + 1 && s'.commits[..|s.commits|] == s.commits
    && s'.commits[|s.commits|].pid == p && s'.commits[|s.commits|].update == u
    && (p, s.procs[p].call + 1) in s'.successes && s'.lock == None && At(s', p, Idle)
  }

  predicate CallBegins(s: State, s1: State, p: Pid, u: D.Update) {
    && p in s.procs && At(s1, p, Prune) && s1.procs[p].update == u && s1.procs[p].call == s.procs[p].call + 1
    && s1.lock == s.lock && s1.guard == s.guard && s1.report == s.report && s1.commits == s.commits
  }

  lemma BeginsCall(s: State, p: Pid, u: D.Update)
    requires At(s, p, Idle)
    ensures var s1 := Step(s, Act(p, Begin(u))); CallBegins(s, s1, p, u) && forall q :: Live(s1, q) == Live(s, q)
  {
  }

  lemma BegunSucceeds(s: State, s1: State, s': State, p: Pid, u: D.Update)
    requires CallBegins(s, s1, p, u) && Succeeds(s1, s', p)
    ensures CallSucceeds(s, s', p, u)
  {
  }

  lemma StaysFree(s: State, s1: State)
    requires s1.lock == s.lock && s1.guard == s.guard && forall q :: Live(s1, q) == Live(s, q)
    ensures LockIs(s1, true) == LockIs(s, true) && LockIs(s1, false) == LockIs(s, false) && Reapable(s1) == Reapable(s)
  {
  }

  /** From every reachable state in which nobody holds the lock or the guard, a call that nothing disturbs ends in at
      most 37 steps with exactly its own update committed and reported as a success. */
  lemma UndisturbedCallSucceeds(s0: State, events: seq<Event>, p: Pid, u: D.Update) returns (n: nat)
    requires Initial(s0)
    requires var s := Run(s0, events); At(s, p, Idle) && (s.lock == None || DeadLock(s)) && Reapable(s)
    ensures var s := Run(s0, events);
            n <= 36 && CallSucceeds(s, Solo(Step(s, Act(p, Begin(u))), p, n), p, u)
  {
    var s := Run(s0, events);
    var s1 := Step(s, Act(p, Begin(u)));
    ReachableInv(s0, events);
    BeginsCall(s, p, u);
    StepKeepsInv(s, Act(p, Begin(u)));
    StaysFree(s, s1);
    n := AttemptSucceeds(s1, p, s.lock.Some?);
    BegunSucceeds(s, s1, Solo(s1, p, n), p, u);
  }

  // ------------------------------------------------------------------ what is committed was begun

  /** The process is at the call-th call it began, with the update it began it with. */
  predicate CallBegun(s: State, s': State, p: Pid, c: Choice)
  {
    && p in s.procs && p in s'.procs
    && if s.procs[p].pc.Idle? && c.Begin? then
         s'.procs[p].call == s.procs[p].call + 1 && s'.procs[p].update == c.update
       else
         s'.procs[p].call == s.procs[p].call && s'.procs[p].update == s.procs[p].update
         && (s.procs[p].pc.Idle? ==> s'.procs[p].pc.Idle?)
  }

  lemma LookingSameCall(s: State, p: Pid, c: Choice)
    requires Live(s, p)
    requires var pc := s.procs[p].pc; pc.GuardStat? || pc.GuardList? || pc.GuardMark? || pc.GuardLive?
    ensures CallBegun(s, ActObserving(s, p, s.procs[p], c), p, c)
  {
  }

  lemma ReapingSameCall(s: State, p: Pid, c: Choice)
    requires Live(s, p) && (s.procs[p].pc.ReapMarker? || s.procs[p].pc.ReapDir?)
    ensures CallBegun(s, ActObserving(s, p, s.procs[p], c), p, c)
  {
  }

  lemma HoldingSameCall(s: State, p: Pid, c: Choice)
    requires Live(s, p) && Holding(s.procs[p].pc)
    ensures CallBegun(s, ActHolding(s, p, s.procs[p], c), p, c)
  {
  }

  lemma GuardingSameCall(s: State, p: Pid, c: Choice)
    requires Live(s, p) && Guarding(s.procs[p].pc)
    ensures CallBegun(s, ActGuarding(s, p, s.procs[p], c), p, c)
  {
  }

  lemma PruningSameCall(s: State, p: Pid, c: Choice)
    requires Live(s, p)
    requires var pc := s.procs[p].pc;
             pc.Idle? || pc.Waiting? || pc.Prune? || pc.PruneMarker? || pc.PruneDir?
             || pc.UnstageMarker? || pc.UnstageDir?
    ensures CallBegun(s, ActOtherwise(s, p, s.procs[p], c), p, c)
  {
  }

  lemma LockingSameCall(s: State, p: Pid, c: Choice)
    requires Live(s, p)
    requires var pc := s.procs[p].pc;
             pc.OpenLock? || pc.Reopen? || pc.LockStat? || pc.LockRead? || pc.LockLive? || pc.RemoveDetached?
    ensures CallBegun(s, ActOtherwise(s, p, s.procs[p], c), p, c)
  {
  }

  lemma PublishingSameCall(s: State, p: Pid, c: Choice)
    requires Live(s, p) && (s.procs[p].pc.MakeStaging? || Staging(s.procs[p].pc) || s.procs[p].pc.ReleaseDir?)
    ensures CallBegun(s, ActOtherwise(s, p, s.procs[p], c), p, c)
  {
  }

  lemma OtherwiseSameCall(s: State, p: Pid, c: Choice)
    requires Live(s, p)
    requires var pc := s.procs[p].pc; !Observing(pc) && !Holding(pc) && !Guarding(pc)
    ensures CallBegun(s, ActOtherwise(s, p, s.procs[p], c), p, c)
  {
    var pc := s.procs[p].pc;
    if pc.MakeStaging? || Staging(pc) || pc.ReleaseDir? { PublishingSameCall(s, p, c); }
    else if pc.OpenLock? || pc.Reopen? || pc.LockStat? || pc.LockRead? || pc.LockLive? || pc.RemoveDetached? {
      LockingSameCall(s, p, c);
    } else { PruningSameCall(s, p, c); }
  }

  lemma ActCallBegun(s: State, p: Pid, c: Choice)
    requires Live(s, p)
    ensures CallBegun(s, Act1(s, p, s.procs[p], c), p, c)
  {
    var pc := s.procs[p].pc;
    if pc.ReapMarker? || pc.ReapDir? { ReapingSameCall(s, p, c); }
    else if Observing(pc) { LookingSameCall(s, p, c); }
    else if Holding(pc) { HoldingSameCall(s, p, c); }
    else if Guarding(pc) { GuardingSameCall(s, p, c); }
    else { OtherwiseSameCall(s, p, c); }
  }

  /** How many calls p has begun. */
  function Begun(s0: State, events: seq<Event>, p: Pid): nat {
    if events == [] then 0
    else Begun(s0, events[..|events| - 1], p) + if BeginsAt(s0, events, |events| - 1, p) then 1 else 0
  }

  predicate BeginsAt(s0: State, events: seq<Event>, k: nat, p: Pid) {
    && k < |events| && events[k].Act? && events[k].pid == p && events[k].choice.Begin?
    && At(Run(s0, events[..k]), p, Idle)
  }

  /** The call-th call that p began in the run is with update u. */
  ghost predicate WasBegun(s0: State, events: seq<Event>, p: Pid, call: nat, u: D.Update) {
    exists k :: 0 <= k < |events| && BeginsAt(s0, events, k, p) && events[k].choice.update == u
                && Begun(s0, events[..k], p) + 1 == call
  }

  lemma BegunEarlier(s0: State, events: seq<Event>, p: Pid, call: nat, u: D.Update)
    requires events != [] && WasBegun(s0, events[..|events| - 1], p, call, u)
    ensures WasBegun(s0, events, p, call, u)
  {
    var past := events[..|events| - 1];
    var k :| 0 <= k < |past| && BeginsAt(s0, past, k, p) && past[k].choice.update == u
             && Begun(s0, past[..k], p) + 1 == call;
    assert past[..k] == events[..k] && past[k] == events[k];
    assert BeginsAt(s0, events, k, p);
  }

  ghost predicate ProcBegun(s0: State, events: seq<Event>, p: Pid, proc: Proc) {
    && proc.call == Begun(s0, events, p) && (!proc.pc.Idle? ==> proc.call > 0)
    && (proc.call > 0 ==> WasBegun(s0, events, p, proc.call, proc.update))
  }

  ghost predicate CommitsBegun(s0: State, events: seq<Event>, commits: seq<Commit>) {
    forall i :: 0 <= i < |commits| ==> WasBegun(s0, events, commits[i].pid, commits[i].call, commits[i].update)
  }

  lemma StepProcBegun(s0: State, events: seq<Event>, p: Pid)
    requires events != [] && ReachableProc(s0, events[..|events| - 1], p)
    requires ProcBegun(s0, events[..|events| - 1], p, Run(s0, events[..|events| - 1]).procs[p])
    requires p in Run(s0, events).procs
    ensures ProcBegun(s0, events, p, Run(s0, events).procs[p])
  {
    var past, e := events[..|events| - 1], events[|events| - 1];
    var s := Run(s0, past);
    var proc := s.procs[p];
    if proc.call > 0 { BegunEarlier(s0, events, p, proc.call, proc.update); }
    if e.pid == p && Live(s, p) && e.Act? {
      ActCallBegun(s, p, e.choice);
      if proc.pc.Idle? && e.choice.Begin? { assert BeginsAt(s0, events, |events| - 1, p); }
    }
  }

  /** p's record changes at its own steps only. */
  ghost predicate ReachableProc(s0: State, events: seq<Event>, p: Pid) {
    var s := Run(s0, events);
    p in s.procs && forall e: Event :: e.pid != p ==> SameProc(s, Step(s, e), p)
  }

  lemma {:induction false} AllBegun(s0: State, events: seq<Event>)
    requires Initial(s0)
    ensures var s := Run(s0, events);
            && (forall p <- s.procs :: ProcBegun(s0, events, p, s.procs[p])) && CommitsBegun(s0, events, s.commits)
  {
    if events != [] {
      var past, e := events[..|events| - 1], events[|events| - 1];
      var s, s' := Run(s0, past), Run(s0, events);
      AllBegun(s0, past);
      ReachableInv(s0, past);
      forall p <- s'.procs ensures ProcBegun(s0, events, p, s'.procs[p]) {
        forall e: Event | e.pid != p ensures SameProc(s, Step(s, e), p) { NobodyRevives(s, e, p); }
        KeepsProcs(s, e);
        StepProcBegun(s0, events, p);
      }
      CommitsStayBegun(s0, events);
    }
  }

  lemma KeepsProcs(s: State, e: Event)
    requires Inv(s)
    ensures Step(s, e).procs.Keys == s.procs.Keys
  {
    if Live(s, e.pid) && e.Act? { ActKeeps(s, e.pid, e.choice); }
  }

  lemma CommitsStayBegun(s0: State, events: seq<Event>)
    requires Initial(s0) && events != []
    requires var past := events[..|events| - 1];
             var s := Run(s0, past);
             (forall p <- s.procs :: ProcBegun(s0, past, p, s.procs[p])) && CommitsBegun(s0, past, s.commits)
    ensures CommitsBegun(s0, events, Run(s0, events).commits)
  {
    var past, e := events[..|events| - 1], events[|events| - 1];
    var s, s' := Run(s0, past), Run(s0, events);
    CommitsAreAtomic(s0, past, e);
    forall i | 0 <= i < |s'.commits|
      ensures WasBegun(s0, events, s'.commits[i].pid, s'.commits[i].call, s'.commits[i].update)
    {
      var c := s'.commits[i];
      assert WasBegun(s0, past, c.pid, c.call, c.update) by {
        if i < |s.commits| { assert c == s.commits[i]; } else { CommitterIsBusy(s, e); }
      }
      BegunEarlier(s0, events, c.pid, c.call, c.update);
    }
  }

  lemma CommitterIsBusy(s: State, e: Event)
    requires Live(s, e.pid) && Step(s, e).commits != s.commits
    ensures !s.procs[e.pid].pc.Idle?
  {
  }

  /** What is committed was asked for: over every run, a commit of some call carries the update with which that process
      began that very call. */
  lemma CommitsWereBegun(s0: State, events: seq<Event>, i: nat)
    requires Initial(s0) && i < |Run(s0, events).commits|
    ensures var c := Run(s0, events).commits[i]; WasBegun(s0, events, c.pid, c.call, c.update)
  {
    AllBegun(s0, events);
  }

  // ------------------------------------------------------------------ what a failed attempt left behind

  /** A preparation is picked for removal exactly if p itself abandoned it or its process is dead. */
  lemma PicksLeftovers(s: State, p: Pid, t: Token)
    requires At(s, p, Prune)
    ensures At(Step(s, Act(p, Pick(t))), p, PruneMarker(t)) <==>
            t in s.staging && (t in s.procs[p].abandoned || !Live(s, t.pid))
    ensures Step(s, Act(p, Pick(t))).staging == s.staging
  {
  }

  /** Two steps later it is gone and forgotten, and no other preparation is touched. */
  lemma RemovesLeftover(s: State, p: Pid, t: Token)
    requires At(s, p, PruneMarker(t))
    ensures var s' := Next(Next(s, p), p);
            At(s', p, Prune) && s'.staging == s.staging - {t} && s'.procs[p].abandoned == s.procs[p].abandoned - {t}
  {
    assert At(Next(s, p), p, PruneDir(t));
  }
}
