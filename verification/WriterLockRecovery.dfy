/** What a crash or a failed cleanup can leave behind, and who can recover from it. */
module WriterLockRecovery {
  import opened Common
  import D = DiagnosticReport
  import opened WriterLock
  import opened WriterLockSafety
  import opened WriterLockTheorems

  lemma {:induction false} RunAppend(s: State, a: seq<Event>, b: seq<Event>)
    ensures Run(s, a + b) == Run(Run(s, a), b)
  {
    if b == [] {
      assert a + b == a;
    } else {
      var n := |b| - 1;
      assert (a + b)[..|a + b| - 1] == a + b[..n];
      RunAppend(s, a, b[..n]);
    }
  }

  // ------------------------------------------------------------------ what a crash can leave behind

  /** The lock file of a dead process that died before its owner record was complete. */
  predicate Wedged(s: State) {
    s.lock.Some? && !s.lock.value.content.Owner? && !Live(s, s.lock.value.creator)
  }

  lemma WedgedStep(s: State, e: Event)
    requires Inv(s) && Wedged(s)
    ensures Wedged(Step(s, e)) && Step(s, e).lock == s.lock && Step(s, e).report == s.report
  {
    if Live(s, e.pid) && e.Act? {
      assert ProcInv(s, e.pid);
      OnlyTheseMove(s, e.pid, e.choice);
      ActKeeps(s, e.pid, e.choice);
    }
  }

  /** Such a lock is never reclaimed: from then on, on every run, the lock file stays and the report never
      changes again. */
  lemma {:induction false} WedgedForever(s: State, events: seq<Event>)
    requires Inv(s) && Wedged(s)
    ensures var s' := Run(s, events); Wedged(s') && s'.lock == s.lock && s'.report == s.report
  {
    if events != [] {
      WedgedForever(s, events[..|events| - 1]);
      RunKeepsInv(s, events[..|events| - 1]);
      WedgedStep(Run(s, events[..|events| - 1]), events[|events| - 1]);
    }
  }

  // ------------------------------------------------------------------ what one process alone can recover

  /** One undisturbed, successful step of p. */
  function Next(s: State, p: Pid): State {
    Step(s, Act(p, Go))
  }

  function SoloEvents(p: Pid, n: nat): seq<Event> {
    seq(n, i => Act(p, Go))
  }

  function Solo(s: State, p: Pid, n: nat): State { Run(s, SoloEvents(p, n)) }

  lemma SoloAdd(s: State, p: Pid, m: nat, n: nat)
    ensures Solo(s, p, m + n) == Solo(Solo(s, p, m), p, n)
  {
    RunAppend(s, SoloEvents(p, m), SoloEvents(p, n));
    assert SoloEvents(p, m + n) == SoloEvents(p, m) + SoloEvents(p, n);
  }

  lemma SoloNext(s: State, p: Pid, n: nat)
    ensures Solo(s, p, n + 1) == Next(Solo(s, p, n), p)
  {
    assert SoloEvents(p, n + 1)[..n] == SoloEvents(p, n);
  }

  /** A lock file whose record names a dead owner. */
  predicate DeadLock(s: State) {
    s.lock.Some? && s.lock.value.content.Owner? && !Live(s, s.lock.value.content.pid)
  }

  predicate Reclaimable(s: State) { DeadLock(s) && s.guard == None }

  predicate At(s: State, p: Pid, pc: Pc) {
    Live(s, p) && s.procs[p].pc == pc
  }

  /** Nothing is committed, and p is still at the same call. */
  predicate Calm(s: State, s': State, p: Pid) {
    && s'.report == s.report && s'.commits == s.commits && p in s.procs && p in s'.procs
    && s'.procs[p].call == s.procs[p].call && s'.procs[p].update == s.procs[p].update
  }

  lemma Solo3(s: State, p: Pid)
    ensures Solo(s, p, 3) == Next(Next(Next(s, p), p), p)
  {
    SoloNext(s, p, 0);
    SoloNext(s, p, 1);
    SoloNext(s, p, 2);
    assert SoloEvents(p, 0) == [];
  }

  predicate Observed(s: State, p: Pid)
    requires p in s.procs
  {
    && s.lock.Some? && s.lock.value.content.Owner?
    && s.procs[p].observed == LockSeen(s.lock.value.ino, s.lock.value.content.pid, s.lock.value.content.token)
  }

  predicate Cur(s: State, p: Pid)
    requires p in s.procs
  {
    && s.lock.Some? && s.lock.value.content.Owner?
    && s.procs[p].current == LockSeen(s.lock.value.ino, s.lock.value.content.pid, s.lock.value.content.token)
  }

  predicate SecondRound(s: State, p: Pid)
    requires p in s.procs
  {
    s.procs[p].purpose == BeforePublish && s.procs[p].first == None
  }

  predicate Clear(s: State, p: Pid, pc: Pc) { Reclaimable(s) && At(s, p, pc) }

  predicate ReadyToPublish(s: State, p: Pid) {
    && Clear(s, p, Publish) && Observed(s, p) && s.procs[p].marker in s.staging
    && s.staging[s.procs[p].marker].marker == Some(s.procs[p].marker)
  }

  /** The dead owner's record and p's own guard. */
  predicate Guarded(s: State, p: Pid, pc: Pc) {
    At(s, p, pc) && Observed(s, p) && !Live(s, s.lock.value.content.pid) && GuardHas(s, s.procs[p].marker)
  }

  predicate Emptied(s: State, p: Pid, pc: Pc) {
    At(s, p, pc) && s.lock == None && s.procs[p].status == Undecided && s.procs[p].reclaimed
  }

  /** A complete dead lock, or no lock at all. */
  predicate LockIs(s: State, dead: bool) { if dead then DeadLock(s) else s.lock == None }

  /** No guard in the way. */
  predicate Passing(s: State, p: Pid, pc: Pc, dead: bool) { LockIs(s, dead) && s.guard == None && At(s, p, pc) }

  lemma AlonePrune(s: State, p: Pid, dead: bool)
    requires Passing(s, p, Prune, dead)
    ensures var s' := Next(s, p); Passing(s', p, GuardStat, dead) && s'.procs[p].purpose == BeforeOpen && s'.procs[p].first == None
    ensures Calm(s, Next(s, p), p)
  {
  }

  lemma AloneFirstLook(s: State, p: Pid, dead: bool)
    requires Passing(s, p, GuardStat, dead) && s.procs[p].purpose == BeforeOpen && s.procs[p].first == None
    ensures var s' := Next(s, p); Passing(s', p, OpenLock, dead)
    ensures Calm(s, Next(s, p), p)
  {
  }

  lemma AloneOpen(s: State, p: Pid)
    requires Clear(s, p, OpenLock)
    ensures var s' := Next(s, p); Clear(s', p, LockStat)
    ensures Calm(s, Next(s, p), p)
  {
  }

  lemma AloneStat(s: State, p: Pid)
    requires Clear(s, p, LockStat)
    ensures var s' := Next(s, p); Clear(s', p, LockRead) && s'.procs[p].current.ino == s'.lock.value.ino
    ensures Calm(s, Next(s, p), p)
  {
  }

  lemma AloneRead(s: State, p: Pid)
    requires Clear(s, p, LockRead) && s.procs[p].current.ino == s.lock.value.ino
    ensures var s' := Next(s, p); Clear(s', p, LockLive) && Cur(s', p)
    ensures Calm(s, Next(s, p), p)
  {
  }

  lemma AloneDead(s: State, p: Pid)
    requires Clear(s, p, LockLive) && Cur(s, p)
    ensures var s' := Next(s, p); Clear(s', p, GuardStat) && SecondRound(s', p) && Observed(s', p)
    ensures Calm(s, Next(s, p), p)
  {
  }

  lemma AloneSecondLook(s: State, p: Pid)
    requires Clear(s, p, GuardStat) && SecondRound(s, p) && Observed(s, p)
    ensures var s' := Next(s, p); Clear(s', p, MakeStaging) && Observed(s', p)
    ensures Calm(s, Next(s, p), p)
  {
  }

  lemma AloneStaging(s: State, p: Pid)
    requires Clear(s, p, MakeStaging) && Observed(s, p)
    ensures var s' := Next(s, p); Clear(s', p, MakeMarker) && Observed(s', p) && s'.procs[p].marker in s'.staging
    ensures Calm(s, Next(s, p), p)
  {
  }

  lemma AloneMarker(s: State, p: Pid)
    requires Clear(s, p, MakeMarker) && Observed(s, p) && s.procs[p].marker in s.staging
    ensures var s' := Next(s, p); ReadyToPublish(s', p)
    ensures Calm(s, Next(s, p), p)
  {
  }

  lemma AlonePublish(s: State, p: Pid)
    requires ReadyToPublish(s, p)
    ensures var s' := Next(s, p); Guarded(s', p, ReclaimStat)
    ensures Calm(s, Next(s, p), p)
  {
  }

  lemma AloneStatAgain(s: State, p: Pid)
    requires Guarded(s, p, ReclaimStat)
    ensures var s' := Next(s, p); Guarded(s', p, ReclaimRead) && s'.procs[p].current.ino == s'.lock.value.ino
    ensures Calm(s, Next(s, p), p)
  {
  }

  lemma AloneReadAgain(s: State, p: Pid)
    requires Guarded(s, p, ReclaimRead) && s.procs[p].current.ino == s.lock.value.ino
    ensures var s' := Next(s, p); Guarded(s', p, ReclaimLive) && Cur(s', p)
    ensures Calm(s, Next(s, p), p)
  {
  }

  lemma AloneStillDead(s: State, p: Pid)
    requires Guarded(s, p, ReclaimLive) && Cur(s, p)
    ensures var s' := Next(s, p); Guarded(s', p, ReclaimTemp)
    ensures Calm(s, Next(s, p), p)
  {
  }

  lemma AloneTemp(s: State, p: Pid)
    requires Guarded(s, p, ReclaimTemp)
    ensures var s' := Next(s, p); Guarded(s', p, ReclaimUnlink)
    ensures Calm(s, Next(s, p), p)
  {
  }

  lemma AloneUnlink(s: State, p: Pid)
    requires Guarded(s, p, ReclaimUnlink)
    ensures var s' := Next(s, p); Emptied(s', p, ReleaseMarker) && GuardHas(s', s'.procs[p].marker)
    ensures Calm(s, Next(s, p), p)
  {
  }

  lemma AloneUnmark(s: State, p: Pid)
    requires Emptied(s, p, ReleaseMarker) && GuardHas(s, s.procs[p].marker)
    ensures var s' := Next(s, p); Emptied(s', p, ReleaseDir)
    ensures Calm(s, Next(s, p), p)
  {
  }

  lemma AloneRelease(s: State, p: Pid)
    requires Emptied(s, p, ReleaseDir)
    ensures var s' := Next(s, p); Emptied(s', p, Reopen)
    ensures Calm(s, Next(s, p), p)
  {
  }

  lemma AloneRetake(s: State, p: Pid)
    requires Emptied(s, p, Reopen)
    ensures var s' := Next(s, p); At(s', p, WriteOwnerBegin)
    ensures Calm(s, Next(s, p), p)
  {
  }

  lemma SoloOpen(s: State, p: Pid)
    requires Clear(s, p, OpenLock)
    ensures Clear(Solo(s, p, 1), p, LockStat)
    ensures Calm(s, Solo(s, p, 1), p)
  {
    SoloNext(s, p, 0);
    assert SoloEvents(p, 0) == [];
    AloneOpen(s, p);
  }

  lemma SoloObserve(s: State, p: Pid)
    requires Clear(s, p, LockStat)
    ensures var s' := Solo(s, p, 3); Clear(s', p, GuardStat) && SecondRound(s', p) && Observed(s', p)
    ensures Calm(s, Solo(s, p, 3), p)
  {
    Solo3(s, p);
    AloneStat(s, p);
    AloneRead(Next(s, p), p);
    AloneDead(Next(Next(s, p), p), p);
  }

  lemma SoloStage(s: State, p: Pid)
    requires Clear(s, p, GuardStat) && SecondRound(s, p) && Observed(s, p)
    ensures var s' := Solo(s, p, 3); ReadyToPublish(s', p)
    ensures Calm(s, Solo(s, p, 3), p)
  {
    Solo3(s, p);
    AloneSecondLook(s, p);
    AloneStaging(Next(s, p), p);
    AloneMarker(Next(Next(s, p), p), p);
  }

  lemma SoloPublish(s: State, p: Pid)
    requires ReadyToPublish(s, p)
    ensures var s' := Solo(s, p, 3); Guarded(s', p, ReclaimLive) && Cur(s', p)
    ensures Calm(s, Solo(s, p, 3), p)
  {
    Solo3(s, p);
    AlonePublish(s, p);
    AloneStatAgain(Next(s, p), p);
    AloneReadAgain(Next(Next(s, p), p), p);
  }

  lemma SoloReclaim(s: State, p: Pid)
    requires Guarded(s, p, ReclaimLive) && Cur(s, p)
    ensures var s' := Solo(s, p, 3); Emptied(s', p, ReleaseMarker) && GuardHas(s', s'.procs[p].marker)
    ensures Calm(s, Solo(s, p, 3), p)
  {
    Solo3(s, p);
    AloneStillDead(s, p);
    AloneTemp(Next(s, p), p);
    AloneUnlink(Next(Next(s, p), p), p);
  }

  lemma SoloReopen(s: State, p: Pid)
    requires Emptied(s, p, ReleaseMarker) && GuardHas(s, s.procs[p].marker)
    ensures var s' := Solo(s, p, 3); At(s', p, WriteOwnerBegin)
    ensures Calm(s, Solo(s, p, 3), p)
  {
    Solo3(s, p);
    AloneUnmark(s, p);
    AloneRelease(Next(s, p), p);
    AloneRetake(Next(Next(s, p), p), p);
  }

  /** Alone and past the guard, a process takes over a complete dead lock in 16 steps. */
  lemma SoloTakesOver(s: State, p: Pid)
    requires Clear(s, p, OpenLock)
    ensures At(Solo(s, p, 16), p, WriteOwnerBegin)
    ensures Calm(s, Solo(s, p, 16), p)
  {
    SoloOpen(s, p);
    SoloObserve(Solo(s, p, 1), p);
    SoloAdd(s, p, 1, 3);
    SoloStage(Solo(s, p, 4), p);
    SoloAdd(s, p, 4, 3);
    SoloPublish(Solo(s, p, 7), p);
    SoloAdd(s, p, 7, 3);
    SoloReclaim(Solo(s, p, 10), p);
    SoloAdd(s, p, 10, 3);
    SoloReopen(Solo(s, p, 13), p);
    SoloAdd(s, p, 13, 3);
  }

  // ------------------------------------------------------------------ reaping the guard on the way

  /** Looking at the guard directory d before opening the lock, with what was seen so far. */
  predicate Looking(s: State, p: Pid, dead: bool, pc: Pc, d: Dir, first: Option<Sight>) {
    && LockIs(s, dead) && At(s, p, pc) && s.guard == Some(d)
    && s.procs[p].purpose == BeforeOpen && s.procs[p].first == first
    && (!pc.GuardStat? ==> s.procs[p].seenIno == d.ino)
    && (pc.GuardMark? || pc.GuardLive? || pc.ReapMarker? ==> d.marker == Some(s.procs[p].seenMarker))
  }

  lemma LookStart(s: State, p: Pid, dead: bool, d: Dir)
    requires LockIs(s, dead) && At(s, p, Prune) && s.guard == Some(d)
    ensures Looking(Next(s, p), p, dead, GuardStat, d, None) && Next(s, p).lock == s.lock
    ensures Calm(s, Next(s, p), p)
  {
  }

  lemma LookStat(s: State, p: Pid, dead: bool, d: Dir, first: Option<Sight>)
    requires Looking(s, p, dead, GuardStat, d, first)
    ensures Looking(Next(s, p), p, dead, GuardList, d, first)
    ensures Next(s, p).lock == s.lock
    ensures Calm(s, Next(s, p), p)
  {
  }

  lemma LookEmpty(s: State, p: Pid, dead: bool, d: Dir)
    requires Looking(s, p, dead, GuardList, d, None) && d.marker == None
    ensures Looking(Next(s, p), p, dead, GuardStat, d, Some(EmptyDir(d.ino)))
    ensures Calm(s, Next(s, p), p)
  {
  }

  lemma LookEmptyAgain(s: State, p: Pid, dead: bool, d: Dir)
    requires Looking(s, p, dead, GuardList, d, Some(EmptyDir(d.ino))) && d.marker == None
    ensures Looking(Next(s, p), p, dead, ReapDir, d, Some(EmptyDir(d.ino)))
    ensures Calm(s, Next(s, p), p)
  {
  }

  lemma LookList(s: State, p: Pid, dead: bool, d: Dir, first: Option<Sight>)
    requires Looking(s, p, dead, GuardList, d, first) && d.marker.Some?
    ensures Looking(Next(s, p), p, dead, GuardMark, d, first)
    ensures Next(s, p).lock == s.lock
    ensures Calm(s, Next(s, p), p)
  {
  }

  lemma LookMark(s: State, p: Pid, dead: bool, d: Dir, first: Option<Sight>)
    requires Looking(s, p, dead, GuardMark, d, first)
    ensures Looking(Next(s, p), p, dead, GuardLive, d, first)
    ensures Next(s, p).lock == s.lock
    ensures Calm(s, Next(s, p), p)
  {
  }

  lemma LookDead(s: State, p: Pid, dead: bool, d: Dir)
    requires Looking(s, p, dead, GuardLive, d, None) && !Live(s, d.marker.value.pid)
    ensures Looking(Next(s, p), p, dead, GuardStat, d, Some(DeadOwner(d.ino, d.marker.value)))
    ensures Calm(s, Next(s, p), p)
  {
  }

  lemma LookDeadAgain(s: State, p: Pid, dead: bool, d: Dir)
    requires d.marker.Some? && Looking(s, p, dead, GuardLive, d, Some(DeadOwner(d.ino, d.marker.value)))
    requires !Live(s, d.marker.value.pid)
    ensures Looking(Next(s, p), p, dead, ReapMarker, d, Some(DeadOwner(d.ino, d.marker.value)))
    ensures Calm(s, Next(s, p), p)
  {
  }

  lemma LookReap(s: State, p: Pid, dead: bool, d: Dir, first: Option<Sight>)
    requires Looking(s, p, dead, ReapMarker, d, first)
    ensures Looking(Next(s, p), p, dead, ReapDir, d.(marker := None), first)
    ensures Calm(s, Next(s, p), p)
  {
  }

  lemma LookRemove(s: State, p: Pid, dead: bool, d: Dir, first: Option<Sight>)
    requires Looking(s, p, dead, ReapDir, d, first) && d.marker == None
    ensures Passing(Next(s, p), p, OpenLock, dead)
    ensures Calm(s, Next(s, p), p)
  {
  }

  predicate SameProc(s: State, s': State, q: Pid) {
    (q in s'.procs <==> q in s.procs) && (q in s.procs ==> s'.procs[q] == s.procs[q])
  }

  lemma NobodyRevives(s: State, e: Event, q: Pid)
    requires Inv(s)
    ensures Live(Step(s, e), q) ==> Live(s, q)
    ensures e.pid != q ==> SameProc(s, Step(s, e), q)
  {
    if Live(s, e.pid) && e.Act? { ActKeeps(s, e.pid, e.choice); }
  }

  lemma {:induction false} SoloLiveness(s: State, p: Pid, n: nat, q: Pid)
    requires Inv(s) && q != p
    ensures SameProc(s, Solo(s, p, n), q)
    decreases n
  {
    if n == 0 {
      assert SoloEvents(p, 0) == [];
    } else {
      SoloLiveness(s, p, n - 1, q);
      SoloNext(s, p, n - 1);
      RunKeepsInv(s, SoloEvents(p, n - 1));
      NobodyRevives(Solo(s, p, n - 1), Act(p, Go), q);
    }
  }

  lemma SoloThroughNone(s: State, p: Pid, dead: bool)
    requires Passing(s, p, Prune, dead)
    ensures Passing(Solo(s, p, 2), p, OpenLock, dead)
    ensures Calm(s, Solo(s, p, 2), p)
  {
    AlonePrune(s, p, dead);
    AloneFirstLook(Next(s, p), p, dead);
    SoloOne(s, p);
    SoloOne(Next(s, p), p);
    SoloAdd(s, p, 1, 1);
  }

  lemma SoloThroughEmpty(s: State, p: Pid, dead: bool, d: Dir)
    requires LockIs(s, dead) && At(s, p, Prune) && s.guard == Some(d) && d.marker == None
    ensures Passing(Solo(s, p, 6), p, OpenLock, dead)
    ensures Calm(s, Solo(s, p, 6), p)
  {
    assert SoloEvents(p, 0) == [];
    SoloNext(s, p, 0);
    LookStart(s, p, dead, d);
    SoloNext(s, p, 1);
    LookStat(Solo(s, p, 1), p, dead, d, None);
    SoloNext(s, p, 2);
    LookEmpty(Solo(s, p, 2), p, dead, d);
    SoloNext(s, p, 3);
    LookStat(Solo(s, p, 3), p, dead, d, Some(EmptyDir(d.ino)));
    SoloNext(s, p, 4);
    LookEmptyAgain(Solo(s, p, 4), p, dead, d);
    SoloNext(s, p, 5);
    LookRemove(Solo(s, p, 5), p, dead, d, Some(EmptyDir(d.ino)));
  }

  lemma SoloLooksDead(s: State, p: Pid, dead: bool, d: Dir, first: Option<Sight>)
    requires Looking(s, p, dead, GuardStat, d, first) && d.marker.Some?
    ensures Looking(Solo(s, p, 3), p, dead, GuardLive, d, first)
    ensures Solo(s, p, 3).lock == s.lock
    ensures Calm(s, Solo(s, p, 3), p)
  {
    Solo3(s, p);
    LookStat(s, p, dead, d, first);
    LookList(Next(s, p), p, dead, d, first);
    LookMark(Next(Next(s, p), p), p, dead, d, first);
  }

  lemma SoloOne(s: State, p: Pid)
    ensures Solo(s, p, 1) == Next(s, p)
  {
    SoloNext(s, p, 0);
    assert SoloEvents(p, 0) == [];
  }

  lemma SoloFirstLook(s: State, p: Pid, dead: bool, d: Dir)
    requires LockIs(s, dead) && At(s, p, Prune) && s.guard == Some(d) && d.marker.Some?
    ensures Looking(Solo(s, p, 4), p, dead, GuardLive, d, None) && Solo(s, p, 4).lock == s.lock
    ensures Calm(s, Solo(s, p, 4), p)
  {
    SoloOne(s, p);
    LookStart(s, p, dead, d);
    SoloLooksDead(Next(s, p), p, dead, d, None);
    SoloAdd(s, p, 1, 3);
  }

  lemma SoloSecondLook(s: State, p: Pid, dead: bool, d: Dir)
    requires Looking(s, p, dead, GuardLive, d, None) && d.marker.Some? && !Live(s, d.marker.value.pid)
    ensures Looking(Solo(s, p, 4), p, dead, GuardLive, d, Some(DeadOwner(d.ino, d.marker.value)))
    ensures Calm(s, Solo(s, p, 4), p)
  {
    SoloOne(s, p);
    LookDead(s, p, dead, d);
    SoloLooksDead(Next(s, p), p, dead, d, Some(DeadOwner(d.ino, d.marker.value)));
    SoloAdd(s, p, 1, 3);
  }

  lemma SoloReaps(s: State, p: Pid, dead: bool, d: Dir)
    requires d.marker.Some? && !Live(s, d.marker.value.pid)
    requires Looking(s, p, dead, GuardLive, d, Some(DeadOwner(d.ino, d.marker.value)))
    ensures Passing(Solo(s, p, 3), p, OpenLock, dead)
    ensures Calm(s, Solo(s, p, 3), p)
  {
    var first := Some(DeadOwner(d.ino, d.marker.value));
    Solo3(s, p);
    LookDeadAgain(s, p, dead, d);
    LookReap(Next(s, p), p, dead, d, first);
    LookRemove(Next(Next(s, p), p), p, dead, d.(marker := None), first);
  }

  lemma SoloSeesDead(s: State, p: Pid, dead: bool, d: Dir)
    requires Inv(s) && LockIs(s, dead) && At(s, p, Prune)
    requires s.guard == Some(d) && d.marker.Some? && !Live(s, d.marker.value.pid)
    ensures Looking(Solo(s, p, 8), p, dead, GuardLive, d, Some(DeadOwner(d.ino, d.marker.value)))
    ensures Calm(s, Solo(s, p, 8), p)
  {
    SoloFirstLook(s, p, dead, d);
    SoloLiveness(s, p, 4, d.marker.value.pid);
    SoloSecondLook(Solo(s, p, 4), p, dead, d);
    SoloAdd(s, p, 4, 4);
  }

  lemma SoloThroughDead(s: State, p: Pid, dead: bool, d: Dir)
    requires Inv(s) && LockIs(s, dead) && At(s, p, Prune)
    requires s.guard == Some(d) && d.marker.Some? && !Live(s, d.marker.value.pid)
    ensures Passing(Solo(s, p, 11), p, OpenLock, dead)
    ensures Calm(s, Solo(s, p, 11), p)
  {
    SoloSeesDead(s, p, dead, d);
    SoloLiveness(s, p, 8, d.marker.value.pid);
    SoloReaps(Solo(s, p, 8), p, dead, d);
    SoloAdd(s, p, 8, 3);
  }

  /** Nobody, or a dead process, holds the guard. */
  predicate Reapable(s: State) {
    s.guard.Some? && s.guard.value.marker.Some? ==> !Live(s, s.guard.value.marker.value.pid)
  }

  lemma SoloThrough(s: State, p: Pid, dead: bool) returns (n: nat)
    requires Inv(s) && LockIs(s, dead) && At(s, p, Prune) && Reapable(s)
    ensures n <= 11 && Passing(Solo(s, p, n), p, OpenLock, dead)
    ensures Calm(s, Solo(s, p, n), p)
  {
    if s.guard == None {
      n := 2;
      SoloThroughNone(s, p, dead);
    } else if s.guard.value.marker == None {
      n := 6;
      SoloThroughEmpty(s, p, dead, s.guard.value);
    } else {
      n := 11;
      SoloThroughDead(s, p, dead, s.guard.value);
    }
  }

  // ------------------------------------------------------------------ a guard of a live process

  lemma LookLive(s: State, p: Pid, dead: bool, d: Dir)
    requires Looking(s, p, dead, GuardLive, d, None) && Live(s, d.marker.value.pid)
    ensures var s' := Next(s, p); At(s', p, Waiting) && s'.lock == s.lock && s'.guard == s.guard
    ensures Calm(s, Next(s, p), p)
  {
  }

  /** While a live process holds the guard, an attempt of another one looks once and is busy; lock and guard
      stay as they are. */
  lemma HeldGuardMakesBusy(s: State, p: Pid, dead: bool, d: Dir)
    requires Inv(s) && LockIs(s, dead) && At(s, p, Prune) && s.guard == Some(d)
    requires d.marker.Some? && d.marker.value.pid != p && Live(s, d.marker.value.pid)
    ensures var s' := Solo(s, p, 5); At(s', p, Waiting) && s'.lock == s.lock && s'.guard == s.guard
    ensures Calm(s, Solo(s, p, 5), p)
  {
    SoloFirstLook(s, p, dead, d);
    SoloLiveness(s, p, 4, d.marker.value.pid);
    SoloNext(s, p, 4);
    LookLive(Solo(s, p, 4), p, dead, d);
  }

  /** p, outside any recovery of its own, finds its own marker in the guard: a release that failed left it. */
  predicate Stuck(pc: Pc) {
    pc.Idle? || pc.Waiting? || pc.Prune? || pc.PruneMarker? || pc.PruneDir?
    || pc.GuardStat? || pc.GuardList? || pc.GuardMark? || pc.GuardLive?
  }

  predicate Leftover(s: State, p: Pid, t: Token) {
    && GuardHas(s, t) && t.pid == p && Live(s, p) && Stuck(s.procs[p].pc)
    && (Observing(s.procs[p].pc) ==> s.procs[p].first == None)
    && (s.procs[p].pc.GuardMark? || s.procs[p].pc.GuardLive? ==> s.procs[p].seenMarker == t)
  }

  lemma LeftoverOwnStep(s: State, p: Pid, t: Token, c: Choice)
    requires Leftover(s, p, t)
    ensures Leftover(Step(s, Act(p, c)), p, t)
  {
    if Observing(s.procs[p].pc) { LeftoverLooks(s, p, t, c); } else { LeftoverWaits(s, p, t, c); }
  }

  lemma LeftoverLooks(s: State, p: Pid, t: Token, c: Choice)
    requires Leftover(s, p, t) && Observing(s.procs[p].pc)
    ensures Leftover(ActObserving(s, p, s.procs[p], c), p, t)
  {
  }

  lemma LeftoverWaits(s: State, p: Pid, t: Token, c: Choice)
    requires Leftover(s, p, t) && !Observing(s.procs[p].pc)
    ensures Leftover(ActOtherwise(s, p, s.procs[p], c), p, t)
  {
  }

  /** Nobody else removes or replaces the marker of a live process. */
  lemma LiveMarkerStays(s: State, p: Pid, t: Token, e: Event)
    requires Inv(s) && GuardHas(s, t) && t.pid == p && Live(s, p) && e.pid != p
    ensures Step(s, e).guard == s.guard
    ensures Live(Step(s, e), p) && Step(s, e).procs[p] == s.procs[p]
  {
    if Live(s, e.pid) {
      assert ProcInv(s, e.pid);
      match e {
        case Crash(q) => CrashKeeps(s, q);
        case Act(q, c) => ActKeeps(s, q, c); OnlyTheseGuard(s, q, c);
      }
    }
  }

  /** The operations that can change the guard directory. */
  lemma OnlyTheseGuard(s: State, p: Pid, c: Choice)
    requires Live(s, p)
    ensures var s' := Act1(s, p, s.procs[p], c); var pc := s.procs[p].pc;
            || s'.guard == s.guard || s.guard == None || s.guard.value.marker == None
            || (pc.ReapMarker? && GuardHas(s, s.procs[p].seenMarker))
            || (pc.ReleaseMarker? && GuardHas(s, s.procs[p].marker))
  {
    var pc := s.procs[p].pc;
    if Observing(pc) { ObservingGuard(s, p, c); }
    else if Holding(pc) { HoldingGuard(s, p, c); }
    else if Guarding(pc) { GuardingGuard(s, p, c); }
    else { OtherwiseGuard(s, p, c); }
  }

  predicate GuardStays(s: State, s': State) {
    s'.guard == s.guard || s.guard == None || s.guard.value.marker == None
  }

  lemma ObservingGuard(s: State, p: Pid, c: Choice)
    requires Live(s, p) && Observing(s.procs[p].pc)
    ensures var s' := ActObserving(s, p, s.procs[p], c);
            GuardStays(s, s') || (s.procs[p].pc.ReapMarker? && GuardHas(s, s.procs[p].seenMarker))
  {
  }

  lemma HoldingGuard(s: State, p: Pid, c: Choice)
    requires Live(s, p) && Holding(s.procs[p].pc)
    ensures ActHolding(s, p, s.procs[p], c).guard == s.guard
  {
  }

  lemma GuardingGuard(s: State, p: Pid, c: Choice)
    requires Live(s, p) && Guarding(s.procs[p].pc)
    ensures var s' := ActGuarding(s, p, s.procs[p], c);
            GuardStays(s, s') || (s.procs[p].pc.ReleaseMarker? && GuardHas(s, s.procs[p].marker))
  {
  }

  lemma PruningGuard(s: State, p: Pid, c: Choice)
    requires Live(s, p)
    requires var pc := s.procs[p].pc;
             pc.Idle? || pc.Waiting? || pc.Prune? || pc.PruneMarker? || pc.PruneDir?
             || pc.UnstageMarker? || pc.UnstageDir?
    ensures ActOtherwise(s, p, s.procs[p], c).guard == s.guard
  {
  }

  lemma LockingGuard(s: State, p: Pid, c: Choice)
    requires Live(s, p)
    requires var pc := s.procs[p].pc;
             pc.OpenLock? || pc.Reopen? || pc.LockStat? || pc.LockRead? || pc.LockLive? || pc.RemoveDetached?
    ensures ActOtherwise(s, p, s.procs[p], c).guard == s.guard
  {
  }

  lemma PublishingGuard(s: State, p: Pid, c: Choice)
    requires Live(s, p) && (s.procs[p].pc.MakeStaging? || Staging(s.procs[p].pc) || s.procs[p].pc.ReleaseDir?)
    ensures GuardStays(s, ActOtherwise(s, p, s.procs[p], c))
  {
  }

  lemma OtherwiseGuard(s: State, p: Pid, c: Choice)
    requires Live(s, p)
    requires var pc := s.procs[p].pc; !Observing(pc) && !Holding(pc) && !Guarding(pc)
    ensures GuardStays(s, ActOtherwise(s, p, s.procs[p], c))
  {
    var pc := s.procs[p].pc;
    if pc.MakeStaging? || Staging(pc) || pc.ReleaseDir? { PublishingGuard(s, p, c); }
    else if pc.OpenLock? || pc.Reopen? || pc.LockStat? || pc.LockRead? || pc.LockLive? || pc.RemoveDetached? {
      LockingGuard(s, p, c);
    } else { PruningGuard(s, p, c); }
  }

  /** A marker that p's failed release left in the guard stays as long as p lives, and p never holds the lock
      again: its own liveness makes every observation of the guard busy. */
  lemma {:induction false} LeftoverBlocksItsOwner(s: State, p: Pid, t: Token, more: seq<Event>)
    requires Inv(s) && Leftover(s, p, t)
    ensures var s' := Run(s, more); Live(s', p) ==> Leftover(s', p, t) && !Holding(s'.procs[p].pc)
  {
    if more != [] {
      var before, e := Run(s, more[..|more| - 1]), more[|more| - 1];
      LeftoverBlocksItsOwner(s, p, t, more[..|more| - 1]);
      RunKeepsInv(s, more[..|more| - 1]);
      NobodyRevives(before, e, p);
      if Live(Step(before, e), p) {
        if e.pid == p { LeftoverOwnStep(before, p, t, e.choice); } else { LiveMarkerStays(before, p, t, e); }
      }
    }
  }

  lemma DeadLockStays(s: State, p: Pid, t: Token, e: Event)
    requires Inv(s) && Leftover(s, p, t) && s.lock.Some? && !Live(s, s.lock.value.creator)
    ensures Step(s, e).lock == s.lock && Step(s, e).report == s.report
  {
    if Live(s, e.pid) && e.Act? {
      assert ProcInv(s, e.pid);
      OnlyTheseMove(s, e.pid, e.choice);
    }
  }

  /** And while p lives, a dead process's lock behind that marker is reclaimed by nobody. */
  lemma {:induction false} LeftoverBlocksEverybody(s: State, p: Pid, t: Token, more: seq<Event>)
    requires Inv(s) && Leftover(s, p, t) && s.lock.Some? && !Live(s, s.lock.value.creator)
    ensures var s' := Run(s, more);
            Live(s', p) ==>
              && s'.lock == s.lock && s'.report == s.report && !Live(s', s.lock.value.creator)
              && forall q :: Live(s', q) ==> !Holding(s'.procs[q].pc)
  {
    RunKeepsInv(s, more);
    if more != [] {
      var before, e := Run(s, more[..|more| - 1]), more[|more| - 1];
      LeftoverBlocksEverybody(s, p, t, more[..|more| - 1]);
      LeftoverBlocksItsOwner(s, p, t, more[..|more| - 1]);
      RunKeepsInv(s, more[..|more| - 1]);
      NobodyRevives(before, e, p);
      NobodyRevives(before, e, s.lock.value.creator);
      if Live(before, p) { DeadLockStays(before, p, t, e); }
    }
    var s' := Run(s, more);
    forall q | Live(s', p) && Live(s', q) ensures !Holding(s'.procs[q].pc) {
      assert ProcInv(s', q);
    }
  }

  // ------------------------------------------------------------------ who can take over

  ghost predicate CanAcquire(s: State, p: Pid) {
    exists more: seq<Event> :: Live(Run(s, more), p) && Holding(Run(s, more).procs[p].pc)
  }

  lemma CanAcquireLater(s: State, p: Pid, more: seq<Event>)
    requires CanAcquire(Run(s, more), p)
    ensures CanAcquire(s, p)
  {
    var rest: seq<Event> :| var s' := Run(Run(s, more), rest); Live(s', p) && Holding(s'.procs[p].pc);
    RunAppend(s, more, rest);
    assert Live(Run(s, more + rest), p);
  }

  predicate OwnGuard(s: State, p: Pid) {
    s.guard.Some? && s.guard.value.marker.Some? && s.guard.value.marker.value.pid == p
  }

  /** Behind a missing, empty or dead-owned guard it needs nobody else and at most 27 steps of its attempt. */
  lemma TakesOverAlone(s: State, p: Pid) returns (n: nat)
    requires Inv(s) && DeadLock(s) && Reapable(s) && At(s, p, Prune)
    ensures n <= 27 && At(Solo(s, p, n), p, WriteOwnerBegin)
  {
    n := SoloThrough(s, p, true);
    SoloTakesOver(Solo(s, p, n), p);
    SoloAdd(s, p, n, 16);
    n := n + 16;
  }

  lemma ReapableIsTakenOver(s: State, p: Pid)
    requires Inv(s) && DeadLock(s) && Reapable(s) && At(s, p, Idle)
    ensures CanAcquire(s, p)
  {
    var e := Act(p, Begin(D.SetSection(D.Server, "")));
    BeginAlone(s, p, D.SetSection(D.Server, ""));
    StepKeepsInv(s, e);
    var n := TakesOverAlone(Run(s, [e]), p);
    assert At(Run(Run(s, [e]), SoloEvents(p, n)), p, WriteOwnerBegin);
    CanAcquireLater(s, p, [e]);
  }

  lemma WrittenOwnerIsTakenOver(s: State, p: Pid)
    requires Inv(s) && DeadLock(s) && At(s, p, Idle) && !OwnGuard(s, p)
    ensures CanAcquire(s, p)
  {
    if Reapable(s) {
      ReapableIsTakenOver(s, p);
    } else {
      var e := Crash(s.guard.value.marker.value.pid);
      RunOne(s, e);
      StepKeepsInv(s, e);
      ReapableIsTakenOver(Step(s, e), p);
      CanAcquireLater(s, p, [e]);
    }
  }

  lemma RunOne(s: State, e: Event)
    ensures Run(s, [e]) == Step(s, e)
  {
    assert [e][..0] == [];
  }

  lemma WedgedIsNeverTakenOver(s: State, p: Pid)
    requires Inv(s) && Wedged(s)
    ensures !CanAcquire(s, p)
  {
    forall more: seq<Event> | Live(Run(s, more), p) ensures !Holding(Run(s, more).procs[p].pc) {
      WedgedForever(s, more);
      RunKeepsInv(s, more);
      assert ProcInv(Run(s, more), p);
    }
  }

  lemma OwnGuardIsNeverPassed(s: State, p: Pid)
    requires Inv(s) && At(s, p, Idle) && OwnGuard(s, p)
    ensures !CanAcquire(s, p)
  {
    forall more: seq<Event> | Live(Run(s, more), p) ensures !Holding(Run(s, more).procs[p].pc) {
      LeftoverBlocksItsOwner(s, p, s.guard.value.marker.value, more);
    }
  }

  /** Whatever the guard holds, an idle process has a run in which it takes over the lock of a dead one exactly
      when the owner record was completely written before the death and the guard is not one that it left
      itself: a missing, empty or dead-owned guard is passed alone, a live process's once that process died. */
  lemma TakenOverIffOwnerWritten(s0: State, events: seq<Event>, p: Pid)
    requires Initial(s0)
    requires var s := Run(s0, events); s.lock.Some? && !Live(s, s.lock.value.creator) && At(s, p, Idle)
    ensures var s := Run(s0, events); CanAcquire(s, p) <==> s.lock.value.content.Owner? && !OwnGuard(s, p)
  {
    var s := Run(s0, events);
    ReachableInv(s0, events);
    if !s.lock.value.content.Owner? { WedgedIsNeverTakenOver(s, p); }
    else if OwnGuard(s, p) { OwnGuardIsNeverPassed(s, p); }
    else { WrittenOwnerIsTakenOver(s, p); }
  }

  // ------------------------------------------------------------------ such states are reached

  predicate Untouched(s: State, p: Pid, pc: Pc, ino: nat) {
    s.lock == None && s.guard == None && At(s, p, pc) && s.nextIno == ino
  }

  /** p has just created the lock file, and its owner record is still missing. */
  predicate Created(s: State, p: Pid) {
    At(s, p, WriteOwnerBegin) && s.guard == None && s.lock == Some(LockFile(s.procs[p].fd, Empty, p))
  }

  lemma CreatesPrune(s: State, p: Pid, ino: nat)
    requires Untouched(s, p, Prune, ino)
    ensures var s' := Next(s, p);
            Untouched(s', p, GuardStat, ino) && s'.procs[p].purpose == BeforeOpen && s'.procs[p].first == None
  {
  }

  lemma CreatesLook(s: State, p: Pid, ino: nat)
    requires Untouched(s, p, GuardStat, ino) && s.procs[p].purpose == BeforeOpen && s.procs[p].first == None
    ensures Untouched(Next(s, p), p, OpenLock, ino)
  {
  }

  lemma CreatesOpen(s: State, p: Pid, ino: nat)
    requires Untouched(s, p, OpenLock, ino)
    ensures Created(Next(s, p), p)
  {
  }

  lemma SoloCreates(s: State, p: Pid)
    requires s.lock == None && s.guard == None && At(s, p, Prune)
    ensures Created(Solo(s, p, 3), p)
  {
    Solo3(s, p);
    CreatesPrune(s, p, s.nextIno);
    CreatesLook(Next(s, p), p, s.nextIno);
    CreatesOpen(Next(Next(s, p), p), p, s.nextIno);
  }

  lemma BeginAlone(s: State, p: Pid, u: D.Update)
    requires At(s, p, Idle)
    ensures var s' := Step(s, Act(p, Begin(u)));
            At(s', p, Prune) && s'.lock == s.lock && s'.guard == s.guard && (forall q :: Live(s', q) == Live(s, q))
    ensures Run(s, [Act(p, Begin(u))]) == Step(s, Act(p, Begin(u)))
  {
    var e := Act(p, Begin(u));
    assert [e][..0] == [];
    assert Run(s, []) == s;
  }

  lemma CrashWedges(s: State, p: Pid)
    requires Created(s, p)
    ensures Wedged(Step(s, Crash(p)))
  {
  }

  lemma CreatedAlone(s0: State, p: Pid, first: Event)
    requires At(s0, p, Idle) && s0.lock == None && s0.guard == None && first == Act(p, Begin(D.SetSection(D.Server, "")))
    ensures Created(Run(s0, [first] + SoloEvents(p, 3)), p)
  {
    BeginAlone(s0, p, D.SetSection(D.Server, ""));
    SoloCreates(Step(s0, first), p);
    RunAppend(s0, [first], SoloEvents(p, 3));
  }

  /** And a death between creating the lock file and writing its owner does happen. */
  lemma CrashCanWedge(s0: State, p: Pid)
    requires Initial(s0) && Live(s0, p)
    ensures exists events: seq<Event> :: Wedged(Run(s0, events))
  {
    var first := Act(p, Begin(D.SetSection(D.Server, "")));
    CreatedAlone(s0, p, first);
    var most := [first] + SoloEvents(p, 3);
    CrashWedges(Run(s0, most), p);
    var events := most + [Crash(p)];
    assert events[..|events| - 1] == most;
    assert Wedged(Run(s0, events));
  }

  lemma WritesOwner(s: State, q: Pid)
    requires Created(s, q)
    ensures var s' := Next(Next(s, q), q);
            At(s', q, ReadReport) && s'.guard == None && s'.lock.Some?
            && s'.lock.value.creator == q && s'.lock.value.content.Owner? && s'.lock.value.content.pid == q
  {
    assert At(Next(s, q), q, WriteOwnerEnd);
  }

  lemma DiesAsOwner(s: State, q: Pid)
    requires At(s, q, ReadReport) && s.guard == None && s.lock.Some?
    requires s.lock.value.creator == q && s.lock.value.content.Owner? && s.lock.value.content.pid == q
    ensures var s' := Step(s, Crash(q)); Reclaimable(s') && s'.lock == s.lock && !Live(s', q)
  {
  }

  /** q creates the lock and completes its owner record. */
  lemma OwnerReached(s0: State, q: Pid)
    requires Initial(s0) && Live(s0, q)
    ensures var s := Run(s0, OwnerEvents(q));
            && At(s, q, ReadReport) && s.guard == None && s.lock.Some?
            && s.lock.value.creator == q && s.lock.value.content.Owner? && s.lock.value.content.pid == q
  {
    var first := Act(q, Begin(D.SetSection(D.Server, "")));
    var s := Run(s0, [first] + SoloEvents(q, 3));
    CreatedAlone(s0, q, first);
    WritesOwner(s, q);
    SoloTwo(s, q);
    RunAppend(s0, [first] + SoloEvents(q, 3), SoloEvents(q, 2));
  }

  function OwnerEvents(q: Pid): seq<Event> {
    [Act(q, Begin(D.SetSection(D.Server, "")))] + SoloEvents(q, 3) + SoloEvents(q, 2)
  }

  lemma SoloTwo(s: State, p: Pid)
    ensures Solo(s, p, 2) == Next(Next(s, p), p)
  {
    SoloOne(s, p);
    SoloNext(s, p, 1);
  }

  /** A process that dies with its owner record complete. */
  lemma DeadOwnerReached(s0: State, p: Pid, q: Pid) returns (events: seq<Event>)
    requires Initial(s0) && Live(s0, p) && Live(s0, q) && p != q
    ensures var s := Run(s0, events); Reclaimable(s) && !Live(s, s.lock.value.creator) && At(s, p, Idle)
  {
    var most := OwnerEvents(q);
    OwnerReached(s0, q);
    DiesAsOwner(Run(s0, most), q);
    RunOne(Run(s0, most), Crash(q));
    RunAppend(s0, most, [Crash(q)]);
    events := most + [Crash(q)];
    OnlyQ(s0, events, p, q);
  }

  lemma {:induction false} OnlyQ(s: State, events: seq<Event>, p: Pid, q: Pid)
    requires Initial(s) && p != q && forall i :: 0 <= i < |events| ==> events[i].pid == q
    ensures SameProc(s, Run(s, events), p)
  {
    if events != [] {
      OnlyQ(s, events[..|events| - 1], p, q);
      ReachableInv(s, events[..|events| - 1]);
      NobodyRevives(Run(s, events[..|events| - 1]), events[|events| - 1], p);
    }
  }

  /** A recovery that loses access to the lock and then to the guard: it ends with its own guard left behind. */
  lemma FailedRelease(s: State, p: Pid)
    requires Guarded(s, p, ReclaimStat) && s.procs[p].marker.pid == p
    ensures var s' := Step(Step(s, Act(p, Fault)), Act(p, Fault));
            At(s', p, Idle) && OwnGuard(s', p) && DeadLock(s')
  {
    var s1 := Step(s, Act(p, Fault));
    assert At(s1, p, ReleaseMarker) && s1.guard == s.guard;
  }

  lemma SoloToGuard(s: State, p: Pid)
    requires Inv(s) && Clear(s, p, Prune)
    ensures Guarded(Solo(s, p, 10), p, ReclaimStat)
  {
    SoloThroughNone(s, p, true);
    SoloOpen(Solo(s, p, 2), p);
    SoloAdd(s, p, 2, 1);
    SoloObserve(Solo(s, p, 3), p);
    SoloAdd(s, p, 3, 3);
    SoloStage(Solo(s, p, 6), p);
    SoloAdd(s, p, 6, 3);
    AlonePublish(Solo(s, p, 9), p);
    SoloNext(s, p, 9);
  }

  /** From a state with a complete dead lock, two failed operations leave p's own guard. */
  lemma LeavesGuard(s: State, p: Pid) returns (events: seq<Event>)
    requires Inv(s) && Reclaimable(s) && At(s, p, Idle)
    ensures var s' := Run(s, events); At(s', p, Idle) && OwnGuard(s', p) && DeadLock(s')
  {
    var begin := Act(p, Begin(D.SetSection(D.Server, "")));
    BeginAlone(s, p, D.SetSection(D.Server, ""));
    StepKeepsInv(s, begin);
    var s1 := Run(s, [begin]);
    SoloToGuard(s1, p);
    RunKeepsInv(s1, SoloEvents(p, 10));
    var s2 := Solo(s1, p, 10);
    assert ProcInv(s2, p);
    FailedRelease(s2, p);
    RunOne(s2, Act(p, Fault));
    RunOne(Step(s2, Act(p, Fault)), Act(p, Fault));
    RunAppend(s2, [Act(p, Fault)], [Act(p, Fault)]);
    RunAppend(s1, SoloEvents(p, 10), [Act(p, Fault)] + [Act(p, Fault)]);
    RunAppend(s, [begin], SoloEvents(p, 10) + ([Act(p, Fault)] + [Act(p, Fault)]));
    events := [begin] + (SoloEvents(p, 10) + ([Act(p, Fault)] + [Act(p, Fault)]));
  }

  /** So a process whose cleanup failed can stand before a complete dead lock that it can never take over. */
  lemma FailedReleaseCanBlock(s0: State, p: Pid, q: Pid)
    requires Initial(s0) && Live(s0, p) && Live(s0, q) && p != q
    ensures exists events: seq<Event> ::
              var s := Run(s0, events);
              At(s, p, Idle) && DeadLock(s) && !CanAcquire(s, p)
  {
    var most := DeadOwnerReached(s0, p, q);
    ReachableInv(s0, most);
    var more := LeavesGuard(Run(s0, most), p);
    RunAppend(s0, most, more);
    ReachableInv(s0, most + more);
    OwnGuardIsNeverPassed(Run(s0, most + more), p);
  }
}
