/** The conversations of unresolved deliveries, over whole runs of the extension's handlers. */
module DeliveryTargets {
  import opened Common
  import opened ExtensionState
  import opened DeliveryOwnership
  import opened DeliveryProtocol
  import opened DeliverySafety

  // ------------------------------------------------------------------ the events that collide

  /** Unresolved deliveries have pairwise different conversations. */
  predicate Targeted(s: State) { Sound(s) && Distinct(s) }

  /** A bind that would put the delivery of its session on no conversation or on another delivery's. */
  predicate Misplaces(reg: Registry, s: State, b: Bind) {
    SessionBound(reg, s, b).Ok? && Enters(s, b.session) && !Free(s, b.session, Text(b.binding.url))
  }

  /** The same for a new conversation whose address becomes known while its delivery is unresolved. */
  predicate PromotesOnto(w: World, m: PromptRequest, reserved: State, c: Choice) {
    c.Promoted? && reserved.status.RootReady? && StillOwns(w, m, reserved) && !Separate(w.cur, Text(Some(c.url)))
  }

  /** Exactly the steps after which two unresolved deliveries share a conversation, or one has none. */
  predicate Collides(reg: Registry, w: World, e: Event) {
    e.Step? && w.handler.Some?
    && match w.handler.value
       case PrepareBind(b) => e.choice.Go? && Misplaces(reg, w.cur, b)
       case PromptAwait(m, reserved, _) => PromotesOnto(w, m, reserved, e.choice)
       case _ => false
  }

  /** What a prompt knows of the state it has read. */
  predicate Ready(s: State, h: Handler) {
    match h
    case PromptTarget(_, seen) => s.session == seen.session && s.active.delivery == seen.active.delivery
    case PromptBind(_, seen, target) =>
      s.session == seen.session && s.active.delivery.None? && Text(target.url).Some?
    case PromptReserve(_) => s.active.binding.url.Some? && s.active.binding.run.Some?
    case _ => true
  }

  predicate TargetInv(w: World) {
    Targeted(w.cur) && (w.handler.Some? ==> Ready(w.cur, w.handler.value))
  }

  /** Every unresolved delivery has a run. */
  predicate Known(s: State) {
    (forall k <- s.scopes :: s.scopes[k].binding.run.Some?) && (s.active.delivery.Some? ==> s.active.binding.run.Some?)
  }

  // ------------------------------------------------------------------ mutations

  /** Equal as far as targets are concerned. */
  predicate SameTargets(a: State, b: State) {
    && b.session == a.session && b.scopes == a.scopes && b.active.delivery == a.active.delivery
    && b.active.binding.url == a.active.binding.url && b.active.binding.run == a.active.binding.run
  }

  lemma SameTargeted(a: State, b: State)
    requires Targeted(a) && SameTargets(a, b) && Tidy(b)
    ensures Targeted(b) && (Known(a) ==> Known(b))
  {
    SameDistinct(a, b);
  }

  lemma NormalizedTargets(reg: Registry, s: State)
    requires Consistent(reg) && Targeted(s)
    ensures Targeted(Normalize(reg, s)) && SameTargets(s, Normalize(reg, s)) && (Known(s) ==> Known(Normalize(reg, s)))
  {
    NormalizeKeeps(reg, s);
    ReadIsTidy(reg, s);
    SameTargeted(s, Normalize(reg, s));
  }

  lemma PatchTargets(reg: Registry, cur: State, p: Patch)
    requires Consistent(reg) && Targeted(cur) && p.url.None? && p.delivery.None?
    ensures var n := Next(reg, cur, Change(p)); Targeted(n) && SameTargets(cur, n) && (Known(cur) ==> Known(n))
  {
    var m := Updated(reg, cur, p);
    MergedTidy(reg, cur, p);
    PatchedSame(reg, cur, p);
    SameTargeted(cur, m);
    NormalizedTargets(reg, m);
  }

  lemma PatchedSame(reg: Registry, cur: State, p: Patch)
    requires Consistent(reg) && Tidy(cur) && p.url.None? && p.delivery.None?
    ensures SameTargets(cur, Updated(reg, cur, p))
  {
    TidyScopes(cur.scopes);
    assert TidySlot(cur.active);
  }

  lemma DroppedTargeted(a: State, b: State)
    requires Targeted(a) && b.session == a.session && b.scopes == a.scopes && b.active.delivery.None? && Tidy(b)
    ensures Targeted(b) && (Known(a) ==> Known(b))
  {
  }

  lemma ClearTargets(reg: Registry, cur: State, id: string, from: Option<string>)
    requires Consistent(reg) && Targeted(cur)
    ensures var n := Next(reg, cur, Clear(id, from)); Targeted(n) && (Known(cur) ==> Known(n))
  {
    if Cleared(reg, cur, id, from).Ok? {
      ClearedState(reg, cur, id, from);
      DroppedTargeted(cur, Cleared(reg, cur, id, from).value);
      NormalizedTargets(reg, Cleared(reg, cur, id, from).value);
    }
  }

  lemma DiscardTargets(reg: Registry, cur: State, e: Expected, p: Patch)
    requires Consistent(reg) && Targeted(cur) && p.delivery == Some(None)
    ensures var n := Next(reg, cur, ChangeIf(e, p)); Targeted(n) && (Known(cur) ==> Known(n))
  {
    if UpdatedIf(reg, cur, e, p).Ok? {
      MergedTidy(reg, cur, p);
      assert Updated(reg, cur, p).active.delivery.None?;
      DroppedTargeted(cur, Updated(reg, cur, p));
      NormalizedTargets(reg, Updated(reg, cur, p));
    }
  }

  lemma ReserveTargets(reg: Registry, cur: State, id: string)
    requires Consistent(reg) && Targeted(cur) && cur.active.binding.url.Some? && cur.active.binding.run.Some?
    requires cur.session.Some?
    ensures var n := Next(reg, cur, Op.Reserve(id)); Targeted(n) && (Known(cur) ==> Known(n))
  {
    if Reserved(reg, cur, id).Ok? {
      ReservedState(reg, cur, id);
      ReserveSeparates(reg, cur, id);
      NormalizedTargets(reg, Reserved(reg, cur, id).value);
    }
  }

  lemma SelectTargets(reg: Registry, cur: State, session: string, id: string)
    requires Consistent(reg) && Targeted(cur)
    ensures var n := Next(reg, cur, Select(session, id)); Targeted(n) && (Known(cur) ==> Known(n))
  {
    if ScopeSelected(reg, cur, session, id).Ok? {
      SelectedState(reg, cur, session, id);
      SelectLands(reg, cur, session, id);
      SelectSeparates(reg, cur, session, id);
      NormalizedTargets(reg, ScopeSelected(reg, cur, session, id).value);
    }
  }

  lemma BindTargets(reg: Registry, cur: State, b: Bind)
    requires Consistent(reg) && Targeted(cur) && SessionBound(reg, cur, b).Ok?
    ensures var n := Next(reg, cur, BindTo(b));
            && Sound(n) && (Distinct(n) <==> !Misplaces(reg, cur, b)) && (Known(cur) ==> Known(n))
            && n.active.binding.url == Text(b.binding.url) && n.active.binding.run == b.binding.run
  {
    var n := SessionBound(reg, cur, b).value;
    BoundState(reg, cur, b);
    BindLands(reg, cur, b);
    BindSeparates(reg, cur, b);
    NormalizeKeeps(reg, n);
    ReadIsTidy(reg, n);
    SameDistinct(n, Normalize(reg, n));
  }

  lemma PromoteTargets(reg: Registry, cur: State, p: Patch, url: string)
    requires Consistent(reg) && Targeted(cur) && p.delivery.None? && p.url == Some(Some(url)) && cur.active.delivery.Some?
    ensures var n := Next(reg, cur, Change(p));
            Sound(n) && (Distinct(n) <==> Separate(cur, Text(Some(url)))) && (Known(cur) ==> Known(n))
  {
    var m := Updated(reg, cur, p);
    MergedTidy(reg, cur, p);
    TidyScopes(cur.scopes);
    assert TidySlot(cur.active);
    NormalizeKeeps(reg, m);
    ReadIsTidy(reg, m);
    SameDistinct(m, Normalize(reg, m));
  }

  // ------------------------------------------------------------------ one event

  /** What is shown of each step: it collides exactly as described, and otherwise keeps everything. */
  predicate Steps(w: World, w': World, collides: bool) {
    && Sound(w'.cur) && (Distinct(w'.cur) <==> !collides) && (!collides ==> TargetInv(w'))
    && (Known(w.cur) ==> Known(w'.cur))
  }

  lemma PromptBindTargets(reg: Registry, w: World, m: PromptRequest, seen: State, target: Binding)
    requires Consistent(reg) && TargetInv(w) && w.handler == Some(PromptBind(m, seen, target))
    ensures Steps(w, StepPromptBind(reg, w, m, seen, target), false)
  {
    var b := TargetBind(seen, target);
    if SessionBound(reg, w.cur, b).Ok? { BindTargets(reg, w.cur, b); }
  }

  lemma AwaitTargets(reg: Registry, w: World, m: PromptRequest, reserved: State, c: Choice)
    requires Consistent(reg) && TargetInv(w)
    ensures Steps(w, StepPromptAwait(reg, w, m, reserved, c), PromotesOnto(w, m, reserved, c))
  {
    if c.Promoted? && reserved.status.RootReady? && StillOwns(w, m, reserved) {
      PromoteTargets(reg, w.cur, PromotedPatch(c.url, c.conversation, c.document), c.url);
    }
    if c.Observed? && c.patch.delivery.None? && c.patch.url.None? { PatchTargets(reg, w.cur, c.patch); }
  }

  lemma ReserveStepTargets(reg: Registry, w: World, m: PromptRequest)
    requires Consistent(reg) && TargetInv(w) && w.handler == Some(PromptReserve(m))
    ensures Steps(w, StepPromptReserve(reg, w, m), false)
  {
    if w.cur.session.Some? { ReserveTargets(reg, w.cur, m.requestId); }
  }

  lemma UnsendTargets(reg: Registry, w: World, m: PromptRequest)
    requires Consistent(reg) && TargetInv(w)
    ensures Steps(w, StepPromptUnsend(reg, w, m), false)
  {
    ClearTargets(reg, w.cur, m.requestId, None);
  }

  lemma SettleTargets(reg: Registry, w: World, m: PromptRequest, c: Choice)
    requires Consistent(reg) && TargetInv(w)
    ensures Steps(w, StepPromptSettle(reg, w, m, c), false)
  {
    if c.Observed? && c.patch.delivery.None? && c.patch.url.None? { PatchTargets(reg, w.cur, c.patch); }
  }

  lemma PromptTargets(reg: Registry, w: World, h: Handler, c: Choice)
    requires Consistent(reg) && TargetInv(w) && w.handler == Some(h)
    requires h.PromptRead? || h.PromptTarget? || h.PromptBind? || h.PromptReserve? || h.PromptCheck? || h.PromptUnsend?
             || h.PromptAwait? || h.PromptSettle?
    ensures Steps(w, PromptStep(reg, w, h, c), Collides(reg, w, Step(c)))
  {
    match h
    case PromptRead(m) =>
    case PromptTarget(m, seen) =>
    case PromptBind(m, seen, target) => PromptBindTargets(reg, w, m, seen, target);
    case PromptReserve(m) => ReserveStepTargets(reg, w, m);
    case PromptCheck(m, reserved, ticket) =>
    case PromptUnsend(m, ticket) => UnsendTargets(reg, w, m);
    case PromptAwait(m, reserved, ticket) => AwaitTargets(reg, w, m, reserved, c);
    case PromptSettle(m) => SettleTargets(reg, w, m, c);
  }

  lemma PrepareBindTargets(reg: Registry, w: World, b: Bind, c: Choice)
    requires Consistent(reg) && TargetInv(w)
    ensures Steps(w, StepPrepareBind(reg, w, b, c), c.Go? && Misplaces(reg, w.cur, b))
  {
    if SessionBound(reg, w.cur, b).Ok? { BindTargets(reg, w.cur, b); }
  }

  lemma AcknowledgeTargets(reg: Registry, w: World, id: string, from: Option<string>)
    requires Consistent(reg) && TargetInv(w)
    ensures Steps(w, StepAcknowledge(reg, w, id, from), false)
  {
    ClearTargets(reg, w.cur, id, from);
  }

  lemma DiscardWriteTargets(reg: Registry, w: World, e: Expected, p: Patch)
    requires Consistent(reg) && TargetInv(w) && p.delivery == Some(None)
    ensures Steps(w, DiscardWritten(reg, w, e, p), false)
  {
    DiscardTargets(reg, w.cur, e, p);
  }

  lemma SelectStepTargets(reg: Registry, w: World, session: string, id: string)
    requires Consistent(reg) && TargetInv(w)
    ensures Steps(w, StepSelectScope(reg, w, session, id), false)
  {
    SelectTargets(reg, w.cur, session, id);
  }

  lemma RecheckTargets(reg: Registry, w: World, c: Choice)
    requires Consistent(reg) && TargetInv(w)
    ensures Steps(w, StepRecheck(reg, w, c), false)
  {
    if c.Observed? && c.patch.delivery.None? && c.patch.url.None? { PatchTargets(reg, w.cur, c.patch); }
  }

  lemma HandlerTargets(reg: Registry, w: World, h: Handler, c: Choice)
    requires Consistent(reg) && TargetInv(w) && w.handler == Some(h)
    ensures Steps(w, HandlerStep(reg, w, h, c), Collides(reg, w, Step(c)))
  {
    match h
    case PrepareRead(b, bootstrap, explicit) =>
    case PrepareBind(b) => PrepareBindTargets(reg, w, b, c);
    case Acknowledge(id, from) => AcknowledgeTargets(reg, w, id, from);
    case DiscardRead(r) =>
    case DiscardWrite(r, seen) => DiscardWriteTargets(reg, w, DiscardExpected(seen), DiscardPatch(r, seen));
    case SelectScope(session, id) => SelectStepTargets(reg, w, session, id);
    case Recheck => RecheckTargets(reg, w, c);
    case _ => PromptTargets(reg, w, h, c);
  }

  /** An event makes two unresolved deliveries share a conversation, or leaves one without, exactly when it is a
      bind or a promotion that puts a delivery on such a conversation. */
  lemma HappenTargets(reg: Registry, w: World, e: Event)
    requires Consistent(reg) && TargetInv(w)
    ensures Steps(w, Happen(reg, w, e), Collides(reg, w, e))
  {
    match e
    case Begin(h) =>
    case Step(c) => if w.handler.Some? { HandlerTargets(reg, w, w.handler.value, c); }
    case Meddle(p) => if Harmless(p) { PatchTargets(reg, w.cur, p); }
    case Restart =>
  }

  // ------------------------------------------------------------------ whole runs

  ghost predicate NoCollision(reg: Registry, w0: World, events: seq<Event>) {
    forall n :: 0 <= n < |events| ==> !Collides(reg, History(reg, w0, events[..n]), events[n])
  }

  ghost predicate AlwaysDistinct(reg: Registry, w0: World, events: seq<Event>) {
    forall n :: 0 <= n <= |events| ==> Distinct(History(reg, w0, events[..n]).cur)
  }

  lemma {:induction false} HistoryTargets(reg: Registry, w0: World, events: seq<Event>)
    requires Consistent(reg) && Fresh(w0) && NoCollision(reg, w0, events)
    ensures TargetInv(History(reg, w0, events))
  {
    if events != [] {
      var past := events[..|events| - 1];
      forall n | 0 <= n < |past| ensures !Collides(reg, History(reg, w0, past[..n]), past[n]) {
        assert past[..n] == events[..n];
      }
      HistoryTargets(reg, w0, past);
      assert events[..|events| - 1] == past;
      HappenTargets(reg, History(reg, w0, past), events[|events| - 1]);
    }
  }

  lemma PrefixCollides(reg: Registry, w0: World, events: seq<Event>, n: nat)
    requires Consistent(reg) && Fresh(w0) && n <= |events| && NoCollision(reg, w0, events[..n])
    ensures Distinct(History(reg, w0, events[..n]).cur)
    ensures n < |events| ==>
              (Distinct(History(reg, w0, events[..n + 1]).cur) <==> !Collides(reg, History(reg, w0, events[..n]), events[n]))
  {
    HistoryTargets(reg, w0, events[..n]);
    if n < |events| {
      assert events[..n + 1][..n] == events[..n];
      HappenTargets(reg, History(reg, w0, events[..n]), events[n]);
    }
  }

  lemma {:induction false} DistinctHasNoCollision(reg: Registry, w0: World, events: seq<Event>, n: nat)
    requires Consistent(reg) && Fresh(w0) && n <= |events| && AlwaysDistinct(reg, w0, events)
    ensures NoCollision(reg, w0, events[..n])
  {
    if n > 0 {
      DistinctHasNoCollision(reg, w0, events, n - 1);
      PrefixCollides(reg, w0, events, n - 1);
      forall k | 0 <= k < n ensures !Collides(reg, History(reg, w0, events[..n][..k]), events[..n][k]) {
        assert events[..n][..k] == events[..k];
        if k < n - 1 { assert events[..n - 1][..k] == events[..k] && events[..n - 1][k] == events[k]; }
      }
    }
  }

  /** Over every interleaving and restart, all unresolved deliveries have conversations and no two have the same,
      at every moment of the run, exactly if no bind or promotion of the run collides. */
  lemma DistinctIffNoCollision(reg: Registry, w0: World, events: seq<Event>)
    requires Consistent(reg) && Fresh(w0)
    ensures AlwaysDistinct(reg, w0, events) <==> NoCollision(reg, w0, events)
  {
    assert events[..|events|] == events;
    if AlwaysDistinct(reg, w0, events) { DistinctHasNoCollision(reg, w0, events, |events|); }
    if NoCollision(reg, w0, events) {
      forall n | 0 <= n <= |events| ensures Distinct(History(reg, w0, events[..n]).cur) {
        forall k | 0 <= k < n ensures !Collides(reg, History(reg, w0, events[..n][..k]), events[..n][k]) {
          assert events[..n][..k] == events[..k];
        }
        PrefixCollides(reg, w0, events, n);
      }
    }
  }

  // ------------------------------------------------------------------ the guard of a prepared session

  /** The two things the guard does not see: an explicit rebind, and a new conversation getting its address. */
  predicate InPlace(e: Event) {
    match e
    case Begin(h) => h.PrepareRead? && h.explicit
    case Step(c) => c.Promoted?
    case _ => false
  }

  /** A bind that does not move the active session's own unresolved delivery. */
  predicate Stays(s: State, b: Bind) {
    s.session == Some(b.session) && s.active.delivery.Some? && s.active.binding.run == b.binding.run ==>
      b.binding.url == s.active.binding.url
  }

  predicate GuardInv(w: World) {
    TargetInv(w) && Known(w.cur)
    && (w.handler.Some? ==>
          match w.handler.value
          case PrepareRead(_, _, explicit) => !explicit
          case PrepareBind(b) => Stays(w.cur, b)
          case _ => true)
  }

  lemma StayingIsFree(reg: Registry, cur: State, b: Bind)
    requires Targeted(cur) && Known(cur) && Stays(cur, b)
    ensures !Misplaces(reg, cur, b)
  {
    if SessionBound(reg, cur, b).Ok? && Enters(cur, b.session) {
      assert TidySlot(cur.active);
      if cur.session != Some(b.session) { assert TidySlot(cur.scopes[b.session]); }
      assert EnteredUrl(cur, b.session) == Text(b.binding.url);
      OwnUrlIsFree(cur, b.session);
    }
  }

  lemma GuardedPrepare(reg: Registry, w: World, c: Choice)
    requires GuardInv(w) && w.handler.Some? && w.handler.value.PrepareRead?
    ensures var h := w.handler.value;
            var w' := StepPrepareRead(w, h.bind, h.bootstrap, h.explicit);
            w'.cur == w.cur && (w'.handler.Some? ==> w'.handler.value.PrepareBind? && Stays(w.cur, w'.handler.value.bind))
  {
  }

  /** No other step enters one of the guarded places, and none moves what the guard has looked at. */
  lemma GuardStays(reg: Registry, w: World, e: Event)
    requires Consistent(reg) && GuardInv(w) && !InPlace(e)
    ensures var w' := Happen(reg, w, e);
            w'.handler.Some? ==>
              match w'.handler.value
              case PrepareRead(_, _, explicit) => !explicit
              case PrepareBind(b) => Stays(w'.cur, b)
              case _ => true
  {
    match e
    case Begin(h) =>
    case Step(c) =>
      if w.handler.Some? && w.handler.value.PrepareRead? { GuardedPrepare(reg, w, c); }
    case Meddle(p) => if Harmless(p) { PatchTargets(reg, w.cur, p); }
    case Restart =>
  }

  lemma {:induction false} GuardHolds(reg: Registry, w0: World, events: seq<Event>)
    requires Consistent(reg) && Fresh(w0) && forall e <- events :: !InPlace(e)
    ensures GuardInv(History(reg, w0, events))
  {
    if events != [] {
      var past, e := events[..|events| - 1], events[|events| - 1];
      var w := History(reg, w0, past);
      GuardHolds(reg, w0, past);
      assert !InPlace(e);
      GuardedEvent(reg, w, e);
    }
  }

  /** On a run without those two, the guard is enough: nothing collides. */
  lemma GuardedEvent(reg: Registry, w: World, e: Event)
    requires Consistent(reg) && GuardInv(w) && !InPlace(e)
    ensures !Collides(reg, w, e) && GuardInv(Happen(reg, w, e))
  {
    if e.Step? && w.handler.Some? && w.handler.value.PrepareBind? { StayingIsFree(reg, w.cur, w.handler.value.bind); }
    HappenTargets(reg, w, e);
    GuardStays(reg, w, e);
  }

  /** So over every such run all unresolved deliveries have pairwise different conversations. */
  lemma TargetsStayDistinct(reg: Registry, w0: World, events: seq<Event>)
    requires Consistent(reg) && Fresh(w0) && forall e <- events :: !InPlace(e)
    ensures Distinct(History(reg, w0, events).cur)
  {
    GuardHolds(reg, w0, events);
  }
}
