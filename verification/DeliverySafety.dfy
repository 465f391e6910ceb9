/** What every interleaving of the extension's handlers keeps. */
module DeliverySafety {
  import opened Common
  import opened ExtensionState
  import opened DeliveryOwnership
  import opened DeliveryProtocol

  // ------------------------------------------------------------------ who owns what

  /** The unresolved delivery of a session. */
  function DeliveryOf(s: State, session: string): Option<string> {
    if s.session == Some(session) then s.active.delivery
    else if session in s.scopes then s.scopes[session].delivery else None
  }

  predicate Sound(s: State) { Tidy(s) && Apart(s) && Owned(s) }

  ghost predicate SameDeliveries(a: State, b: State) {
    Sound(b) && forall k :: DeliveryOf(b, k) == DeliveryOf(a, k)
  }

  lemma NormalizedDeliveries(reg: Registry, s: State)
    requires Consistent(reg) && Sound(s)
    ensures SameDeliveries(s, Normalize(reg, s)) && Normalize(reg, s).session == s.session
  {
    NormalizeKeeps(reg, s);
    ReadIsTidy(reg, s);
  }

  lemma BindSame(reg: Registry, cur: State, b: Bind)
    requires Consistent(reg) && Sound(cur)
    ensures SameDeliveries(cur, Next(reg, cur, BindTo(b)))
    ensures SessionBound(reg, cur, b).Ok? ==> Next(reg, cur, BindTo(b)).session == Some(b.session)
  {
    if SessionBound(reg, cur, b).Ok? {
      BoundState(reg, cur, b);
      BindLands(reg, cur, b);
      NormalizedDeliveries(reg, SessionBound(reg, cur, b).value);
    }
  }

  lemma SelectSame(reg: Registry, cur: State, session: string, id: string)
    requires Consistent(reg) && Sound(cur)
    ensures SameDeliveries(cur, Next(reg, cur, Select(session, id)))
  {
    if ScopeSelected(reg, cur, session, id).Ok? {
      SelectedState(reg, cur, session, id);
      SelectLands(reg, cur, session, id);
      NormalizedDeliveries(reg, ScopeSelected(reg, cur, session, id).value);
    }
  }

  lemma PatchSame(reg: Registry, cur: State, p: Patch)
    requires Consistent(reg) && Sound(cur) && p.delivery.None?
    ensures var n := Next(reg, cur, Change(p)); SameDeliveries(cur, n) && n.session == cur.session
  {
    MergedTidy(reg, cur, p);
    NormalizedDeliveries(reg, Updated(reg, cur, p));
  }

  /** Only the active session's delivery changes. */
  ghost predicate Resets(cur: State, n: State, delivery: Option<string>) {
    && Sound(n) && n.session == cur.session && cur.session.Some?
    && (forall k :: DeliveryOf(n, k) == if cur.session == Some(k) then delivery else DeliveryOf(cur, k))
  }

  lemma ReserveResets(reg: Registry, cur: State, id: string)
    requires Consistent(reg) && Sound(cur) && cur.session.Some? && Reserved(reg, cur, id).Ok?
    ensures Resets(cur, Next(reg, cur, Op.Reserve(id)), Some(id)) && cur.active.delivery.None?
  {
    ReservedState(reg, cur, id);
    NormalizedDeliveries(reg, Reserved(reg, cur, id).value);
  }

  lemma ClearResets(reg: Registry, cur: State, id: string, from: Option<string>)
    requires Consistent(reg) && Sound(cur)
    ensures var n := Next(reg, cur, Clear(id, from));
            if Cleared(reg, cur, id, from).Ok? && cur.active.delivery.Some?
            then Resets(cur, n, None) && cur.active.delivery == Some(id)
            else SameDeliveries(cur, n) && n.session == cur.session
  {
    if Cleared(reg, cur, id, from).Ok? {
      ClearedState(reg, cur, id, from);
      NormalizedDeliveries(reg, Cleared(reg, cur, id, from).value);
    }
  }

  lemma DiscardResets(reg: Registry, cur: State, e: Expected, p: Patch)
    requires Consistent(reg) && Sound(cur) && p.delivery == Some(None) && UpdatedIf(reg, cur, e, p).Ok?
    ensures var n := Next(reg, cur, ChangeIf(e, p));
            if cur.session.Some? then Resets(cur, n, None) else SameDeliveries(cur, n) && n.session == cur.session
  {
    MergedTidy(reg, cur, p);
    TidyScopes(cur.scopes);
    assert Updated(reg, cur, p).active.delivery.None?;
    NormalizedDeliveries(reg, Updated(reg, cur, p));
  }

  // ------------------------------------------------------------------ the invariant

  /** Each unresolved delivery has its own open ticket, and each open ticket its unresolved delivery. */
  ghost predicate TicketsMatch(w: World) {
    && (forall k :: k in w.tickets <==> DeliveryOf(w.cur, k).Some?)
    && (forall k <- w.tickets ::
          w.tickets[k] < |w.reservations| && w.tickets[k] !in w.settled
          && w.reservations[w.tickets[k]] == Held(k, DeliveryOf(w.cur, k).value))
    && (forall t :: 0 <= t < |w.reservations| && t !in w.settled ==>
          w.reservations[t].session in w.tickets && w.tickets[w.reservations[t].session] == t)
    && (forall t <- w.settled :: t < |w.reservations|)
  }

  predicate DispatchedOnce(w: World) {
    && (forall i :: 0 <= i < |w.dispatched| ==> w.dispatched[i] < |w.reservations|)
    && (forall i, j :: 0 <= i < j < |w.dispatched| ==> w.dispatched[i] != w.dispatched[j])
    && (forall t <- w.settled :: w.settled[t].NotSent? ==> t !in w.dispatched)
  }

  /** A prompt between its reservation and its dispatch still holds the active session's ticket, undispatched. */
  predicate Holds(w: World, m: PromptRequest, ticket: nat) {
    && w.cur.session.Some? && w.cur.active.delivery == Some(m.requestId) && w.cur.session.value in w.tickets
    && w.tickets[w.cur.session.value] == ticket && ticket < |w.reservations| && ticket !in w.dispatched
  }

  predicate HandlerHolds(w: World) {
    w.handler.Some? ==>
      match w.handler.value
      case PromptCheck(m, _, ticket) => Holds(w, m, ticket)
      case PromptUnsend(m, ticket) => Holds(w, m, ticket)
      case _ => true
  }

  ghost predicate Inv(w: World) {
    Sound(w.cur) && TicketsMatch(w) && DispatchedOnce(w) && HandlerHolds(w)
  }

  // ------------------------------------------------------------------ preservation

  lemma FreshInv(w: World)
    requires Fresh(w)
    ensures Inv(w)
  {
  }

  /** A write that leaves deliveries and the active session alone keeps the bookkeeping. */
  lemma QuietKeeps(w: World, n: State, h: Option<Handler>)
    requires Inv(w) && SameDeliveries(w.cur, n)
    requires var w' := w.(cur := n, handler := h);
             h.Some? && (h.value.PromptCheck? || h.value.PromptUnsend?) ==> n.session == w.cur.session && h == w.handler
    ensures Inv(w.(cur := n, handler := h))
  {
    var w' := w.(cur := n, handler := h);
    if h.Some? && (h.value.PromptCheck? || h.value.PromptUnsend?) {
      assert DeliveryOf(n, n.session.value) == DeliveryOf(w.cur, w.cur.session.value);
    }
  }

  function Opened(w: World, n: State, id: string): World
    requires w.cur.session.Some?
  {
    w.(cur := n, reservations := w.reservations + [Held(w.cur.session.value, id)],
       tickets := w.tickets[w.cur.session.value := |w.reservations|])
  }

  /** A reservation opens a fresh ticket for the active session. */
  lemma OpenTickets(w: World, n: State, id: string)
    requires Inv(w) && Resets(w.cur, n, Some(id)) && w.cur.active.delivery.None?
    ensures TicketsMatch(Opened(w, n, id))
  {
    var w', session := Opened(w, n, id), w.cur.session.value;
    assert DeliveryOf(w.cur, session) == None && session !in w.tickets;
    forall k ensures k in w'.tickets <==> DeliveryOf(n, k).Some? { }
    forall k | k in w'.tickets
      ensures w'.tickets[k] < |w'.reservations| && w'.tickets[k] !in w'.settled
      ensures w'.reservations[w'.tickets[k]] == Held(k, DeliveryOf(n, k).value)
    {
      assert k != session ==> k in w.tickets;
    }
    forall t | 0 <= t < |w'.reservations| && t !in w'.settled
      ensures w'.reservations[t].session in w'.tickets && w'.tickets[w'.reservations[t].session] == t
    {
      assert t < |w.reservations| ==> w'.reservations[t] == w.reservations[t] && w.reservations[t].session in w.tickets;
    }
  }

  lemma OpenKeeps(w: World, n: State, id: string, m: PromptRequest, reserved: State)
    requires Inv(w) && Resets(w.cur, n, Some(id)) && w.cur.active.delivery.None? && m.requestId == id
    ensures Inv(Opened(w, n, id).(handler := Some(PromptCheck(m, reserved, |w.reservations|))))
  {
    OpenTickets(w, n, id);
    assert DeliveryOf(n, w.cur.session.value) == Some(id);
  }

  lemma ReserveKeeps(reg: Registry, w: World, m: PromptRequest)
    requires Consistent(reg) && Inv(w) && w.handler == Some(PromptReserve(m))
    ensures Inv(StepPromptReserve(reg, w, m))
  {
    if w.cur.session.Some? && Reserved(reg, w.cur, m.requestId).Ok? {
      ReserveResets(reg, w.cur, m.requestId);
      var n := Next(reg, w.cur, Op.Reserve(m.requestId));
      OpenKeeps(w, n, m.requestId, m, n);
    } else {
      MoveKeeps(w, None);
    }
  }

  lemma SettleTickets(w: World, n: State, how: How)
    requires Inv(w) && Resets(w.cur, n, None)
    ensures TicketsMatch(Settle(w.(cur := n), w.cur.session, how))
  {
    var session := w.cur.session.value;
    var w' := Settle(w.(cur := n), w.cur.session, how);
    assert DeliveryOf(n, session) == None;
    if session in w.tickets {
      assert w.reservations[w.tickets[session]].session == session;
      forall k | k in w'.tickets ensures w'.tickets[k] !in w'.settled {
        assert w.reservations[w.tickets[k]].session == k;
      }
    }
  }

  /** Settling the active session's delivery closes exactly its ticket. */
  lemma SettleKeeps(w: World, n: State, how: How)
    requires Inv(w) && Resets(w.cur, n, None)
    requires how.NotSent? ==> w.cur.session.value in w.tickets ==> w.tickets[w.cur.session.value] !in w.dispatched
    ensures Inv(Settle(Done(w.(cur := n)), w.cur.session, how))
  {
    SettleTickets(w, n, how);
  }

  lemma CheckKeeps(w: World, m: PromptRequest, reserved: State, ticket: nat, c: Choice)
    requires Inv(w) && w.handler == Some(PromptCheck(m, reserved, ticket))
    ensures Inv(StepPromptCheck(w, m, reserved, ticket, c))
  {
    var w' := StepPromptCheck(w, m, reserved, ticket, c);
    assert ticket !in w.settled;
    if w'.dispatched != w.dispatched {
      forall i, j | 0 <= i < j < |w'.dispatched| ensures w'.dispatched[i] != w'.dispatched[j] {
        if j == |w.dispatched| { assert w'.dispatched[i] in w.dispatched; }
      }
    }
  }

  lemma UnsendKeeps(reg: Registry, w: World, m: PromptRequest, ticket: nat)
    requires Consistent(reg) && Inv(w) && w.handler == Some(PromptUnsend(m, ticket))
    ensures Inv(StepPromptUnsend(reg, w, m))
  {
    ClearResets(reg, w.cur, m.requestId, None);
    var n := Next(reg, w.cur, Clear(m.requestId, None));
    if Cleared(reg, w.cur, m.requestId, None).Ok? && w.cur.active.delivery.Some? { SettleKeeps(w, n, NotSent); }
    else { QuietKeeps(w, n, None); }
  }

  lemma AcknowledgeKeeps(reg: Registry, w: World, id: string, session: Option<string>)
    requires Consistent(reg) && Inv(w) && w.handler == Some(Acknowledge(id, session))
    ensures Inv(StepAcknowledge(reg, w, id, session))
  {
    ClearResets(reg, w.cur, id, session);
    var n := Next(reg, w.cur, Clear(id, session));
    if Cleared(reg, w.cur, id, session).Ok? && w.cur.active.delivery.Some? { SettleKeeps(w, n, Acknowledged); }
    else { QuietKeeps(w, n, None); }
  }

  lemma DiscardWriteKeeps(reg: Registry, w: World, e: Expected, p: Patch)
    requires Consistent(reg) && Inv(w) && p.delivery == Some(None)
    ensures Inv(DiscardWritten(reg, w, e, p))
  {
    if UpdatedIf(reg, w.cur, e, p).Ok? {
      DiscardResets(reg, w.cur, e, p);
      var n := Next(reg, w.cur, ChangeIf(e, p));
      if w.cur.session.Some? { SettleKeeps(w, n, Discarded); } else { QuietKeeps(w, n, None); }
    } else {
      MoveKeeps(w, None);
    }
  }

  lemma DiscardKeeps(reg: Registry, w: World, r: DiscardRequest, seen: State, c: Choice)
    requires Consistent(reg) && Inv(w)
    ensures Inv(StepDiscardWrite(reg, w, r, seen, c))
  {
    MoveKeeps(w, None);
    DiscardWriteKeeps(reg, w, DiscardExpected(seen), DiscardPatch(r, seen));
  }

  /** Only the handler moves on. */
  lemma MoveKeeps(w: World, h: Option<Handler>)
    requires Inv(w) && (h.Some? ==> !h.value.PromptCheck? && !h.value.PromptUnsend?)
    ensures Inv(w.(handler := h))
  {
    QuietKeeps(w, w.cur, h);
  }

  lemma WrittenKeeps(reg: Registry, w: World, p: Patch, h: Option<Handler>)
    requires Consistent(reg) && Inv(w) && p.delivery.None?
    requires h.Some? && (h.value.PromptCheck? || h.value.PromptUnsend?) ==> h == w.handler
    ensures Inv(Written(reg, w, p).(handler := h))
  {
    PatchSame(reg, w.cur, p);
    QuietKeeps(w, Next(reg, w.cur, Change(p)), h);
  }

  lemma AwaitKeeps(reg: Registry, w: World, m: PromptRequest, reserved: State, ticket: nat, c: Choice)
    requires Consistent(reg) && Inv(w) && w.handler == Some(PromptAwait(m, reserved, ticket))
    ensures Inv(StepPromptAwait(reg, w, m, reserved, c))
  {
    MoveKeeps(w, None);
    match c
    case Promoted(url, conversation, document) =>
      WrittenKeeps(reg, w, PromotedPatch(url, conversation, document), Some(PromptSettle(m)));
    case Observed(p) => if p.delivery.None? { WrittenKeeps(reg, w, p, Some(PromptSettle(m))); }
    case _ =>
  }

  lemma BindStepKeeps(reg: Registry, w: World, b: Bind, h: Option<Handler>)
    requires Consistent(reg) && Inv(w) && (h.Some? ==> !h.value.PromptCheck? && !h.value.PromptUnsend?)
    ensures Inv(w.(cur := Next(reg, w.cur, BindTo(b)), handler := h))
  {
    BindSame(reg, w.cur, b);
    QuietKeeps(w, Next(reg, w.cur, BindTo(b)), h);
  }

  lemma PromptKeeps(reg: Registry, w: World, h: Handler, c: Choice)
    requires Consistent(reg) && Inv(w) && w.handler == Some(h)
    requires h.PromptRead? || h.PromptTarget? || h.PromptBind? || h.PromptReserve? || h.PromptCheck? || h.PromptUnsend?
             || h.PromptAwait? || h.PromptSettle?
    ensures Inv(PromptStep(reg, w, h, c))
  {
    match h
    case PromptRead(m) => MoveKeeps(w, None); MoveKeeps(w, Some(PromptTarget(m, w.cur)));
    case PromptTarget(m, seen) =>
      MoveKeeps(w, None);
      if c.Target? { MoveKeeps(w, Some(PromptBind(m, seen, c.binding))); }
    case PromptBind(m, seen, target) =>
      MoveKeeps(w, None);
      BindStepKeeps(reg, w, TargetBind(seen, target), Some(PromptReserve(m)));
    case PromptReserve(m) => ReserveKeeps(reg, w, m);
    case PromptCheck(m, reserved, ticket) => CheckKeeps(w, m, reserved, ticket, c);
    case PromptUnsend(m, ticket) => UnsendKeeps(reg, w, m, ticket);
    case PromptAwait(m, reserved, ticket) => AwaitKeeps(reg, w, m, reserved, ticket, c);
    case PromptSettle(m) =>
      MoveKeeps(w, None);
      if c.Observed? && c.patch.delivery.None? { WrittenKeeps(reg, w, c.patch, Some(PromptSettle(m))); }
  }

  lemma SelectKeeps(reg: Registry, w: World, session: string, id: string)
    requires Consistent(reg) && Inv(w)
    ensures Inv(StepSelectScope(reg, w, session, id))
  {
    SelectSame(reg, w.cur, session, id);
    QuietKeeps(w, Next(reg, w.cur, Select(session, id)), None);
  }

  lemma PrepareKeeps(reg: Registry, w: World, b: Bind, c: Choice)
    requires Consistent(reg) && Inv(w)
    ensures Inv(StepPrepareBind(reg, w, b, c))
  {
    if c.Go? { BindStepKeeps(reg, w, b, None); } else { MoveKeeps(w, None); }
  }

  lemma RecheckKeeps(reg: Registry, w: World, c: Choice)
    requires Consistent(reg) && Inv(w)
    ensures Inv(StepRecheck(reg, w, c))
  {
    MoveKeeps(w, None);
    if c.Observed? && c.patch.delivery.None? { WrittenKeeps(reg, w, c.patch, Some(Recheck)); }
  }

  lemma HandlerKeeps(reg: Registry, w: World, h: Handler, c: Choice)
    requires Consistent(reg) && Inv(w) && w.handler == Some(h)
    ensures Inv(HandlerStep(reg, w, h, c))
  {
    match h
    case PrepareRead(b, bootstrap, explicit) => MoveKeeps(w, None); MoveKeeps(w, Some(PrepareBind(b)));
    case PrepareBind(b) => PrepareKeeps(reg, w, b, c);
    case Acknowledge(id, session) => AcknowledgeKeeps(reg, w, id, session);
    case DiscardRead(r) => MoveKeeps(w, None); MoveKeeps(w, Some(DiscardWrite(r, w.cur)));
    case DiscardWrite(r, seen) => DiscardKeeps(reg, w, r, seen, c);
    case SelectScope(session, id) => SelectKeeps(reg, w, session, id);
    case Recheck => RecheckKeeps(reg, w, c);
    case _ => PromptKeeps(reg, w, h, c);
  }

  lemma HappenKeeps(reg: Registry, w: World, e: Event)
    requires Consistent(reg) && Inv(w)
    ensures Inv(Happen(reg, w, e))
  {
    match e
    case Begin(h) => if Entry(h) { MoveKeeps(w, Some(h)); }
    case Step(c) => if w.handler.Some? { HandlerKeeps(reg, w, w.handler.value, c); }
    case Meddle(p) => if Harmless(p) { WrittenKeeps(reg, w, p, w.handler); }
    case Restart => MoveKeeps(w, None);
  }

  lemma {:induction false} ReachableInv(reg: Registry, w: World, events: seq<Event>)
    requires Consistent(reg) && Fresh(w)
    ensures Inv(History(reg, w, events))
  {
    if events == [] {
      FreshInv(w);
    } else {
      ReachableInv(reg, w, events[..|events| - 1]);
      HappenKeeps(reg, History(reg, w, events[..|events| - 1]), events[|events| - 1]);
    }
  }

  // ------------------------------------------------------------------ theorems

  /** Write-ahead, at-most-once: whatever is interleaved, and wherever the worker restarts, no reservation is
      dispatched twice; and while it is neither acknowledged nor discarded, a dispatched delivery is still in the
      state, current or parked, under its own session. */
  lemma DispatchedAtMostOnceAndKept(reg: Registry, w0: World, events: seq<Event>)
    requires Consistent(reg) && Fresh(w0)
    ensures var w := History(reg, w0, events);
            && (forall i, j :: 0 <= i < j < |w.dispatched| ==> w.dispatched[i] != w.dispatched[j])
            && (forall t <- w.dispatched ::
                  t < |w.reservations|
                  && (t in w.settled ==> w.settled[t] != NotSent)
                  && (t !in w.settled ==>
                        var h := w.reservations[t];
                        (Some(h.session), h.delivery) in Pending(w.cur)))
  {
    ReachableInv(reg, w0, events);
    var w := History(reg, w0, events);
    forall t | t in w.dispatched && t < |w.reservations| && t !in w.settled
      ensures (Some(w.reservations[t].session), w.reservations[t].delivery) in Pending(w.cur)
    {
      OwnedIsPending(w.cur, w.reservations[t].session);
    }
  }

  lemma OwnedIsPending(s: State, session: string)
    requires Sound(s) && DeliveryOf(s, session).Some?
    ensures (Some(session), DeliveryOf(s, session).value) in Pending(s)
  {
  }

  /** When a prompt is dispatched, its session owns no other unsettled delivery, dispatched or not. */
  lemma DispatchOwnsItsSession(reg: Registry, w0: World, events: seq<Event>, e: Event)
    requires Consistent(reg) && Fresh(w0)
    requires |Happen(reg, History(reg, w0, events), e).dispatched| > |History(reg, w0, events).dispatched|
    ensures var w := History(reg, w0, events);
            var w' := Happen(reg, w, e);
            var t := w'.dispatched[|w.dispatched|];
            && w'.dispatched == w.dispatched + [t] && t < |w.reservations| && t !in w.settled && t !in w.dispatched
            && (forall u :: 0 <= u < |w.reservations| && u !in w.settled && u != t ==>
                  w.reservations[u].session != w.reservations[t].session)
  {
    var w := History(reg, w0, events);
    ReachableInv(reg, w0, events);
    OnlyCheckDispatches(reg, w, e);
  }

  /** The one step that dispatches ticket t: a checked prompt that goes on, with a turn captured and an exact
      document. */
  predicate Dispatches(w: World, e: Event, t: nat) {
    && e == Step(Go) && w.handler.Some? && w.handler.value.PromptCheck? && w.handler.value.ticket == t
    && MayDispatch(w.handler.value.prompt, w.handler.value.reserved)
  }

  /** Every event dispatches exactly what that step does, and nothing else. */
  lemma OnlyCheckDispatches(reg: Registry, w: World, e: Event)
    ensures var w' := Happen(reg, w, e);
            if w.handler.Some? && w.handler.value.PromptCheck? && Dispatches(w, e, w.handler.value.ticket)
            then w'.dispatched == w.dispatched + [w.handler.value.ticket] else w'.dispatched == w.dispatched
  {
  }

  ghost predicate DispatchedBefore(reg: Registry, w0: World, events: seq<Event>, n: nat, t: nat)
    requires n <= |events|
  {
    exists k :: 0 <= k < n && Dispatches(History(reg, w0, events[..k]), events[k], t)
  }

  lemma DispatchStep(reg: Registry, w: World, e: Event, t: nat)
    ensures t in Happen(reg, w, e).dispatched <==> t in w.dispatched || Dispatches(w, e, t)
  {
    OnlyCheckDispatches(reg, w, e);
  }

  lemma DispatchedStep(reg: Registry, w0: World, events: seq<Event>, n: nat, t: nat)
    requires n < |events|
    ensures DispatchedBefore(reg, w0, events, n + 1, t) <==>
            DispatchedBefore(reg, w0, events, n, t) || Dispatches(History(reg, w0, events[..n]), events[n], t)
  {
  }

  /** A reservation counts as dispatched exactly when that step happened for it. */
  lemma {:induction false} DispatchedIff(reg: Registry, w0: World, events: seq<Event>, n: nat, t: nat)
    requires Fresh(w0) && n <= |events|
    ensures t in History(reg, w0, events[..n]).dispatched <==> DispatchedBefore(reg, w0, events, n, t)
  {
    if n == 0 {
      assert events[..0] == [];
    } else {
      DispatchedIff(reg, w0, events, n - 1, t);
      assert events[..n][..n - 1] == events[..n - 1];
      DispatchStep(reg, History(reg, w0, events[..n - 1]), events[n - 1], t);
      DispatchedStep(reg, w0, events, n - 1, t);
    }
  }

  /** One more event leaves a settled reservation as it is. */
  lemma SettledStays(reg: Registry, w: World, e: Event, t: nat)
    requires Consistent(reg) && Inv(w) && t in w.settled
    ensures var w' := Happen(reg, w, e);
            t in w'.settled && w'.settled[t] == w.settled[t] && (t in w'.dispatched <==> t in w.dispatched)
  {
    OnlyCheckDispatches(reg, w, e);
    SettlesOpenOnly(reg, w, e);
  }

  predicate SettlesOpen(w: World, w': World) {
    forall t <- w.settled :: t in w'.settled && (w'.settled[t] == w.settled[t] || exists k <- w.tickets :: w.tickets[k] == t)
  }

  lemma PromptSettlesOpen(reg: Registry, w: World, h: Handler, c: Choice)
    requires h.PromptRead? || h.PromptTarget? || h.PromptBind? || h.PromptReserve? || h.PromptCheck? || h.PromptUnsend?
             || h.PromptAwait? || h.PromptSettle?
    ensures SettlesOpen(w, PromptStep(reg, w, h, c))
  {
    if h.PromptUnsend? {
      assert w.cur.session.Some? && w.cur.session.value in w.tickets ==>
          exists k <- w.tickets :: w.tickets[k] == w.tickets[w.cur.session.value];
    } else {
      assert PromptStep(reg, w, h, c).settled == w.settled;
    }
  }

  lemma HandlerSettlesOpen(reg: Registry, w: World, h: Handler, c: Choice)
    ensures SettlesOpen(w, HandlerStep(reg, w, h, c))
  {
    if h.Acknowledge? || h.DiscardWrite? {
      assert w.cur.session.Some? && w.cur.session.value in w.tickets ==>
          exists k <- w.tickets :: w.tickets[k] == w.tickets[w.cur.session.value];
    } else if h.PrepareRead? || h.PrepareBind? || h.DiscardRead? || h.SelectScope? || h.Recheck? {
      assert HandlerStep(reg, w, h, c).settled == w.settled;
    } else {
      PromptSettlesOpen(reg, w, h, c);
    }
  }

  /** Only open tickets are settled. */
  lemma SettlesOpenOnly(reg: Registry, w: World, e: Event)
    ensures SettlesOpen(w, Happen(reg, w, e))
  {
    if e.Step? && w.handler.Some? { HandlerSettlesOpen(reg, w, w.handler.value, e.choice); }
  }

  lemma {:induction false} SettledIsFinal(reg: Registry, w: World, events: seq<Event>, t: nat)
    requires Consistent(reg) && Inv(w) && t in w.settled
    ensures var w' := History(reg, w, events);
            Inv(w') && t in w'.settled && w'.settled[t] == w.settled[t] && (t in w'.dispatched <==> t in w.dispatched)
  {
    if events != [] {
      SettledIsFinal(reg, w, events[..|events| - 1], t);
      HappenKeeps(reg, History(reg, w, events[..|events| - 1]), events[|events| - 1]);
      SettledStays(reg, History(reg, w, events[..|events| - 1]), events[|events| - 1], t);
    }
  }

  lemma {:induction false} HistoryAppend(reg: Registry, w: World, a: seq<Event>, b: seq<Event>)
    ensures History(reg, w, a + b) == History(reg, History(reg, w, a), b)
  {
    if b == [] {
      assert a + b == a;
    } else {
      assert (a + b)[..|a + b| - 1] == a + b[..|b| - 1];
      HistoryAppend(reg, w, a, b[..|b| - 1]);
    }
  }

  /** Once a reservation is settled, by an acknowledgement, a discard or a failure, it has been dispatched, then and
      forever, exactly if it had been dispatched before it was settled. */
  lemma SettledDispatchedIff(reg: Registry, w0: World, events: seq<Event>, n: nat, t: nat)
    requires Consistent(reg) && Fresh(w0) && n <= |events| && t in History(reg, w0, events[..n]).settled
    ensures t in History(reg, w0, events).dispatched <==> DispatchedBefore(reg, w0, events, n, t)
  {
    var w := History(reg, w0, events[..n]);
    ReachableInv(reg, w0, events[..n]);
    HistoryAppend(reg, w0, events[..n], events[n..]);
    assert events == events[..n] + events[n..];
    SettledIsFinal(reg, w, events[n..], t);
    DispatchedIff(reg, w0, events, n, t);
  }

  /** A receipt does not mean that anything was sent: a prompt that fails after reserving and before dispatching
      leaves the acknowledgement receipt of its delivery, which is never dispatched. */
  lemma ReceiptWithoutDispatch(reg: Registry, w: World)
    requires Consistent(reg) && Inv(w) && w.handler.Some? && w.handler.value.PromptCheck?
    ensures var m, t := w.handler.value.prompt, w.handler.value.ticket;
            var w' := History(reg, w, [Step(Fail), Step(Go)]);
            NonBlank(m.requestId) ==>
              && w'.handler.None? && t in w'.settled && w'.settled[t] == NotSent && t !in w'.dispatched
              && w'.cur.acknowledged == Some(ReceiptFor(w.cur, m.requestId)) && w'.cur.active.delivery.None?
  {
    var m, t := w.handler.value.prompt, w.handler.value.ticket;
    var failed := Happen(reg, w, Step(Fail));
    var events := [Step(Fail), Step(Go)];
    assert events[..1] == [Step(Fail)] && events[..1][..0] == [];
    assert History(reg, w, events[..1]) == failed;
    assert failed.handler == Some(PromptUnsend(m, t));
    if NonBlank(m.requestId) {
      ClearedState(reg, w.cur, m.requestId, None);
      NormalizeKeeps(reg, Cleared(reg, w.cur, m.requestId, None).value);
    }
  }
}
