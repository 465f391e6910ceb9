/** The extension's command handlers as interleaved steps, one for each await, with worker restarts
    (extension/background.js, runtime/delivery-ack.js, delivery-discard.js, delivery-review.js).
    One handler at a time holds the turn gate; a restart loses the gate and the handler, never the stored state. */
module DeliveryProtocol {
  import opened Common
  import opened ExtensionState
  import opened DeliveryOwnership
  import opened TurnGuard

  // ------------------------------------------------------------------ handlers

  datatype PromptRequest = PromptRequest(
    requestId: string, controllerMessageId: string, run: string, session: Option<string>)

  /** What an operator confirms when discarding: the delivery and its owner. */
  datatype DiscardRequest = DiscardRequest(
    delivery: string, session: Option<string>, run: Option<string>, url: Option<string>, reason: string,
    missingConfirmed: bool)

  datatype Handler =
    | PromptRead(prompt: PromptRequest)
    | PromptTarget(prompt: PromptRequest, seen: State)
    | PromptBind(prompt: PromptRequest, seen: State, target: Binding)
    | PromptReserve(prompt: PromptRequest)
    | PromptCheck(prompt: PromptRequest, reserved: State, ticket: nat)
    | PromptUnsend(prompt: PromptRequest, ticket: nat)
    | PromptAwait(prompt: PromptRequest, reserved: State, ticket: nat)
    | PromptSettle(prompt: PromptRequest)
    | PrepareRead(bind: Bind, bootstrap: bool, explicit: bool)
    | PrepareBind(bind: Bind)
    | Acknowledge(id: string, from: Option<string>)
    | DiscardRead(request: DiscardRequest)
    | DiscardWrite(request: DiscardRequest, seen: State)
    | SelectScope(session: string, id: string)
    | Recheck

  /** What the outside world decides at a step: whether it fails, and what it reports. */
  datatype Choice =
    | Go
    | Fail
    | Target(binding: Binding)
    | Promoted(url: string, conversation: string, document: string)
    | Observed(patch: Patch)

  datatype Event =
    | Begin(handler: Handler)
    | Step(choice: Choice)
    | Meddle(patch: Patch)
    | Restart

  // ------------------------------------------------------------------ the world

  datatype Held = Held(session: string, delivery: string)

  datatype How = Acknowledged | Discarded | NotSent

  /** `cur` is what the next read returns. The rest is history: every reservation made, the tickets dispatched to
      a page, how each settled ticket ended, and which ticket each session's unresolved delivery belongs to. */
  datatype World = World(
    cur: State, handler: Option<Handler>,
    reservations: seq<Held>, dispatched: seq<nat>, settled: map<nat, How>, tickets: map<string, nat>)

  /** Writes that never name a delivery: tab, document, status, error and target tracking. */
  predicate Harmless(p: Patch) {
    p.url.None? && p.conversation.None? && p.delivery.None? && p.discarded.None? && p.completed.None?
  }

  const UNCHANGED: Patch :=
    Patch(None, None, None, None, None, None, None, None, None, None, None, None, None, None)

  function Written(reg: Registry, w: World, p: Patch): World { w.(cur := Next(reg, w.cur, Change(p))) }

  function Done(w: World): World { w.(handler := None) }

  function Proceed(w: World, h: Handler): World { w.(handler := Some(h)) }

  function Settle(w: World, session: Option<string>, how: How): World {
    if session.Some? && session.value in w.tickets then
      w.(settled := w.settled[w.tickets[session.value] := how], tickets := w.tickets - {session.value})
    else w
  }

  // ------------------------------------------------------------------ handlePrompt

  predicate PromptMatches(m: PromptRequest, s: State) {
    NonBlank(m.controllerMessageId) && NonBlank(m.run) && s.active.binding.run == Some(m.run)
    && (m.session.None? || m.session == s.session)
  }

  function StepPromptRead(w: World, m: PromptRequest): World {
    if PromptMatches(m, w.cur) then Proceed(w, PromptTarget(m, w.cur)) else Done(w)
  }

  /** The delivery seen at the first read is checked only after the target is resolved; a target has a URL. */
  function StepPromptTarget(w: World, m: PromptRequest, seen: State, c: Choice): World {
    if !c.Target? || Text(c.binding.url).None? || seen.active.delivery.Some? then Done(w) else Proceed(w, PromptBind(m, seen, c.binding))
  }

  function TargetBind(seen: State, target: Binding): Bind {
    Bind(if seen.session.Some? then seen.session.value else "", target.(run := seen.active.binding.run),
         if target.conversation.None? then RootReady else Bound, Some(None), None)
  }

  function StepPromptBind(reg: Registry, w: World, m: PromptRequest, seen: State, target: Binding): World {
    var op := BindTo(TargetBind(seen, target));
    if OutcomeOf(reg, w.cur, op).Err? then Done(w)
    else Proceed(w.(cur := Next(reg, w.cur, op)), PromptReserve(m))
  }

  function StepPromptReserve(reg: Registry, w: World, m: PromptRequest): World {
    var op := Op.Reserve(m.requestId);
    if OutcomeOf(reg, w.cur, op).Err? || w.cur.session.None? then Done(w)
    else
      var session, ticket := w.cur.session.value, |w.reservations|;
      Proceed(w.(cur := Next(reg, w.cur, op), reservations := w.reservations + [Held(session, m.requestId)],
                 tickets := w.tickets[session := ticket]),
              PromptCheck(m, Next(reg, w.cur, op), ticket))
  }

  /** Dispatch needs a captured turn, unless the page is a new conversation, and an exact document. */
  predicate MayDispatch(m: PromptRequest, reserved: State) {
    && (reserved.status.RootReady? || CaptureTurnBinding(reserved, m.requestId, m.controllerMessageId, m.run).Ok?)
    && reserved.active.binding.document.Some? && reserved.active.binding.frame == Some(0)
  }

  function StepPromptCheck(w: World, m: PromptRequest, reserved: State, ticket: nat, c: Choice): World {
    if c.Go? && MayDispatch(m, reserved)
    then Proceed(w.(dispatched := w.dispatched + [ticket]), PromptAwait(m, reserved, ticket))
    else Proceed(w, PromptUnsend(m, ticket))
  }

  /** The failure path before dispatch clears the delivery as if it had been acknowledged. */
  function StepPromptUnsend(reg: Registry, w: World, m: PromptRequest): World {
    var op := Clear(m.requestId, None);
    var next := Done(w.(cur := Next(reg, w.cur, op)));
    if OutcomeOf(reg, w.cur, op).Ok? && w.cur.active.delivery.Some? then Settle(next, w.cur.session, NotSent) else next
  }

  predicate StillOwns(w: World, m: PromptRequest, reserved: State) {
    var b, r := w.cur.active.binding, reserved.active.binding;
    w.cur.active.delivery == Some(m.requestId) && w.cur.session == reserved.session && b.run == r.run
    && b.tab == r.tab
  }

  function PromotedPatch(url: string, conversation: string, document: string): Patch {
    UNCHANGED.(url := Some(Some(url)), conversation := Some(Some(conversation)), document := Some(Some(document)),
               status := Some(Bound))
  }

  /** After dispatch the delivery is kept whatever happens; a new conversation's address is patched in. */
  function StepPromptAwait(reg: Registry, w: World, m: PromptRequest, reserved: State, c: Choice): World {
    match c
    case Promoted(url, conversation, document) =>
      if reserved.status.RootReady? && StillOwns(w, m, reserved) then
        Proceed(Written(reg, w, PromotedPatch(url, conversation, document)), PromptSettle(m))
      else Done(w)
    case Observed(p) => if p.delivery.None? && p.url.None? && p.discarded.None? then Proceed(Written(reg, w, p), PromptSettle(m)) else Done(w)
    case _ => Done(w)
  }

  /** Observed message ids, then the completed response. */
  function StepPromptSettle(reg: Registry, w: World, m: PromptRequest, c: Choice): World {
    if c.Observed? && c.patch.delivery.None? && c.patch.url.None? && c.patch.discarded.None?
    then Proceed(Written(reg, w, c.patch), PromptSettle(m)) else Done(w)
  }

  // ------------------------------------------------------------------ the other handlers

  /** A request for a new conversation names no conversation, whatever start page is then bound. */
  function RequestedUrl(b: Bind, bootstrap: bool): Option<string> { if bootstrap then None else b.binding.url }

  function RequestedConversation(b: Bind, bootstrap: bool): Option<string> {
    if bootstrap then None else b.binding.conversation
  }

  /** An explicit rebind skips the guard. */
  function StepPrepareRead(w: World, b: Bind, bootstrap: bool, explicit: bool): World {
    if explicit || (b.binding.run.Some?
                    && PrepareAllowed(w.cur, b.session, b.binding.run.value, RequestedUrl(b, bootstrap), RequestedConversation(b, bootstrap)))
    then Proceed(w, PrepareBind(b)) else Done(w)
  }

  function StepPrepareBind(reg: Registry, w: World, b: Bind, c: Choice): World {
    if c.Go? then Done(w.(cur := Next(reg, w.cur, BindTo(b)))) else Done(w)
  }

  function StepAcknowledge(reg: Registry, w: World, id: string, session: Option<string>): World {
    var op := Clear(id, session);
    var next := Done(w.(cur := Next(reg, w.cur, op)));
    if OutcomeOf(reg, w.cur, op).Ok? && w.cur.active.delivery.Some? then Settle(next, w.cur.session, Acknowledged) else next
  }

  /** The discard that is asked for is the last one that was made: it is confirmed and nothing is written. */
  predicate HasDiscardReceipt(r: DiscardRequest, s: State) {
    s.active.delivery.None? && s.discarded == Some(Receipt(r.delivery, r.session, r.run, r.url))
    && s.session == r.session && s.active.binding.run == r.run && s.active.binding.url == r.url
  }

  predicate DiscardAllowed(r: DiscardRequest, s: State) {
    && NonBlank(r.delivery) && s.active.completed.None? && s.scopes == map[] && !HasDiscardReceipt(r, s)
    && (s.active.delivery == Some(r.delivery) || (s.active.delivery.None? && r.missingConfirmed))
    && s.session == r.session && s.active.binding.run == r.run && s.active.binding.url == r.url
  }

  const DISCARDED: string := "RECOVERY_DISCARDED: "

  function DiscardPatch(r: DiscardRequest, seen: State): Patch {
    UNCHANGED.(delivery := Some(None), completed := Some(None), status := Some(Status.NeedsRebind),
               error := Some(Some(DISCARDED + r.reason)),
               discarded := Some(Some(Receipt(r.delivery, seen.session, seen.active.binding.run, seen.active.binding.url))))
  }

  function DiscardExpected(seen: State): Expected {
    var b := seen.active.binding;
    Expected(Some(seen.session), Some(b.run), Some(b.url), Some(b.tab), Some(b.document), Some(b.frame),
             Some(seen.active.delivery), true, Some(seen.scopes), None)
  }

  function StepDiscardRead(w: World, r: DiscardRequest): World {
    if DiscardAllowed(r, w.cur) then Proceed(w, DiscardWrite(r, w.cur)) else Done(w)
  }

  function DiscardWritten(reg: Registry, w: World, e: Expected, p: Patch): World {
    if UpdatedIf(reg, w.cur, e, p).Err? then Done(w)
    else Settle(Done(w.(cur := Next(reg, w.cur, ChangeIf(e, p)))), w.cur.session, Discarded)
  }

  /** The write happens only if the owner is still the one that was read. */
  function StepDiscardWrite(reg: Registry, w: World, r: DiscardRequest, seen: State, c: Choice): World {
    if c.Go? then DiscardWritten(reg, w, DiscardExpected(seen), DiscardPatch(r, seen)) else Done(w)
  }

  function StepSelectScope(reg: Registry, w: World, session: string, id: string): World {
    Done(w.(cur := Next(reg, w.cur, Select(session, id))))
  }

  /** Recovery and response rechecks read, and patch the tab or the completed response. */
  function StepRecheck(reg: Registry, w: World, c: Choice): World {
    if c.Observed? && c.patch.delivery.None? && c.patch.url.None? && c.patch.discarded.None?
    then Proceed(Written(reg, w, c.patch), Recheck) else Done(w)
  }

  // ------------------------------------------------------------------ one event, and runs

  predicate Entry(h: Handler) {
    match h
    case PromptRead(m) => NonBlank(m.requestId)
    case PrepareRead(_, _, _) => true
    case Acknowledge(_, _) => true
    case DiscardRead(_) => true
    case SelectScope(_, _) => true
    case Recheck => true
    case _ => false
  }

  function PromptStep(reg: Registry, w: World, h: Handler, c: Choice): World
    requires h.PromptRead? || h.PromptTarget? || h.PromptBind? || h.PromptReserve? || h.PromptCheck? || h.PromptUnsend?
             || h.PromptAwait? || h.PromptSettle?
  {
    match h
    case PromptRead(m) => StepPromptRead(w, m)
    case PromptTarget(m, seen) => StepPromptTarget(w, m, seen, c)
    case PromptBind(m, seen, target) => StepPromptBind(reg, w, m, seen, target)
    case PromptReserve(m) => StepPromptReserve(reg, w, m)
    case PromptCheck(m, reserved, ticket) => StepPromptCheck(w, m, reserved, ticket, c)
    case PromptUnsend(m, _) => StepPromptUnsend(reg, w, m)
    case PromptAwait(m, reserved, _) => StepPromptAwait(reg, w, m, reserved, c)
    case PromptSettle(m) => StepPromptSettle(reg, w, m, c)
  }

  function HandlerStep(reg: Registry, w: World, h: Handler, c: Choice): World {
    match h
    case PrepareRead(b, bootstrap, explicit) => StepPrepareRead(w, b, bootstrap, explicit)
    case PrepareBind(b) => StepPrepareBind(reg, w, b, c)
    case Acknowledge(id, session) => StepAcknowledge(reg, w, id, session)
    case DiscardRead(r) => StepDiscardRead(w, r)
    case DiscardWrite(r, seen) => StepDiscardWrite(reg, w, r, seen, c)
    case SelectScope(session, id) => StepSelectScope(reg, w, session, id)
    case Recheck => StepRecheck(reg, w, c)
    case _ => PromptStep(reg, w, h, c)
  }

  function Happen(reg: Registry, w: World, e: Event): World {
    match e
    case Begin(h) => if w.handler.None? && Entry(h) then Proceed(w, h) else w
    case Step(c) => if w.handler.Some? then HandlerStep(reg, w, w.handler.value, c) else w
    case Meddle(p) => if Harmless(p) then Written(reg, w, p) else w
    case Restart => Done(w)
  }

  function History(reg: Registry, w: World, events: seq<Event>): World {
    if events == [] then w else Happen(reg, History(reg, w, events[..|events| - 1]), events[|events| - 1])
  }

  /** Installed with nothing unresolved. */
  predicate Fresh(w: World) {
    Tidy(w.cur) && w.cur.scopes == map[] && w.cur.active.delivery.None? && w.handler.None?
    && w.reservations == [] && w.dispatched == [] && w.settled == map[] && w.tickets == map[]
  }
}
