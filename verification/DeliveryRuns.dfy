/** Runs of the extension from a fresh installation that show what the handlers do not prevent. */
module DeliveryRuns {
  import opened Common
  import opened ExtensionState
  import opened DeliveryOwnership
  import opened DeliveryProtocol
  import opened DeliverySafety
  import opened DeliveryTargets
  import opened TurnGuard

  // ------------------------------------------------------------------ preparing a session and reserving on it

  /** A session, its run, its conversation and a delivery for it, all named. */
  datatype Job = Job(session: string, run: string, url: string, id: string)

  predicate Named(j: Job) { NonBlank(j.session) && NonBlank(j.run) && NonBlank(j.url) && NonBlank(j.id) }

  function Page(j: Job): Binding {
    Binding(Some(j.run), None, Some(j.url), None, None, None, None, None)
  }

  function BindOf(j: Job): Bind { Bind(j.session, Page(j), RootReady, None, None) }

  function PromptOf(j: Job): PromptRequest { PromptRequest(j.id, "message", j.run, None) }

  function Preparing(j: Job, explicit: bool): seq<Event> {
    [Begin(PrepareRead(BindOf(j), false, explicit)), Step(Go), Step(Go)]
  }

  function Prompting(j: Job): seq<Event> {
    [Begin(PromptRead(PromptOf(j))), Step(Go), Step(Choice.Target(Page(j))), Step(Go), Step(Go)]
  }

  /** Three events, or five, one after the other. */
  lemma Three(reg: Registry, w: World, a: Event, b: Event, c: Event)
    ensures History(reg, w, [a, b, c]) == Happen(reg, Happen(reg, Happen(reg, w, a), b), c)
  {
    assert [a, b, c][..2] == [a, b] && [a, b][..1] == [a] && [a][..0] == [];
    assert History(reg, w, []) == w;
    assert History(reg, w, [a]) == Happen(reg, w, a);
    assert History(reg, w, [a, b]) == Happen(reg, Happen(reg, w, a), b);
  }

  lemma Two(reg: Registry, w: World, a: Event, b: Event)
    ensures History(reg, w, [a, b]) == Happen(reg, Happen(reg, w, a), b)
  {
    assert [a, b][..1] == [a] && [a][..0] == [];
    assert History(reg, w, []) == w;
    assert History(reg, w, [a]) == Happen(reg, w, a);
  }

  /** The session is bound with its run and conversation, and has no delivery yet. */
  predicate Prepared(w: World, j: Job) {
    && Sound(w.cur) && w.handler.None? && w.cur.session == Some(j.session) && w.cur.active.delivery.None?
    && w.cur.active.binding.run == Some(j.run) && w.cur.active.binding.url == Some(j.url)
    && w.cur.active.binding.tab.None?
  }

  predicate SameBooks(w: World, w': World) {
    w'.reservations == w.reservations && w'.dispatched == w.dispatched && w'.settled == w.settled && w'.tickets == w.tickets
  }

  lemma NamedText(j: Job)
    requires Named(j)
    ensures Text(Some(j.url)) == Some(j.url) && j.id != "" && NonBlank("message")
  {
    assert !IsSpace("message"[0]);
  }

  /** Preparing a session that has nothing unresolved succeeds and parks what was current. */
  lemma Prepares(reg: Registry, w: World, j: Job)
    requires Consistent(reg) && Sound(w.cur) && w.handler.None? && Named(j) && !Enters(w.cur, j.session)
    ensures var w' := History(reg, w, Preparing(j, false));
            Prepared(w', j) && SameBooks(w, w') && w'.cur.scopes == Others(w.cur, j.session)
  {
    var b := BindOf(j);
    Three(reg, w, Begin(PrepareRead(b, false, false)), Step(Go), Step(Go));
    NamedText(j);
    assert SessionBound(reg, w.cur, b).Ok?;
    BoundState(reg, w.cur, b);
    BindLands(reg, w.cur, b);
    NormalizeKeeps(reg, SessionBound(reg, w.cur, b).value);
    BindSame(reg, w.cur, b);
  }

  lemma ReadsTarget(reg: Registry, w: World, j: Job)
    requires Named(j) && Prepared(w, j)
    ensures var w' := History(reg, w, [Begin(PromptRead(PromptOf(j))), Step(Go), Step(Choice.Target(Page(j)))]);
            w' == Proceed(w, PromptBind(PromptOf(j), w.cur, Page(j)))
  {
    NamedText(j);
    Three(reg, w, Begin(PromptRead(PromptOf(j))), Step(Go), Step(Choice.Target(Page(j))));
  }

  lemma BindsAgain(reg: Registry, w: World, j: Job)
    requires Consistent(reg) && Named(j) && Prepared(w, j)
    ensures var w1 := Proceed(w, PromptBind(PromptOf(j), w.cur, Page(j)));
            var w' := Happen(reg, w1, Step(Go));
            && w'.handler == Some(PromptReserve(PromptOf(j))) && SameBooks(w, w')
            && Prepared(w'.(handler := None), j) && w'.cur.scopes == w.cur.scopes
  {
    var b := TargetBind(w.cur, Page(j));
    NamedText(j);
    assert SessionBound(reg, w.cur, b).Ok?;
    BoundState(reg, w.cur, b);
    BindLands(reg, w.cur, b);
    NormalizeKeeps(reg, SessionBound(reg, w.cur, b).value);
    BindSame(reg, w.cur, b);
  }

  /** The delivery is reserved, recorded under a new ticket, and about to be checked. */
  predicate ReservedFor(w: World, w': World, j: Job) {
    && Sound(w'.cur) && w'.cur.session == Some(j.session) && w'.cur.active.delivery == Some(j.id)
    && w'.cur.active.binding.run == Some(j.run) && w'.cur.active.binding.url == Some(j.url)
    && w'.cur.scopes == w.cur.scopes && w'.handler == Some(PromptCheck(PromptOf(j), w'.cur, |w.reservations|))
    && w'.reservations == w.reservations + [Held(j.session, j.id)] && w'.dispatched == w.dispatched && w'.settled == w.settled
    && w'.tickets == w.tickets[j.session := |w.reservations|]
  }

  lemma Reserves(reg: Registry, w: World, j: Job)
    requires Consistent(reg) && Named(j) && Prepared(w.(handler := None), j) && w.handler == Some(PromptReserve(PromptOf(j)))
    requires forall k <- w.cur.scopes :: w.cur.scopes[k].binding.url != Some(j.url)
    ensures ReservedFor(w, Happen(reg, w, Step(Go)), j)
  {
    NamedText(j);
    assert Reserved(reg, w.cur, j.id).Ok?;
    ReserveResets(reg, w.cur, j.id);
    ReservedState(reg, w.cur, j.id);
    NormalizeKeeps(reg, Reserved(reg, w.cur, j.id).value);
  }

  /** No other delivery stands on the job's conversation. */
  predicate Vacant(m: map<string, Slot>, url: string) { forall k <- m :: m[k].binding.url != Some(url) }

  lemma Prompts(reg: Registry, w: World, j: Job)
    requires Consistent(reg) && Named(j) && Prepared(w, j) && Vacant(w.cur.scopes, j.url)
    ensures ReservedFor(w, History(reg, w, Prompting(j)), j)
  {
    var a, b := [Begin(PromptRead(PromptOf(j))), Step(Go), Step(Choice.Target(Page(j)))], [Step(Go), Step(Go)];
    assert Prompting(j) == a + b;
    HistoryAppend(reg, w, a, b);
    ReadsTarget(reg, w, j);
    var w1 := History(reg, w, a);
    BindsAgain(reg, w, j);
    Reserves(reg, Happen(reg, w1, Step(Go)), j);
    Two(reg, w1, Step(Go), Step(Go));
  }

  function Opening(j: Job): seq<Event> { Preparing(j, false) + Prompting(j) }

  /** A job whose session has nothing unresolved and whose conversation is free is prepared and reserved. */
  lemma Opens(reg: Registry, w: World, j: Job)
    requires Consistent(reg) && Sound(w.cur) && w.handler.None? && Named(j) && !Enters(w.cur, j.session)
    requires Vacant(Others(w.cur, j.session), j.url)
    ensures var w' := History(reg, w, Opening(j));
            ReservedFor(w.(cur := w'.cur), w', j) && w'.cur.scopes == Others(w.cur, j.session)
  {
    HistoryAppend(reg, w, Preparing(j, false), Prompting(j));
    Prepares(reg, w, j);
    Prompts(reg, History(reg, w, Preparing(j, false)), j);
  }

  // ------------------------------------------------------------------ receipts without a dispatch

  /** The prompt fails its last check. */
  function Unsent(j: Job): seq<Event> { Opening(j) + [Step(Fail), Step(Go)] }

  /** The worker restarts before the dispatch, and the controller acknowledges. */
  function LostAndAcknowledged(j: Job): seq<Event> { Opening(j) + [Restart, Begin(Acknowledge(j.id, None)), Step(Go)] }

  lemma OpensFresh(reg: Registry, w0: World, j: Job)
    requires Consistent(reg) && Fresh(w0) && Named(j)
    ensures var w := History(reg, w0, Opening(j));
            && Inv(w) && w.cur.session == Some(j.session) && w.cur.active.delivery == Some(j.id)
            && w.handler == Some(PromptCheck(PromptOf(j), w.cur, 0)) && w.dispatched == [] && w.settled == map[]
            && w.tickets == map[j.session := 0]
  {
    FreshInv(w0);
    Opens(reg, w0, j);
    ReachableInv(reg, w0, Opening(j));
  }

  /** From any fresh installation, a prompt that fails before its dispatch leaves the acknowledgement receipt of a
      delivery of which nothing was sent. */
  lemma UnsentLeavesReceipt(reg: Registry, w0: World, j: Job)
    requires Consistent(reg) && Fresh(w0) && Named(j)
    ensures var w := History(reg, w0, Unsent(j));
            && w.dispatched == [] && w.settled == map[0 := NotSent] && w.cur.active.delivery.None?
            && w.cur.acknowledged.Some? && w.cur.acknowledged.value.delivery == j.id
  {
    var w := History(reg, w0, Opening(j));
    HistoryAppend(reg, w0, Opening(j), [Step(Fail), Step(Go)]);
    OpensFresh(reg, w0, j);
    Two(reg, w, Step(Fail), Step(Go));
    ClearsFor(reg, w, j.id);
  }

  lemma ClearsFor(reg: Registry, w: World, id: string)
    requires Consistent(reg) && Sound(w.cur) && NonBlank(id) && w.cur.active.delivery == Some(id)
    ensures Cleared(reg, w.cur, id, None).Ok?
    ensures var n := Next(reg, w.cur, Clear(id, None));
            n.active.delivery.None? && n.acknowledged == Some(ReceiptFor(w.cur, id))
  {
    ClearedState(reg, w.cur, id, None);
    ClearedReceipt(reg, w.cur, id, None);
    NormalizeKeeps(reg, Cleared(reg, w.cur, id, None).value);
  }

  /** And so does a restart between the reservation and the dispatch, once the delivery is acknowledged. */
  lemma LostLeavesReceipt(reg: Registry, w0: World, j: Job)
    requires Consistent(reg) && Fresh(w0) && Named(j)
    ensures var w := History(reg, w0, LostAndAcknowledged(j));
            && w.dispatched == [] && w.settled == map[0 := Acknowledged] && w.cur.active.delivery.None?
            && w.cur.acknowledged.Some? && w.cur.acknowledged.value.delivery == j.id
  {
    var w := History(reg, w0, Opening(j));
    HistoryAppend(reg, w0, Opening(j), [Restart, Begin(Acknowledge(j.id, None)), Step(Go)]);
    OpensFresh(reg, w0, j);
    Three(reg, w, Restart, Begin(Acknowledge(j.id, None)), Step(Go));
    ClearsFor(reg, w, j.id);
  }

  // ------------------------------------------------------------------ two deliveries on one conversation

  /** Two jobs are reserved, each left by a restart, and the second one's session is explicitly rebound to the first
      one's conversation. */
  function Colliding(a: Job, b: Job): seq<Event> {
    Opening(a) + [Restart] + (Opening(b) + [Restart]) + Preparing(b.(url := a.url), true)
  }

  lemma Restarts(reg: Registry, w: World, events: seq<Event>)
    ensures History(reg, w, events + [Restart]) == Done(History(reg, w, events))
  {
    assert (events + [Restart])[..|events|] == events;
  }

  /** Both deliveries are unresolved, the first one parked. */
  predicate BothOpen(w: World, a: Job, b: Job) {
    && Sound(w.cur) && w.handler.None? && w.cur.session == Some(b.session) && w.cur.active.delivery == Some(b.id)
    && w.cur.active.binding.run == Some(b.run) && a.session in w.cur.scopes && w.cur.scopes[a.session].binding.url == Some(a.url)
  }

  lemma OpensBoth(reg: Registry, w0: World, a: Job, b: Job)
    requires Consistent(reg) && Fresh(w0) && Named(a) && Named(b) && a.session != b.session && a.url != b.url
    ensures BothOpen(History(reg, w0, Opening(a) + [Restart] + (Opening(b) + [Restart])), a, b)
  {
    FreshInv(w0);
    Opens(reg, w0, a);
    Restarts(reg, w0, Opening(a));
    var w := History(reg, w0, Opening(a) + [Restart]);
    assert Others(w.cur, b.session) == map[a.session := w.cur.active];
    Opens(reg, w, b);
    Restarts(reg, w, Opening(b));
    HistoryAppend(reg, w0, Opening(a) + [Restart], Opening(b) + [Restart]);
  }

  /** What binding b with the conversation of a leaves. */
  lemma BindCollides(reg: Registry, w: World, a: Job, b: Job)
    requires Consistent(reg) && BothOpen(w, a, b) && Named(a) && Named(b)
    ensures var bound := SessionBound(reg, w.cur, BindOf(b.(url := a.url)));
            bound.Ok? && !Distinct(Normalize(reg, bound.value))
  {
    var j := b.(url := a.url);
    NamedText(a);
    BoundState(reg, w.cur, BindOf(j));
    BoundTidy(reg, w.cur, BindOf(j));
    NormalizeKeeps(reg, SessionBound(reg, w.cur, BindOf(j)).value);
  }

  lemma PreparingBinds(reg: Registry, w: World, j: Job)
    requires w.handler.None? && SessionBound(reg, w.cur, BindOf(j)).Ok?
    ensures History(reg, w, Preparing(j, true)).cur == Normalize(reg, SessionBound(reg, w.cur, BindOf(j)).value)
  {
    Three(reg, w, Begin(PrepareRead(BindOf(j), false, true)), Step(Go), Step(Go));
  }

  lemma RebindCollides(reg: Registry, w: World, a: Job, b: Job)
    requires Consistent(reg) && BothOpen(w, a, b) && Named(a) && Named(b)
    ensures !Distinct(History(reg, w, Preparing(b.(url := a.url), true)).cur)
  {
    BindCollides(reg, w, a, b);
    PreparingBinds(reg, w, b.(url := a.url));
  }

  /** From any fresh installation: an explicit rebind has no guard, and two unresolved deliveries end up on one
      conversation. */
  lemma ExplicitRebindCollides(reg: Registry, w0: World, a: Job, b: Job)
    requires Consistent(reg) && Fresh(w0) && Named(a) && Named(b) && a.session != b.session && a.url != b.url
    ensures !Distinct(History(reg, w0, Colliding(a, b)).cur)
  {
    OpensBoth(reg, w0, a, b);
    var first := Opening(a) + [Restart] + (Opening(b) + [Restart]);
    HistoryAppend(reg, w0, first, Preparing(b.(url := a.url), true));
    RebindCollides(reg, History(reg, w0, first), a, b);
  }
}
