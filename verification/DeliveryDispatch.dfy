/** A delivery that nothing disturbs: prepared, reserved, dispatched, completed and acknowledged. */
module DeliveryDispatch {
  import opened Common
  import opened ExtensionState
  import opened DeliveryOwnership
  import opened DeliveryProtocol
  import opened DeliverySafety
  import opened DeliveryBinding
  import opened DeliveryRuns
  import opened TurnGuard

  /** The page of a job as the browser reports it: its run and URL, and every identifier of a page that can take a
      prompt; a new conversation stands on the provider's start page and has no id yet. */
  predicate IsPage(reg: Registry, j: Job, page: Binding, root: bool) {
    && page.run == Some(j.run) && page.url == Some(j.url) && page.provider == None
    && reg.forUrl(j.url).Some? && IsIndex(page.tab) && IsIndex(page.window)
    && TurnGuard.Named(page.document) && page.frame == Some(0)
    && if root then page.conversation == None && j.url == reg.root(reg.forUrl(j.url).value) else TurnGuard.Named(page.conversation)
  }

  function StatusOf(root: bool): Status { if root then RootReady else Bound }

  /** The session stands on the page and nothing is parked. */
  predicate Stands(reg: Registry, s: State, j: Job, page: Binding, root: bool) {
    && s.session == Some(j.session) && s.active.binding == page.(provider := reg.forUrl(j.url)) && s.status == StatusOf(root)
    && s.scopes == map[]
  }

  lemma ReadStands(reg: Registry, s: State, j: Job, page: Binding, root: bool)
    requires Consistent(reg) && DeliveryRuns.Named(j) && IsPage(reg, j, page, root) && s.scopes == map[]
    requires s.session == Some(j.session) && s.status == StatusOf(root)
    requires s.active.binding == page || s.active.binding == page.(provider := reg.forUrl(j.url))
    ensures Stands(reg, Normalize(reg, s), j, page, root)
    ensures var n := Normalize(reg, s).active;
            n.delivery == Text(s.active.delivery) && n.completed == s.active.completed
  {
    ReadTells(reg, s);
    assert j.session != "" && j.run != "" && j.url != "";
  }

  /** Binding a session with its page, when nothing is unresolved, puts it there with the status asked for. */
  lemma BindStands(reg: Registry, cur: State, j: Job, page: Binding, root: bool, b: Bind)
    requires Consistent(reg) && DeliveryRuns.Named(j) && IsPage(reg, j, page, root)
    requires cur.scopes == map[] && cur.active.delivery == None
    requires b.session == j.session && b.binding == page && b.status == StatusOf(root)
    ensures OutcomeOf(reg, cur, BindTo(b)).Ok?
    ensures var n := Next(reg, cur, BindTo(b)); Stands(reg, n, j, page, root) && n.active.delivery == None
  {
    var raw := Unread(cur, b, EnteredSlot(cur, b));
    assert SessionBound(reg, cur, b) == Ok(Normalize(reg, raw));
    ReadStands(reg, raw, j, page, root);
    ReadStands(reg, Normalize(reg, raw), j, page, root);
  }

  lemma ReserveStands(reg: Registry, cur: State, j: Job, page: Binding, root: bool)
    requires Consistent(reg) && DeliveryRuns.Named(j) && IsPage(reg, j, page, root)
    requires Stands(reg, cur, j, page, root) && cur.active.delivery == None
    ensures OutcomeOf(reg, cur, Op.Reserve(j.id)).Ok?
    ensures var n := Next(reg, cur, Op.Reserve(j.id)); Stands(reg, n, j, page, root) && n.active.delivery == Some(j.id)
  {
    var raw := cur.(active := cur.active.(delivery := Some(j.id), completed := None));
    ReadStands(reg, raw, j, page, root);
    ReadStands(reg, Normalize(reg, raw), j, page, root);
    assert j.id != "";
  }

  // ------------------------------------------------------------------ the events

  function PageBind(j: Job, page: Binding, root: bool): Bind { Bind(j.session, page, StatusOf(root), None, None) }

  function Preparation(j: Job, page: Binding, root: bool): seq<Event> {
    [Begin(PrepareRead(PageBind(j, page, root), false, false)), Step(Go), Step(Go)]
  }

  function Targeting(j: Job, page: Binding): seq<Event> {
    [Begin(PromptRead(PromptOf(j))), Step(Go), Step(Choice.Target(page))]
  }

  /** The job's session is on its page, no handler runs and nothing has happened yet. */
  predicate Waits(reg: Registry, w: World, j: Job, page: Binding, root: bool) {
    && Stands(reg, w.cur, j, page, root) && w.cur.active.delivery == None
    && w.reservations == [] && w.dispatched == [] && w.settled == map[] && w.tickets == map[]
  }

  lemma PreparesPage(reg: Registry, w0: World, j: Job, page: Binding, root: bool)
    requires Consistent(reg) && Fresh(w0) && DeliveryRuns.Named(j) && IsPage(reg, j, page, root)
    ensures var w := History(reg, w0, Preparation(j, page, root)); Waits(reg, w, j, page, root) && w.handler == None
  {
    Three(reg, w0, Begin(PrepareRead(PageBind(j, page, root), false, false)), Step(Go), Step(Go));
    BindStands(reg, w0.cur, j, page, root, PageBind(j, page, root));
  }

  lemma TargetsPage(reg: Registry, w: World, j: Job, page: Binding, root: bool)
    requires Consistent(reg) && DeliveryRuns.Named(j) && IsPage(reg, j, page, root) && Waits(reg, w, j, page, root) && w.handler == None
    ensures History(reg, w, Targeting(j, page)) == w.(handler := Some(PromptBind(PromptOf(j), w.cur, page)))
  {
    NamedText(j);
    Three(reg, w, Begin(PromptRead(PromptOf(j))), Step(Go), Step(Choice.Target(page)));
  }

  lemma BindsTarget(reg: Registry, w: World, j: Job, page: Binding, root: bool)
    requires Consistent(reg) && DeliveryRuns.Named(j) && IsPage(reg, j, page, root) && Waits(reg, w, j, page, root)
    requires w.handler == Some(PromptBind(PromptOf(j), w.cur, page))
    ensures var w' := Happen(reg, w, Step(Go)); Waits(reg, w', j, page, root) && w'.handler == Some(PromptReserve(PromptOf(j)))
  {
    assert page.(run := w.cur.active.binding.run) == page;
    BindStands(reg, w.cur, j, page, root, TargetBind(w.cur, page));
  }

  /** The reservation is made and recorded, and is about to be checked. */
  predicate Checks(reg: Registry, w: World, j: Job, page: Binding, root: bool) {
    && Stands(reg, w.cur, j, page, root) && w.cur.active.delivery == Some(j.id)
    && w.reservations == [Held(j.session, j.id)] && w.dispatched == [] && w.settled == map[] && w.tickets == map[j.session := 0]
    && w.handler == Some(PromptCheck(PromptOf(j), w.cur, 0))
  }

  lemma ReservesPage(reg: Registry, w: World, j: Job, page: Binding, root: bool)
    requires Consistent(reg) && DeliveryRuns.Named(j) && IsPage(reg, j, page, root) && Waits(reg, w, j, page, root)
    requires w.handler == Some(PromptReserve(PromptOf(j)))
    ensures Checks(reg, Happen(reg, w, Step(Go)), j, page, root)
  {
    ReserveStands(reg, w.cur, j, page, root);
  }

  /** The prompt has been sent to the page. */
  predicate Sent(reg: Registry, w: World, j: Job, page: Binding, root: bool) {
    && Stands(reg, w.cur, j, page, root) && w.cur.active.delivery == Some(j.id)
    && w.reservations == [Held(j.session, j.id)] && w.dispatched == [0] && w.settled == map[] && w.tickets == map[j.session := 0]
    && w.handler == Some(PromptAwait(PromptOf(j), w.cur, 0))
  }

  lemma SendsPage(reg: Registry, w: World, j: Job, page: Binding, root: bool)
    requires Consistent(reg) && DeliveryRuns.Named(j) && IsPage(reg, j, page, root) && Checks(reg, w, j, page, root)
    ensures Sent(reg, Happen(reg, w, Step(Go)), j, page, root)
  {
    NamedText(j);
  }

  function Dispatching(j: Job, page: Binding, root: bool): seq<Event> {
    Preparation(j, page, root) + (Targeting(j, page) + [Step(Go), Step(Go), Step(Go)])
  }

  /** From any fresh installation, on an existing conversation or a new one: preparing the session on its page and
      prompting it dispatches the one reservation. */
  lemma PromptIsDispatched(reg: Registry, w0: World, j: Job, page: Binding, root: bool)
    requires Consistent(reg) && Fresh(w0) && DeliveryRuns.Named(j) && IsPage(reg, j, page, root)
    ensures Sent(reg, History(reg, w0, Dispatching(j, page, root)), j, page, root)
  {
    var w1 := History(reg, w0, Preparation(j, page, root));
    PreparesPage(reg, w0, j, page, root);
    HistoryAppend(reg, w0, Preparation(j, page, root), Targeting(j, page) + [Step(Go), Step(Go), Step(Go)]);
    HistoryAppend(reg, w1, Targeting(j, page), [Step(Go), Step(Go), Step(Go)]);
    var w2 := History(reg, w1, Targeting(j, page));
    TargetsPage(reg, w1, j, page, root);
    Three(reg, w2, Step(Go), Step(Go), Step(Go));
    BindsTarget(reg, w2, j, page, root);
    ReservesPage(reg, Happen(reg, w2, Step(Go)), j, page, root);
    SendsPage(reg, Happen(reg, Happen(reg, w2, Step(Go)), Step(Go)), j, page, root);
  }

  // ------------------------------------------------------------------ and after the dispatch

  function Finishing(j: Job, text: string): seq<Event> {
    [Step(Observed(UNCHANGED.(completed := Some(Some(Completed(j.id, text)))))), Step(Go)]
  }

  /** The response is kept with the delivery. */
  lemma ResponseIsKept(reg: Registry, w: World, j: Job, page: Binding, root: bool, text: string)
    requires Consistent(reg) && DeliveryRuns.Named(j) && IsPage(reg, j, page, root) && Sent(reg, w, j, page, root)
    ensures var w' := History(reg, w, Finishing(j, text));
            && w'.handler == None && Stands(reg, w'.cur, j, page, root) && w'.cur.active.delivery == Some(j.id)
            && w'.cur.active.completed == Some(Completed(j.id, text)) && SameBooks(w, w')
  {
    var p := UNCHANGED.(completed := Some(Some(Completed(j.id, text))));
    Two(reg, w, Step(Observed(p)), Step(Go));
    var raw := Merge(w.cur, p);
    assert j.id != "";
    ReadStands(reg, raw, j, page, root);
    ReadStands(reg, Normalize(reg, raw), j, page, root);
  }

  function Acknowledging(j: Job): seq<Event> { [Begin(Acknowledge(j.id, Some(j.session))), Step(Go)] }

  lemma AcknowledgementSettles(reg: Registry, w: World, j: Job, page: Binding, root: bool)
    requires Consistent(reg) && DeliveryRuns.Named(j) && IsPage(reg, j, page, root) && w.handler == None
    requires Stands(reg, w.cur, j, page, root) && w.cur.active.delivery == Some(j.id) && w.tickets == map[j.session := 0]
    ensures var w' := History(reg, w, Acknowledging(j));
            && w'.reservations == w.reservations && w'.dispatched == w.dispatched
            && w'.settled == w.settled[0 := Acknowledged] && w'.tickets == map[]
            && w'.cur.active.delivery == None
            && w'.cur.acknowledged == Some(Receipt(j.id, Some(j.session), Some(j.run), Some(j.url)))
  {
    Two(reg, w, Begin(Acknowledge(j.id, Some(j.session))), Step(Go));
    var raw := w.cur.(active := w.cur.active.(delivery := None), acknowledged := Some(ReceiptFor(w.cur, j.id)));
    assert Cleared(reg, w.cur, j.id, Some(j.session)) == Ok(Normalize(reg, raw));
    ReadStands(reg, raw, j, page, root);
    ReadStands(reg, Normalize(reg, raw), j, page, root);
  }

  function Delivering(j: Job, page: Binding, root: bool, text: string): seq<Event> {
    Dispatching(j, page, root) + (Finishing(j, text) + Acknowledging(j))
  }

  /** From any fresh installation, the whole delivery: dispatched once, acknowledged, and nothing left unresolved. */
  lemma DeliveryCompletes(reg: Registry, w0: World, j: Job, page: Binding, root: bool, text: string)
    requires Consistent(reg) && Fresh(w0) && DeliveryRuns.Named(j) && IsPage(reg, j, page, root)
    ensures var w := History(reg, w0, Delivering(j, page, root, text));
            && w.reservations == [Held(j.session, j.id)] && w.dispatched == [0] && w.settled == map[0 := Acknowledged]
            && w.tickets == map[] && w.cur.active.delivery == None
            && w.cur.acknowledged == Some(Receipt(j.id, Some(j.session), Some(j.run), Some(j.url)))
  {
    var w1 := History(reg, w0, Dispatching(j, page, root));
    PromptIsDispatched(reg, w0, j, page, root);
    HistoryAppend(reg, w0, Dispatching(j, page, root), Finishing(j, text) + Acknowledging(j));
    HistoryAppend(reg, w1, Finishing(j, text), Acknowledging(j));
    ResponseIsKept(reg, w1, j, page, root, text);
    AcknowledgementSettles(reg, History(reg, w1, Finishing(j, text)), j, page, root);
  }

  // ------------------------------------------------------------------ discarding

  function Discarding(r: DiscardRequest): seq<Event> { [Begin(DiscardRead(r)), Step(Go), Step(Go)] }

  /** The request names the current delivery, or one that is confirmed missing, and its owner; no response and no other
      delivery is left, and it is not the discard that was made last. */
  predicate NamesDelivery(r: DiscardRequest, s: State) {
    && (exists i :: 0 <= i < |r.delivery| && !IsSpace(r.delivery[i]))
    && (s.active.delivery == Some(r.delivery) || (s.active.delivery == None && r.missingConfirmed))
    && s.session == r.session && s.active.binding.run == r.run && s.active.binding.url == r.url
    && s.active.completed == None && |s.scopes| == 0
    && !(s.active.delivery == None && s.discarded.Some?
         && s.discarded.value == Receipt(r.delivery, r.session, r.run, r.url))
  }

  /** The delivery is gone, its receipt and the reason are kept, and the session has to be bound again. */
  predicate DiscardedAs(r: DiscardRequest, cur: State, n: State) {
    && n.active.delivery == None && n.active.completed == None && n.status == Status.NeedsRebind
    && n.error == Some("RECOVERY_DISCARDED: " + r.reason)
    && n.discarded == Some(Receipt(r.delivery, r.session, r.run, r.url))
    && n.session == cur.session && n.scopes == cur.scopes && n.acknowledged == cur.acknowledged
    && SameSlot(n.active, cur.active.(delivery := None, completed := None))
  }

  lemma DiscardWrites(reg: Registry, cur: State, r: DiscardRequest)
    requires Consistent(reg) && Tidy(cur) && NamesDelivery(r, cur)
    ensures var n := Next(reg, cur, ChangeIf(DiscardExpected(cur), DiscardPatch(r, cur)));
            UpdatedIf(reg, cur, DiscardExpected(cur), DiscardPatch(r, cur)).Ok? && DiscardedAs(r, cur, n)
  {
    var raw := Merge(cur, DiscardPatch(r, cur));
    ReadTells(reg, raw);
    ReadTells(reg, Normalize(reg, raw));
    TidyScopes(cur.scopes);
  }

  lemma AllowedIsNamed(r: DiscardRequest, s: State)
    ensures DiscardAllowed(r, s) <==> NamesDelivery(r, s)
  {
    assert |s.scopes| == 0 <==> s.scopes == map[];
  }

  function Written(reg: Registry, cur: State, r: DiscardRequest): State {
    Next(reg, cur, ChangeIf(DiscardExpected(cur), DiscardPatch(r, cur)))
  }

  lemma DiscardRun(reg: Registry, w: World, r: DiscardRequest)
    requires w.handler == None
    requires DiscardAllowed(r, w.cur) ==> UpdatedIf(reg, w.cur, DiscardExpected(w.cur), DiscardPatch(r, w.cur)).Ok?
    ensures var w' := History(reg, w, Discarding(r));
            && w'.handler == None && w'.reservations == w.reservations && w'.dispatched == w.dispatched
            && if DiscardAllowed(r, w.cur) then w'.cur == Written(reg, w.cur, r)
               else w'.cur == w.cur && w'.settled == w.settled && w'.tickets == w.tickets
  {
    Three(reg, w, Begin(DiscardRead(r)), Step(Go), Step(Go));
  }

  /** A discard that nothing disturbs does exactly this if the request names the delivery, and otherwise nothing. */
  lemma DiscardTells(reg: Registry, w: World, r: DiscardRequest)
    requires Consistent(reg) && Tidy(w.cur) && w.handler == None
    ensures var w' := History(reg, w, Discarding(r));
            && w'.handler == None && w'.reservations == w.reservations && w'.dispatched == w.dispatched
            && if NamesDelivery(r, w.cur) then DiscardedAs(r, w.cur, w'.cur)
               else w'.cur == w.cur && w'.settled == w.settled && w'.tickets == w.tickets
  {
    AllowedIsNamed(r, w.cur);
    if NamesDelivery(r, w.cur) { DiscardWrites(reg, w.cur, r); }
    DiscardRun(reg, w, r);
  }

  /** Asked again, it changes nothing. */
  lemma DiscardTwice(reg: Registry, w: World, r: DiscardRequest)
    requires Consistent(reg) && Tidy(w.cur) && w.handler == None && NamesDelivery(r, w.cur)
    ensures var w' := History(reg, w, Discarding(r)); History(reg, w', Discarding(r)).cur == w'.cur
  {
    var w' := History(reg, w, Discarding(r));
    DiscardTells(reg, w, r);
    DiscardWrites(reg, w.cur, r);
    AllowedIsNamed(r, w.cur);
    DiscardRun(reg, w, r);
    StaysTidy(reg, w.cur, r);
    DiscardTells(reg, w', r);
  }

  lemma StaysTidy(reg: Registry, cur: State, r: DiscardRequest)
    requires Consistent(reg)
    ensures var out := UpdatedIf(reg, cur, DiscardExpected(cur), DiscardPatch(r, cur));
            out.Ok? ==> Tidy(Normalize(reg, out.value))
  {
    ReadIsTidy(reg, Updated(reg, cur, DiscardPatch(r, cur)));
  }
}
