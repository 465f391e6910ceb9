/** When the command handlers go on, and what becomes of a new conversation (extension/background.js). */
module DeliverySteps {
  import opened Common
  import opened ExtensionState
  import opened DeliveryOwnership
  import opened DeliveryProtocol
  import opened DeliverySafety
  import opened DeliveryBinding
  import opened DeliveryRuns
  import opened DeliveryDispatch
  import opened TurnGuard

  // ------------------------------------------------------------------ the first checks

  /** A prompt goes on exactly if it has a message id, names the bound run and, if it names a session, the bound one. */
  lemma PromptIsFor(reg: Registry, w: World, m: PromptRequest)
    requires w.handler == Some(PromptRead(m))
    ensures Happen(reg, w, Step(Go)) ==
            w.(handler := if !Blank(m.controllerMessageId) && !Blank(m.run) && w.cur.active.binding.run == Some(m.run)
                             && (m.session == None || w.cur.session == m.session)
                          then Some(PromptTarget(m, w.cur)) else None)
  {
  }

  /** A target without a URL, or a delivery that was unresolved at the first read, ends the prompt. */
  lemma PromptNeedsTarget(reg: Registry, w: World, m: PromptRequest, seen: State, target: Binding)
    requires w.handler == Some(PromptTarget(m, seen))
    ensures Happen(reg, w, Step(Choice.Target(target))) ==
            w.(handler := if seen.active.delivery == None && target.url.Some? && target.url.value != ""
                          then Some(PromptBind(m, seen, target)) else None)
  {
  }

  /** The prompt binds its session to the target: with the run it was bound to, the status the target calls for, no
      error, and the remembered target as it was. */
  lemma TargetIsBound(reg: Registry, stored: State, w: World, m: PromptRequest, seen: State, target: Binding)
    requires Consistent(reg) && w.cur == Normalize(reg, stored) && seen.session.Some?
    requires w.handler == Some(PromptBind(m, seen, target)) && OutcomeOf(reg, w.cur, BindTo(TargetBind(seen, target))).Ok?
    ensures var n := Happen(reg, w, Step(Go)).cur;
            && n.session == seen.session && BindingRead(target.(run := seen.active.binding.run), n.active.binding)
            && n.error == None && n.target == w.cur.target
            && StatusRead(reg, if target.conversation == None then RootReady else Bound,
                          SessionBound(reg, w.cur, TargetBind(seen, target)).value)
            && n.status == SessionBound(reg, w.cur, TargetBind(seen, target)).value.status
  {
    BindTells(reg, stored, TargetBind(seen, target));
  }

  /** Preparing stops exactly if the session's own unresolved delivery, of the same run, has another conversation than
      the one asked for; a new conversation is another one. An explicit rebind never stops. */
  lemma PreparesUnlessOwned(reg: Registry, w: World, b: Bind, bootstrap: bool, explicit: bool)
    requires w.handler == Some(PrepareRead(b, bootstrap, explicit)) && b.binding.run.Some?
    ensures var c := w.cur.active;
            var owned := c.delivery.Some? && w.cur.session == Some(b.session) && c.binding.run == b.binding.run;
            var same := if bootstrap then c.binding.url == None && c.binding.conversation == None
                        else c.binding.url == b.binding.url && c.binding.conversation == b.binding.conversation;
            Happen(reg, w, Step(Go)) == w.(handler := if explicit || !owned || same then Some(PrepareBind(b)) else None)
  {
  }

  /** Everything a turn on an existing conversation is frozen to. */
  predicate Frozen(m: PromptRequest, s: State) {
    var b := s.active.binding;
    && s.status == Bound && s.active.delivery == Some(m.requestId) && b.run == Some(m.run)
    && !Blank(m.requestId) && !Blank(m.controllerMessageId) && !Blank(m.run)
    && HasText(s.session) && HasText(b.url) && HasText(b.conversation) && HasText(b.document)
    && Safe(b.tab) && Safe(b.window) && Safe(b.frame)
  }

  /** The last check: exactly on a start page or with a frozen turn, in a known document and the main frame, the
      reservation is dispatched; otherwise it is cleared next. */
  lemma ChecksExactly(reg: Registry, w: World, m: PromptRequest, reserved: State, ticket: nat)
    requires w.handler == Some(PromptCheck(m, reserved, ticket))
    ensures var b := reserved.active.binding;
            Happen(reg, w, Step(Go))
            == if (reserved.status == RootReady || Frozen(m, reserved)) && b.document.Some? && b.frame == Some(0)
               then w.(dispatched := w.dispatched + [ticket], handler := Some(PromptAwait(m, reserved, ticket)))
               else w.(handler := Some(PromptUnsend(m, ticket)))
  {
    CapturesExactly(reserved, m.requestId, m.controllerMessageId, m.run);
  }

  // ------------------------------------------------------------------ one handler at a time

  /** A command starts exactly while no other is running, the ones the controller and the popup can send. */
  lemma StartsExactly(reg: Registry, w: World, h: Handler)
    ensures var starts := match h
                          case PromptRead(m) => !Blank(m.requestId)
                          case PrepareRead(_, _, _) => true
                          case Acknowledge(_, _) => true
                          case DiscardRead(_) => true
                          case SelectScope(_, _) => true
                          case Recheck => true
                          case _ => false;
            Happen(reg, w, Begin(h)) == if w.handler == None && starts then w.(handler := Some(h)) else w
  {
  }

  /** Selecting a parked delivery is one step. */
  lemma SelectionIsMade(reg: Registry, w: World, session: string, id: string)
    requires w.handler == Some(SelectScope(session, id))
    ensures var out := ScopeSelected(reg, w.cur, session, id);
            Happen(reg, w, Step(Go))
            == w.(handler := None, cur := if out.Ok? then Normalize(reg, out.value) else w.cur)
  {
  }

  /** A discard that was allowed is made exactly if the owner it was read with is still there, down to tab, document and
      frame, and no response has come: a write that happened in between, by whomever, makes it fail and leaves everything
      as it is. */
  lemma DiscardRechecksOwner(reg: Registry, w: World, r: DiscardRequest, seen: State)
    requires w.handler == Some(DiscardWrite(r, seen))
    ensures var b, s := w.cur.active.binding, seen.active.binding;
            var same :=
              && w.cur.session == seen.session && w.cur.active.delivery == seen.active.delivery && w.cur.scopes == seen.scopes
              && w.cur.active.completed == None && b.run == s.run && b.url == s.url && b.tab == s.tab
              && b.document == s.document && b.frame == s.frame;
            var w' := Happen(reg, w, Step(Go));
            && w'.handler == None
            && (!same ==> w' == w.(handler := None))
            && (same ==> w'.cur == Normalize(reg, Updated(reg, w.cur, DiscardPatch(r, seen))))
  {
  }

  // ------------------------------------------------------------------ a new conversation gets its address

  /** The delivery that was dispatched is still the current one, of the same session, run and tab. */
  predicate SameOwner(cur: State, m: PromptRequest, reserved: State) {
    && cur.active.delivery == Some(m.requestId) && cur.session == reserved.session
    && cur.active.binding.run == reserved.active.binding.run && cur.active.binding.tab == reserved.active.binding.tab
  }

  /** The binding with the conversation's address and document, complete or not. */
  predicate Addressed(reg: Registry, cur: State, n: State, url: string, conversation: string, document: string) {
    && n.session == cur.session && n.scopes == cur.scopes && n.active.delivery == cur.active.delivery
    && n.acknowledged == cur.acknowledged && n.discarded == cur.discarded && TextRead(cur.error, n.error)
    && TextRead(Some(url), n.active.binding.url) && TextRead(Some(conversation), n.active.binding.conversation)
    && TextRead(Some(document), n.active.binding.document) && n.active.binding.run == cur.active.binding.run
    && n.active.binding.tab == cur.active.binding.tab && n.active.binding.window == cur.active.binding.window
    && n.active.binding.frame == cur.active.binding.frame && StatusRead(reg, Bound, n)
  }

  lemma AddressWritten(reg: Registry, cur: State, url: string, conversation: string, document: string)
    requires Consistent(reg) && Tidy(cur)
    ensures Addressed(reg, cur, Updated(reg, cur, PromotedPatch(url, conversation, document)), url, conversation, document)
  {
    ReadTells(reg, Merge(cur, PromotedPatch(url, conversation, document)));
    TidyScopes(cur.scopes);
  }

  /** The address is written exactly for a delivery that was sent to a start page and still has its owner; otherwise the
      prompt ends and the delivery is kept as it is. */
  lemma AddressBecomesKnown(reg: Registry, w: World, m: PromptRequest, reserved: State, ticket: nat, c: Choice)
    requires Consistent(reg) && Tidy(w.cur) && w.handler == Some(PromptAwait(m, reserved, ticket)) && c.Promoted?
    ensures var w' := Happen(reg, w, Step(c));
            && SameBooks(w, w')
            && if reserved.status == RootReady && SameOwner(w.cur, m, reserved) then
                 && w'.handler == Some(PromptSettle(m))
                 && w'.cur == Normalize(reg, Updated(reg, w.cur, PromotedPatch(c.url, c.conversation, c.document)))
                 && Addressed(reg, w.cur, Updated(reg, w.cur, PromotedPatch(c.url, c.conversation, c.document)),
                              c.url, c.conversation, c.document)
               else w'.cur == w.cur && w'.handler == None
  {
    AddressWritten(reg, w.cur, c.url, c.conversation, c.document);
  }

  // ------------------------------------------------------------------ a whole delivery on a new conversation

  /** The page of a job once its conversation has an address. */
  function OpenedPage(page: Binding, url: string, conversation: string, document: string): Binding {
    page.(url := Some(url), conversation := Some(conversation), document := Some(document))
  }

  function OpenedJob(j: Job, url: string): Job { j.(url := url) }

  lemma SentIsAddressed(
      reg: Registry, w: World, j: Job, page: Binding, url: string, conversation: string, document: string)
    requires Consistent(reg) && DeliveryRuns.Named(j) && IsPage(reg, j, page, true) && Sent(reg, w, j, page, true)
    requires DeliveryRuns.Named(OpenedJob(j, url)) && reg.forUrl(url) == reg.forUrl(j.url)
    requires IsPage(reg, OpenedJob(j, url), OpenedPage(page, url, conversation, document), false)
    ensures var w' := Happen(reg, w, Step(Promoted(url, conversation, document)));
            && w'.handler == Some(PromptSettle(PromptOf(j))) && SameBooks(w, w')
            && Stands(reg, w'.cur, OpenedJob(j, url), OpenedPage(page, url, conversation, document), false)
            && w'.cur.active.delivery == Some(j.id)
  {
    var address := OpenedPage(page, url, conversation, document);
    var raw := Merge(w.cur, PromotedPatch(url, conversation, document));
    assert j.id != "";
    ReadAgainStands(reg, raw, OpenedJob(j, url), address);
  }

  lemma ReadAgainStands(reg: Registry, s: State, j: Job, page: Binding)
    requires Consistent(reg) && DeliveryRuns.Named(j) && IsPage(reg, j, page, false) && s.scopes == map[]
    requires s.session == Some(j.session) && s.status == Bound && s.active.delivery == Some(j.id)
    requires SameAddress(s.active.binding, page) && (s.active.binding.provider == None || s.active.binding.provider == reg.forUrl(j.url))
    ensures var n := Normalize(reg, Normalize(reg, s)); Stands(reg, n, j, page, false) && n.active.delivery == Some(j.id)
  {
    ReadTells(reg, s);
    ReadTells(reg, Normalize(reg, s));
    assert j.session != "" && j.run != "" && j.url != "" && j.id != "";
  }

  /** The same page, whatever provider is remembered for it. */
  predicate SameAddress(b: Binding, page: Binding) { b.(provider := None) == page.(provider := None) }

  function DeliveringNew(j: Job, page: Binding, url: string, conversation: string, document: string, text: string): seq<Event> {
    Dispatching(j, page, true) + ([Step(Promoted(url, conversation, document))] + (Finishing(j, text) + Acknowledging(j)))
  }

  lemma SettlingFinishes(reg: Registry, w: World, j: Job, page: Binding, text: string)
    requires Consistent(reg) && DeliveryRuns.Named(j) && IsPage(reg, j, page, false)
    requires Stands(reg, w.cur, j, page, false) && w.cur.active.delivery == Some(j.id) && w.handler == Some(PromptSettle(PromptOf(j)))
    ensures var w' := History(reg, w, Finishing(j, text));
            && w'.handler == None && Stands(reg, w'.cur, j, page, false) && w'.cur.active.delivery == Some(j.id)
            && w'.cur.active.completed == Some(Completed(j.id, text)) && SameBooks(w, w')
  {
    var p := UNCHANGED.(completed := Some(Some(Completed(j.id, text))));
    Two(reg, w, Step(Observed(p)), Step(Go));
    assert j.id != "";
    ReadStands(reg, Merge(w.cur, p), j, page, false);
    ReadStands(reg, Normalize(reg, Merge(w.cur, p)), j, page, false);
  }

  lemma OneStep(reg: Registry, w: World, e: Event)
    ensures History(reg, w, [e]) == Happen(reg, w, e)
  {
    assert [e][..0] == [];
    assert History(reg, w, []) == w;
  }

  /** From any fresh installation: a delivery sent to a start page whose conversation then gets an address of the same
      provider is completed and acknowledged on that conversation, and its receipt names the new address. */
  lemma NewConversationCompletes(
      reg: Registry, w0: World, j: Job, page: Binding, url: string, conversation: string, document: string, text: string)
    requires Consistent(reg) && Fresh(w0) && DeliveryRuns.Named(j) && IsPage(reg, j, page, true)
    requires DeliveryRuns.Named(OpenedJob(j, url)) && reg.forUrl(url) == reg.forUrl(j.url)
    requires IsPage(reg, OpenedJob(j, url), OpenedPage(page, url, conversation, document), false)
    ensures var w := History(reg, w0, DeliveringNew(j, page, url, conversation, document, text));
            && w.reservations == [Held(j.session, j.id)] && w.dispatched == [0] && w.settled == map[0 := Acknowledged]
            && w.tickets == map[] && w.cur.active.delivery == None
            && w.cur.acknowledged == Some(Receipt(j.id, Some(j.session), Some(j.run), Some(url)))
  {
    var k, address := OpenedJob(j, url), OpenedPage(page, url, conversation, document);
    var tail := Finishing(j, text) + Acknowledging(j);
    var w1 := History(reg, w0, Dispatching(j, page, true));
    PromptIsDispatched(reg, w0, j, page, true);
    HistoryAppend(reg, w0, Dispatching(j, page, true), [Step(Promoted(url, conversation, document))] + tail);
    HistoryAppend(reg, w1, [Step(Promoted(url, conversation, document))], tail);
    OneStep(reg, w1, Step(Promoted(url, conversation, document)));
    SentIsAddressed(reg, w1, j, page, url, conversation, document);
    var w2 := Happen(reg, w1, Step(Promoted(url, conversation, document)));
    HistoryAppend(reg, w2, Finishing(j, text), Acknowledging(j));
    SettlingFinishes(reg, w2, k, address, text);
    AcknowledgementSettles(reg, History(reg, w2, Finishing(j, text)), k, address, false);
  }
}
