/** What the persisted state says after each mutation, field by field (extension/runtime/storage.js). */
module DeliveryBinding {
  import opened Common
  import opened ExtensionState
  import opened DeliveryOwnership

  // ------------------------------------------------------------------ what a read keeps of what is stored

  /** A stored text survives unless it is empty. */
  predicate TextRead(stored: Option<string>, read: Option<string>) {
    if stored == Some("") then read == None else read == stored
  }

  /** A stored index survives if it is a safe integer that is not negative. */
  predicate IndexRead(stored: Option<int>, read: Option<int>) {
    if stored.Some? && (stored.value < 0 || stored.value > 9007199254740991) then read == None else read == stored
  }

  /** All of a binding but its provider. */
  predicate BindingRead(stored: Binding, read: Binding) {
    && TextRead(stored.run, read.run) && TextRead(stored.url, read.url) && TextRead(stored.conversation, read.conversation)
    && TextRead(stored.document, read.document) && IndexRead(stored.tab, read.tab) && IndexRead(stored.window, read.window)
    && IndexRead(stored.frame, read.frame)
  }

  /** The rest of a slot. */
  predicate DeliveryRead(stored: Slot, read: Slot) {
    && TextRead(stored.delivery, read.delivery) && read.completed == stored.completed
    && TextRead(stored.lastUser, read.lastUser) && TextRead(stored.lastAssistant, read.lastAssistant)
  }

  predicate Empty(v: Option<string>) { v.None? || v == Some("") }

  /** The provider is the URL's, if that one is registered and the stored name is absent or the same. */
  predicate ProviderRead(reg: Registry, stored: Binding, read: Binding) {
    read.provider == if !Empty(stored.url) && (Empty(stored.provider) || stored.provider == reg.forUrl(stored.url.value))
                     then reg.forUrl(stored.url.value) else None
  }

  /** Everything a turn on an existing conversation needs. */
  predicate Complete(session: Option<string>, b: Binding) {
    && session.Some? && b.run.Some? && b.provider.Some? && b.url.Some? && b.tab.Some? && b.window.Some?
    && b.document.Some? && b.frame == Some(0)
  }

  /** BOUND needs a complete binding with a conversation, ROOT_READY one on the provider's start page. */
  predicate StatusRead(reg: Registry, stored: Status, n: State) {
    var b := n.active.binding;
    n.status ==
      match stored
      case Bound => if Complete(n.session, b) && b.conversation.Some? then Bound else NeedsRebind
      case RootReady =>
        if Complete(n.session, b) && b.conversation.None? && b.url.value == reg.root(b.provider.value) then RootReady
        else NeedsRebind
      case Unrecognized => NeedsRebind
      case _ => stored
  }

  /** A parked slot survives if it has a delivery and a session id. */
  ghost predicate ScopesRead(stored: map<string, Slot>, read: map<string, Slot>) {
    && (forall k :: k in read <==> k in stored && k != "" && !Empty(stored[k].delivery))
    && forall k <- read ::
         BindingRead(stored[k].binding, read[k].binding) && DeliveryRead(stored[k], read[k])
         && TextRead(stored[k].binding.provider, read[k].binding.provider)
  }

  /** A remembered target survives if it is exact: every identifier, the main frame, a canonical URL of a registered
      provider, and the conversation of that URL or the start page. */
  predicate TargetRead(reg: Registry, stored: Option<Target>, read: Option<Target>) {
    if stored.Some? && Exact(reg, stored.value) then
      read == Some(stored.value.(provider := reg.forUrl(stored.value.url.value),
                                 conversation := if Empty(stored.value.conversation) then None else stored.value.conversation))
    else read == None
  }

  predicate Exact(reg: Registry, t: Target) {
    && IndexRead(t.tab, t.tab) && t.tab.Some? && IndexRead(t.window, t.window) && t.window.Some?
    && !Empty(t.document) && t.frame == Some(0) && !Empty(t.url)
    && reg.forUrl(t.url.value).Some? && (Empty(t.provider) || t.provider == reg.forUrl(t.url.value))
    && reg.canonical(reg.forUrl(t.url.value).value, t.url.value) == t.url
    && if Empty(t.conversation) then t.url.value == reg.root(reg.forUrl(t.url.value).value)
       else reg.conversation(reg.forUrl(t.url.value).value, t.url.value) == t.conversation
  }

  ghost predicate ReadOf(reg: Registry, s: State, n: State) {
    && TextRead(s.session, n.session) && BindingRead(s.active.binding, n.active.binding) && DeliveryRead(s.active, n.active)
    && ProviderRead(reg, s.active.binding, n.active.binding) && ScopesRead(s.scopes, n.scopes)
    && n.acknowledged == s.acknowledged && n.discarded == s.discarded && TargetRead(reg, s.target, n.target)
    && TextRead(s.error, n.error) && StatusRead(reg, s.status, n)
  }

  /** What a read returns of any stored state. */
  lemma ReadTells(reg: Registry, s: State)
    requires Consistent(reg)
    ensures ReadOf(reg, s, Normalize(reg, s))
  {
    ScopesTell(s.scopes);
    TargetTells(reg, s.target);
  }

  lemma ScopesTell(m: map<string, Slot>)
    ensures ScopesRead(m, NormalizeScopes(m))
  {
  }

  lemma TargetTells(reg: Registry, t: Option<Target>)
    requires Consistent(reg)
    ensures TargetRead(reg, t, if t.None? then None else NormalizeTarget(reg, t.value))
  {
  }

  /** Reading what a read returned keeps the target. */
  lemma TargetReadAgain(reg: Registry, s: State, t: Option<Target>)
    requires Consistent(reg) && TargetRead(reg, s.target, t)
    ensures TargetRead(reg, t, t)
  {
  }

  // ------------------------------------------------------------------ binding a session

  /** The bound state: session, binding, status, error and target are those that were given, as a read keeps them; an
      error or a target that was not given stays, and so do both receipts. */
  predicate BoundAs(reg: Registry, cur: State, b: Bind, n: State) {
    && n.session == Some(b.session) && BindingRead(b.binding, n.active.binding)
    && ProviderRead(reg, b.binding, n.active.binding) && StatusRead(reg, b.status, n)
    && (match b.error case None => n.error == cur.error case Some(e) => TextRead(e, n.error))
    && (match b.target case None => n.target == cur.target case Some(t) => TargetRead(reg, t, n.target))
    && n.acknowledged == cur.acknowledged && n.discarded == cur.discarded
  }

  predicate SameButProvider(a: State, b: State) {
    a == b.(active := b.active.(binding := b.active.binding.(provider := a.active.binding.provider)))
  }

  lemma BindTells(reg: Registry, stored: State, b: Bind)
    requires Consistent(reg) && SessionBound(reg, Normalize(reg, stored), b).Ok?
    ensures var cur := Normalize(reg, stored);
            var n := SessionBound(reg, cur, b).value;
            BoundAs(reg, cur, b, n) && SameButProvider(Normalize(reg, n), n)
  {
    var cur := Normalize(reg, stored);
    ReadTells(reg, stored);
    TargetReadAgain(reg, stored, cur.target);
    var raw := Unread(cur, b, EnteredSlot(cur, b));
    assert SessionBound(reg, cur, b).value == Normalize(reg, raw);
    ReadTells(reg, raw);
    SecondPass(reg, raw);
  }

  /** The slot the session has before it is bound. */
  function EnteredSlot(cur: State, b: Bind): Slot {
    if cur.session == Some(b.session) then cur.active
    else if b.session in Parked(cur) then Parked(cur)[b.session]
    else Slot(b.binding, None, None, None, None)
  }

  function Unread(cur: State, b: Bind, slot: Slot): State {
    State(Some(b.session), slot.(binding := b.binding),
          if cur.session == Some(b.session) then cur.scopes else Parked(cur) - {b.session},
          cur.acknowledged, cur.discarded, Or(b.target, cur.target), Or(b.error, cur.error), b.status)
  }

  // ------------------------------------------------------------------ the other mutations

  /** What an update leaves in a field: what the patch names, or what was there. */
  predicate TextNamed(patch: Option<Option<string>>, before: Option<string>, after: Option<string>) {
    match patch case None => after == before case Some(v) => TextRead(v, after)
  }

  predicate IndexNamed(patch: Option<Option<int>>, before: Option<int>, after: Option<int>) {
    match patch case None => after == before case Some(v) => IndexRead(v, after)
  }

  predicate UpdatedAs(reg: Registry, cur: State, p: Patch, n: State) {
    var b, c := n.active.binding, cur.active.binding;
    && TextNamed(p.url, c.url, b.url) && TextNamed(p.conversation, c.conversation, b.conversation)
    && IndexNamed(p.tab, c.tab, b.tab) && IndexNamed(p.window, c.window, b.window)
    && TextNamed(p.document, c.document, b.document) && IndexNamed(p.frame, c.frame, b.frame)
    && TextNamed(p.delivery, cur.active.delivery, n.active.delivery)
    && n.active.completed == (match p.completed case None => cur.active.completed case Some(v) => v)
    && TextNamed(p.lastUser, cur.active.lastUser, n.active.lastUser)
    && TextNamed(p.lastAssistant, cur.active.lastAssistant, n.active.lastAssistant)
    && n.discarded == (match p.discarded case None => cur.discarded case Some(v) => v)
    && (match p.target case None => n.target == cur.target case Some(t) => TargetRead(reg, t, n.target))
    && TextNamed(p.error, cur.error, n.error)
    && StatusRead(reg, match p.status case None => cur.status case Some(v) => v, n)
    && ProviderRead(reg, c.(url := b.url), b)
  }

  /** Each field has what the patch names for it, as a read keeps it, and otherwise what it had. */
  lemma UpdateTells(reg: Registry, stored: State, p: Patch)
    requires Consistent(reg)
    ensures var cur := Normalize(reg, stored); UpdatedAs(reg, cur, p, Updated(reg, cur, p))
  {
    var cur := Normalize(reg, stored);
    ReadTells(reg, stored);
    TargetReadAgain(reg, stored, cur.target);
    ReadTells(reg, Merge(cur, p));
  }

  /** A reservation adds the delivery, forgets the completed response and changes nothing else. */
  lemma ReserveTells(reg: Registry, stored: State, id: string)
    requires Consistent(reg) && Reserved(reg, Normalize(reg, stored), id).Ok?
    ensures var cur := Normalize(reg, stored);
            SameButProvider(Reserved(reg, cur, id).value, cur.(active := cur.active.(delivery := Some(id), completed := None)))
  {
    SecondPass(reg, stored);
  }

  /** An acknowledgement removes the delivery, leaves its receipt and changes nothing else. */
  lemma ClearTells(reg: Registry, stored: State, id: string, session: Option<string>)
    requires Consistent(reg) && Cleared(reg, Normalize(reg, stored), id, session).Ok?
    requires Normalize(reg, stored).active.delivery.Some?
    ensures var cur := Normalize(reg, stored);
            SameButProvider(
              Cleared(reg, cur, id, session).value,
              cur.(active := cur.active.(delivery := None),
                   acknowledged := Some(Receipt(id, cur.session, cur.active.binding.run, cur.active.binding.url))))
  {
    SecondPass(reg, stored);
  }

  /** Selecting makes the parked slot the active one, with the status and the note that call for inspection. */
  lemma SelectTells(reg: Registry, stored: State, session: string, id: string)
    requires Consistent(reg) && ScopeSelected(reg, Normalize(reg, stored), session, id).Ok?
    ensures var cur := Normalize(reg, stored);
            && session in cur.scopes
            && SameButProvider(
                 ScopeSelected(reg, cur, session, id).value,
                 cur.(session := Some(session), active := cur.scopes[session],
                      scopes := (if cur.active.delivery.Some? && cur.session.Some? then cur.scopes[cur.session.value := cur.active]
                                 else cur.scopes) - {session},
                      status := Ambiguous,
                      error := Some("PENDING_DELIVERY_SELECTED: Inspect the selected delivery before recovery.")))
  {
    ReadIsTidy(reg, stored);
    ReadTells(reg, stored);
    SelectedState(reg, Normalize(reg, stored), session, id);
    SecondPass(reg, stored);
  }

  // ------------------------------------------------------------------ exactly when a mutation is refused

  predicate Blank(s: string) { forall i :: 0 <= i < |s| ==> IsSpace(s[i]) }

  /** Some other session's delivery has the current tab or conversation. */
  predicate TargetTaken(cur: State) {
    exists k <- cur.scopes ::
      && cur.scopes[k].delivery.Some?
      && ((cur.active.binding.tab.Some? && cur.scopes[k].binding.tab == cur.active.binding.tab)
          || (cur.active.binding.url.Some? && cur.scopes[k].binding.url == cur.active.binding.url))
  }

  lemma ReserveRefuses(reg: Registry, cur: State, id: string)
    ensures Reserved(reg, cur, id).Ok? <==> !Blank(id) && !TargetTaken(cur) && cur.active.delivery == None
    ensures Reserved(reg, cur, id).Err? ==>
              Reserved(reg, cur, id).error == if Blank(id) then InvalidDeliveryId
                                              else if TargetTaken(cur) then RecoveryRequired
                                              else AlreadyReserved(cur.active.delivery)
  {
    if k :| k in cur.scopes && OnTarget(cur.scopes[k], cur.active.binding) { assert TargetTaken(cur); }
  }

  /** The session is bound with its own unresolved delivery to another run, or its parked delivery to another run or
      another conversation than it was parked with. */
  predicate OwnerChanges(cur: State, b: Bind) {
    if cur.session == Some(b.session) then cur.active.delivery.Some? && cur.active.binding.run != b.binding.run
    else
      && b.session in cur.scopes && cur.scopes[b.session].binding.run.Some?
      && !(cur.scopes[b.session].binding.run == b.binding.run && cur.scopes[b.session].binding.url == b.binding.url)
  }

  lemma BindRefuses(reg: Registry, cur: State, b: Bind)
    ensures var named := !Blank(b.session) && b.binding.run.Some? && !Blank(b.binding.run.value);
            && (SessionBound(reg, cur, b).Ok? <==> named && !OwnerChanges(cur, b))
            && (SessionBound(reg, cur, b).Err? ==>
                  SessionBound(reg, cur, b).error == if named then RecoveryMismatch else InvalidSessionBinding)
  {
  }

  lemma SelectRefuses(reg: Registry, cur: State, session: string, id: string)
    ensures var parked := session in cur.scopes && cur.scopes[session].delivery == Some(id);
            var out := ScopeSelected(reg, cur, session, id);
            && (out.Ok? <==> parked && cur.scopes[session].binding.run.Some? && cur.scopes[session].binding.url.Some?)
            && (out.Err? ==> out.error == if parked then OwnerUnconfirmed else RecoveryMismatch)
  {
  }

  /** It names the current delivery and, if it names a session, that one; or it repeats the last receipt while nothing
      is unresolved. */
  lemma ClearRefuses(reg: Registry, cur: State, id: string, session: Option<string>)
    ensures var out := Cleared(reg, cur, id, session);
            && (out.Ok? <==>
                  && !Blank(id) && (session.Some? ==> cur.session == session)
                  && (cur.active.delivery == Some(id)
                      || (cur.active.delivery == None && cur.acknowledged.Some?
                          && cur.acknowledged.value == Receipt(id, cur.session, cur.active.binding.run, cur.active.binding.url))))
            && (out.Err? ==> out.error == if Blank(id) then InvalidDeliveryId else AckMismatch(cur.active.delivery, cur.session))
            && (out.Ok? && cur.active.delivery == None ==> out.value == cur)
  {
  }

  predicate Differs<T(==)>(expected: Option<T>, found: T) { expected.Some? && expected.value != found }

  lemma UpdateIfRefuses(reg: Registry, cur: State, e: Expected, p: Patch)
    ensures var b := cur.active.binding;
            var changed :=
              Differs(e.session, cur.session) || Differs(e.run, b.run) || Differs(e.url, b.url) || Differs(e.tab, b.tab)
              || Differs(e.document, b.document) || Differs(e.frame, b.frame) || Differs(e.delivery, cur.active.delivery)
              || (e.uncompleted && cur.active.completed != None) || Differs(e.scopes, cur.scopes) || Differs(e.status, cur.status);
            UpdatedIf(reg, cur, e, p) == if changed then Err(RecoveryMismatch) else Ok(Updated(reg, cur, p))
  {
  }
}
