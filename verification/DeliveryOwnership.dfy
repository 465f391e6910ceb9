/** Which session owns which unresolved delivery, over any sequence of store mutations. */
module DeliveryOwnership {
  import opened Common
  import opened ExtensionState

  // ------------------------------------------------------------------ what normalization leaves alone

  predicate TidySlot(s: Slot) { NormalizeSlot(s) == s }

  predicate Tidy(s: State) {
    && Text(s.session) == s.session && TidySlot(s.active)
    && (forall k <- s.scopes :: k != "" && s.scopes[k].delivery.Some? && TidySlot(s.scopes[k]))
  }

  /** Equal but for the provider, which normalization infers. */
  predicate SameSlot(a: Slot, b: Slot) {
    a == b.(binding := b.binding.(provider := a.binding.provider))
  }

  lemma ReadIsTidy(reg: Registry, stored: State)
    requires Consistent(reg)
    ensures Tidy(Normalize(reg, stored))
  {
    var scopes := NormalizeScopes(stored.scopes);
    forall k | k in scopes ensures scopes[k].delivery.Some? && TidySlot(scopes[k]) {
      SlotIsStable(stored.scopes[k]);
    }
  }

  lemma TidyScopes(m: map<string, Slot>)
    requires forall k <- m :: k != "" && m[k].delivery.Some? && TidySlot(m[k])
    ensures NormalizeScopes(m) == m
  {
    forall k | k in m ensures Text(m[k].delivery).Some? {
      assert TidySlot(m[k]);
    }
  }

  /** Reading back what was written keeps session, delivery, parked slots and receipts. */
  lemma NormalizeKeeps(reg: Registry, s: State)
    requires Consistent(reg)
    requires Tidy(s)
    ensures var n := Normalize(reg, s);
            n.session == s.session && n.scopes == s.scopes && n.acknowledged == s.acknowledged && SameSlot(n.active, s.active)
  {
    TidyScopes(s.scopes);
  }

  // ------------------------------------------------------------------ conservation

  /** The unresolved deliveries with their sessions. */
  function Pending(s: State): set<(Option<string>, string)> {
    (if s.active.delivery.Some? then {(s.session, s.active.delivery.value)} else {})
    + (set k | k in s.scopes && s.scopes[k].delivery.Some? :: (Some(k), s.scopes[k].delivery.value))
  }

  /** The active session is not also parked. */
  predicate Apart(s: State) { s.session.Some? ==> s.session.value !in s.scopes }

  predicate Owned(s: State) { s.active.delivery.Some? ==> s.session.Some? }

  lemma TidyText(s: Slot)
    requires TidySlot(s)
    ensures Text(s.delivery) == s.delivery
  {
  }

  lemma ParkedTidy(cur: State, session: string)
    requires Tidy(cur)
    ensures var m := Parked(cur) - {session}; forall k <- m :: k != "" && m[k].delivery.Some? && TidySlot(m[k])
  {
  }

  lemma NormalizedSlot(s: Slot, b: Binding)
    requires TidySlot(s)
    ensures TidySlot(NormalizeSlot(s.(binding := b))) && NormalizeSlot(s.(binding := b)).delivery == s.delivery
    ensures NormalizeSlot(s.(binding := b)) == s.(binding := NormalizeBinding(b))
  {
  }

  /** What a successful bindSession leaves. */
  lemma BoundState(reg: Registry, cur: State, b: Bind)
    requires Consistent(reg)
    requires Tidy(cur) && SessionBound(reg, cur, b).Ok?
    ensures var n := SessionBound(reg, cur, b).value;
            && n.session == Some(b.session)
            && n.active.binding.url == Text(b.binding.url) && n.active.binding.run == b.binding.run
            && n.active.binding.tab == Index(b.binding.tab)
            && if cur.session == Some(b.session) then
                 n.scopes == cur.scopes && SameSlot(n.active, cur.active.(binding := NormalizeBinding(b.binding)))
               else
                 n.scopes == Parked(cur) - {b.session}
                 && if b.session in cur.scopes then
                      SameSlot(n.active, cur.scopes[b.session].(binding := NormalizeBinding(b.binding)))
                    else n.active.delivery.None? && n.active.completed.None?
  {
    TidyScopes(cur.scopes);
    if cur.session == Some(b.session) {
      NormalizedSlot(cur.active, b.binding);
    } else {
      ParkedTidy(cur, b.session);
      TidyScopes(Parked(cur) - {b.session});
      if b.session in cur.scopes { NormalizedSlot(cur.scopes[b.session], b.binding); }
    }
  }

  lemma SelectedState(reg: Registry, cur: State, session: string, id: string)
    requires Consistent(reg)
    requires Tidy(cur) && ScopeSelected(reg, cur, session, id).Ok?
    ensures var n := ScopeSelected(reg, cur, session, id).value;
            && n.session == Some(session) && n.scopes == Parked(cur) - {session}
            && session in cur.scopes && SameSlot(n.active, cur.scopes[session]) && n.active.delivery == Some(id)
  {
    ParkedTidy(cur, session);
    TidyScopes(Parked(cur) - {session});
  }

  lemma ParkedPending(cur: State, session: string)
    requires Apart(cur) && cur.session != Some(session)
    ensures var rest := Parked(cur) - {session};
            (set k | k in rest && rest[k].delivery.Some? :: (Some(k), rest[k].delivery.value))
            == (set x | x in Pending(cur) && x.0.Some? && x.0 != Some(session))
  {
    var rest := Parked(cur) - {session};
    var left := set k | k in rest && rest[k].delivery.Some? :: (Some(k), rest[k].delivery.value);
    var right := set x | x in Pending(cur) && x.0.Some? && x.0 != Some(session);
    forall x | x in right ensures x in left {
      assert x.0.value in rest;
    }
  }

  /** Binding a session, and selecting a parked delivery, neither lose nor invent an unresolved delivery, except
      one that no session owns, which both lose. */
  lemma BindConserves(reg: Registry, stored: State, b: Bind)
    requires Consistent(reg)
    requires var cur := Normalize(reg, stored); Apart(cur) && SessionBound(reg, cur, b).Ok?
    ensures var cur := Normalize(reg, stored);
            var n := SessionBound(reg, cur, b).value;
            Apart(n) && (Pending(n) == Pending(cur) <==> Owned(cur))
  {
    var cur := Normalize(reg, stored);
    ReadIsTidy(reg, stored);
    BoundState(reg, cur, b);
    var n := SessionBound(reg, cur, b).value;
    if cur.session != Some(b.session) {
      ParkedPending(cur, b.session);
      MovedPending(cur, n, b.session);
    }
  }

  lemma MovedPending(cur: State, n: State, session: string)
    requires Apart(cur) && cur.session != Some(session) && n.session == Some(session)
    requires n.scopes == Parked(cur) - {session}
    requires if session in cur.scopes then n.active.delivery == cur.scopes[session].delivery else n.active.delivery.None?
    ensures Pending(n) == Pending(cur) <==> Owned(cur)
  {
    ParkedPending(cur, session);
    if Owned(cur) {
      forall x | x in Pending(cur) ensures x in Pending(n) {
        if x.0 != Some(session) { assert x in set y | y in Pending(cur) && y.0.Some? && y.0 != Some(session); }
      }
      forall x | x in Pending(n) ensures x in Pending(cur) {
      }
    } else {
      assert (cur.session, cur.active.delivery.value) in Pending(cur);
      assert (cur.session, cur.active.delivery.value) !in Pending(n);
    }
  }

  lemma SelectConserves(reg: Registry, stored: State, session: string, id: string)
    requires Consistent(reg)
    requires var cur := Normalize(reg, stored); Apart(cur) && ScopeSelected(reg, cur, session, id).Ok?
    ensures var cur := Normalize(reg, stored);
            var n := ScopeSelected(reg, cur, session, id).value;
            Apart(n) && (Pending(n) == Pending(cur) <==> Owned(cur))
  {
    var cur := Normalize(reg, stored);
    ReadIsTidy(reg, stored);
    SelectedState(reg, cur, session, id);
    MovedPending(cur, ScopeSelected(reg, cur, session, id).value, session);
  }

  // ------------------------------------------------------------------ any sequence of mutations

  datatype Op =
    | Reserve(id: string)
    | BindTo(bind: Bind)
    | Select(session: string, id: string)
    | Clear(id: string, from: Option<string>)
    | Change(patch: Patch)
    | ChangeIf(expected: Expected, patch: Patch)

  function OutcomeOf(reg: Registry, cur: State, op: Op): Outcome {
    match op
    case Reserve(id) => Reserved(reg, cur, id)
    case BindTo(b) => SessionBound(reg, cur, b)
    case Select(session, id) => ScopeSelected(reg, cur, session, id)
    case Clear(id, from) => Cleared(reg, cur, id, from)
    case Change(p) => Ok(Updated(reg, cur, p))
    case ChangeIf(e, p) => UpdatedIf(reg, cur, e, p)
  }

  /** The next state that is read; a failed operation writes nothing. */
  function Next(reg: Registry, cur: State, op: Op): State {
    var out := OutcomeOf(reg, cur, op);
    if out.Ok? then Normalize(reg, out.value) else cur
  }

  function Run(reg: Registry, cur: State, ops: seq<Op>): State {
    if ops == [] then cur else Next(reg, Run(reg, cur, ops[..|ops| - 1]), ops[|ops| - 1])
  }

  lemma MergedTidy(reg: Registry, cur: State, p: Patch)
    requires Consistent(reg)
    requires Tidy(cur)
    ensures var n := Updated(reg, cur, p); Tidy(n) && n.session == cur.session && n.scopes == cur.scopes
  {
    ReadIsTidy(reg, Merge(cur, p));
    TidyScopes(cur.scopes);
  }

  /** What a mutation may do to the slots: at most the session left and the session entered are touched. */
  predicate Lands(cur: State, n: State) {
    && Tidy(n) && Apart(n)
    && (forall k <- cur.scopes :: n.session != Some(k) ==> k in n.scopes && n.scopes[k] == cur.scopes[k])
    && (cur.session.Some? && cur.active.delivery.Some? && n.session != cur.session ==>
          cur.session.value in n.scopes && n.scopes[cur.session.value] == cur.active)
  }

  lemma LandsNormalized(reg: Registry, cur: State, n: State)
    requires Consistent(reg)
    requires Lands(cur, n)
    ensures Lands(cur, Normalize(reg, n))
  {
    NormalizeKeeps(reg, n);
    ReadIsTidy(reg, n);
  }

  lemma BindLands(reg: Registry, cur: State, b: Bind)
    requires Consistent(reg)
    requires Tidy(cur) && Apart(cur) && SessionBound(reg, cur, b).Ok?
    ensures Lands(cur, SessionBound(reg, cur, b).value)
  {
    BoundState(reg, cur, b);
    BoundTidy(reg, cur, b);
  }

  lemma SelectLands(reg: Registry, cur: State, session: string, id: string)
    requires Consistent(reg)
    requires Tidy(cur) && Apart(cur) && ScopeSelected(reg, cur, session, id).Ok?
    ensures Lands(cur, ScopeSelected(reg, cur, session, id).value)
  {
    SelectedState(reg, cur, session, id);
    SelectedTidy(reg, cur, session, id);
  }

  /** Every mutation keeps the active session apart from the parked ones and moves at most those two slots. */
  lemma StepLands(reg: Registry, cur: State, op: Op)
    requires Consistent(reg)
    requires Tidy(cur) && Apart(cur)
    ensures Lands(cur, Next(reg, cur, op))
  {
    var out := OutcomeOf(reg, cur, op);
    if out.Ok? {
      match op {
        case Reserve(id) => ReservedState(reg, cur, id);
        case BindTo(b) => BindLands(reg, cur, b);
        case Select(session, id) => SelectLands(reg, cur, session, id);
        case Clear(id, from) => ClearedState(reg, cur, id, from);
        case Change(p) => MergedTidy(reg, cur, p);
        case ChangeIf(e, p) => MergedTidy(reg, cur, p);
      }
      LandsNormalized(reg, cur, out.value);
    }
  }

  lemma ReservedState(reg: Registry, cur: State, id: string)
    requires Consistent(reg)
    requires Tidy(cur) && Reserved(reg, cur, id).Ok?
    ensures var n := Reserved(reg, cur, id).value;
            && Tidy(n) && n.session == cur.session && n.scopes == cur.scopes
            && SameSlot(n.active, cur.active.(delivery := Some(id), completed := None))
  {
    var m := cur.(active := cur.active.(delivery := Some(id), completed := None));
    TidyScopes(cur.scopes);
    ReadIsTidy(reg, m);
    assert id != "";
  }

  lemma ClearedState(reg: Registry, cur: State, id: string, from: Option<string>)
    requires Consistent(reg)
    requires Tidy(cur) && Cleared(reg, cur, id, from).Ok?
    ensures var n := Cleared(reg, cur, id, from).value;
            && Tidy(n) && n.session == cur.session && n.scopes == cur.scopes
            && SameSlot(n.active, cur.active.(delivery := None))
  {
    TidyScopes(cur.scopes);
    ReadIsTidy(reg, cur.(active := cur.active.(delivery := None), acknowledged := Some(ReceiptFor(cur, id))));
  }

  lemma BoundTidy(reg: Registry, cur: State, b: Bind)
    requires Consistent(reg)
    requires SessionBound(reg, cur, b).Ok?
    ensures Tidy(SessionBound(reg, cur, b).value)
  {
    if cur.session == Some(b.session) {
      ReadIsTidy(reg, State(Some(b.session), cur.active.(binding := b.binding), cur.scopes, cur.acknowledged, cur.discarded,
                            Or(b.target, cur.target), Or(b.error, cur.error), b.status));
    } else {
      var parked := Parked(cur);
      var next := if b.session in parked then parked[b.session] else Slot(b.binding, None, None, None, None);
      ReadIsTidy(reg, State(Some(b.session), next.(binding := b.binding), parked - {b.session}, cur.acknowledged, cur.discarded,
                            Or(b.target, cur.target), Or(b.error, cur.error), b.status));
    }
  }

  lemma SelectedTidy(reg: Registry, cur: State, session: string, id: string)
    requires Consistent(reg)
    requires ScopeSelected(reg, cur, session, id).Ok?
    ensures Tidy(ScopeSelected(reg, cur, session, id).value)
  {
    ReadIsTidy(reg, cur.(session := Some(session), active := cur.scopes[session], scopes := Parked(cur) - {session},
                         status := Ambiguous,
                         error := Some(SELECTED)));
  }

  predicate Kept<T(==)>(patch: Option<T>, before: T, after: T) { patch.Some? || after == before }

  /** A field that the patch does not name keeps its value, whoever owns what is untouched unless the patch names
      the delivery, and a status can only fall to NEEDS_REBIND. */
  lemma UpdateKeepsRest(reg: Registry, cur: State, p: Patch)
    requires Consistent(reg) && Tidy(cur)
    ensures var n := Updated(reg, cur, p);
            var b, c := n.active.binding, cur.active.binding;
            && n.session == cur.session && n.scopes == cur.scopes && n.acknowledged == cur.acknowledged && b.run == c.run
            && Kept(p.url, c.url, b.url) && Kept(p.conversation, c.conversation, b.conversation)
            && Kept(p.tab, c.tab, b.tab) && Kept(p.window, c.window, b.window) && Kept(p.document, c.document, b.document)
            && Kept(p.frame, c.frame, b.frame) && Kept(p.delivery, cur.active.delivery, n.active.delivery)
            && Kept(p.completed, cur.active.completed, n.active.completed)
            && Kept(p.lastUser, cur.active.lastUser, n.active.lastUser)
            && Kept(p.lastAssistant, cur.active.lastAssistant, n.active.lastAssistant)
            && Kept(p.discarded, cur.discarded, n.discarded)
            && (p.delivery.None? ==> Pending(n) == Pending(cur))
            && (p.status.None? ==> n.status == cur.status || n.status.NeedsRebind?)
  {
    TidyScopes(cur.scopes);
  }

  /** The patched URL belongs to another provider than the one the binding had. */
  predicate LeavesProvider(reg: Registry, cur: State, p: Patch) {
    p.url.Some? && Text(p.url.value).Some? && cur.active.binding.provider.Some?
    && reg.forUrl(p.url.value.value).Some? && reg.forUrl(p.url.value.value) != cur.active.binding.provider
  }

  /** What an update writes and returns is what the next read returns, exactly if it does not move the binding to
      another provider's URL: then the first normalization drops the provider and the read infers the new one. */
  lemma UpdateReadsBack(reg: Registry, stored: State, p: Patch)
    requires Consistent(reg)
    ensures var cur := Normalize(reg, stored);
            var written := Updated(reg, cur, p);
            Normalize(reg, written) == written <==> !LeavesProvider(reg, cur, p)
  {
    var cur := Normalize(reg, stored);
    SecondProvider(reg, stored);
    ReadIsTidy(reg, stored);
    assert TidySlot(cur.active);
    NormalizeIsIdempotent(reg, Merge(cur, p));
  }

  /** An acknowledgement can be repeated: the second one is accepted and changes nothing. */
  lemma ClearTwice(reg: Registry, cur: State, id: string, from: Option<string>)
    requires Consistent(reg) && Tidy(cur) && Cleared(reg, cur, id, from).Ok?
    ensures var n := Next(reg, cur, Clear(id, from));
            Cleared(reg, n, id, from) == Ok(n) && n.active.delivery.None?
            && n.acknowledged == Some(ReceiptFor(cur, id))
  {
    var out := Cleared(reg, cur, id, from).value;
    ClearedState(reg, cur, id, from);
    NormalizeKeeps(reg, out);
    if cur.active.delivery.Some? { ClearedReceipt(reg, cur, id, from); }
  }

  lemma ClearedReceipt(reg: Registry, cur: State, id: string, from: Option<string>)
    requires Consistent(reg) && Tidy(cur) && Cleared(reg, cur, id, from).Ok? && cur.active.delivery.Some?
    ensures Cleared(reg, cur, id, from).value.acknowledged == Some(ReceiptFor(cur, id))
  {
  }

  // ------------------------------------------------------------------ leaving a session and coming back

  /** Session k is parked with this slot, and not active. */
  predicate Away(cur: State, k: string, slot: Slot) {
    Tidy(cur) && Apart(cur) && cur.session != Some(k) && k in cur.scopes && cur.scopes[k] == slot
  }

  /** k becomes active at no point of the run. */
  ghost predicate NeverActive(reg: Registry, cur: State, ops: seq<Op>, k: string) {
    forall n :: 0 <= n <= |ops| ==> Run(reg, cur, ops[..n]).session != Some(k)
  }

  lemma {:induction false} StaysAway(reg: Registry, cur: State, ops: seq<Op>, k: string, slot: Slot)
    requires Consistent(reg) && Away(cur, k, slot) && NeverActive(reg, cur, ops, k)
    ensures Away(Run(reg, cur, ops), k, slot)
  {
    if ops != [] {
      var past := ops[..|ops| - 1];
      forall n | 0 <= n <= |past| ensures Run(reg, cur, past[..n]).session != Some(k) {
        assert past[..n] == ops[..n];
      }
      StaysAway(reg, cur, past, k, slot);
      StepLands(reg, Run(reg, cur, past), ops[|ops| - 1]);
      assert ops[..|ops|] == ops;
    }
  }

  /** A session left with an unresolved delivery keeps it untouched however the other sessions are bound, reserved,
      selected, cleared or patched, and coming back, by binding or by selecting, gives back exactly the delivery,
      the completed response and the observed message ids; selecting gives back the binding as well. */
  lemma LeaveAndReturn(reg: Registry, cur: State, leave: Op, ops: seq<Op>, back: Op)
    requires Consistent(reg) && Tidy(cur) && Apart(cur) && cur.session.Some? && cur.active.delivery.Some?
    requires Next(reg, cur, leave).session != cur.session
    requires NeverActive(reg, Next(reg, cur, leave), ops, cur.session.value)
    requires back.BindTo? || back.Select?
    requires Next(reg, Run(reg, Next(reg, cur, leave), ops), back).session == cur.session
    ensures var home := Next(reg, Run(reg, Next(reg, cur, leave), ops), back).active;
            && home.delivery == cur.active.delivery && home.completed == cur.active.completed
            && home.lastUser == cur.active.lastUser && home.lastAssistant == cur.active.lastAssistant
            && (back.Select? ==> SameSlot(home, cur.active))
  {
    var k := cur.session.value;
    StepLands(reg, cur, leave);
    var there := Run(reg, Next(reg, cur, leave), ops);
    StaysAway(reg, Next(reg, cur, leave), ops, k, cur.active);
    var out := OutcomeOf(reg, there, back);
    assert ops[..|ops|] == ops;
    match back {
      case BindTo(b) => BoundState(reg, there, b); BoundTidy(reg, there, b);
      case Select(session, id) => SelectedState(reg, there, session, id); SelectedTidy(reg, there, session, id);
    }
    NormalizeKeeps(reg, out.value);
  }

  /** Coming back by binding succeeds exactly with the run and conversation that were left. */
  lemma ReturnNeedsSameOwner(reg: Registry, cur: State, b: Bind, slot: Slot)
    requires Away(cur, b.session, slot) && NonBlank(b.session) && b.binding.run.Some? && NonBlank(b.binding.run.value)
    ensures SessionBound(reg, cur, b).Ok? <==>
            slot.binding.run.None? || (slot.binding.run == b.binding.run && slot.binding.url == b.binding.url)
  {
  }

  // ------------------------------------------------------------------ distinct targets

  predicate UrlParked(cur: State, url: Option<string>) { exists k <- cur.scopes :: cur.scopes[k].binding.url == url }

  /** All unresolved deliveries have conversation URLs, and different ones. */
  predicate Distinct(cur: State) {
    && (forall k <- cur.scopes :: cur.scopes[k].binding.url.Some?)
    && (forall j <- cur.scopes, k <- cur.scopes :: j != k ==> cur.scopes[j].binding.url != cur.scopes[k].binding.url)
    && (cur.active.delivery.Some? ==> Separate(cur, cur.active.binding.url))
  }

  predicate Separate(cur: State, url: Option<string>) { url.Some? && !UrlParked(cur, url) }

  lemma SameDistinct(a: State, b: State)
    requires a.scopes == b.scopes && a.active.delivery == b.active.delivery && a.active.binding.url == b.active.binding.url
    ensures Distinct(a) == Distinct(b)
  {
  }

  /** A reservation is refused on any target another session still owns. */
  lemma ReserveSeparates(reg: Registry, cur: State, id: string)
    requires Consistent(reg) && Tidy(cur) && Distinct(cur) && Reserved(reg, cur, id).Ok?
    ensures Distinct(Reserved(reg, cur, id).value) <==> cur.active.binding.url.Some?
  {
    ReservedState(reg, cur, id);
    assert forall k <- cur.scopes :: !OnTarget(cur.scopes[k], cur.active.binding);
  }

  lemma ParkedDistinct(cur: State, n: State, session: string)
    requires Distinct(cur) && Apart(cur) && Owned(cur) && cur.session != Some(session)
    requires n.scopes == Parked(cur) - {session}
    requires session in cur.scopes ==> n.active.delivery.Some? && n.active.binding.url == cur.scopes[session].binding.url
    requires session !in cur.scopes ==> n.active.delivery.None?
    ensures Distinct(n)
  {
  }

  /** Binding the session makes an unresolved delivery the current one, or keeps it so. */
  predicate Enters(cur: State, session: string) {
    if cur.session == Some(session) then cur.active.delivery.Some? else session in cur.scopes
  }

  function EnteredUrl(cur: State, session: string): Option<string>
    requires Enters(cur, session)
  {
    if cur.session == Some(session) then cur.active.binding.url else cur.scopes[session].binding.url
  }

  /** What is parked after the session has been bound. */
  function Others(cur: State, session: string): map<string, Slot> {
    if cur.session == Some(session) then cur.scopes else Parked(cur) - {session}
  }

  /** A conversation that no other session's unresolved delivery has. */
  predicate Free(cur: State, session: string, url: Option<string>) {
    url.Some? && forall k <- Others(cur, session) :: Others(cur, session)[k].binding.url != url
  }

  lemma OthersDistinct(cur: State, n: State, session: string)
    requires Distinct(cur) && Apart(cur) && Owned(cur) && n.scopes == Others(cur, session)
    requires n.active.delivery.Some? <==> Enters(cur, session)
    ensures Distinct(n) <==> (Enters(cur, session) ==> Free(cur, session, n.active.binding.url))
  {
  }

  /** Binding keeps the targets of unresolved deliveries distinct exactly if the delivery of the session that is
      bound, if it has one, comes to stand on a conversation that no other session's delivery has. */
  lemma BindSeparates(reg: Registry, cur: State, b: Bind)
    requires Consistent(reg) && Tidy(cur) && Apart(cur) && Owned(cur) && Distinct(cur)
    requires SessionBound(reg, cur, b).Ok?
    ensures Distinct(SessionBound(reg, cur, b).value) <==>
            (Enters(cur, b.session) ==> Free(cur, b.session, Text(b.binding.url)))
  {
    BoundState(reg, cur, b);
    OthersDistinct(cur, SessionBound(reg, cur, b).value, b.session);
  }

  /** Its own conversation is one. */
  lemma OwnUrlIsFree(cur: State, session: string)
    requires Distinct(cur) && Apart(cur) && Owned(cur) && Enters(cur, session)
    ensures Free(cur, session, EnteredUrl(cur, session))
  {
  }

  /** A parked delivery without a run id: the store binds its session again without looking at the conversation. */
  predicate Unchecked(cur: State, session: string) {
    cur.session != Some(session) && session in cur.scopes && cur.scopes[session].binding.run.None?
  }

  lemma SelectSeparates(reg: Registry, cur: State, session: string, id: string)
    requires Consistent(reg) && Tidy(cur) && Apart(cur) && Owned(cur) && Distinct(cur)
    requires ScopeSelected(reg, cur, session, id).Ok?
    ensures Distinct(ScopeSelected(reg, cur, session, id).value)
  {
    SelectedState(reg, cur, session, id);
    ParkedDistinct(cur, ScopeSelected(reg, cur, session, id).value, session);
  }

  /** The guard of prepareBoundSession: an unresolved delivery of the same session and run pins its binding. */
  predicate PrepareAllowed(cur: State, session: string, run: string, url: Option<string>, conversation: Option<string>) {
    cur.active.delivery.Some? && cur.session == Some(session) && cur.active.binding.run == Some(run) ==>
      cur.active.binding.url == url && cur.active.binding.conversation == conversation
  }

  /** Under that guard, and the store's own check of parked deliveries, binding the requested conversation keeps
      targets distinct, but for a parked delivery without a run id that is bound to another one's conversation. */
  lemma PreparedBindSeparates(reg: Registry, cur: State, b: Bind)
    requires Consistent(reg) && Tidy(cur) && Apart(cur) && Owned(cur) && Distinct(cur)
    requires SessionBound(reg, cur, b).Ok? && b.binding.run.Some?
    requires PrepareAllowed(cur, b.session, b.binding.run.value, b.binding.url, b.binding.conversation)
    ensures Distinct(SessionBound(reg, cur, b).value) <==>
            (Unchecked(cur, b.session) ==> Free(cur, b.session, Text(b.binding.url)))
  {
    BindSeparates(reg, cur, b);
    if Enters(cur, b.session) && !Unchecked(cur, b.session) {
      assert TidySlot(cur.active);
      if cur.session != Some(b.session) { assert TidySlot(cur.scopes[b.session]); }
      assert EnteredUrl(cur, b.session) == Text(b.binding.url);
      OwnUrlIsFree(cur, b.session);
    }
  }
}
