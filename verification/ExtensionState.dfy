/** The extension's persisted state: normalization and the store's mutations (extension/runtime/storage.js). */
module ExtensionState {
  import opened Common

  // ------------------------------------------------------------------ Web target providers, left abstract

  /** A provider registry: which provider names are registered, which one a URL belongs to, each one's start page,
      canonical URLs and conversation ids. */
  datatype Registry = Registry(
    known: string -> bool, forUrl: string -> Option<string>, root: string -> string,
    canonical: (string, string) -> Option<string>, conversation: (string, string) -> Option<string>)

  /** URLs belong to registered, named providers. */
  ghost predicate Consistent(reg: Registry) {
    forall u :: reg.forUrl(u).Some? ==> reg.known(reg.forUrl(u).value) && reg.forUrl(u).value != ""
  }

  /** resolveWebTargetProvider for a nonnull URL. */
  function Resolve(reg: Registry, name: Option<string>, url: string): Option<string> {
    if name.Some? && !reg.known(name.value) then None
    else
      var byUrl := reg.forUrl(url);
      if byUrl.None? || (name.Some? && name != byUrl) then None else byUrl
  }

  // ------------------------------------------------------------------ stored values

  datatype Status = RootReady | Bound | NeedsRebind | AuthRequired | Ambiguous | Unrecognized

  datatype Binding = Binding(
    run: Option<string>, provider: Option<string>, url: Option<string>, conversation: Option<string>,
    tab: Option<int>, window: Option<int>, document: Option<string>, frame: Option<int>)

  datatype Completed = Completed(turnId: string, rawText: string)

  /** What deliveryScope keeps of a session: its binding, its delivery and what was observed for it. */
  datatype Slot = Slot(
    binding: Binding, delivery: Option<string>, completed: Option<Completed>, lastUser: Option<string>,
    lastAssistant: Option<string>)

  datatype Receipt = Receipt(delivery: string, session: Option<string>, run: Option<string>, url: Option<string>)

  datatype Target = Target(
    provider: Option<string>, tab: Option<int>, window: Option<int>, document: Option<string>, frame: Option<int>,
    url: Option<string>, conversation: Option<string>)

  /** `active` is the part of the state that deliveryScope would park. */
  datatype State = State(
    session: Option<string>, active: Slot, scopes: map<string, Slot>, acknowledged: Option<Receipt>,
    discarded: Option<Receipt>, target: Option<Target>, error: Option<string>, status: Status)

  const MAX_SAFE: int := 0x1F_FFFF_FFFF_FFFF

  // ------------------------------------------------------------------ normalizeExtensionState

  function Text(v: Option<string>): Option<string> { if v == Some("") then None else v }

  function Index(v: Option<int>): Option<int> { if v.Some? && 0 <= v.value <= MAX_SAFE then v else None }

  function NormalizeBinding(b: Binding): Binding {
    Binding(Text(b.run), Text(b.provider), Text(b.url), Text(b.conversation), Index(b.tab), Index(b.window),
            Text(b.document), Index(b.frame))
  }

  function NormalizeSlot(s: Slot): Slot {
    Slot(NormalizeBinding(s.binding), Text(s.delivery), s.completed, Text(s.lastUser), Text(s.lastAssistant))
  }

  function NormalizeScopes(m: map<string, Slot>): map<string, Slot> {
    map k | k in m && k != "" && Text(m[k].delivery).Some? :: NormalizeSlot(m[k])
  }

  function ResolvedProvider(reg: Registry, b: Binding): Option<string> {
    var url := Text(b.url);
    if url.None? then None else Resolve(reg, Text(b.provider), url.value)
  }

  predicate ExactTarget(reg: Registry, provider: string, t: Target) {
    && Index(t.tab).Some? && Index(t.window).Some? && Text(t.document).Some? && t.frame == Some(0)
    && Text(t.url).Some? && reg.canonical(provider, t.url.value) == Some(t.url.value)
    && if Text(t.conversation).None? then t.url.value == reg.root(provider)
       else reg.conversation(provider, t.url.value) == t.conversation
  }

  function NormalizeTarget(reg: Registry, t: Target): Option<Target> {
    if Text(t.url).None? then None
    else
      var provider := Resolve(reg, Text(t.provider), t.url.value);
      if provider.None? || !ExactTarget(reg, provider.value, t) then None
      else Some(t.(provider := provider, conversation := Text(t.conversation)))
  }

  /** A status that claims a usable binding needs every part of one. */
  predicate Supports(reg: Registry, session: Option<string>, b: Binding, status: Status) {
    && b.provider.Some? && b.tab.Some? && b.window.Some? && b.url.Some? && b.document.Some? && b.frame == Some(0)
    && (status.Bound? ==> b.conversation.Some?)
    && (status.RootReady? ==> b.url == Some(reg.root(b.provider.value)) && b.conversation.None?)
    && session.Some? && b.run.Some?
  }

  function NormalizeStatus(reg: Registry, session: Option<string>, b: Binding, status: Status): Status {
    if status.Unrecognized? || ((status.Bound? || status.RootReady?) && !Supports(reg, session, b, status))
    then NeedsRebind else status
  }

  function Normalize(reg: Registry, s: State): State {
    var session := Text(s.session);
    var binding := NormalizeBinding(s.active.binding).(provider := ResolvedProvider(reg, s.active.binding));
    State(session, NormalizeSlot(s.active).(binding := binding), NormalizeScopes(s.scopes), s.acknowledged, s.discarded,
          if s.target.None? then None else NormalizeTarget(reg, s.target.value), Text(s.error),
          NormalizeStatus(reg, session, binding, s.status))
  }

  /** The stored provider is not the one the stored URL belongs to. */
  predicate Contradicts(reg: Registry, b: Binding) {
    Text(b.url).Some? && Text(b.provider).Some? && reg.forUrl(b.url.value).Some? && reg.forUrl(b.url.value) != b.provider
  }

  lemma SlotIsStable(s: Slot)
    ensures NormalizeSlot(NormalizeSlot(s)) == NormalizeSlot(s)
  {
  }

  lemma ScopesAreStable(m: map<string, Slot>)
    ensures NormalizeScopes(NormalizeScopes(m)) == NormalizeScopes(m)
  {
    var once := NormalizeScopes(m);
    forall k | k in once ensures NormalizeSlot(once[k]) == once[k] && Text(once[k].delivery).Some? {
      SlotIsStable(m[k]);
    }
  }

  lemma TargetIsStable(reg: Registry, t: Target)
    requires Consistent(reg) && NormalizeTarget(reg, t).Some?
    ensures NormalizeTarget(reg, NormalizeTarget(reg, t).value) == NormalizeTarget(reg, t)
  {
  }

  /** The only part a second pass can change is the provider. */
  lemma SecondPass(reg: Registry, s: State)
    requires Consistent(reg)
    ensures var once := Normalize(reg, s);
            var twice := Normalize(reg, once);
            twice == once.(active := once.active.(binding := once.active.binding.(provider := twice.active.binding.provider)))
  {
    ScopesAreStable(s.scopes);
    if s.target.Some? && NormalizeTarget(reg, s.target.value).Some? { TargetIsStable(reg, s.target.value); }
  }

  lemma SecondProvider(reg: Registry, s: State)
    requires Consistent(reg)
    ensures var once := Normalize(reg, s);
            Normalize(reg, once).active.binding.provider
            == if Contradicts(reg, s.active.binding) then reg.forUrl(s.active.binding.url.value)
               else once.active.binding.provider
    ensures Contradicts(reg, s.active.binding) ==> Normalize(reg, s).active.binding.provider == None
    ensures !Contradicts(reg, Normalize(reg, s).active.binding)
  {
  }

  /** Normalization is idempotent exactly when the stored provider does not contradict the stored URL: the first
      pass drops such a provider and the second infers another one. Two passes always settle it. */
  lemma NormalizeIsIdempotent(reg: Registry, s: State)
    requires Consistent(reg)
    ensures Normalize(reg, Normalize(reg, s)) == Normalize(reg, s) <==> !Contradicts(reg, s.active.binding)
    ensures Normalize(reg, Normalize(reg, Normalize(reg, s))) == Normalize(reg, Normalize(reg, s))
  {
    SecondPass(reg, s);
    SecondProvider(reg, s);
    SecondPass(reg, Normalize(reg, s));
    SecondProvider(reg, Normalize(reg, s));
  }

  // ------------------------------------------------------------------ the store's mutations

  datatype Error =
    | InvalidDeliveryId | InvalidSessionBinding | RecoveryRequired | AlreadyReserved(current: Option<string>)
    | RecoveryMismatch | OwnerUnconfirmed | AckMismatch(expected: Option<string>, session: Option<string>)

  type Outcome = Result<State, Error>

  /** Fields an update may set; absent fields stay. */
  datatype Patch = Patch(
    url: Option<Option<string>>, conversation: Option<Option<string>>, tab: Option<Option<int>>,
    window: Option<Option<int>>, document: Option<Option<string>>, frame: Option<Option<int>>,
    delivery: Option<Option<string>>, completed: Option<Option<Completed>>, lastUser: Option<Option<string>>,
    lastAssistant: Option<Option<string>>, discarded: Option<Option<Receipt>>, target: Option<Option<Target>>,
    error: Option<Option<string>>, status: Option<Status>)

  function Or<T>(v: Option<T>, otherwise: T): T { if v.Some? then v.value else otherwise }

  function Merge(s: State, p: Patch): State {
    var b := s.active.binding;
    State(s.session,
          Slot(b.(url := Or(p.url, b.url), conversation := Or(p.conversation, b.conversation), tab := Or(p.tab, b.tab),
                  window := Or(p.window, b.window), document := Or(p.document, b.document), frame := Or(p.frame, b.frame)),
               Or(p.delivery, s.active.delivery), Or(p.completed, s.active.completed), Or(p.lastUser, s.active.lastUser),
               Or(p.lastAssistant, s.active.lastAssistant)),
          s.scopes, s.acknowledged, Or(p.discarded, s.discarded), Or(p.target, s.target), Or(p.error, s.error),
          Or(p.status, s.status))
  }

  /** `cur` is what was read, that is a normalized state. */
  function Updated(reg: Registry, cur: State, p: Patch): State { Normalize(reg, Merge(cur, p)) }

  /** The fields updateIf compares before writing; absent fields are not compared. */
  datatype Expected = Expected(
    session: Option<Option<string>>, run: Option<Option<string>>, url: Option<Option<string>>, tab: Option<Option<int>>,
    document: Option<Option<string>>, frame: Option<Option<int>>, delivery: Option<Option<string>>,
    uncompleted: bool, scopes: Option<map<string, Slot>>, status: Option<Status>)

  predicate Meets(cur: State, e: Expected) {
    var b := cur.active.binding;
    && Or(e.session, cur.session) == cur.session && Or(e.run, b.run) == b.run && Or(e.url, b.url) == b.url
    && Or(e.tab, b.tab) == b.tab && Or(e.document, b.document) == b.document && Or(e.frame, b.frame) == b.frame
    && Or(e.delivery, cur.active.delivery) == cur.active.delivery && (e.uncompleted ==> cur.active.completed.None?)
    && Or(e.scopes, cur.scopes) == cur.scopes && Or(e.status, cur.status) == cur.status
  }

  function UpdatedIf(reg: Registry, cur: State, e: Expected, p: Patch): Outcome {
    if Meets(cur, e) then Ok(Updated(reg, cur, p)) else Err(RecoveryMismatch)
  }

  predicate OnTarget(slot: Slot, b: Binding) {
    slot.delivery.Some?
    && ((slot.binding.tab.Some? && slot.binding.tab == b.tab) || (slot.binding.url.Some? && slot.binding.url == b.url))
  }

  function Reserved(reg: Registry, cur: State, id: string): Outcome {
    if !NonBlank(id) then Err(InvalidDeliveryId)
    else if exists k <- cur.scopes :: OnTarget(cur.scopes[k], cur.active.binding) then Err(RecoveryRequired)
    else if cur.active.delivery.Some? then Err(AlreadyReserved(cur.active.delivery))
    else Ok(Normalize(reg, cur.(active := cur.active.(delivery := Some(id), completed := None))))
  }

  /** What callers of bindSession pass: a session, a whole binding and its status. */
  datatype Bind = Bind(
    session: string, binding: Binding, status: Status, error: Option<Option<string>>, target: Option<Option<Target>>)

  function Parked(cur: State): map<string, Slot> {
    if cur.active.delivery.Some? && cur.session.Some? then cur.scopes[cur.session.value := cur.active] else cur.scopes
  }

  function Commit(reg: Registry, cur: State, b: Bind, slot: Slot, scopes: map<string, Slot>): State {
    Normalize(reg, State(Some(b.session), slot.(binding := b.binding), scopes, cur.acknowledged, cur.discarded,
                         Or(b.target, cur.target), Or(b.error, cur.error), b.status))
  }

  function SessionBound(reg: Registry, cur: State, b: Bind): Outcome {
    if !NonBlank(b.session) || b.binding.run.None? || !NonBlank(b.binding.run.value) then Err(InvalidSessionBinding)
    else if cur.session == Some(b.session) then
      if cur.active.delivery.Some? && cur.active.binding.run != b.binding.run then Err(RecoveryMismatch)
      else Ok(Commit(reg, cur, b, cur.active, cur.scopes))
    else
      var parked := Parked(cur);
      var next := if b.session in parked then parked[b.session] else Slot(b.binding, None, None, None, None);
      if b.session in parked && next.binding.run.Some?
         && (next.binding.run != b.binding.run || next.binding.url != b.binding.url) then Err(RecoveryMismatch)
      else Ok(Commit(reg, cur, b, next, parked - {b.session}))
  }

  const SELECTED: string := "PENDING_DELIVERY_SELECTED: Inspect the selected delivery before recovery."

  function ScopeSelected(reg: Registry, cur: State, session: string, id: string): Outcome {
    if session !in cur.scopes || cur.scopes[session].delivery != Some(id) then Err(RecoveryMismatch)
    else
      var slot := cur.scopes[session];
      if slot.binding.run.None? || slot.binding.url.None? then Err(OwnerUnconfirmed)
      else
        Ok(Normalize(reg, cur.(session := Some(session), active := slot, scopes := Parked(cur) - {session},
                               status := Ambiguous,
                               error := Some(SELECTED))))
  }

  function ReceiptFor(cur: State, id: string): Receipt {
    Receipt(id, cur.session, cur.active.binding.run, cur.active.binding.url)
  }

  /** Clearing again after an acknowledgement of the same delivery on the same binding changes nothing. */
  function Cleared(reg: Registry, cur: State, id: string, session: Option<string>): Outcome {
    if !NonBlank(id) then Err(InvalidDeliveryId)
    else if cur.active.delivery.None? && cur.acknowledged == Some(ReceiptFor(cur, id))
            && (session.None? || cur.session == session) then Ok(cur)
    else if cur.active.delivery != Some(id) || (session.Some? && cur.session != session)
    then Err(AckMismatch(cur.active.delivery, cur.session))
    else Ok(Normalize(reg, cur.(active := cur.active.(delivery := None), acknowledged := Some(ReceiptFor(cur, id)))))
  }

  // ------------------------------------------------------------------ the store itself

  /** Mutations run one after another (mutationQueue), so each method is one atomic step. */
  class ExtensionStateStore {
    const registry: Registry
    var stored: State

    constructor (registry: Registry, stored: State)
      ensures this.registry == registry && this.stored == stored
    {
      this.registry := registry;
      this.stored := stored;
    }

    method Read() returns (state: State)
      ensures state == Normalize(registry, stored)
    {
      state := Normalize(registry, stored);
    }

    method Update(p: Patch) returns (state: State)
      modifies this`stored
      ensures stored == state == Updated(registry, Normalize(registry, old(stored)), p)
    {
      var cur := Read();
      stored := Normalize(registry, Merge(cur, p));
      state := stored;
    }

    method UpdateIf(e: Expected, p: Patch) returns (out: Outcome)
      modifies this`stored
      ensures out == UpdatedIf(registry, Normalize(registry, old(stored)), e, p)
      ensures stored == if out.Ok? then out.value else old(stored)
    {
      var cur := Read();
      if !Meets(cur, e) { return Err(RecoveryMismatch); }
      stored := Normalize(registry, Merge(cur, p));
      out := Ok(stored);
    }

    method ReserveDelivery(id: string) returns (out: Outcome)
      modifies this`stored
      ensures out == Reserved(registry, Normalize(registry, old(stored)), id)
      ensures stored == if out.Ok? then out.value else old(stored)
    {
      if !NonBlank(id) { return Err(InvalidDeliveryId); }
      var cur := Read();
      var keys := cur.scopes.Keys;
      while keys != {}
        invariant keys <= cur.scopes.Keys
        invariant forall k <- cur.scopes.Keys - keys :: !OnTarget(cur.scopes[k], cur.active.binding)
        decreases |keys|
      {
        var k :| k in keys;
        if OnTarget(cur.scopes[k], cur.active.binding) { return Err(RecoveryRequired); }
        keys := keys - {k};
      }
      if cur.active.delivery.Some? { return Err(AlreadyReserved(cur.active.delivery)); }
      stored := Normalize(registry, cur.(active := cur.active.(delivery := Some(id), completed := None)));
      out := Ok(stored);
    }

    method BindSession(b: Bind) returns (out: Outcome)
      modifies this`stored
      ensures out == SessionBound(registry, Normalize(registry, old(stored)), b)
      ensures stored == if out.Ok? then out.value else old(stored)
    {
      if !NonBlank(b.session) || b.binding.run.None? || !NonBlank(b.binding.run.value) {
        return Err(InvalidSessionBinding);
      }
      var cur := Read();
      var scopes := cur.scopes;
      var changing := cur.session != Some(b.session);
      if !changing && cur.active.delivery.Some? && cur.active.binding.run != b.binding.run { return Err(RecoveryMismatch); }
      if changing && cur.session.Some? && cur.active.delivery.Some? { scopes := scopes[cur.session.value := cur.active]; }
      var next := cur.active;
      if changing {
        if b.session in scopes {
          next := scopes[b.session];
          if next.binding.run.Some? && (next.binding.run != b.binding.run || next.binding.url != b.binding.url) {
            return Err(RecoveryMismatch);
          }
        } else {
          next := Slot(b.binding, None, None, None, None);
        }
        scopes := scopes - {b.session};
      }
      stored := Commit(registry, cur, b, next, scopes);
      out := Ok(stored);
    }

    method SelectDeliveryScope(session: string, id: string) returns (out: Outcome)
      modifies this`stored
      ensures out == ScopeSelected(registry, Normalize(registry, old(stored)), session, id)
      ensures stored == if out.Ok? then out.value else old(stored)
    {
      var cur := Read();
      if session !in cur.scopes || cur.scopes[session].delivery != Some(id) { return Err(RecoveryMismatch); }
      var slot := cur.scopes[session];
      if slot.binding.run.None? || slot.binding.url.None? { return Err(OwnerUnconfirmed); }
      var scopes := cur.scopes;
      if cur.active.delivery.Some? && cur.session.Some? { scopes := scopes[cur.session.value := cur.active]; }
      scopes := scopes - {session};
      stored := Normalize(registry, cur.(session := Some(session), active := slot, scopes := scopes, status := Ambiguous,
                                         error := Some(SELECTED)));
      out := Ok(stored);
    }

    method ClearDelivery(id: string, session: Option<string>) returns (out: Outcome)
      modifies this`stored
      ensures out == Cleared(registry, Normalize(registry, old(stored)), id, session)
      ensures out.Err? ==> stored == old(stored)
      ensures out.Ok? && Normalize(registry, old(stored)).active.delivery.Some? ==> stored == out.value
      ensures out.Ok? && Normalize(registry, old(stored)).active.delivery.None? ==> stored == old(stored)
    {
      if !NonBlank(id) { return Err(InvalidDeliveryId); }
      var cur := Read();
      if cur.active.delivery.None? && cur.acknowledged == Some(ReceiptFor(cur, id)) && (session.None? || cur.session == session) {
        return Ok(cur);
      }
      if cur.active.delivery != Some(id) || (session.Some? && cur.session != session) {
        return Err(AckMismatch(cur.active.delivery, cur.session));
      }
      stored := Normalize(registry, cur.(active := cur.active.(delivery := None), acknowledged := Some(ReceiptFor(cur, id))));
      out := Ok(stored);
    }
  }
}
