/** The gate that lets one Web turn run at a time, and the binding a turn is frozen to
    (extension/runtime/turn-guard.js). */
module TurnGuard {
  import opened Common
  import opened ExtensionState

  /** Each reservation is a fresh object; its serial stands for object identity. */
  datatype Reservation = Reservation(requestId: string, serial: nat)

  datatype GateError = InvalidDelivery | Busy(activeRequestId: string)

  class ActiveTurnGate {
    var active: Option<Reservation>
    var issued: nat

    /** The held reservation was issued by this gate. */
    predicate Valid()
      reads this
    {
      active.Some? ==> active.value.serial < issued
    }

    constructor ()
      ensures Valid() && active == None
    {
      active := None;
      issued := 0;
    }

    method Reserve(requestId: string) returns (out: Result<Reservation, GateError>)
      requires Valid()
      modifies this
      ensures Valid()
      ensures out.Ok? <==> NonBlank(requestId) && old(active) == None
      ensures out.Ok? ==> out.value == Reservation(requestId, old(issued)) && active == Some(out.value) && issued == old(issued) + 1
      ensures out.Err? ==> active == old(active) && issued == old(issued)
      ensures out == Err(GateError.InvalidDelivery) <==> !NonBlank(requestId)
      ensures NonBlank(requestId) && old(active).Some? ==> out == Err(Busy(old(active).value.requestId))
    {
      if !NonBlank(requestId) { return Err(GateError.InvalidDelivery); }
      if active.Some? { return Err(Busy(active.value.requestId)); }
      var mine := Reservation(requestId, issued);
      active, issued := Some(mine), issued + 1;
      out := Ok(mine);
    }

    /** Only the holder of the very reservation that is active releases the gate; a stale one, even for the same
        request, changes nothing. */
    method Release(mine: Reservation) returns (released: bool)
      requires Valid()
      modifies this`active
      ensures Valid() && released == (old(active) == Some(mine))
      ensures active == if released then None else old(active)
    {
      if active != Some(mine) { return false; }
      active := None;
      released := true;
    }
  }

  // ------------------------------------------------------------------ frozen turn bindings

  datatype Turn = Turn(
    requestId: string, controllerMessageId: string, session: string, run: string, url: string, conversation: string,
    tab: int, window: int, document: string, frame: int)

  datatype TurnError = NeedsRebind | InvalidDelivery | InvalidBinding | BindingMismatch | BindingChanged

  predicate Named(v: Option<string>) { v.Some? && NonBlank(v.value) }

  predicate IsIndex(v: Option<int>) { v.Some? && 0 <= v.value <= MAX_SAFE }

  function CaptureTurnBinding(s: State, requestId: string, controllerMessageId: string, run: string): Result<Turn, TurnError> {
    var b := s.active.binding;
    if !s.status.Bound? then Err(TurnError.NeedsRebind)
    else if !NonBlank(requestId) || !NonBlank(controllerMessageId) then Err(TurnError.InvalidDelivery)
    else if !Named(s.session) then Err(InvalidBinding)
    else if !NonBlank(run) then Err(TurnError.InvalidDelivery)
    else if !Named(b.url) || !Named(b.conversation) || !IsIndex(b.tab) || !IsIndex(b.window) || !Named(b.document)
            || !IsIndex(b.frame) then Err(InvalidBinding)
    else if Some(run) != b.run || s.active.delivery != Some(requestId) then Err(BindingMismatch)
    else Ok(Turn(requestId, controllerMessageId, s.session.value, run, b.url.value, b.conversation.value, b.tab.value,
                 b.window.value, b.document.value, b.frame.value))
  }

  predicate SameTurn(t: Turn, s: State) {
    var b := s.active.binding;
    && s.active.delivery == Some(t.requestId) && s.session == Some(t.session) && b.run == Some(t.run)
    && b.url == Some(t.url) && b.conversation == Some(t.conversation) && b.tab == Some(t.tab)
    && b.window == Some(t.window) && b.document == Some(t.document) && b.frame == Some(t.frame)
  }

  function AssertTurnStateBinding(t: Turn, s: State): Result<State, TurnError> {
    if SameTurn(t, s) && s.status.Bound? then Ok(s) else Err(BindingChanged)
  }

  /** A frozen turn is accepted on a later state exactly when capturing it there would give the same turn. */
  lemma AssertMeansRecapture(before: State, t: Turn, now: State)
    requires CaptureTurnBinding(before, t.requestId, t.controllerMessageId, t.run) == Ok(t)
    ensures AssertTurnStateBinding(t, now).Ok? <==>
            CaptureTurnBinding(now, t.requestId, t.controllerMessageId, t.run) == Ok(t)
  {
  }

  predicate HasText(v: Option<string>) { v.Some? && exists i :: 0 <= i < |v.value| && !IsSpace(v.value[i]) }

  predicate Safe(v: Option<int>) { v.Some? && 0 <= v.value <= 9007199254740991 }

  /** A turn is captured exactly on a bound state whose every identifier is there, for the current delivery and the
      bound run; it then holds these very identifiers. */
  lemma CapturesExactly(s: State, requestId: string, controllerMessageId: string, run: string)
    ensures var out := CaptureTurnBinding(s, requestId, controllerMessageId, run);
            var b := s.active.binding;
            && (out.Ok? <==>
                  && s.status == Bound && s.active.delivery == Some(requestId) && b.run == Some(run)
                  && HasText(Some(requestId)) && HasText(Some(controllerMessageId)) && HasText(Some(run)) && HasText(s.session)
                  && HasText(b.url) && HasText(b.conversation) && HasText(b.document)
                  && Safe(b.tab) && Safe(b.window) && Safe(b.frame))
            && (out.Ok? ==>
                  var t := out.value;
                  && t.requestId == requestId && t.controllerMessageId == controllerMessageId && t.run == run
                  && Some(t.session) == s.session && Some(t.url) == b.url && Some(t.conversation) == b.conversation
                  && Some(t.tab) == b.tab && Some(t.window) == b.window && Some(t.document) == b.document
                  && Some(t.frame) == b.frame)
  {
  }
}
