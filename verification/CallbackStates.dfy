/** The generated state types themselves: their fields and the sections their mutexes guard. */
module CallbackStates {
  import opened Completions
  import opened CallbackProtocol

  /** The state shared by the callbacks of one registration. */
  class CallbackState {
    var failureKind: nat
    var panicValue: int
    var inputParameter: string
    var inputReason: string
    var closing: bool
    var inFlight: nat

    predicate Valid()
      reads this
    {
      failureKind <= 2
    }

    function View(): Callbacks
      reads this
    {
      Callbacks(closing,
                if failureKind == 0 then None
                else if failureKind == 1 then Some(Panicked(panicValue))
                else Some(BadInput(inputParameter, inputReason)),
                inFlight)
    }

    constructor ()
      ensures Valid() && View() == Callbacks(false, None, 0)
    {
      failureKind, panicValue, inputParameter, inputReason, closing, inFlight := 0, 0, "", "", false, 0;
    }

    method RecordPanic(value: int)
      requires Valid()
      modifies this
      ensures Valid() && View() == Recorded(old(View()), Panicked(value))
    {
      if failureKind == 0 {
        failureKind, panicValue := 1, value;
      }
    }

    method RecordInputError(parameter: string, reason: string)
      requires Valid()
      modifies this
      ensures Valid() && View() == Recorded(old(View()), BadInput(parameter, reason))
    {
      if failureKind == 0 {
        failureKind, inputParameter, inputReason := 2, parameter, reason;
      }
    }

    method CallbackError() returns (failure: Option<Failure>)
      requires Valid()
      ensures failure == View().failure
    {
      if failureKind == 1 { return Some(Panicked(panicValue)); }
      if failureKind == 2 { return Some(BadInput(inputParameter, inputReason)); }
      return None;
    }

    method Begin() returns (admitted: bool)
      requires Valid()
      modifies this
      ensures Valid() && admitted == Admits(old(View()))
      ensures View() == if admitted then old(View()).(inFlight := old(inFlight) + 1) else old(View())
    {
      if closing || failureKind != 0 { return false; }
      inFlight := inFlight + 1;
      return true;
    }

    method End()
      requires Valid() && inFlight > 0
      modifies this
      ensures Valid() && View() == old(View()).(inFlight := old(inFlight) - 1)
    {
      inFlight := inFlight - 1;
    }

    method Stop()
      requires Valid()
      modifies this
      ensures Valid() && View() == old(View()).(closing := true)
    {
      closing := true;
    }

    method Resume()
      requires Valid()
      modifies this
      ensures Valid() && View() == old(View()).(closing := false)
    {
      closing := false;
    }
  }

  datatype CloseResult = Closed | AlreadyClosed | HasActiveRegistrations

  /** The state of one handle; `releases` counts calls of its native release function. */
  class HandleState {
    const id: nat
    var pointer: bool
    var closed: bool
    var registrations: nat
    ghost var releases: nat

    ghost predicate Valid()
      reads this
    {
      pointer == !closed && releases == (if closed then 1 else 0)
    }

    ghost function View(): Handle
      reads this
    {
      Handle(closed, registrations, releases)
    }

    constructor (id: nat)
      ensures Valid() && this.id == id && View() == Handle(false, 0, 0)
    {
      this.id := id;
      pointer, closed, registrations, releases := true, false, 0, 0;
    }

    /** The section under the handle's mutex: the native release runs in one of the three branches. */
    method Close() returns (result: CloseResult)
      requires Valid()
      modifies this
      ensures Valid()
      ensures result == if old(closed) then AlreadyClosed else if old(registrations) != 0 then HasActiveRegistrations else Closed
      ensures View() == if result.Closed? then Handle(true, 0, 1) else old(View())
    {
      if closed || !pointer { return AlreadyClosed; }
      if registrations != 0 { return HasActiveRegistrations; }
      releases := releases + 1;
      pointer := false;
      closed := true;
      return Closed;
    }
  }

  /** The loop that takes or gives back the leases of one operation, over the handles it has locked. */
  method ChangeLeases(locked: seq<HandleState>, increase: bool)
    requires forall i, j :: 0 <= i < j < |locked| ==> locked[i] != locked[j]
    requires !increase ==> forall h :: h in locked ==> h.registrations > 0
    modifies locked
    ensures forall h :: h in locked ==> h.View() == old(h.View()).(registrations := old(h.registrations) + if increase then 1 else -1)
  {
    for n := 0 to |locked|
      invariant forall i :: 0 <= i < n ==> locked[i].View() == old(locked[i].View()).(registrations := old(locked[i].registrations) + if increase then 1 else -1)
      invariant forall i :: n <= i < |locked| ==> locked[i].View() == old(locked[i].View())
    {
      var h := locked[n];
      h.registrations := h.registrations + if increase then 1 else -1;
    }
  }
}
