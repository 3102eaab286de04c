/** The frontend's calculation service over the Wails bindings (wailsService.ts). Each `calculate`
    call creates a promise; the service keeps at most one of them in its slot `currentCalculation`,
    together with `isLoading`. The backend's return or failure, the 3000000 ms timer and `abort` are
    separate events. */
module Service {
  import opened Wrappers
  import opened Protocol

  const NewCalculationMessage := "New calculation started before previous completed"
  const TimeoutMessage := "Calculation timeout"
  const AbortMessage := "Calculation aborted by user"
  const FailedMessage := "Calculation failed"

  /** The state of a promise returned by `calculate`. */
  datatype PromiseState = Pending | Fulfilled(text: JsonText) | RejectedWith(reason: string)

  /** Resolving or rejecting promise i: a promise settles at most once, and every call after that
      does nothing. */
  function Settle(ps: seq<PromiseState>, i: nat, s: PromiseState): (r: seq<PromiseState>)
    ensures |r| == |ps|
    ensures forall j :: 0 <= j < |ps| && j != i ==> r[j] == ps[j]
    ensures forall j :: 0 <= j < |ps| && !ps[j].Pending? ==> r[j] == ps[j]
    ensures i < |ps| && ps[i].Pending? ==> r[i] == s
  {
    if i < |ps| && ps[i].Pending? then ps[i := s] else ps
  }

  /** The result the service resolves with when the backend call fails: never a rejection, and a
      message that is never empty. */
  function FailureResult(message: string): (r: CalcResult)
    ensures !r.success && !r.cancelled && r.details == "" && r.tabular.None?
    ensures r.message != ""
    ensures message != "" ==> r.message == message
    ensures message == "" ==> r.message == FailedMessage
  {
    CalcResult(false, if message == "" then FailedMessage else message, "", false, None)
  }

  class WailsCalculationService {
    var isLoading: bool
    /** The call whose promise the slot can settle, or None for `null`. */
    var currentCalculation: Option<nat>
    /** The promise of every `calculate` call so far, by call number. */
    var promises: seq<PromiseState>
    /** The parameters each call passed to `PerformCalculation`. */
    var requests: seq<CalcParams>
    /** Calls whose timeout is armed and not cleared. */
    var timers: set<nat>
    /** Calls whose `PerformCalculation` has not returned. */
    var inFlight: set<nat>
    /** How often `StopCalculation` was called. */
    var stopCalls: nat

    /** The slot holds only the latest call, and only while its promise is pending. */
    ghost predicate Valid()
      reads this
    {
      && |requests| == |promises|
      && (currentCalculation.Some? ==>
            currentCalculation.value == |promises| - 1 && promises[currentCalculation.value].Pending?)
      && (forall i :: i in timers ==> i < |promises|)
      && (forall i :: i in inFlight ==> i < |promises|)
    }

    constructor ()
      ensures Valid()
      ensures !isLoading && currentCalculation == None && promises == [] && requests == []
      ensures timers == {} && inFlight == {} && stopCalls == 0
    {
      isLoading := false;
      currentCalculation := None;
      promises := [];
      requests := [];
      timers := {};
      inFlight := {};
      stopCalls := 0;
    }

    /** `calculate`: reject the call in the slot, if any, then arm the timer, take the slot, set
        `isLoading` and call the backend. */
    method Calculate(params: CalcParams) returns (id: nat)
      requires Valid()
      modifies this
      ensures Valid()
      ensures id == |old(promises)|
      ensures old(currentCalculation).Some? ==>
        promises == Settle(old(promises), old(currentCalculation).value, RejectedWith(NewCalculationMessage)) + [Pending]
      ensures old(currentCalculation).None? ==> promises == old(promises) + [Pending]
      ensures currentCalculation == Some(id) && isLoading
      ensures requests == old(requests) + [params]
      ensures timers == old(timers) + {id} && inFlight == old(inFlight) + {id} && stopCalls == old(stopCalls)
    {
      if currentCalculation.Some? {
        promises := Settle(promises, currentCalculation.value, RejectedWith(NewCalculationMessage));
        currentCalculation := None;
      }
      id := |promises|;
      promises := promises + [Pending];
      timers := timers + {id};
      currentCalculation := Some(id);
      isLoading := true;
      requests := requests + [params];
      inFlight := inFlight + {id};
    }

    /** The `then` callback of call `id`: clear its timer and the slot, whichever call holds it, and
        resolve with the serialized result. */
    method BackendReturned(id: nat, r: CalcResult)
      requires Valid() && id in inFlight
      modifies this
      ensures Valid()
      ensures promises == Settle(old(promises), id, Fulfilled(Stringify(r)))
      ensures !isLoading && currentCalculation == None
      ensures timers == old(timers) - {id} && inFlight == old(inFlight) - {id}
      ensures requests == old(requests) && stopCalls == old(stopCalls)
    {
      timers := timers - {id};
      isLoading := false;
      currentCalculation := None;
      promises := Settle(promises, id, Fulfilled(Stringify(r)));
      inFlight := inFlight - {id};
    }

    /** The `catch` callback of call `id`: like a return, but resolving with the failure result built
        from the error's message. */
    method BackendFailed(id: nat, message: string)
      requires Valid() && id in inFlight
      modifies this
      ensures Valid()
      ensures promises == Settle(old(promises), id, Fulfilled(Stringify(FailureResult(message))))
      ensures !isLoading && currentCalculation == None
      ensures timers == old(timers) - {id} && inFlight == old(inFlight) - {id}
      ensures requests == old(requests) && stopCalls == old(stopCalls)
    {
      timers := timers - {id};
      isLoading := false;
      currentCalculation := None;
      promises := Settle(promises, id, Fulfilled(Stringify(FailureResult(message))));
      inFlight := inFlight - {id};
    }

    /** The timer of call `id` fires: it rejects whatever call holds the slot, and does nothing when
        the slot is empty. */
    method TimerFired(id: nat)
      requires Valid() && id in timers
      modifies this
      ensures Valid()
      ensures old(currentCalculation).Some? ==>
        promises == Settle(old(promises), old(currentCalculation).value, RejectedWith(TimeoutMessage))
      ensures old(currentCalculation).None? ==> promises == old(promises)
      ensures currentCalculation == None && isLoading == old(isLoading)
      ensures timers == old(timers) - {id} && inFlight == old(inFlight)
      ensures requests == old(requests) && stopCalls == old(stopCalls)
    {
      timers := timers - {id};
      if currentCalculation.Some? {
        promises := Settle(promises, currentCalculation.value, RejectedWith(TimeoutMessage));
        currentCalculation := None;
      }
    }

    /** `abort`: call `StopCalculation`, then reject the call in the slot, if any, and empty it. */
    method Abort()
      requires Valid()
      modifies this
      ensures Valid()
      ensures stopCalls == old(stopCalls) + 1
      ensures old(currentCalculation).Some? ==>
        promises == Settle(old(promises), old(currentCalculation).value, RejectedWith(AbortMessage))
      ensures old(currentCalculation).None? ==> promises == old(promises)
      ensures currentCalculation == None && isLoading == old(isLoading)
      ensures timers == old(timers) && inFlight == old(inFlight) && requests == old(requests)
    {
      stopCalls := stopCalls + 1;
      if currentCalculation.Some? {
        promises := Settle(promises, currentCalculation.value, RejectedWith(AbortMessage));
        currentCalculation := None;
      }
    }

    /** `terminate`, given the truthiness of the `isCalculating` getter as `busy`: abort when busy, and
        always clear `isLoading`. */
    method Terminate(busy: bool)
      requires Valid()
      modifies this
      ensures Valid()
      ensures !isLoading
      ensures busy ==> stopCalls == old(stopCalls) + 1 && currentCalculation == None
      ensures busy && old(currentCalculation).Some? ==>
        promises == Settle(old(promises), old(currentCalculation).value, RejectedWith(AbortMessage))
      ensures !busy || old(currentCalculation).None? ==> promises == old(promises)
      ensures !busy ==> stopCalls == old(stopCalls) && currentCalculation == old(currentCalculation)
      ensures timers == old(timers) && inFlight == old(inFlight) && requests == old(requests)
    {
      if busy {
        Abort();
      }
      isLoading := false;
    }

    /** `canCalculate`, given the truthiness of the `isCalculating` getter as `busy`. */
    method CanCalculate(busy: bool) returns (b: bool)
      ensures b <==> !isLoading && !busy
    {
      b := !isLoading && !busy;
    }
  }

  // ----- the `isCalculating` getter as written -----

  /** The JavaScript values the getter can return: a boolean, or the promise a Wails binding returns. */
  datatype JsValue = JsBool(b: bool) | JsPromise

  /** JavaScript truthiness: every promise object is truthy. */
  predicate Truthy(v: JsValue)
  {
    match v
    case JsBool(b) => b
    case JsPromise => true
  }

  /** The getter returns `IsCalculating()` without awaiting it, which is the binding's promise; only
      when the call throws synchronously does it return `false`. */
  function IsCalculatingGetter(bindingThrows: bool): JsValue
  {
    if bindingThrows then JsBool(false) else JsPromise
  }

  /** `canCalculate` as written: `!isLoading && !this.isCalculating`. */
  function CanCalculateAsWritten(isLoading: bool, bindingThrows: bool): bool
  {
    !isLoading && !Truthy(IsCalculatingGetter(bindingThrows))
  }

  /** With a working binding, `canCalculate` is false in every state, and `terminate` always takes
      the abort branch. */
  lemma CanCalculateNeverTrue(isLoading: bool)
    ensures !CanCalculateAsWritten(isLoading, false)
    ensures Truthy(IsCalculatingGetter(false))
  {
  }

  /** With the backend flag awaited, an idle service can calculate: the corrected `canCalculate` is
      true exactly when neither side is busy. */
  method CorrectedCanCalculateWhenIdle() returns (before: bool, during: bool, after: bool)
    ensures before && !during && after
  {
    var s := new WailsCalculationService();
    before := s.CanCalculate(false);
    var id := s.Calculate(CalcParams("H2+O2=H2O", "balance", "auto", "balance", 0, 1.0, true, 4, 8, 15));
    during := s.CanCalculate(true);
    s.BackendReturned(id, ZeroResult);
    after := s.CanCalculate(false);
  }

  /** A late return of an older call clears the slot of the newer one, which its timer then cannot
      reject: the newer call stays pending until its own backend call returns. */
  method StaleReturnClearsNewerSlot(first: CalcParams, second: CalcParams, r: CalcResult)
    returns (slot: Option<nat>, loading: bool, firstState: PromiseState, secondState: PromiseState)
    ensures slot == None && !loading
    ensures firstState == RejectedWith(NewCalculationMessage)
    ensures secondState == Pending
  {
    var s := new WailsCalculationService();
    var a := s.Calculate(first);
    var b := s.Calculate(second);
    s.BackendReturned(a, r);
    s.TimerFired(b);
    slot, loading := s.currentCalculation, s.isLoading;
    firstState, secondState := s.promises[a], s.promises[b];
  }
}
