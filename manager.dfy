/** The Run/Stop controller of the Wails frontend (buttonRun.svelte.ts). `run` is split at its one
    `await`: the part before it is the event Run, and the continuation after the awaited promise has
    settled is the event Resume. Every other event (Run, Reset, the backend's return or failure, the
    timer) is a macro-task and requires `Quiescent()`: JavaScript runs pending continuations before
    the next macro-task. */
module Manager {
  import opened Wrappers
  import opened Protocol
  import opened Store
  import opened Service

  const InvalidFormatMessage := "Invalid result format"

  /** The pair (`parsedResult`, `calculationError`). */
  datatype Outcome = Outcome(result: Option<CalcResult>, error: Option<string>)

  predicate Exclusive(o: Outcome)
  {
    !(o.result.Some? && o.error.Some?)
  }

  /** The classification of a parsed result: `cancelled` first, then `success`; a failure stores the
      message, or "Calculation failed" when it is empty. */
  function Classify(r: CalcResult): (o: Outcome)
    ensures Exclusive(o)
    ensures o.result.Some? <==> !r.cancelled && r.success
    ensures o.result.Some? ==> o.result.value == r
    ensures o.error.Some? <==> !r.cancelled && !r.success
    ensures o.error.Some? ==> o.error.value != ""
    ensures o.error.Some? ==> o.error.value == (if r.message == "" then FailedMessage else r.message)
  {
    if r.cancelled then Outcome(None, None)
    else if r.success then Outcome(Some(r), None)
    else Outcome(None, Some(if r.message == "" then FailedMessage else r.message))
  }

  /** The `try` around `JSON.parse`: a text that is not a result gives "Invalid result format". */
  function Interpret(text: JsonText): (o: Outcome)
    ensures Exclusive(o)
    ensures Parse(text).None? ==> o == Outcome(None, Some(InvalidFormatMessage))
    ensures Parse(text).Some? ==> o == Classify(Parse(text).value)
  {
    match Parse(text)
    case None => Outcome(None, Some(InvalidFormatMessage))
    case Some(r) => Classify(r)
  }

  /** What the continuation does to the outcome once the awaited promise has settled: nothing when
      the user aborted, the classification of a fulfilled text, and for a rejection its message as
      the error, leaving the result as it was. */
  function Continue(settled: PromiseState, aborted: bool, before: Outcome): (o: Outcome)
    requires !settled.Pending?
    ensures aborted ==> o == before
    ensures !aborted && settled.Fulfilled? ==> o == Interpret(settled.text)
    ensures !aborted && settled.RejectedWith? ==> o == Outcome(before.result, Some(settled.reason))
  {
    if aborted then before
    else match settled
      case Fulfilled(t) => Interpret(t)
      case RejectedWith(m) => Outcome(before.result, Some(m))
  }

  /** A result the backend returns reaches `parsedResult` exactly when it is a success that was not
      cancelled, and a failure always carries a non-empty message. */
  lemma ReturnedResultSurfaces(r: CalcResult)
    ensures Interpret(Stringify(r)).result == Some(r) <==> r.success && !r.cancelled
    ensures Interpret(Stringify(r)).result.None? <==> !r.success || r.cancelled
    ensures !r.success && !r.cancelled ==> Interpret(Stringify(r)).error.Some?
  {
  }

  /** A backend failure never produces a result: it becomes the error message, or "Calculation
      failed" when the message is empty. */
  lemma BackendFailureSurfaces(message: string)
    ensures Interpret(Stringify(FailureResult(message))) ==
      Outcome(None, Some(if message == "" then FailedMessage else message))
  {
  }

  /** The request `run` builds: `targetNumber` and `maxCombinations` renamed, every other field
      copied. */
  function RequestFor(control: ControlInput, textInput: string): (p: CalcParams)
    ensures p.equation == textInput
    ensures p.mode == control.mode && p.algorithm == control.algorithm && p.runMode == control.runMode
    ensures p.targetNum == control.targetNumber && p.maxComb == control.maxCombinations
    ensures p.targetMass == control.targetMass && p.intify == control.intify
    ensures p.outputPrecision == control.outputPrecision && p.floatTolerance == control.floatTolerance
  {
    CalcParams(textInput, control.mode, control.algorithm, control.runMode, control.targetNumber,
               control.targetMass, control.intify, control.outputPrecision, control.floatTolerance,
               control.maxCombinations)
  }

  class CalculationManager {
    var isCalculating: bool
    var parsedResult: Option<CalcResult>
    var calculationError: Option<string>
    var shouldAbort: bool
    /** The calls whose `run` is suspended at the `await`, by the service's call number. */
    var suspended: set<nat>
    const service: WailsCalculationService

    ghost predicate Settled(i: nat)
      reads service
    {
      i < |service.promises| && !service.promises[i].Pending?
    }

    /** The invariant kept jointly with the service. */
    ghost predicate Valid()
      reads this, service
    {
      && service.Valid()
      && (forall i :: i in suspended ==> i < |service.promises|)
      && (shouldAbort ==> isCalculating)
      && (isCalculating ==> parsedResult.None? && calculationError.None?)
      && Exclusive(Outcome(parsedResult, calculationError))
      && (service.currentCalculation.Some? ==> parsedResult.None?)
      // at most one suspended call has a settled promise ...
      && (forall i, j :: i in suspended && j in suspended && Settled(i) && Settled(j) ==> i == j)
      // ... a fulfilled one was fulfilled by a settlement that emptied the slot ...
      && (forall i :: i in suspended && Settled(i) && service.promises[i].Fulfilled? ==> service.currentCalculation.None?)
      // ... and a rejected one was rejected while no result was shown
      && (forall i :: i in suspended && Settled(i) && service.promises[i].RejectedWith? ==> parsedResult.None?)
    }

    /** No suspended continuation is ready to run. */
    ghost predicate Quiescent()
      reads this, service
    {
      forall i :: i in suspended ==> !Settled(i)
    }

    constructor (s: WailsCalculationService)
      requires s.Valid() && s.currentCalculation.None?
      ensures service == s && Valid() && Quiescent()
      ensures !isCalculating && parsedResult.None? && calculationError.None? && !shouldAbort && suspended == {}
    {
      service := s;
      isCalculating := false;
      parsedResult := None;
      calculationError := None;
      shouldAbort := false;
      suspended := {};
    }

    /** `run` up to its `await`. While calculating it is the Stop button: it sets `shouldAbort`,
        aborts, and leaves the outcome alone. Otherwise it clears the outcome, sets `isCalculating`
        and issues the request. */
    method Run(control: ControlInput, textInput: string)
      requires Valid() && Quiescent()
      modifies this, service
      ensures Valid()
      ensures old(isCalculating) ==>
        && shouldAbort && isCalculating
        && parsedResult == old(parsedResult) && calculationError == old(calculationError)
        && suspended == old(suspended)
        && service.stopCalls == old(service.stopCalls) + 1 && service.requests == old(service.requests)
        && service.currentCalculation.None?
        && (old(service.currentCalculation).Some? ==>
              service.promises == Settle(old(service.promises), old(service.currentCalculation).value, RejectedWith(AbortMessage)))
        && (old(service.currentCalculation).None? ==> service.promises == old(service.promises))
        && service.timers == old(service.timers) && service.inFlight == old(service.inFlight)
        && service.isLoading == old(service.isLoading)
      ensures !old(isCalculating) ==>
        && !shouldAbort && isCalculating && parsedResult.None? && calculationError.None?
        && suspended == old(suspended) + {|old(service.promises)|}
        && service.requests == old(service.requests) + [RequestFor(control, textInput)]
        && service.currentCalculation == Some(|old(service.promises)|)
        && (old(service.currentCalculation).Some? ==>
              service.promises == Settle(old(service.promises), old(service.currentCalculation).value,
                                         RejectedWith(NewCalculationMessage)) + [Pending])
        && (old(service.currentCalculation).None? ==> service.promises == old(service.promises) + [Pending])
        && service.timers == old(service.timers) + {|old(service.promises)|}
        && service.inFlight == old(service.inFlight) + {|old(service.promises)|}
        && service.isLoading && service.stopCalls == old(service.stopCalls)
    {
      if isCalculating {
        shouldAbort := true;
        service.Abort();
        return;
      }
      shouldAbort := false;
      isCalculating := true;
      parsedResult := None;
      calculationError := None;
      var params := RequestFor(control, textInput);
      var id := service.Calculate(params);
      suspended := suspended + {id};
    }

    /** The continuation of `run` for call `id` after its promise settled, with the `finally` that
        clears both flags. */
    method Resume(id: nat)
      requires Valid() && id in suspended && Settled(id)
      modifies this
      ensures Valid() && Quiescent()
      ensures suspended == old(suspended) - {id}
      ensures !isCalculating && !shouldAbort
      ensures Outcome(parsedResult, calculationError) ==
        Continue(service.promises[id], old(shouldAbort), Outcome(old(parsedResult), old(calculationError)))
      ensures old(shouldAbort) ==> parsedResult.None? && calculationError.None?
    {
      suspended := suspended - {id};
      var settled := service.promises[id];
      if !shouldAbort {
        match settled
        case Fulfilled(text) =>
          var o := Interpret(text);
          calculationError := None;
          parsedResult := o.result;
          calculationError := o.error;
        case RejectedWith(message) =>
          calculationError := Some(message);
      }
      isCalculating := false;
      shouldAbort := false;
    }

    /** `reset`: clear all four fields, then `terminate` the service, passing the truthiness of its
        `isCalculating` getter as `busy`. */
    method Reset(busy: bool)
      requires Valid() && Quiescent()
      modifies this, service
      ensures Valid()
      ensures !isCalculating && parsedResult.None? && calculationError.None? && !shouldAbort
      ensures suspended == old(suspended) && !service.isLoading
      ensures busy ==> service.currentCalculation.None? && service.stopCalls == old(service.stopCalls) + 1
      ensures busy && old(service.currentCalculation).Some? ==>
        service.promises == Settle(old(service.promises), old(service.currentCalculation).value, RejectedWith(AbortMessage))
      ensures !busy || old(service.currentCalculation).None? ==> service.promises == old(service.promises)
      ensures !busy ==>
        service.currentCalculation == old(service.currentCalculation) && service.stopCalls == old(service.stopCalls)
      ensures service.timers == old(service.timers) && service.inFlight == old(service.inFlight)
      ensures service.requests == old(service.requests)
    {
      isCalculating := false;
      parsedResult := None;
      calculationError := None;
      shouldAbort := false;
      service.Terminate(busy);
    }

    /** The backend's return for call `id` reaches the service. */
    method DeliverResult(id: nat, r: CalcResult)
      requires Valid() && Quiescent() && id in service.inFlight
      modifies service
      ensures Valid()
      ensures service.promises == Settle(old(service.promises), id, Fulfilled(Stringify(r)))
      ensures service.currentCalculation.None? && !service.isLoading
      ensures service.timers == old(service.timers) - {id} && service.inFlight == old(service.inFlight) - {id}
      ensures service.requests == old(service.requests) && service.stopCalls == old(service.stopCalls)
    {
      service.BackendReturned(id, r);
    }

    /** The backend's failure for call `id` reaches the service. */
    method DeliverFailure(id: nat, message: string)
      requires Valid() && Quiescent() && id in service.inFlight
      modifies service
      ensures Valid()
      ensures service.promises == Settle(old(service.promises), id, Fulfilled(Stringify(FailureResult(message))))
      ensures service.currentCalculation.None? && !service.isLoading
      ensures service.timers == old(service.timers) - {id} && service.inFlight == old(service.inFlight) - {id}
      ensures service.requests == old(service.requests) && service.stopCalls == old(service.stopCalls)
    {
      service.BackendFailed(id, message);
    }

    /** The timer of call `id` fires. */
    method FireTimeout(id: nat)
      requires Valid() && Quiescent() && id in service.timers
      modifies service
      ensures Valid()
      ensures old(service.currentCalculation).Some? ==>
        service.promises == Settle(old(service.promises), old(service.currentCalculation).value, RejectedWith(TimeoutMessage))
      ensures old(service.currentCalculation).None? ==> service.promises == old(service.promises)
      ensures service.currentCalculation.None? && service.isLoading == old(service.isLoading)
      ensures service.timers == old(service.timers) - {id} && service.inFlight == old(service.inFlight)
      ensures service.requests == old(service.requests) && service.stopCalls == old(service.stopCalls)
    {
      service.TimerFired(id);
    }
  }

  // ----- runs from start to end -----

  /** Run, then the backend returns r: the shown outcome is the classification of r, and the request
      carried the controls. */
  method CompletedRun(control: ControlInput, textInput: string, r: CalcResult)
    returns (outcome: Outcome, request: CalcParams, calculating: bool)
    ensures outcome == Classify(r) && request == RequestFor(control, textInput) && !calculating
  {
    var s := new WailsCalculationService();
    var m := new CalculationManager(s);
    m.Run(control, textInput);
    m.DeliverResult(0, r);
    m.Resume(0);
    outcome, request, calculating := Outcome(m.parsedResult, m.calculationError), s.requests[0], m.isCalculating;
  }

  /** Pressing the button twice: the second press aborts, the backend is told to stop, and the
      continuation discards everything, leaving no result and no error. */
  method StopPressed(control: ControlInput, textInput: string, late: CalcResult)
    returns (outcome: Outcome, stopCalls: nat, calculating: bool, requests: nat)
    ensures outcome == Outcome(None, None) && stopCalls == 1 && !calculating && requests == 1
  {
    var s := new WailsCalculationService();
    var m := new CalculationManager(s);
    m.Run(control, textInput);
    m.Run(control, textInput);
    m.Resume(0);
    m.DeliverResult(0, late);
    outcome, stopCalls, calculating, requests := Outcome(m.parsedResult, m.calculationError), s.stopCalls, m.isCalculating, |s.requests|;
  }

  /** A run that times out shows "Calculation timeout" as its error. */
  method TimedOutRun(control: ControlInput, textInput: string)
    returns (outcome: Outcome)
    ensures outcome == Outcome(None, Some(TimeoutMessage))
  {
    var s := new WailsCalculationService();
    var m := new CalculationManager(s);
    m.Run(control, textInput);
    m.FireTimeout(0);
    m.Resume(0);
    outcome := Outcome(m.parsedResult, m.calculationError);
  }

  /** `reset` during a run clears `shouldAbort` before it aborts, so the continuation takes the abort
      for a failure and shows "Calculation aborted by user". */
  method ResetDuringRun(control: ControlInput, textInput: string)
    returns (outcome: Outcome)
    ensures outcome == Outcome(None, Some(AbortMessage))
  {
    var s := new WailsCalculationService();
    var m := new CalculationManager(s);
    m.Run(control, textInput);
    m.Reset(Truthy(IsCalculatingGetter(false)));
    m.Resume(0);
    outcome := Outcome(m.parsedResult, m.calculationError);
  }

  /** A reset whose `terminate` finds the service idle leaves the old call in the slot. The getter
      as written reports idle only when the binding throws synchronously; a corrected, awaited
      getter would report it when the backend's flag is already clear. A
      new run then rejects the old call's promise, and the old continuation shows that rejection and
      clears `isCalculating` while the new call is still running. */
  method RunAfterReset(control: ControlInput, textInput: string)
    returns (outcome: Outcome, calculating: bool, stillLoading: bool)
    ensures outcome == Outcome(None, Some(NewCalculationMessage)) && !calculating && stillLoading
  {
    var s := new WailsCalculationService();
    var m := new CalculationManager(s);
    m.Run(control, textInput);
    m.Reset(false);
    m.Run(control, textInput);
    m.Resume(0);
    outcome, calculating, stillLoading := Outcome(m.parsedResult, m.calculationError), m.isCalculating, s.isLoading;
  }

  /** The same clicks with the getter as written: the truthy promise makes `reset` abort the old
      call, whose continuation runs before the next click and shows "Calculation aborted by user";
      the new run then clears that, supersedes nothing and is the only call in progress. */
  method RunAfterResetAsWritten(control: ControlInput, textInput: string)
    returns (shownAfterReset: Outcome, outcome: Outcome, calculating: bool, stopCalls: nat, oldCall: PromiseState)
    ensures shownAfterReset == Outcome(None, Some(AbortMessage))
    ensures outcome == Outcome(None, None) && calculating && stopCalls == 1
    ensures oldCall == RejectedWith(AbortMessage)
  {
    var s := new WailsCalculationService();
    var m := new CalculationManager(s);
    m.Run(control, textInput);
    m.Reset(Truthy(IsCalculatingGetter(false)));
    m.Resume(0);
    shownAfterReset := Outcome(m.parsedResult, m.calculationError);
    m.Run(control, textInput);
    outcome, calculating, stopCalls, oldCall := Outcome(m.parsedResult, m.calculationError), m.isCalculating, s.stopCalls, s.promises[0];
  }
}
