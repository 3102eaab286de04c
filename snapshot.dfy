/** Saving and loading the frontend state (saveload.svelte.ts): the capture of the store as an
    `AppState` snapshot, its application back, and the wrappers around the `SaveState`/`LoadState`
    bindings. JavaScript's `a || d` replaces a falsy `a` (the empty string, 0) by d; `a ?? d` only
    replaces null, so a stored `false` is kept. */
module Snapshot {
  import opened Wrappers
  import opened Strings
  import opened Protocol
  import opened Store
  import Backend

  const BusyStatusClass := "w-3 h-3 bg-blue-500 rounded-full"
  const ErrorPrefix := "Error: "
  const LoadFailurePrefix := "Failed to load state: "
  const SaveFailurePrefix := "Failed to save state: "

  function OrString(s: string, default: string): string
  {
    if s == "" then default else s
  }

  function OrInt(x: int, default: int): int
  {
    if x == 0 then default else x
  }

  function OrReal(x: real, default: real): real
  {
    if x == 0.0 then default else x
  }

  /** The falsy-defaults table that capture and apply share: masses/auto/balance/0/1.0/4/8/15, with
      `intify` kept as it is. */
  function DefaultedControls(c: ControlInput): (d: ControlInput)
    ensures d.mode != "" && d.algorithm != "" && d.runMode != ""
    ensures d.targetMass != 0.0 && d.outputPrecision != 0 && d.floatTolerance != 0 && d.maxCombinations != 0
    ensures d.targetNumber == c.targetNumber && d.intify == c.intify
    ensures c.mode != "" ==> d.mode == c.mode
    ensures c.algorithm != "" ==> d.algorithm == c.algorithm
    ensures c.runMode != "" ==> d.runMode == c.runMode
    ensures c.targetMass != 0.0 ==> d.targetMass == c.targetMass
    ensures c.outputPrecision != 0 ==> d.outputPrecision == c.outputPrecision
    ensures c.floatTolerance != 0 ==> d.floatTolerance == c.floatTolerance
    ensures c.maxCombinations != 0 ==> d.maxCombinations == c.maxCombinations
  {
    ControlInput(
      OrString(c.mode, "masses"),
      OrString(c.algorithm, "auto"),
      OrString(c.runMode, "balance"),
      OrInt(c.targetNumber, 0),
      OrReal(c.targetMass, 1.0),
      c.intify,
      OrInt(c.outputPrecision, 4),
      OrInt(c.floatTolerance, 8),
      OrInt(c.maxCombinations, 15))
  }

  /** Controls with no falsy field are kept, and defaulting twice is defaulting once; values out of
      the controls' ranges (an output precision of 999) are not corrected. */
  lemma DefaultedControlsFixed(c: ControlInput)
    ensures DefaultedControls(DefaultedControls(c)) == DefaultedControls(c)
    ensures DefaultedControls(c) == c <==>
      c.mode != "" && c.algorithm != "" && c.runMode != "" && c.targetMass != 0.0
      && c.outputPrecision != 0 && c.floatTolerance != 0 && c.maxCombinations != 0
  {
  }

  /** The status line of a snapshot. */
  function StatusMessage(f: FrontendState): string
  {
    if f.isCalculating then "Calculating..."
    else if f.calculationError.Some? && f.calculationError.value != "" then ErrorPrefix + f.calculationError.value
    else "Ready"
  }

  /** Only the busy class contains "blue". */
  lemma StatusClassesBlue()
    ensures Contains(BusyStatusClass, "blue")
    ensures !Contains(IdleStatusClass, "blue")
  {
    assert OccursAt(BusyStatusClass, "blue", 11);
    var s := IdleStatusClass;
    assert !OccursAt(s, "blue", 8) by {
      assert s[9] == 'g';
      assert s[8..12][1] == s[9];
    }
    assert forall i :: 0 <= i < 8 ==> s[i] != 'b';
    assert forall i :: 9 <= i < 14 ==> s[i] != 'b';
    assert forall i :: 14 <= i < 20 ==> s[i] != 'b';
    assert forall i :: 20 <= i < |s| ==> s[i] != 'b';
    NotContainsByFirst(s, "blue", {8});
  }

  /** `mapFrontendToAppState`. */
  function Capture(f: FrontendState): (a: AppState)
    ensures a.equation == f.textInput && !a.spoilerOpen
    ensures ControlsOf(a) == DefaultedControls(f.controlInput)
    ensures Contains(a.status, "blue") <==> f.isCalculating
    ensures a.results == (if f.parsedResult.Some? then Stringify(f.parsedResult.value) else Other("Ready"))
    ensures a.tabular == (if f.parsedResult.Some? then f.parsedResult.value.tabular.GetOr([]) else [])
    ensures f.isCalculating ==> a.statusMessage == "Calculating..."
    ensures !f.isCalculating && f.calculationError.Some? && f.calculationError.value != "" ==>
      a.statusMessage == ErrorPrefix + f.calculationError.value
    ensures !f.isCalculating && (f.calculationError.None? || f.calculationError.value == "") ==> a.statusMessage == "Ready"
  {
    StatusClassesBlue();
    var c := DefaultedControls(f.controlInput);
    AppState(
      f.textInput,
      c.mode, c.algorithm, c.runMode, c.targetNumber, c.targetMass, c.intify,
      c.outputPrecision, c.floatTolerance, c.maxCombinations,
      if f.parsedResult.Some? then Stringify(f.parsedResult.value) else Other("Ready"),
      false,
      if f.isCalculating then BusyStatusClass else IdleStatusClass,
      StatusMessage(f),
      if f.parsedResult.Some? then f.parsedResult.value.tabular.GetOr([]) else [])
  }

  /** The controls a snapshot carries, before defaulting. */
  function ControlsOf(a: AppState): ControlInput
  {
    ControlInput(a.mode, a.algorithm, a.runMode, a.targetNum, a.targetMass, a.intify,
                 a.outputPrecision, a.floatTolerance, a.maxComb)
  }

  /** `mapAppStateToFrontend`: None when `JSON.parse` of the results throws. Results are parsed only
      when they are neither empty nor "Ready"; the error is what follows the sixth character of a
      status message starting "Error:", and the run flag is whether the status class says "blue". */
  function Apply(a: AppState): (r: Option<FrontendState>)
    ensures r.None? <==> a.results.Other? && a.results.text != "" && a.results.text != "Ready"
    ensures r.Some? ==>
      && r.value.textInput == a.equation
      && r.value.controlInput == DefaultedControls(ControlsOf(a))
      && r.value.parsedResult == Parse(a.results)
      && (r.value.calculationError.Some? <==> StartsWith(a.statusMessage, "Error:"))
      && (r.value.calculationError.Some? ==> ErrorPrefix[..6] + r.value.calculationError.value == a.statusMessage)
      && r.value.isCalculating == Contains(a.status, "blue")
  {
    var controls := DefaultedControls(ControlsOf(a));
    var parsed: Option<Option<CalcResult>> :=
      if a.results != Other("") && a.results != Other("Ready") then
        (match Parse(a.results) case Some(v) => Some(Some(v)) case None => None)
      else Some(None);
    if parsed.None? then None
    else
      var error := if StartsWith(a.statusMessage, "Error:") then Some(a.statusMessage[6..]) else None;
      assert error.Some? ==> ErrorPrefix[..6] + error.value == a.statusMessage by {
        if error.Some? {
          assert a.statusMessage == a.statusMessage[..6] + a.statusMessage[6..];
        }
      }
      Some(FrontendState(a.equation, controls, parsed.value, error, Contains(a.status, "blue")))
  }

  /** What a capture followed by an apply gives back: the controls defaulted, an error shown with a
      leading space, and an error captured while calculating lost. */
  function AfterRoundTrip(f: FrontendState): FrontendState
  {
    f.(controlInput := DefaultedControls(f.controlInput),
       calculationError :=
         if !f.isCalculating && f.calculationError.Some? && f.calculationError.value != ""
         then Some(" " + f.calculationError.value) else None)
  }

  /** Capture then apply never fails, keeps the text, the result and the run flag exactly, and
      changes the rest as AfterRoundTrip says. */
  lemma CaptureApply(f: FrontendState)
    ensures Apply(Capture(f)) == Some(AfterRoundTrip(f))
  {
    var a := Capture(f);
    if !f.isCalculating && f.calculationError.Some? && f.calculationError.value != "" {
      assert a.statusMessage == ErrorPrefix + f.calculationError.value;
      assert StartsWith(a.statusMessage, "Error:");
      assert a.statusMessage[6..] == " " + f.calculationError.value;
    } else if f.isCalculating {
      assert a.statusMessage[..6] != "Error:" by {
        assert a.statusMessage[0] == 'C';
      }
    }
    if f.parsedResult.None? {
      assert a.results == Other("Ready");
    }
  }

  /** The round trip is exact exactly when no control is falsy and there is no error. */
  lemma RoundTripExact(f: FrontendState)
    ensures Apply(Capture(f)) == Some(f) <==>
      DefaultedControls(f.controlInput) == f.controlInput && f.calculationError.None?
  {
    CaptureApply(f);
    if f.calculationError.Some? && !f.isCalculating && f.calculationError.value != "" {
      assert |" " + f.calculationError.value| != |f.calculationError.value|;
    }
  }

  /** The initial store survives a round trip unchanged. */
  lemma InitialRoundTrip()
    ensures Apply(Capture(Initial)) == Some(Initial)
  {
    RoundTripExact(Initial);
  }

  function Spaces(n: nat): (s: string)
    ensures |s| == n
  {
    if n == 0 then "" else " " + Spaces(n - 1)
  }

  /** n save/load cycles of the store: by CaptureApply, each cycle is AfterRoundTrip. */
  function AfterRoundTrips(f: FrontendState, n: nat): FrontendState
    decreases n
  {
    if n == 0 then f else AfterRoundTrip(AfterRoundTrips(f, n - 1))
  }

  /** n save/load cycles of a store showing error e: the error comes back as e after n spaces,
      and the equation and the result are kept. */
  lemma {:induction false} RepeatedRoundTrips(f: FrontendState, e: string, n: nat)
    requires !f.isCalculating && f.calculationError == Some(e) && e != ""
    ensures AfterRoundTrips(f, n).calculationError == Some(Spaces(n) + e)
    ensures AfterRoundTrips(f, n).parsedResult == f.parsedResult && AfterRoundTrips(f, n).textInput == f.textInput
    ensures !AfterRoundTrips(f, n).isCalculating
    decreases n
  {
    if n == 0 {
      assert Spaces(0) + e == e;
    } else {
      RepeatedRoundTrips(f, e, n - 1);
      SpaceBeforeConcat(Spaces(n - 1), e);
    }
  }

  lemma SpaceBeforeConcat(a: string, b: string)
    ensures " " + (a + b) == (" " + a) + b
  {
  }

  /** The Go side's defaulting in SaveState changes nothing in a captured snapshot. */
  lemma SaveDefaultsKeepCapture(f: FrontendState)
    ensures Backend.SaveDefaults(Capture(f)) == Capture(f)
  {
  }

  // ----- the wrappers around the bindings -----

  /** `loadState`: what the returned promise settles with, given how the `LoadState` binding
      settled; `syntaxError` stands for the message of the exception `JSON.parse` throws. A null
      reply gives `{}`. */
  function LoadState(reply: RpcReply<Option<AppState>>, syntaxError: string): (r: RpcReply<Update>)
    ensures reply.Rejected? ==> r == Rejected(LoadFailurePrefix + reply.message)
    ensures reply == Resolved(None) ==> r == Resolved(NoKeys)
    ensures reply.Resolved? && reply.value.Some? && Apply(reply.value.value).None? ==>
      r == Rejected(LoadFailurePrefix + syntaxError)
    ensures reply.Resolved? && reply.value.Some? && Apply(reply.value.value).Some? ==>
      r == Resolved(AllKeys(Apply(reply.value.value).value))
    ensures r.Rejected? ==> StartsWith(r.message, LoadFailurePrefix)
  {
    match reply
    case Rejected(m) => Rejected(LoadFailurePrefix + m)
    case Resolved(None) => Resolved(NoKeys)
    case Resolved(Some(a)) =>
      match Apply(a)
      case None => Rejected(LoadFailurePrefix + syntaxError)
      case Some(s) => Resolved(AllKeys(s))
  }

  /** `loadAndApplyState`: merge the loaded keys into the store when there are any; a failed load
      rejects and leaves the store alone. */
  method LoadAndApplyState(store: GlobalStore, reply: RpcReply<Option<AppState>>, syntaxError: string)
    returns (failure: Option<string>)
    modifies store
    ensures LoadState(reply, syntaxError).Rejected? ==>
      failure == Some(LoadState(reply, syntaxError).message) && store.state == old(store.state)
    ensures LoadState(reply, syntaxError).Resolved? ==>
      failure.None? && store.state == Merge(old(store.state), LoadState(reply, syntaxError).value)
  {
    var loaded := LoadState(reply, syntaxError);
    if loaded.Rejected? {
      return Some(loaded.message);
    }
    failure := None;
    if KeyCount(loaded.value) > 0 {
      store.UpdateGlobalState(loaded.value);
    }
  }

  /** The call `saveState` makes and what it ends with: the captured snapshot is sent, and a
      rejection of the binding is rethrown with the "Failed to save state: " prefix. */
  datatype SaveCall = SaveCall(sent: AppState, failure: Option<string>)

  function SaveState(f: FrontendState, bindingError: Option<string>): (r: SaveCall)
    ensures r.sent == Capture(f)
    ensures r.failure.Some? <==> bindingError.Some?
    ensures bindingError.Some? ==> r.failure == Some(SaveFailurePrefix + bindingError.value)
  {
    SaveCall(Capture(f), if bindingError.Some? then Some(SaveFailurePrefix + bindingError.value) else None)
  }

  /** `saveCurrentState`: save the record the store holds. */
  method SaveCurrentState(store: GlobalStore, bindingError: Option<string>) returns (r: SaveCall)
    ensures r == SaveState(store.state, bindingError)
  {
    var current := store.Current();
    r := SaveState(current, bindingError);
  }

  /** Saving the store to a file and loading that file reproduces the round trip of AfterRoundTrip,
      the Go side's defaulting included. */
  method SaveThenLoad(f: FrontendState, savePath: string, stamp: string, syntaxError: string)
    returns (loaded: RpcReply<Update>)
    requires |savePath| >= 5
    ensures loaded == Resolved(AllKeys(AfterRoundTrip(f)))
  {
    var call := SaveState(f, None);
    var offered, outcome := Backend.SaveState(call.sent, Backend.Picked(savePath), stamp);
    SaveDefaultsKeepCapture(f);
    CaptureApply(f);
    var reply := Backend.LoadStateCorrected(Backend.Picked(outcome.path), Backend.Decoded(outcome.content.snapshot));
    loaded := LoadState(reply, syntaxError);
  }

  /** The record the store is reset to when the user cancels the open dialog and the backend
      answers with its zero snapshot. */
  const CancelledLoad := FrontendState("", DefaultedControls(ControlsOf(ZeroAppState)), None, None, false)

  /** As written: a cancelled open dialog empties the equation, clears `intify` and drops the
      result, whatever the store held. */
  method CancelledLoadAsWritten(current: FrontendState, file: Backend.FileRead) returns (after: FrontendState)
    ensures after == CancelledLoad
    ensures after.textInput == "" && !after.controlInput.intify && after.parsedResult.None?
  {
    var store := new GlobalStore();
    store.UpdateGlobalState(AllKeys(current));
    var reply := Backend.LoadStateAsWritten(Backend.Picked(""), file);
    var failure := LoadAndApplyState(store, reply, "");
    after := store.state;
  }

  /** Corrected: the backend answers a cancelled dialog with null, and the store is left as it
      was. */
  method CancelledLoadCorrected(current: FrontendState, file: Backend.FileRead) returns (after: FrontendState)
    ensures after == current
  {
    var store := new GlobalStore();
    store.UpdateGlobalState(AllKeys(current));
    var reply := Backend.LoadStateCorrected(Backend.Picked(""), file);
    var failure := LoadAndApplyState(store, reply, "");
    after := store.state;
  }
}
