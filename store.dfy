/** The global Svelte store of the Wails frontend (globalState.ts): its initial record and the shallow
    merge `{...current, ...updates}` behind `updateGlobalState`. */
module Store {
  import opened Wrappers
  import opened Protocol

  /** The nested `controlInput` record. Numbers the source only copies and defaults are integers,
      except the target mass. */
  datatype ControlInput = ControlInput(
    mode: string,
    algorithm: string,
    runMode: string,
    targetNumber: int,
    targetMass: real,
    intify: bool,
    outputPrecision: int,
    floatTolerance: int,
    maxCombinations: int)

  /** The store's top-level record; `null` is None. */
  datatype FrontendState = FrontendState(
    textInput: string,
    controlInput: ControlInput,
    parsedResult: Option<CalcResult>,
    calculationError: Option<string>,
    isCalculating: bool)

  const InitialControls := ControlInput("masses", "auto", "balance", 0, 1.0, true, 4, 8, 15)

  /** The record the store is created with. */
  const Initial := FrontendState("", InitialControls, None, None, false)

  /** A `Partial<FrontendState>`: Some for each top-level key the object carries. */
  datatype Update = Update(
    textInput: Option<string>,
    controlInput: Option<ControlInput>,
    parsedResult: Option<Option<CalcResult>>,
    calculationError: Option<Option<string>>,
    isCalculating: Option<bool>)

  /** The object `{}`. */
  const NoKeys := Update(None, None, None, None, None)

  /** `Object.keys(u).length`. */
  function KeyCount(u: Update): (n: nat)
    ensures n <= 5
    ensures n == 0 <==> u == NoKeys
  {
    (if u.textInput.Some? then 1 else 0) + (if u.controlInput.Some? then 1 else 0)
    + (if u.parsedResult.Some? then 1 else 0) + (if u.calculationError.Some? then 1 else 0)
    + (if u.isCalculating.Some? then 1 else 0)
  }

  /** The partial object carrying every key of a record. */
  function AllKeys(s: FrontendState): (u: Update)
    ensures KeyCount(u) == 5
  {
    Update(Some(s.textInput), Some(s.controlInput), Some(s.parsedResult), Some(s.calculationError), Some(s.isCalculating))
  }

  /** `{...current, ...updates}`: each key the update carries takes its value, whole, and every
      other key keeps the current one. */
  function Merge(current: FrontendState, updates: Update): (r: FrontendState)
    ensures r.textInput == updates.textInput.GetOr(current.textInput)
    ensures r.controlInput == updates.controlInput.GetOr(current.controlInput)
    ensures r.parsedResult == updates.parsedResult.GetOr(current.parsedResult)
    ensures r.calculationError == updates.calculationError.GetOr(current.calculationError)
    ensures r.isCalculating == updates.isCalculating.GetOr(current.isCalculating)
    ensures updates == NoKeys ==> r == current
  {
    FrontendState(
      updates.textInput.GetOr(current.textInput),
      updates.controlInput.GetOr(current.controlInput),
      updates.parsedResult.GetOr(current.parsedResult),
      updates.calculationError.GetOr(current.calculationError),
      updates.isCalculating.GetOr(current.isCalculating))
  }

  /** Merging an object with every key replaces the whole record. */
  lemma MergeAllKeys(current: FrontendState, s: FrontendState)
    ensures Merge(current, AllKeys(s)) == s
  {
  }

  /** The later of two partial objects wins key by key. */
  function Then(first: Update, second: Update): Update
  {
    Update(
      if second.textInput.Some? then second.textInput else first.textInput,
      if second.controlInput.Some? then second.controlInput else first.controlInput,
      if second.parsedResult.Some? then second.parsedResult else first.parsedResult,
      if second.calculationError.Some? then second.calculationError else first.calculationError,
      if second.isCalculating.Some? then second.isCalculating else first.isCalculating)
  }

  /** Two updates in a row are the one update in which the later keys win. */
  lemma MergeTwice(current: FrontendState, first: Update, second: Update)
    ensures Merge(Merge(current, first), second) == Merge(current, Then(first, second))
  {
  }

  /** The writable store. */
  class GlobalStore {
    var state: FrontendState

    constructor ()
      ensures state == Initial
    {
      state := Initial;
    }

    /** `updateGlobalState`. */
    method UpdateGlobalState(updates: Update)
      modifies this
      ensures state == Merge(old(state), updates)
    {
      state := Merge(state, updates);
    }

    /** Reading the current record through a one-shot `subscribe`. */
    method Current() returns (s: FrontendState)
      ensures s == state
    {
      s := state;
    }
  }
}
