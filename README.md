# chemsynthcalc-GUI: the client-side controller, modelled in Dafny

chemsynthcalc-GUI is a desktop front end for a chemistry calculator. It computes molar masses,
balances equations and works out the masses of the reacting substances. The chemistry runs in an
external library. This project models the program logic around that library, in three generations.

- **Wails generation (Go backend `app.go`, Svelte/TypeScript frontend).**
  - The Run/Stop controller `CalculationManager` and the calculation service
    `WailsCalculationService`. The service keeps one pending-request slot, a timeout, abort and
    terminate, and normalises errors into results.
  - The global store and its shallow merge.
  - The save/load snapshot codec, whose defaulting follows JavaScript falsiness.
  - On the Go side:
    - file-name generation and equation sanitising;
    - the defaulting and suffix fixing of `SaveState`;
    - the `LoadState` reply;
    - the `Export` dispatch and the CSV/XLSX row layout;
    - the `isCalculating`/`cancelFunc` lifecycle of `PerformCalculation` and `StopCalculation`.
- **Fyne generation (`numberedit.go`, `ui.go`).**
  - The clamped integer spinner `NumberEdit`.
  - The mode-to-enabled-controls table and the Run dispatch.
- **First Wails frontend (`main.js`).**
  - The spinner clamps.
  - The defaults and blank-equation check of `runCalculation`.
  - How an outcome is shown.

Modules, one per source file, plus shared ones:

| file | module | models |
|---|---|---|
| wrappers.dfy | `Wrappers` | `Option` |
| strings.dfy | `Strings` | `startsWith`, `strings.HasSuffix`, `includes` |
| protocol.dfy | `Protocol` | the records crossing Go/JS: requests, results, the `AppState` snapshot, a remote call's reply; JSON as an abstract encode/partial-decode pair |
| goint.dfy | `GoInt` | Go's 64-bit `int`, `strconv.Itoa`/`Atoi` |
| backend.dfy | `Backend` | app.go |
| store.dfy | `Store` | globalState.ts |
| service.dfy | `Service` | wailsService.ts |
| manager.dfy | `Manager` | buttonRun.svelte.ts |
| snapshot.dfy | `Snapshot` | saveload.svelte.ts |
| numberedit.dfy | `NumberEditWidget` | numberedit.go (`NumberEdit`) |
| fyneui.dfy | `FyneUi` | ui.go |
| legacy.dfy | `Legacy` | frontend/src/main.js |

Asynchronous code is modelled as a sequence of events on classes.

- `run` is split at its one `await` into `Run` and the continuation `Resume(id)`.
- The backend's return or failure, the timer and `reset` are further events.
- A macro-task event requires `Quiescent()`: no settled promise has a continuation still waiting.
  This is JavaScript's rule that pending continuations run before the next macro-task.
- Each `calculate` call owns one promise. `Service.Settle` lets a promise settle at most once.
- `Manager.CalculationManager.Valid` is the invariant the controller and the service keep together:
  - the slot holds only the latest call, and only while its promise is pending;
  - `shouldAbort` implies `isCalculating`;
  - while calculating there is no result and no error;
  - a result and an error are never both shown.

## Model

| member | source | states |
|---|---|---|
| Protocol.Stringify | frontend/src/routes/scripts/wailsService.ts:83 | parsing the serialization of a result gives the result back |
| Protocol.Parse | frontend/src/routes/scripts/buttonRun.svelte.ts:47 | decoding succeeds exactly on the serialization of a result |
| GoInt.AtoiItoa | numberedit.go:39-47 | for every 64-bit value, `Atoi(Itoa(v))` is `v`, so the text the widget writes reads back as its value |
| Backend.KeepAllowed | app.go:103-116 | the filter keeps only allowed characters and never lengthens the text |
| Backend.KeepAllowedAppend | app.go:103-116 | the filter distributes over concatenation, so the kept characters stay in their order |
| Backend.KeepAllowedCounts | app.go:103-116 | each allowed character is kept as often as it occurs; no other character survives |
| Backend.KeepAllowedOfAllowed | app.go:103-116 | a text of allowed characters passes unchanged |
| Backend.SanitizeEquation | app.go:102-127 | result non-empty, at most 200 allowed characters; "Equation" exactly when nothing is left; otherwise the first min(200, n) kept characters |
| Backend.SanitizeIdempotent | app.go:102-127 | sanitizing twice is sanitizing once |
| Backend.GenerateFilename | app.go:91-100 | empty equation gives `CSC_Untitled_<ts>.<ext>`; any other gives `CSC_<mode>_<sanitized>_<ts>.<ext>`; the name always ends in `.<ext>` |
| Backend.EnsureSuffix | app.go:271-273 | the result ends in the suffix; the path is kept when it already does and extended otherwise |
| Backend.JsonSuffixedIsEnsureSuffix | app.go:62-64 | on paths of five or more characters the slice test of SaveState equals the suffix test of the exporters |
| Backend.SaveDefaults | app.go:66-81 | empty mode/algorithm/runMode/results become masses/auto/balance/Ready; an empty status gets the gray class and message "Ready"; every other field unchanged |
| Backend.SaveDefaultsIdempotent | app.go:66-81 | defaulting twice is defaulting once |
| Backend.SaveState | app.go:45-89 | offers the generated name; a dialog error is returned; cancel writes nothing; a path under five characters panics; otherwise writes the defaulted snapshot at the `.json`-suffixed path |
| Backend.LoadStateAsWritten | app.go:129-152 | a cancelled dialog resolves with the zero snapshot, never null; a dialog, read or decode error rejects with its message; a decoded file resolves with its state |
| Backend.LoadStateCorrected | app.go:140-142 | a cancelled dialog resolves with null; every other case as written |
| Backend.ParseExportFormat | app.go:230-251 | exactly "txt", "csv", "xlsx" are accepted, each to its own format |
| Backend.CsvRecords | app.go:315-329 | the header `Formula, Molar Mass, Mass`, then one record per tabular row in order |
| Backend.HeaderCells | app.go:360-366 | "Formula", "Molar Mass", "Mass" in A1, B1, C1 and no other cell |
| Backend.XlsxCells | app.go:360-380 | headers in A1-C1, row i in A, B, C of sheet row i+2, no other cell |
| Backend.ExportToTxt | app.go:254-283 | offered name; dialog error/cancel; on a path, writes the result's details at the `.txt` path, or fails when the results text does not decode |
| Backend.ExportToCsv | app.go:285-332 | offered name; dialog error/cancel; on a path, writes the CSV records at the `.csv` path |
| Backend.ExportToXlsx | app.go:334-387 | offered name; dialog error/cancel; on a path, writes the sheet at the `.xlsx` path |
| Backend.Export | app.go:230-252 | any format other than the three is "wrong file format" with no dialog; the three dispatch to their writers in every mode |
| Backend.ModeOf | app.go:218-227 | exactly formula, balance and masses are solver modes, and each selects its own solver |
| Backend.Dispatch | app.go:218-227 | a known mode gives its solver's result; an unknown mode gives the zero result (no success, empty message) |
| Backend.App.constructor | app.go:181-183 | no cancel function, not calculating |
| Backend.App.BeginCalculation | app.go:205-209 | the new call's cancel function replaces the old one, and the flag is set |
| Backend.App.FinishCalculation | app.go:211-228 | result of the mode switch; the deferred reset clears the flag and the cancel function |
| Backend.App.StopCalculation | app.go:189-196 | cancels the current call's context; no-op when there is none |
| Backend.App.IsCalculating | app.go:198-202 | reports the flag |
| Backend.OverlappingCalls | app.go:204-228 | when the first of two overlapping calls returns, the flag reads false and a stop cancels nothing, though the second still runs |
| Store.KeyCount | frontend/src/routes/scripts/saveload.svelte.ts:103 | the number of keys is zero exactly for `{}` |
| Store.AllKeys | frontend/src/routes/scripts/saveload.svelte.ts:84-86 | the partial record of a loaded state carries all five keys |
| Store.Merge | frontend/src/routes/scripts/globalState.ts:23-25 | each key the update carries takes its value, a whole nested record included; every other key kept; `{}` is the identity |
| Store.MergeAllKeys | frontend/src/routes/scripts/globalState.ts:24 | merging a record with every key replaces the whole record |
| Store.MergeTwice | frontend/src/routes/scripts/globalState.ts:24 | two merges are one merge in which the later keys win |
| Store.GlobalStore.constructor | frontend/src/routes/scripts/globalState.ts:4-20 | the initial record: empty text; masses/auto/balance/0/1.0/true/4/8/15; no result, no error, not calculating |
| Store.GlobalStore.UpdateGlobalState | frontend/src/routes/scripts/globalState.ts:23-25 | the new state is the merge of the old one with the update |
| Store.GlobalStore.Current | frontend/src/routes/scripts/saveload.svelte.ts:95-97 | reads the current record |
| Service.Settle | frontend/src/routes/scripts/wailsService.ts:64 | a promise settles at most once; only promise i can change |
| Service.FailureResult | frontend/src/routes/scripts/wailsService.ts:91-96 | never a success or cancellation; message is the error's, or "Calculation failed" when empty |
| Service.WailsCalculationService.constructor | frontend/src/routes/scripts/wailsService.ts:32-38 | no slot, not loading |
| Service.WailsCalculationService.Calculate | frontend/src/routes/scripts/wailsService.ts:57-76 | a held slot is first rejected with "New calculation started before previous completed"; then the new call alone holds the slot, loading is set, its timer armed and its request sent |
| Service.WailsCalculationService.BackendReturned | frontend/src/routes/scripts/wailsService.ts:77-84 | clears the timer, loading and the slot, whichever call holds it; fulfils with the serialized result |
| Service.WailsCalculationService.BackendFailed | frontend/src/routes/scripts/wailsService.ts:85-98 | as a return, but fulfils with the failure result; never rejects |
| Service.WailsCalculationService.TimerFired | frontend/src/routes/scripts/wailsService.ts:65-70 | rejects the slot's call with "Calculation timeout" only if a slot is held |
| Service.WailsCalculationService.Abort | frontend/src/routes/scripts/wailsService.ts:102-114 | calls StopCalculation; rejects and clears a held slot with "Calculation aborted by user" |
| Service.WailsCalculationService.Terminate | frontend/src/routes/scripts/wailsService.ts:116-122 | aborts when busy; always leaves loading false |
| Service.WailsCalculationService.CanCalculate | frontend/src/routes/scripts/wailsService.ts:53-55 | true exactly when neither loading nor busy |
| Service.CanCalculateNeverTrue | frontend/src/routes/scripts/wailsService.ts:43-55 | as written, with a working binding the getter is truthy, so `canCalculate` is false in every state |
| Service.CorrectedCanCalculateWhenIdle | frontend/src/routes/scripts/wailsService.ts:53-55 | with the flag awaited, an idle service can calculate, a busy one cannot, and it can again after the return |
| Service.StaleReturnClearsNewerSlot | frontend/src/routes/scripts/wailsService.ts:77-80 | an older call's late return clears the newer call's slot; its timer then rejects nothing and it stays pending |
| Manager.Classify | frontend/src/routes/scripts/buttonRun.svelte.ts:46-60 | cancelled gives nothing; else success gives the result; else the message, or "Calculation failed"; never both |
| Manager.Interpret | frontend/src/routes/scripts/buttonRun.svelte.ts:46-66 | an undecodable text gives "Invalid result format" and no result; otherwise the classification |
| Manager.Continue | frontend/src/routes/scripts/buttonRun.svelte.ts:41-73 | aborted: outcome untouched; fulfilled: interpreted; rejected: the rejection's message as error |
| Manager.ReturnedResultSurfaces | frontend/src/routes/scripts/buttonRun.svelte.ts:47-60 | a returned result is shown exactly when it is a success that was not cancelled; an uncancelled failure always shows an error |
| Manager.BackendFailureSurfaces | frontend/src/routes/scripts/wailsService.ts:85-98 | a backend failure shows no result and its message, or "Calculation failed" |
| Manager.RequestFor | frontend/src/routes/scripts/buttonRun.svelte.ts:25-36 | targetNumber and maxCombinations renamed, every other field copied, the text as equation |
| Manager.CalculationManager.constructor | frontend/src/routes/scripts/buttonRun.svelte.ts:4-7 | all four fields false or null |
| Manager.CalculationManager.Run | frontend/src/routes/scripts/buttonRun.svelte.ts:9-39 | while calculating: sets shouldAbort, aborts, leaves the outcome and issues nothing; when idle: clears the outcome, sets isCalculating and issues the renamed request before the await |
| Manager.CalculationManager.Resume | frontend/src/routes/scripts/buttonRun.svelte.ts:39-77 | outcome as Continue says; if shouldAbort was set both stay null, even for a success; afterwards neither flag is set |
| Manager.CalculationManager.Reset | frontend/src/routes/scripts/buttonRun.svelte.ts:85-91 | all four fields cleared, then the service terminated |
| Manager.CalculationManager.DeliverResult | frontend/src/routes/scripts/wailsService.ts:77-84 | the backend's return settles the call's promise |
| Manager.CalculationManager.DeliverFailure | frontend/src/routes/scripts/wailsService.ts:85-98 | the backend's failure settles the call's promise with the failure result |
| Manager.CalculationManager.FireTimeout | frontend/src/routes/scripts/wailsService.ts:65-70 | the timer rejects whatever holds the slot |
| Manager.CompletedRun | frontend/src/routes/scripts/buttonRun.svelte.ts:9-78 | a run whose backend returns r shows the classification of r and ends not calculating |
| Manager.StopPressed | frontend/src/routes/scripts/buttonRun.svelte.ts:10-15 | a second press stops the backend once, issues nothing new and shows neither result nor error |
| Manager.TimedOutRun | frontend/src/routes/scripts/buttonRun.svelte.ts:68-73 | a run that times out shows "Calculation timeout" |
| Manager.ResetDuringRun | frontend/src/routes/scripts/buttonRun.svelte.ts:85-91 | reset clears shouldAbort before aborting, so the run then shows "Calculation aborted by user" |
| Manager.RunAfterReset | frontend/src/routes/scripts/buttonRun.svelte.ts:17-21 | if terminate finds the service idle (the binding threw, or a corrected awaited getter saw a clear backend flag), a new run after reset makes the old continuation show the supersession error and clear isCalculating while the new call runs |
| Manager.RunAfterResetAsWritten | frontend/src/routes/scripts/buttonRun.svelte.ts:17-91 | with the truthy getter, reset aborts the old call, whose continuation shows "Calculation aborted by user"; the next run clears that and is the only call in progress |
| Snapshot.DefaultedControls | frontend/src/routes/scripts/saveload.svelte.ts:26-34 | falsy fields become masses/auto/balance/0/1.0/4/8/15; non-falsy fields kept; intify untouched |
| Snapshot.DefaultedControlsFixed | frontend/src/routes/scripts/saveload.svelte.ts:49-57 | defaulting is idempotent, and keeps a record exactly when no field is falsy (999 passes through) |
| Snapshot.StatusClassesBlue | frontend/src/routes/scripts/saveload.svelte.ts:37 | only the busy class contains "blue" |
| Snapshot.Capture | frontend/src/routes/scripts/saveload.svelte.ts:23-43 | the nine control fields are the store's controls with falsy values replaced by their defaults; status contains "blue" iff calculating; message Calculating.../Error: e/Ready; results are the result's JSON or "Ready"; tabular or []; spoiler closed |
| Snapshot.Apply | frontend/src/routes/scripts/saveload.svelte.ts:45-63 | fails exactly on undecodable non-empty, non-"Ready" results; error is the text after six characters of an "Error:" message; isCalculating from "blue"; same defaults table |
| Snapshot.CaptureApply | frontend/src/routes/scripts/saveload.svelte.ts:23-63 | apply(capture(f)) always succeeds: text, result and run flag exact, controls defaulted, error e back as " e", an error captured while calculating lost |
| Snapshot.RoundTripExact | frontend/src/routes/scripts/saveload.svelte.ts:23-63 | the round trip is exact iff no control is falsy and there is no error |
| Snapshot.InitialRoundTrip | frontend/src/routes/scripts/globalState.ts:4-20 | the initial store survives capture and apply unchanged |
| Snapshot.RepeatedRoundTrips | frontend/src/routes/scripts/saveload.svelte.ts:38-60 | n save/load cycles, each of them AfterRoundTrip by CaptureApply, put n spaces before the error and keep the text and the result |
| Snapshot.SaveDefaultsKeepCapture | app.go:66-81 | the Go-side defaulting never changes a captured snapshot |
| Snapshot.LoadState | frontend/src/routes/scripts/saveload.svelte.ts:76-91 | a rejection or parse failure rethrows with "Failed to load state: "; null gives `{}`; otherwise every key of the applied record |
| Snapshot.LoadAndApplyState | frontend/src/routes/scripts/saveload.svelte.ts:101-106 | a failed load leaves the store; a successful one merges the loaded keys, `{}` changing nothing |
| Snapshot.SaveState | frontend/src/routes/scripts/saveload.svelte.ts:65-74 | sends the capture; a binding failure is rethrown with "Failed to save state: " |
| Snapshot.SaveCurrentState | frontend/src/routes/scripts/saveload.svelte.ts:94-99 | saves the record the store holds |
| Snapshot.SaveThenLoad | frontend/src/routes/scripts/saveload.svelte.ts:65-91 | saving to a file and loading it yields every key of the round-trip record |
| Snapshot.CancelledLoadAsWritten | frontend/src/routes/scripts/saveload.svelte.ts:79-82 | as written, cancelling the open dialog resets the store: equation empty, intify false, result dropped |
| Snapshot.CancelledLoadCorrected | frontend/src/routes/scripts/saveload.svelte.ts:79-82 | with null on cancel, the store is left as it was |
| NumberEditWidget.Clamp | numberedit.go:73-79 | with min <= max the result is in range, and equals the value when it already is |
| NumberEditWidget.IncrementAtMaxJumpsToMin | numberedit.go:90-94 | as written, +1 at math.MaxInt with range [0, MaxInt] wraps and lands on 0 |
| NumberEditWidget.Saturate | numberedit.go:92 | the exact sum held to the 64-bit range |
| NumberEditWidget.SaturatedStep | numberedit.go:90-100 | the corrected step stays in range, never moves against the step, and is exact when the sum is in range |
| NumberEditWidget.SaturatedIncrementAtMax | numberedit.go:90-94 | corrected, +1 at math.MaxInt stays at math.MaxInt |
| NumberEditWidget.SteppedAgreesWithoutOverflow | numberedit.go:90-100 | without overflow the written and the corrected step agree |
| NumberEditWidget.NumberEdit.constructor | numberedit.go:28-39 | stores the initial value unclamped, enabled, text `Itoa(value)` |
| NumberEditWidget.NumberEdit.SetClamped | numberedit.go:73-88 | clamps; only a changed value rewrites the text, and only a changed value on an enabled widget with a callback notifies; keeps the range invariant |
| NumberEditWidget.NumberEdit.Increment | numberedit.go:90-94 | nothing while disabled; else the value moves by +step and is clamped |
| NumberEditWidget.NumberEdit.Decrement | numberedit.go:96-100 | nothing while disabled; else the value moves by -step and is clamped |
| NumberEditWidget.NumberEdit.PressUp | numberedit.go:49-53 | the up button does nothing while disabled; when enabled it takes the corrected step, rewrites the text and notifies exactly when the value changes, and keeps the value in range |
| NumberEditWidget.NumberEdit.PressDown | numberedit.go:56-60 | the down button does nothing while disabled; when enabled it takes the corrected step down, rewrites the text and notifies exactly when the value changes, and keeps the value in range |
| NumberEditWidget.NumberEdit.EntryChanged | numberedit.go:40-47 | ignored while disabled or for non-integer text; otherwise the parsed value is set clamped |
| NumberEditWidget.NumberEdit.GetValue | numberedit.go:102-104 | reports the value |
| NumberEditWidget.NumberEdit.SetValue | numberedit.go:106-108 | sets the clamped value even while disabled, without a callback then |
| NumberEditWidget.NumberEdit.Enable | numberedit.go:110-116 | clears the flag, nothing else changes |
| NumberEditWidget.NumberEdit.Disable | numberedit.go:118-124 | sets the flag, nothing else changes |
| NumberEditWidget.NumberEdit.Disabled | numberedit.go:126-128 | reports the flag Enable and Disable set |
| NumberEditWidget.RetypeShownValue | numberedit.go:81 | typing the shown text again changes nothing: no text update, no callback |
| NumberEditWidget.UnclampedConstruction | numberedit.go:28-36 | a widget built out of range keeps its value |
| FyneUi.Enabled.Set | ui.go:100-104 | one control takes the action, no other changes |
| FyneUi.EnabledExtensional | ui.go:98-106 | two states agreeing on every control are equal |
| FyneUi.SetAll | ui.go:98-106 | every control given takes the action; every other is kept |
| FyneUi.Selected | ui.go:115-125 | Formula enables only Precision; Balance enables Algorithm and disables the rest but Precision; Masses the reverse; unknown changes nothing; Precision never disabled |
| FyneUi.Placeholder | ui.go:130-143 | the hint of each mode; an unknown selection keeps it |
| FyneUi.SelectedTwice | ui.go:108-128 | selecting a mode twice is selecting it once |
| FyneUi.PrecisionStaysEnabled | ui.go:115-125 | no sequence of selections disables Precision |
| FyneUi.AfterSelectionsLast | ui.go:108-128 | selections apply one after another |
| FyneUi.LastModeDecides | ui.go:115-125 | after a known selection every control but Precision is the same whatever came before; after Formula all are |
| FyneUi.SetAllStep | ui.go:99-105 | one loop step of setWidgetStates |
| FyneUi.RunDispatch | ui.go:149-158 | exactly Formula, Balance and Masses dispatch; anything else prints "err" |
| FyneUi.Ui.NoWidgets | ui.go:49-61 | initState's defaults Masses/Auto/Balance/0/1.0/true/4/8/"" with no widgets |
| FyneUi.Ui.constructor | ui.go:236-246 | createUI: initial state, widgets present, controls as Masses mode says (all but Algorithm), masses placeholder |
| FyneUi.Ui.SetWidgetStates | ui.go:98-106 | the loop applies SetAll and touches nothing else |
| FyneUi.Ui.UpdateWidgetStates | ui.go:108-128 | without widgets nothing; with them the mode is stored whatever the selection, then the table and the placeholder |
| FyneUi.Ui.UpdateAppState | ui.go:67-81 | with widgets the state becomes what the controls show; without, unchanged |
| FyneUi.Ui.HandleRunAction | ui.go:145-160 | refreshes the state, then dispatches on its mode |
| FyneUi.UnknownSelection | ui.go:109-125 | an unknown selection changes no widget but overwrites the mode, so Run prints "err" |
| Legacy.IncrementedValue | frontend/src/main.js:113-128 | a non-number counts as 0; target-num is the floored sum raised to 0; precision is the floored sum clamped to [1,10]; tolerance is the floored sum clamped to [1,15]; any other field is the sum raised to 0 |
| Legacy.UnparsableIsZero | frontend/src/main.js:115 | a field that does not parse behaves as one holding 0 |
| Legacy.IncrementMonotone | frontend/src/main.js:119-124 | for an integer field, the value after a non-negative delta is never below its value after a delta of 0 |
| Legacy.TrimStart | frontend/src/main.js:143 | the result is a suffix of the input, every character cut is white space, and the result does not start with white space |
| Legacy.TrimEnd | frontend/src/main.js:143 | the result is a prefix of the input, every character cut is white space, and the result does not end with white space |
| Legacy.TrimBlank | frontend/src/main.js:143 | trim gives "" exactly when the text is empty or all white space |
| Legacy.ParamsOf | frontend/src/main.js:131-139 | texts and check box copied; NaN or 0 defaults target number 0, target mass 1.0, precision 4, tolerance 8 |
| Legacy.AsBackendParams | frontend/src/main.js:154-164 | every field the page sends reaches the backend unchanged; the request has no maxComb, so the backend reads 0 |
| Legacy.OutcomeText | frontend/src/main.js:168-181 | success shows details, failure the message, a rejection "Error: " + (message or "Calculation failed") |
| Legacy.OutcomeClass | frontend/src/main.js:168-181 | the success class exactly for a successful result, else the error class |
| Legacy.ResultsArea.constructor | frontend/src/main.js:141 | the results area as the page starts |
| Legacy.ResultsArea.RunCalculation | frontend/src/main.js:130-167 | a blank equation shows the error, sends nothing; otherwise shows the running state and sends the defaulted request |
| Legacy.ResultsArea.ShowOutcome | frontend/src/main.js:168-181 | the area shows the outcome text and class |
| Legacy.BlankEquationNotSent | frontend/src/main.js:143-147 | a whitespace-only equation is never sent and shows the error class |

## Behaviour worth noting

- Apply uses the falsy-defaults table only. A non-falsy out-of-range value, such as an output precision of 999, passes through unchanged (saveload.svelte.ts:55).
- A loaded snapshot restores `isCalculating` from a status class containing "blue" (saveload.svelte.ts:61). A snapshot saved while calculating therefore loads as running.
- `Export` has no per-mode restriction. CSV and XLSX are written in every mode (app.go:230-251).
- main.js clamps the output precision to [1, 10] (main.js:122), while the page markup declares the field with min 0 and max 20 (template.js:76).

## Left out

- FloatEdit (numberedit.go:130-245) and all floating-point formatting. Reasons:
  - `toFixed(6)`, `strconv.FormatFloat` and the target-mass arithmetic are floating point.
  - The target mass and the tabular masses are exact reals that are only copied.
  - FormatFloat is a parameter `formatFloat`.
- Legacy.IncrementedValue: the non-integer field holds the exact sum raised to 0, not its `toFixed(6)` text. Rounding is floating point.
- Dialogs, files and spreadsheets are parameters or outputs:
  - `SaveFileDialog`/`OpenFileDialog` are the input `DialogReply`;
  - `os.ReadFile` plus `json.Unmarshal` are the input `FileRead`;
  - a write is the output `FileOutcome`;
  - the errors of `os.WriteFile`, `os.Create`, the CSV writer, excelize and `json.MarshalIndent` are not modelled.
- JSON is an abstract encode/partial-decode pair.
  - A text is either the serialization of a result, or some other text that the decoder rejects.
  - JSON that decodes into some other shape is treated as undecodable.
  - The exception message of `JSON.parse` is a parameter.
- Time is a parameter: `time.Now().Format(...)` is the input `stamp`. `generateFilename` reads the clock twice, and the model uses one stamp for both. The 3000000 ms timeout is an event; no clock is modelled.
- Concurrency: `sync.RWMutex` and `context` cancellation become sequential events. Cancellation is a recorded set of cancelled calls; what the solvers do with it is not modelled.
- The chemistry solvers (logic.go and the external library) are the parameter `solve`. The Fyne calc functions are the actions of `RunAction`. `main.go` is not part of this model.
- Markup and the DOM:
  - template.js, spoiler.js and main.js's HTML are not part of this model.
  - The `results` element is a class with two fields.
  - `PrintAppState` is reduced to its `UpdateAppState` call; the printing is left out.
- `IsCalculating()` is a foreign binding, given to the service as the input `busy`. The service's `StopCalculation` calls are counted rather than linked to `Backend.App`.
- The store and the calculation manager are separate, as in the source: the components that copy between them are not part of this model.
- Svelte reactivity (`$state`, `writable`, `subscribe`) is plain fields. The generated `createFrom` is an opaque record constructor.
- `controlInput` is always present in a store record. The `?.` null checks of capture never fire, so `intify ?? true` is the stored boolean.
- Paths and equations are sequences of characters, not UTF-8 bytes. The sanitized name is ASCII, so its 200-byte cut is a 200-character cut. SaveState's five-byte slice is a five-character slice.
- A Go panic (SaveState on a path of under five characters) is the error `SliceOutOfRange`. How Wails reports it to the frontend is not modelled.
- NumberEditWidget.NumberEdit.Increment and NumberEditWidget.NumberEdit.Decrement use the corrected step, with the sum held to 64 bits.
  - As written, Go's `n.value + n.step` wraps on overflow; that is `SteppedValue` and the first half of the finding below.
  - The two agree whenever the sum does not overflow (`SteppedAgreesWithoutOverflow`).
- Snapshot.SaveThenLoad uses the corrected `LoadState` reply. The reply is the same for every chosen path, so only the cancelled dialog differs from the code as written.

## Findings

| source | as written | input that shows it | evidently intended | confidence | as-written member | corrected member |
|---|---|---|---|---|---|---|
| app.go:140-142 | a cancelled open dialog returns `AppState{}` with no error, which reaches the frontend as a non-null object, so `!appState` is false and the zero snapshot is applied to the store | cancel the Load dialog while the store holds equation "H2+O2=H2O" and intify true: the store becomes equation "", intify false, no result | a cancel returns null (as the comment at saveload.svelte.ts:80 expects), and the store is left unchanged | not executed | Snapshot.CancelledLoadAsWritten | Snapshot.CancelledLoadCorrected |
| frontend/src/routes/scripts/wailsService.ts:43-51 | the `isCalculating` getter returns the binding's promise without awaiting it; a promise is always truthy, so `canCalculate()` is always false and `terminate()` always aborts | an idle service with `isLoading` false: `canCalculate()` yields false | the getter yields the backend's boolean, so an idle service can calculate | not executed | Service.CanCalculateNeverTrue | Service.CorrectedCanCalculateWhenIdle |
| numberedit.go:92 | `n.value + n.step` is a 64-bit sum that wraps on overflow before the clamp | the Precision widget (range [0, math.MaxInt], step 1, ui.go:209) at math.MaxInt: pressing up wraps to math.MinInt and clamps to 0 | the sum saturates before the clamp, so pressing up at the maximum stays at the maximum | not executed | NumberEditWidget.IncrementAtMaxJumpsToMin | NumberEditWidget.SaturatedIncrementAtMax |
