/** The Go backend of the Wails generation (app.go): file names, snapshot defaulting and suffix
    fixing, export dispatch, the CSV and XLSX row layout, and the calculation flag lifecycle. Dialogs,
    file I/O and the clock are parameters: the dialog's reply, the file's decoded content and the
    formatted timestamp are inputs, and what would be written is the output. */
module Backend {
  import opened Wrappers
  import opened Strings
  import opened Protocol

  // ----- sanitizeEquation -----

  /** The characters `sanitizeEquation` keeps: ASCII letters and digits and `+ = - _`. */
  predicate Allowed(c: char)
  {
    ('a' <= c <= 'z') || ('A' <= c <= 'Z') || ('0' <= c <= '9') || c == '+' || c == '=' || c == '-' || c == '_'
  }

  /** The `strings.Map` pass: every other character maps to -1 and is dropped. */
  function KeepAllowed(s: string): (r: string)
    ensures |r| <= |s|
    ensures forall i :: 0 <= i < |r| ==> Allowed(r[i])
  {
    if s == [] then [] else (if Allowed(s[0]) then [s[0]] else []) + KeepAllowed(s[1..])
  }

  const MaxSanitizedLength := 200
  const FallbackName := "Equation"

  /** `sanitizeEquation`: the allowed characters of the equation in order, cut to their first 200,
      or "Equation" when none is left. */
  function SanitizeEquation(equation: string): (r: string)
    ensures 0 < |r| <= MaxSanitizedLength
    ensures forall i :: 0 <= i < |r| ==> Allowed(r[i])
    ensures KeepAllowed(equation) == [] ==> r == FallbackName
    ensures KeepAllowed(equation) != [] ==>
      |r| == (if |KeepAllowed(equation)| < MaxSanitizedLength then |KeepAllowed(equation)| else MaxSanitizedLength)
      && StartsWith(KeepAllowed(equation), r)
  {
    var sanitized := KeepAllowed(equation);
    var cut := if |sanitized| > MaxSanitizedLength then sanitized[..MaxSanitizedLength] else sanitized;
    if cut == "" then FallbackName else cut
  }

  /** The filter distributes over concatenation: it keeps the allowed characters in their order. */
  lemma {:induction false} KeepAllowedAppend(a: string, b: string)
    ensures KeepAllowed(a + b) == KeepAllowed(a) + KeepAllowed(b)
    decreases |a|
  {
    if a == [] {
      assert a + b == b;
    } else {
      var head := if Allowed(a[0]) then [a[0]] else [];
      assert (a + b)[0] == a[0];
      assert (a + b)[1..] == a[1..] + b;
      KeepAllowedAppend(a[1..], b);
      calc {
        KeepAllowed(a + b);
        head + KeepAllowed(a[1..] + b);
        head + (KeepAllowed(a[1..]) + KeepAllowed(b));
        (head + KeepAllowed(a[1..])) + KeepAllowed(b);
      }
    }
  }

  /** The filter keeps every allowed character as often as it occurs, and no other character. */
  lemma {:induction false} KeepAllowedCounts(s: string, c: char)
    ensures multiset(KeepAllowed(s))[c] == if Allowed(c) then multiset(s)[c] else 0
    decreases |s|
  {
    if s != [] {
      KeepAllowedCounts(s[1..], c);
      assert s == [s[0]] + s[1..];
    }
  }

  /** A string of allowed characters passes the filter unchanged. */
  lemma {:induction false} KeepAllowedOfAllowed(s: string)
    requires forall i :: 0 <= i < |s| ==> Allowed(s[i])
    ensures KeepAllowed(s) == s
    decreases |s|
  {
    if s != [] {
      KeepAllowedOfAllowed(s[1..]);
    }
  }

  /** Sanitizing a sanitized name changes nothing. */
  lemma SanitizeIdempotent(equation: string)
    ensures SanitizeEquation(SanitizeEquation(equation)) == SanitizeEquation(equation)
  {
    KeepAllowedOfAllowed(SanitizeEquation(equation));
  }

  // ----- generateFilename -----

  /** `generateFilename`, with the formatted `time.Now()` (layout 20060102_150405) as a parameter.
      The inner test for an empty sanitized equation can never fail, so every non-empty equation
      gives the mode-and-equation form. */
  function GenerateFilename(extension: string, state: AppState, stamp: string): (name: string)
    ensures state.equation == "" ==> name == "CSC_Untitled_" + stamp + "." + extension
    ensures state.equation != "" ==>
      name == "CSC_" + state.mode + "_" + SanitizeEquation(state.equation) + "_" + stamp + "." + extension
    ensures EndsWith(name, "." + extension)
  {
    var untitled := "CSC_Untitled_" + stamp + "." + extension;
    EndsWithConcat("CSC_Untitled_" + stamp, "." + extension);
    assert untitled == ("CSC_Untitled_" + stamp) + ("." + extension);
    if state.equation != "" then
      var sanitized := SanitizeEquation(state.equation);
      var named := "CSC_" + state.mode + "_" + sanitized + "_" + stamp + "." + extension;
      EndsWithConcat("CSC_" + state.mode + "_" + sanitized + "_" + stamp, "." + extension);
      assert named == ("CSC_" + state.mode + "_" + sanitized + "_" + stamp) + ("." + extension);
      if sanitized != "" then named else untitled
    else untitled
  }

  // ----- dialogs, files and errors -----

  /** What `runtime.SaveFileDialog` / `OpenFileDialog` return: a path, which is "" when the user
      cancels, or an error. */
  datatype DialogReply = Picked(path: string) | DialogError(message: string)

  datatype GoError =
    | DialogFailure(message: string)
    | SliceOutOfRange           // the run-time panic of `filePath[len(filePath)-5:]`
    | UnmarshalFailure          // `json.Unmarshal` of the results text failed
    | WrongFileFormat(format: string)

  datatype Cell = Cell(column: char, row: int)
  datatype CellValue = TextCell(text: string) | NumberCell(number: real)

  datatype FileContent =
    | JsonFile(snapshot: AppState)
    | TextFile(text: string)
    | CsvFile(records: seq<seq<string>>)
    | XlsxFile(cells: map<Cell, CellValue>)

  /** What a save or export ends with: the file it writes, nothing (the dialog was cancelled), or the
      error it returns. */
  datatype FileOutcome = Written(path: string, content: FileContent) | NothingWritten | Failed(error: GoError)

  // ----- extension suffixes -----

  /** `if !strings.HasSuffix(p, ext) { p += ext }`. */
  function EnsureSuffix(path: string, suffix: string): (r: string)
    ensures EndsWith(r, suffix)
    ensures EndsWith(path, suffix) ==> r == path
    ensures !EndsWith(path, suffix) ==> r == path + suffix
  {
    if EndsWith(path, suffix) then path else path + suffix
  }

  /** The test SaveState uses: compare the last five characters with ".json". It slices, so it
      needs a path of at least five characters. */
  function JsonSuffixed(path: string): string
    requires |path| >= 5
  {
    if path[|path| - 5..] != ".json" then path + ".json" else path
  }

  /** Where the slice does not panic, it agrees with the suffix test of the exporters. */
  lemma JsonSuffixedIsEnsureSuffix(path: string)
    requires |path| >= 5
    ensures JsonSuffixed(path) == EnsureSuffix(path, ".json")
  {
  }

  // ----- SaveState -----

  /** The defaults SaveState fills in before marshalling: an empty mode, algorithm, run mode or
      results text gets masses/auto/balance/Ready, and an empty status gets the gray class together
      with the message "Ready". */
  function SaveDefaults(s: AppState): (r: AppState)
    ensures r.mode != "" && r.algorithm != "" && r.runMode != "" && r.results != Other("") && r.status != ""
    ensures s.mode != "" ==> r.mode == s.mode
    ensures s.algorithm != "" ==> r.algorithm == s.algorithm
    ensures s.runMode != "" ==> r.runMode == s.runMode
    ensures s.results != Other("") ==> r.results == s.results
    ensures s.status != "" ==> r.status == s.status && r.statusMessage == s.statusMessage
    ensures s.status == "" ==> r.statusMessage == "Ready"
    ensures r.(mode := s.mode, algorithm := s.algorithm, runMode := s.runMode, results := s.results,
               status := s.status, statusMessage := s.statusMessage) == s
  {
    s.(mode := if s.mode == "" then "masses" else s.mode,
       algorithm := if s.algorithm == "" then "auto" else s.algorithm,
       runMode := if s.runMode == "" then "balance" else s.runMode,
       results := if s.results == Other("") then Other("Ready") else s.results,
       status := if s.status == "" then IdleStatusClass else s.status,
       statusMessage := if s.status == "" then "Ready" else s.statusMessage)
  }

  /** Defaulting twice is defaulting once. */
  lemma SaveDefaultsIdempotent(s: AppState)
    ensures SaveDefaults(SaveDefaults(s)) == SaveDefaults(s)
  {
  }

  /** `SaveState`: offer a default file name, then on a chosen path fix its suffix, fill in the
      defaults field by field, and write the snapshot. A path shorter than five characters makes the
      suffix test panic. */
  method SaveState(state: AppState, dialog: DialogReply, stamp: string) returns (offered: string, outcome: FileOutcome)
    ensures offered == GenerateFilename("json", state, stamp)
    ensures dialog.DialogError? ==> outcome == Failed(DialogFailure(dialog.message))
    ensures dialog == Picked("") ==> outcome == NothingWritten
    ensures dialog.Picked? && 0 < |dialog.path| < 5 ==> outcome == Failed(SliceOutOfRange)
    ensures dialog.Picked? && |dialog.path| >= 5 ==>
      outcome == Written(EnsureSuffix(dialog.path, ".json"), JsonFile(SaveDefaults(state)))
  {
    offered := GenerateFilename("json", state, stamp);
    if dialog.DialogError? {
      return offered, Failed(DialogFailure(dialog.message));
    }
    var filePath := dialog.path;
    if filePath == "" {
      return offered, NothingWritten;
    }
    if |filePath| < 5 {
      return offered, Failed(SliceOutOfRange);
    }
    if filePath[|filePath| - 5..] != ".json" {
      filePath := filePath + ".json";
    }
    var s := state;
    if s.mode == "" {
      s := s.(mode := "masses");
    }
    if s.algorithm == "" {
      s := s.(algorithm := "auto");
    }
    if s.runMode == "" {
      s := s.(runMode := "balance");
    }
    if s.results == Other("") {
      s := s.(results := Other("Ready"));
    }
    if s.status == "" {
      s := s.(status := IdleStatusClass);
      s := s.(statusMessage := "Ready");
    }
    JsonSuffixedIsEnsureSuffix(dialog.path);
    assert s == SaveDefaults(state);
    outcome := Written(filePath, JsonFile(s));
  }

  // ----- LoadState -----

  /** What reading the chosen file and `json.Unmarshal` give. */
  datatype FileRead = Decoded(state: AppState) | ReadError(message: string) | DecodeError(message: string)

  /** `LoadState` as written, as the frontend receives it through the binding: an error rejects the
      promise, and any returned struct, the zero value of a cancelled dialog included, arrives as a
      non-null object. */
  function LoadStateAsWritten(dialog: DialogReply, file: FileRead): (r: RpcReply<Option<AppState>>)
    ensures dialog == Picked("") ==> r == Resolved(Some(ZeroAppState))
    ensures dialog.DialogError? ==> r == Rejected(dialog.message)
    ensures dialog.Picked? && dialog.path != "" && file.Decoded? ==> r == Resolved(Some(file.state))
    ensures dialog.Picked? && dialog.path != "" && !file.Decoded? ==> r == Rejected(file.message)
    ensures r.Resolved? ==> r.value.Some?
  {
    match dialog
    case DialogError(m) => Rejected(m)
    case Picked(path) =>
      if path == "" then Resolved(Some(ZeroAppState))
      else match file
        case Decoded(st) => Resolved(Some(st))
        case ReadError(m) => Rejected(m)
        case DecodeError(m) => Rejected(m)
  }

  /** `LoadState` as evidently intended: a cancelled dialog yields null, which the frontend reads as
      "nothing loaded"; every other case is unchanged. */
  function LoadStateCorrected(dialog: DialogReply, file: FileRead): (r: RpcReply<Option<AppState>>)
    ensures dialog == Picked("") ==> r == Resolved(None)
    ensures dialog != Picked("") ==> r == LoadStateAsWritten(dialog, file)
  {
    if dialog == Picked("") then Resolved(None) else LoadStateAsWritten(dialog, file)
  }

  // ----- Export and its writers -----

  datatype ExportFormat = Txt | Csv | Xlsx

  /** The formats Export accepts. */
  function ParseExportFormat(format: string): (r: Option<ExportFormat>)
    ensures r.Some? <==> format == "txt" || format == "csv" || format == "xlsx"
    ensures r == Some(Txt) <==> format == "txt"
    ensures r == Some(Csv) <==> format == "csv"
    ensures r == Some(Xlsx) <==> format == "xlsx"
  {
    if format == "txt" then Some(Txt)
    else if format == "csv" then Some(Csv)
    else if format == "xlsx" then Some(Xlsx)
    else None
  }

  const Headers: seq<string> := ["Formula", "Molar Mass", "Mass"]

  /** One CSV record per tabular row; `strconv.FormatFloat(x, 'f', -1, 64)` is the parameter
      `formatFloat`. */
  function CsvRecord(row: Row, formatFloat: real -> string): seq<string>
  {
    [row.formula, formatFloat(row.molar), formatFloat(row.masses)]
  }

  /** The records exportToCSV writes: the header, then one record per row, in order. */
  method CsvRecords(tabular: seq<Row>, formatFloat: real -> string) returns (records: seq<seq<string>>)
    ensures |records| == |tabular| + 1
    ensures records[0] == Headers
    ensures forall i :: 0 <= i < |tabular| ==> records[i + 1] == CsvRecord(tabular[i], formatFloat)
  {
    records := [Headers];
    var i := 0;
    while i < |tabular|
      invariant 0 <= i <= |tabular|
      invariant |records| == i + 1 && records[0] == Headers
      invariant forall k :: 0 <= k < i ==> records[k + 1] == CsvRecord(tabular[k], formatFloat)
    {
      records := records + [CsvRecord(tabular[i], formatFloat)];
      i := i + 1;
    }
  }

  /** The column letter `'A' + i`. */
  function Column(i: nat): char
    requires i < 3
  {
    (('A' as int) + i) as char
  }

  /** The cells of the sheet a writer of `tabular` fills: headers in row 1, and the columns A, B, C of
      row i + 2 for tabular row i. */
  ghost predicate IsSheetOf(cells: map<Cell, CellValue>, tabular: seq<Row>)
  {
    && (forall c :: c in cells <==> ('A' <= c.column <= 'C' && 1 <= c.row <= |tabular| + 1))
    && (forall j :: 0 <= j < 3 ==> cells[Cell(Column(j), 1)] == TextCell(Headers[j]))
    && (forall i :: 0 <= i < |tabular| ==>
          cells[Cell('A', i + 2)] == TextCell(tabular[i].formula)
          && cells[Cell('B', i + 2)] == NumberCell(tabular[i].molar)
          && cells[Cell('C', i + 2)] == NumberCell(tabular[i].masses))
  }

  /** The header loop of exportToXLSX: "Formula", "Molar Mass", "Mass" in A1, B1, C1. */
  method HeaderCells() returns (cells: map<Cell, CellValue>)
    ensures forall c :: c in cells <==> ('A' <= c.column <= 'C' && c.row == 1)
    ensures forall j :: 0 <= j < 3 ==> cells[Cell(Column(j), 1)] == TextCell(Headers[j])
  {
    cells := map[];
    for j := 0 to 3
      invariant forall c :: c in cells <==> (c.row == 1 && 'A' as int <= c.column as int < 'A' as int + j)
      invariant forall k :: 0 <= k < j ==> cells[Cell(Column(k), 1)] == TextCell(Headers[k])
    {
      cells := cells[Cell(Column(j), 1) := TextCell(Headers[j])];
    }
  }

  /** The cells exportToXLSX sets on Sheet1: the headers, then one sheet row per tabular row. */
  method XlsxCells(tabular: seq<Row>) returns (cells: map<Cell, CellValue>)
    ensures IsSheetOf(cells, tabular)
  {
    cells := HeaderCells();
    for i := 0 to |tabular|
      invariant forall c :: c in cells <==> ('A' <= c.column <= 'C' && 1 <= c.row <= i + 1)
      invariant forall k :: 0 <= k < 3 ==> cells[Cell(Column(k), 1)] == TextCell(Headers[k])
      invariant forall k :: 0 <= k < i ==>
        cells[Cell('A', k + 2)] == TextCell(tabular[k].formula)
        && cells[Cell('B', k + 2)] == NumberCell(tabular[k].molar)
        && cells[Cell('C', k + 2)] == NumberCell(tabular[k].masses)
    {
      var rowNum := i + 2;
      cells := cells[Cell('A', rowNum) := TextCell(tabular[i].formula)];
      cells := cells[Cell('B', rowNum) := NumberCell(tabular[i].molar)];
      cells := cells[Cell('C', rowNum) := NumberCell(tabular[i].masses)];
    }
  }

  /** What an exporter ends with for a dialog reply, given what it writes on a chosen path. */
  ghost predicate DialogOutcome(dialog: DialogReply, outcome: FileOutcome, onPath: FileOutcome)
  {
    match dialog
    case DialogError(m) => outcome == Failed(DialogFailure(m))
    case Picked(path) => if path == "" then outcome == NothingWritten else outcome == onPath
  }

  /** The TXT file: the details of the result held in the results text, or an unmarshal error. */
  function TxtWrite(path: string, state: AppState): FileOutcome
  {
    match Parse(state.results)
    case Some(r) => Written(EnsureSuffix(path, ".txt"), TextFile(r.details))
    case None => Failed(UnmarshalFailure)
  }

  /** The CSV file: the header, then one record per row, in order. */
  ghost predicate CsvWritten(path: string, state: AppState, formatFloat: real -> string, outcome: FileOutcome)
  {
    && outcome.Written? && outcome.path == EnsureSuffix(path, ".csv") && outcome.content.CsvFile?
    && |outcome.content.records| == |state.tabular| + 1
    && outcome.content.records[0] == Headers
    && forall i :: 0 <= i < |state.tabular| ==>
         outcome.content.records[i + 1] == CsvRecord(state.tabular[i], formatFloat)
  }

  /** The XLSX file: the sheet laid out from the rows. */
  ghost predicate XlsxWritten(path: string, state: AppState, outcome: FileOutcome)
  {
    && outcome.Written? && outcome.path == EnsureSuffix(path, ".xlsx") && outcome.content.XlsxFile?
    && IsSheetOf(outcome.content.cells, state.tabular)
  }

  /** `exportToTXT`. */
  method ExportToTxt(state: AppState, dialog: DialogReply, stamp: string) returns (offered: string, outcome: FileOutcome)
    ensures offered == GenerateFilename("txt", state, stamp)
    ensures dialog.Picked? && dialog.path != "" ==> outcome == TxtWrite(dialog.path, state)
    ensures DialogOutcome(dialog, outcome, outcome)
  {
    offered := GenerateFilename("txt", state, stamp);
    if dialog.DialogError? {
      return offered, Failed(DialogFailure(dialog.message));
    }
    if dialog.path == "" {
      return offered, NothingWritten;
    }
    var filePath := EnsureSuffix(dialog.path, ".txt");
    var res := Parse(state.results);
    if res.None? {
      return offered, Failed(UnmarshalFailure);
    }
    outcome := Written(filePath, TextFile(res.value.details));
  }

  /** `exportToCSV`. */
  method ExportToCsv(state: AppState, dialog: DialogReply, stamp: string, formatFloat: real -> string)
    returns (offered: string, outcome: FileOutcome)
    ensures offered == GenerateFilename("csv", state, stamp)
    ensures dialog.Picked? && dialog.path != "" ==> CsvWritten(dialog.path, state, formatFloat, outcome)
    ensures DialogOutcome(dialog, outcome, outcome)
  {
    offered := GenerateFilename("csv", state, stamp);
    if dialog.DialogError? {
      return offered, Failed(DialogFailure(dialog.message));
    }
    if dialog.path == "" {
      return offered, NothingWritten;
    }
    var filePath := EnsureSuffix(dialog.path, ".csv");
    var records := CsvRecords(state.tabular, formatFloat);
    outcome := Written(filePath, CsvFile(records));
  }

  /** `exportToXLSX`. */
  method ExportToXlsx(state: AppState, dialog: DialogReply, stamp: string) returns (offered: string, outcome: FileOutcome)
    ensures offered == GenerateFilename("xlsx", state, stamp)
    ensures dialog.Picked? && dialog.path != "" ==> XlsxWritten(dialog.path, state, outcome)
    ensures DialogOutcome(dialog, outcome, outcome)
  {
    offered := GenerateFilename("xlsx", state, stamp);
    if dialog.DialogError? {
      return offered, Failed(DialogFailure(dialog.message));
    }
    if dialog.path == "" {
      return offered, NothingWritten;
    }
    var filePath := EnsureSuffix(dialog.path, ".xlsx");
    var cells := XlsxCells(state.tabular);
    outcome := Written(filePath, XlsxFile(cells));
  }

  /** `Export`: exactly "txt", "csv" and "xlsx" are dispatched, in any mode; any other format is an
      error before a dialog is shown. A cancelled dialog writes nothing and a failed one is
      returned. */
  method Export(state: AppState, format: string, dialog: DialogReply, stamp: string, formatFloat: real -> string)
    returns (offered: Option<string>, outcome: FileOutcome)
    ensures ParseExportFormat(format).None? ==> offered == None && outcome == Failed(WrongFileFormat(format))
    ensures ParseExportFormat(format).Some? ==>
      offered == Some(GenerateFilename(format, state, stamp)) && DialogOutcome(dialog, outcome, outcome)
    ensures format == "txt" && dialog.Picked? && dialog.path != "" ==> outcome == TxtWrite(dialog.path, state)
    ensures format == "csv" && dialog.Picked? && dialog.path != "" ==> CsvWritten(dialog.path, state, formatFloat, outcome)
    ensures format == "xlsx" && dialog.Picked? && dialog.path != "" ==> XlsxWritten(dialog.path, state, outcome)
  {
    var f := ParseExportFormat(format);
    if f.None? {
      return None, Failed(WrongFileFormat(format));
    }
    var name;
    if f.value == Txt {
      name, outcome := ExportToTxt(state, dialog, stamp);
    } else if f.value == Csv {
      name, outcome := ExportToCsv(state, dialog, stamp, formatFloat);
    } else {
      name, outcome := ExportToXlsx(state, dialog, stamp);
    }
    offered := Some(name);
  }

  // ----- the calculation flag lifecycle -----

  datatype SolverMode = FormulaMode | BalanceMode | MassesMode

  function ModeOf(mode: string): (m: Option<SolverMode>)
    ensures m.Some? <==> mode == "formula" || mode == "balance" || mode == "masses"
    ensures m == Some(FormulaMode) <==> mode == "formula"
    ensures m == Some(BalanceMode) <==> mode == "balance"
    ensures m == Some(MassesMode) <==> mode == "masses"
  {
    if mode == "formula" then Some(FormulaMode)
    else if mode == "balance" then Some(BalanceMode)
    else if mode == "masses" then Some(MassesMode)
    else None
  }

  /** The mode switch of `PerformCalculation`. The three solvers are not part of this model: `solve`
      stands for what each returns. An unknown mode gives the zero result: no success, no message. */
  function Dispatch(mode: string, solve: SolverMode -> CalcResult): (r: CalcResult)
    ensures ModeOf(mode).Some? ==> r == solve(ModeOf(mode).value)
    ensures ModeOf(mode).None? ==> !r.success && !r.cancelled && r.message == "" && r.details == "" && r.tabular.None?
  {
    match ModeOf(mode)
    case Some(m) => solve(m)
    case None => ZeroResult
  }

  /** The `App` fields behind the mutex: `cancelFunc` (here: the call whose context it cancels, None
      for nil) and `isCalculating`. `cancelled` records which calls' contexts have been cancelled and
      `calls` counts the calls begun. A call of PerformCalculation is split at the solver into
      BeginCalculation and FinishCalculation, so that StopCalculation can arrive in between. */
  class App {
    var cancelFunc: Option<nat>
    var calculating: bool
    var cancelled: set<nat>
    var calls: nat

    /** `NewApp`. */
    constructor ()
      ensures cancelFunc == None && !calculating && cancelled == {} && calls == 0
    {
      cancelFunc := None;
      calculating := false;
      cancelled := {};
      calls := 0;
    }

    /** The start of PerformCalculation: a new cancellable context, whose cancel function replaces
        any earlier one, and the flag set. */
    method BeginCalculation() returns (call: nat)
      modifies this
      ensures call == old(calls) && calls == old(calls) + 1
      ensures cancelFunc == Some(call) && calculating && cancelled == old(cancelled)
    {
      call := calls;
      calls := calls + 1;
      cancelFunc := Some(call);
      calculating := true;
    }

    /** The end of PerformCalculation: the mode switch and the deferred reset, which clears both
        fields whichever call they belong to now. */
    method FinishCalculation(call: nat, params: CalcParams, solve: SolverMode -> CalcResult) returns (r: CalcResult)
      requires call < calls
      modifies this
      ensures r == Dispatch(params.mode, solve)
      ensures cancelFunc == None && !calculating
      ensures cancelled == old(cancelled) && calls == old(calls)
    {
      r := Dispatch(params.mode, solve);
      cancelFunc := None;
      calculating := false;
    }

    /** `StopCalculation`: cancels the current context, and is a no-op when cancelFunc is nil. */
    method StopCalculation()
      modifies this
      ensures old(cancelFunc).None? ==> unchanged(this)
      ensures old(cancelFunc).Some? ==> cancelled == old(cancelled) + {old(cancelFunc).value}
      ensures cancelFunc == old(cancelFunc) && calculating == old(calculating) && calls == old(calls)
    {
      if cancelFunc.Some? {
        cancelled := cancelled + {cancelFunc.value};
      }
    }

    /** `IsCalculating`. */
    method IsCalculating() returns (b: bool)
      ensures b == calculating
    {
      b := calculating;
    }
  }

  /** Two overlapping calls: when the first returns, the deferred reset clears the flag and the
      cancel function although the second is still running, so a later stop cancels nothing. */
  method OverlappingCalls(params: CalcParams, solve: SolverMode -> CalcResult)
    returns (flagWhileSecondRuns: bool, secondCancelled: bool)
    ensures !flagWhileSecondRuns && !secondCancelled
  {
    var app := new App();
    var first := app.BeginCalculation();
    var second := app.BeginCalculation();
    var r := app.FinishCalculation(first, params, solve);
    flagWhileSecondRuns := app.IsCalculating();
    app.StopCalculation();
    secondCancelled := second in app.cancelled;
  }
}
