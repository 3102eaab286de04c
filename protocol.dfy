/** The records that cross the boundary between the Go backend (app.go) and the TypeScript frontend:
    calculation requests and results, the persisted snapshot, and the outcome of a remote call.
    Field names follow the JSON tags of the Go structs. */
module Protocol {
  import opened Wrappers

  /** One line of the masses table. Molar and sample masses are float64 in the source; they are only
      copied and formatted, so exact reals stand for them. */
  datatype Row = Row(formula: string, molar: real, masses: real)

  /** `CalculationResult`. `tabular` is None when the JSON field is `null` (a nil Go slice) or absent
      (the frontend's own failure record has no such field). */
  datatype CalcResult = CalcResult(
    success: bool,
    message: string,
    details: string,
    cancelled: bool,
    tabular: Option<seq<Row>>)

  /** Go's zero value `CalculationResult{}`. */
  const ZeroResult := CalcResult(false, "", "", false, None)

  /** A text value that may be JSON. JSON encoding and decoding are abstract: a text is either the
      serialization of a result, or some other text (plain words such as "Ready", the empty string,
      malformed JSON), which the decoder rejects. */
  datatype JsonText = Serialized(value: CalcResult) | Other(text: string)

  /** `JSON.stringify` / `json.Marshal` of a result. */
  function Stringify(r: CalcResult): (t: JsonText)
    ensures Parse(t) == Some(r)
  {
    Serialized(r)
  }

  /** `JSON.parse` / `json.Unmarshal` into a result: partial, None when the text is not a result. */
  function Parse(t: JsonText): (r: Option<CalcResult>)
    ensures r.Some? <==> t.Serialized?
  {
    match t
    case Serialized(v) => Some(v)
    case Other(_) => None
  }

  /** `CalculationParams`, the request sent to `PerformCalculation`. */
  datatype CalcParams = CalcParams(
    equation: string,
    mode: string,
    algorithm: string,
    runMode: string,
    targetNum: int,
    targetMass: real,
    intify: bool,
    outputPrecision: int,
    floatTolerance: int,
    maxComb: int)

  /** `AppState` of the Wails generation (app.go), the snapshot written to and read from a JSON file. */
  datatype AppState = AppState(
    equation: string,
    mode: string,
    algorithm: string,
    runMode: string,
    targetNum: int,
    targetMass: real,
    intify: bool,
    outputPrecision: int,
    floatTolerance: int,
    maxComb: int,
    results: JsonText,
    spoilerOpen: bool,
    status: string,
    statusMessage: string,
    tabular: seq<Row>)

  /** Go's zero value `AppState{}`. */
  const ZeroAppState := AppState("", "", "", "", 0, 0.0, false, 0, 0, 0, Other(""), false, "", "", [])

  /** The gray status class of an idle application: the default SaveState fills in, and the class the
      frontend's capture writes when no calculation is running. */
  const IdleStatusClass := "w-3 h-3 bg-gray-500 rounded-full"

  /** How a promise returned by a Wails binding settles: with the Go method's value, or rejected with
      the error's text. */
  datatype RpcReply<T> = Resolved(value: T) | Rejected(message: string)
}
