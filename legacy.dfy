/** The plain-JavaScript frontend of the first Wails version (main.js): the spinner buttons'
    clamps, the checks and defaults of `runCalculation`, and how its outcome is shown in the results
    area. The page's fields are inputs: a number field is the value `parseFloat`/`parseInt` gives,
    None for NaN. */
module Legacy {
  import opened Wrappers
  import opened Protocol

  function Max(a: int, b: int): int
  {
    if a < b then b else a
  }

  function Min(a: int, b: int): int
  {
    if a < b then a else b
  }

  function MaxReal(a: real, b: real): real
  {
    if a < b then b else a
  }

  /** The value a spinner field holds after `incrementValue`: a whole number for the three integer
      fields, and for any other field the sum kept at 0 or above and written with six decimals
      (`toFixed(6)`, whose rounding is not modelled). */
  datatype FieldValue = Whole(n: int) | Fixed(x: real)

  /** `incrementValue(fieldId, delta)`: a field that does not parse counts as 0. The target number
      is floored and kept at 0 or above, the output precision between 1 and 10, the float tolerance
      between 1 and 15. */
  function IncrementedValue(fieldId: string, current: Option<real>, delta: real): (v: FieldValue)
    ensures fieldId == "target-num" ==>
      var f := (current.GetOr(0.0) + delta).Floor;
      v == Whole(if f < 0 then 0 else f)
    ensures fieldId == "output-precision" ==>
      var f := (current.GetOr(0.0) + delta).Floor;
      v == Whole(if f < 1 then 1 else if f > 10 then 10 else f)
    ensures fieldId == "float-tolerance" ==>
      var f := (current.GetOr(0.0) + delta).Floor;
      v == Whole(if f < 1 then 1 else if f > 15 then 15 else f)
    ensures fieldId == "output-precision" ==> v.Whole? && 1 <= v.n <= 10
    ensures fieldId == "float-tolerance" ==> v.Whole? && 1 <= v.n <= 15
    ensures fieldId != "target-num" && fieldId != "output-precision" && fieldId != "float-tolerance" ==>
      var x := current.GetOr(0.0) + delta;
      v == Fixed(if x < 0.0 then 0.0 else x)
  {
    var currentValue := if current.None? || current == Some(0.0) then 0.0 else current.value;
    var newValue := currentValue + delta;
    if fieldId == "target-num" then Whole(Max(0, newValue.Floor))
    else if fieldId == "output-precision" then Whole(Max(1, Min(10, newValue.Floor)))
    else if fieldId == "float-tolerance" then Whole(Max(1, Min(15, newValue.Floor)))
    else Fixed(MaxReal(0.0, newValue))
  }

  /** A field that does not parse behaves as a field holding 0. */
  lemma UnparsableIsZero(fieldId: string, delta: real)
    ensures IncrementedValue(fieldId, None, delta) == IncrementedValue(fieldId, Some(0.0), delta)
  {
  }

  /** For an integer field, a non-negative delta never leaves the value below what the same field
      shows after a delta of 0: the plus button never lowers it. */
  lemma IncrementMonotone(fieldId: string, current: real, delta: real)
    requires fieldId == "target-num" || fieldId == "output-precision" || fieldId == "float-tolerance"
    requires delta >= 0.0
    ensures IncrementedValue(fieldId, Some(current), delta).n >= IncrementedValue(fieldId, Some(current), 0.0).n
  {
    assert (current + delta).Floor >= current.Floor;
  }

  // ----- the equation check -----

  /** The white space and line terminators `String.prototype.trim` removes. */
  predicate IsJsSpace(c: char)
  {
    var n := c as int;
    (0x09 <= n <= 0x0D) || n == 0x20 || n == 0xA0 || n == 0x1680 || (0x2000 <= n <= 0x200A)
    || n == 0x2028 || n == 0x2029 || n == 0x202F || n == 0x205F || n == 0x3000 || n == 0xFEFF
  }

  /** `s` without its leading white space: a suffix of `s`, everything cut is white space, and what
      is left does not start with white space. */
  function TrimStart(s: string): (r: string)
    ensures |r| <= |s|
    ensures forall i :: 0 <= i < |r| ==> r[i] == s[|s| - |r| + i]
    ensures forall i :: 0 <= i < |s| - |r| ==> IsJsSpace(s[i])
    ensures r != [] ==> !IsJsSpace(r[0])
    decreases |s|
  {
    if s != [] && IsJsSpace(s[0]) then
      var r := TrimStart(s[1..]);
      assert forall i :: 1 <= i < |s| ==> s[i] == s[1..][i - 1];
      r
    else s
  }

  /** `s` without its trailing white space: a prefix of `s`, everything cut is white space, and what
      is left does not end with white space. */
  function TrimEnd(s: string): (r: string)
    ensures |r| <= |s|
    ensures forall i :: 0 <= i < |r| ==> r[i] == s[i]
    ensures forall i :: |r| <= i < |s| ==> IsJsSpace(s[i])
    ensures r != [] ==> !IsJsSpace(r[|r| - 1])
    decreases |s|
  {
    if s != [] && IsJsSpace(s[|s| - 1]) then
      var r := TrimEnd(s[..|s| - 1]);
      assert forall i :: 0 <= i < |s| - 1 ==> s[i] == s[..|s| - 1][i];
      r
    else s
  }

  /** `s.trim()`. */
  function Trim(s: string): string
  {
    TrimEnd(TrimStart(s))
  }

  lemma {:induction false} TrimStartBlank(s: string)
    ensures TrimStart(s) == [] <==> forall i :: 0 <= i < |s| ==> IsJsSpace(s[i])
    decreases |s|
  {
    if s != [] {
      TrimStartBlank(s[1..]);
      if IsJsSpace(s[0]) {
        assert forall i :: 1 <= i < |s| ==> s[i] == s[1..][i - 1];
      }
    }
  }

  lemma {:induction false} TrimStartLeadsTrimEnd(s: string)
    requires s != [] && !IsJsSpace(s[0])
    ensures TrimEnd(s) != [] && TrimEnd(s)[0] == s[0]
    decreases |s|
  {
    if IsJsSpace(s[|s| - 1]) {
      TrimStartLeadsTrimEnd(s[..|s| - 1]);
    }
  }

  /** Every character of `s` is white space or a line terminator. */
  predicate Blank(s: string)
  {
    forall i :: 0 <= i < |s| ==> IsJsSpace(s[i])
  }

  /** An equation is rejected exactly when it is empty or all white space. */
  lemma TrimBlank(s: string)
    ensures Trim(s) == "" <==> Blank(s)
  {
    TrimStartBlank(s);
    var t := TrimStart(s);
    if t != [] {
      TrimStartLeadsTrimEnd(t);
    }
  }

  // ----- runCalculation -----

  /** The form fields `runCalculation` reads; numbers as `parseInt`/`parseFloat` return them. */
  datatype Form = Form(
    equation: string,
    mode: string,
    algorithm: string,
    runMode: string,
    targetNum: Option<int>,
    targetMass: Option<real>,
    intify: bool,
    outputPrecision: Option<int>,
    floatTolerance: Option<int>)

  /** The request object of this version: it has no `maxComb` field. */
  datatype LegacyParams = LegacyParams(
    equation: string,
    mode: string,
    algorithm: string,
    runMode: string,
    targetNum: int,
    targetMass: real,
    intify: bool,
    outputPrecision: int,
    floatTolerance: int)

  /** `parseInt(..) || d`: NaN and 0 give the default. */
  function IntOr(v: Option<int>, default: int): int
  {
    if v.None? || v.value == 0 then default else v.value
  }

  function RealOr(v: Option<real>, default: real): real
  {
    if v.None? || v.value == 0.0 then default else v.value
  }

  /** The request built from the form: NaN or 0 gives target number 0, target mass 1.0, precision 4
      and tolerance 8; the texts and the check box are copied. */
  function ParamsOf(form: Form): (p: LegacyParams)
    ensures p.equation == form.equation && p.mode == form.mode && p.algorithm == form.algorithm
    ensures p.runMode == form.runMode && p.intify == form.intify
    ensures p.targetNum == (if form.targetNum.Some? then form.targetNum.value else 0)
    ensures p.targetMass != 0.0 && p.outputPrecision != 0 && p.floatTolerance != 0
    ensures form.targetMass.Some? && form.targetMass.value != 0.0 ==> p.targetMass == form.targetMass.value
    ensures form.targetMass.None? || form.targetMass.value == 0.0 ==> p.targetMass == 1.0
    ensures form.outputPrecision.Some? && form.outputPrecision.value != 0 ==> p.outputPrecision == form.outputPrecision.value
    ensures form.outputPrecision.None? || form.outputPrecision.value == 0 ==> p.outputPrecision == 4
    ensures form.floatTolerance.Some? && form.floatTolerance.value != 0 ==> p.floatTolerance == form.floatTolerance.value
    ensures form.floatTolerance.None? || form.floatTolerance.value == 0 ==> p.floatTolerance == 8
  {
    LegacyParams(form.equation, form.mode, form.algorithm, form.runMode,
                 IntOr(form.targetNum, 0), RealOr(form.targetMass, 1.0), form.intify,
                 IntOr(form.outputPrecision, 4), IntOr(form.floatTolerance, 8))
  }

  /** What the backend decodes from this request: the missing `maxComb` takes Go's zero value. */
  function AsBackendParams(p: LegacyParams): (c: CalcParams)
    ensures c.maxComb == 0
    ensures c.equation == p.equation && c.mode == p.mode && c.targetNum == p.targetNum
    ensures c.targetMass == p.targetMass && c.outputPrecision == p.outputPrecision && c.floatTolerance == p.floatTolerance
    ensures c.algorithm == p.algorithm && c.runMode == p.runMode && c.intify == p.intify
  {
    CalcParams(p.equation, p.mode, p.algorithm, p.runMode, p.targetNum, p.targetMass, p.intify,
               p.outputPrecision, p.floatTolerance, 0)
  }

  const BlankEquationText := "Error: Please enter a chemical equation."
  const RunningText := "Running calculation..."
  const ErrorClass := "results-content error"
  const LoadingClass := "results-content loading"
  const SuccessClass := "results-content success"

  /** The text an outcome of `PerformCalculation` shows, and its class. */
  function OutcomeText(reply: RpcReply<CalcResult>): (t: string)
    ensures reply.Resolved? && reply.value.success ==> t == reply.value.details
    ensures reply.Resolved? && !reply.value.success ==> t == reply.value.message
    ensures reply.Rejected? && reply.message != "" ==> t == "Error: " + reply.message
    ensures reply.Rejected? && reply.message == "" ==> t == "Error: Calculation failed"
  {
    match reply
    case Resolved(r) => if r.success then r.details else r.message
    case Rejected(m) => "Error: " + (if m == "" then "Calculation failed" else m)
  }

  function OutcomeClass(reply: RpcReply<CalcResult>): (c: string)
    ensures c == SuccessClass <==> reply.Resolved? && reply.value.success
    ensures c != SuccessClass ==> c == ErrorClass
  {
    if reply.Resolved? && reply.value.success then SuccessClass else ErrorClass
  }

  /** The `results` element. */
  class ResultsArea {
    var textContent: string
    var className: string

    constructor ()
      ensures textContent == "Ready to calculate. Enter your chemical equation above and click Run."
      ensures className == "results-content"
    {
      textContent := "Ready to calculate. Enter your chemical equation above and click Run.";
      className := "results-content";
    }

    /** `runCalculation` up to the backend call: a blank equation is reported and nothing is sent;
        otherwise the area shows that the calculation runs and the request is returned. */
    method RunCalculation(form: Form) returns (request: Option<LegacyParams>)
      modifies this
      ensures request.None? <==> Blank(form.equation)
      ensures request.None? ==> textContent == BlankEquationText && className == ErrorClass
      ensures request.Some? ==> request.value == ParamsOf(form) && textContent == RunningText && className == LoadingClass
    {
      TrimBlank(form.equation);
      if Trim(form.equation) == "" {
        textContent := BlankEquationText;
        className := ErrorClass;
        return None;
      }
      textContent := RunningText;
      className := LoadingClass;
      request := Some(ParamsOf(form));
    }

    /** The `then`/`catch` callbacks: show the outcome. */
    method ShowOutcome(reply: RpcReply<CalcResult>)
      modifies this
      ensures textContent == OutcomeText(reply) && className == OutcomeClass(reply)
    {
      match reply
      case Resolved(r) =>
        if r.success {
          textContent := r.details;
          className := SuccessClass;
        } else {
          textContent := r.message;
          className := ErrorClass;
        }
      case Rejected(m) =>
        textContent := "Error: " + (if m == "" then "Calculation failed" else m);
        className := ErrorClass;
    }
  }

  /** A whitespace-only equation is never sent and shows the error class. */
  method BlankEquationNotSent(mode: string) returns (request: Option<LegacyParams>, className: string)
    ensures request.None? && className == ErrorClass
  {
    var area := new ResultsArea();
    var form := Form(" \t\n", mode, "auto", "balance", None, None, true, None, None);
    request := area.RunCalculation(form);
    className := area.className;
  }
}
