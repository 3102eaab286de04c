/** The mode rules of the Fyne generation (ui.go): the global `appState`, the enabled state of the
    option widgets, and the dispatch of the Run button. The widgets are reduced to what these rules
    touch: whether each option control is enabled, the placeholder of the text entry, and the values
    the controls show, which `UpdateAppState` reads. */
module FyneUi {
  import opened Wrappers

  /** The option widgets `updateWidgetStates` enables and disables. */
  datatype Control = Algorithm | RunMode | Target | TargetMass | Intify | Precision | Tolerance

  /** Whether each option control is enabled. */
  datatype Enabled = Enabled(
    algorithm: bool,
    runMode: bool,
    target: bool,
    targetMass: bool,
    intify: bool,
    precision: bool,
    tolerance: bool)
  {
    function Get(c: Control): bool
    {
      match c
      case Algorithm => algorithm
      case RunMode => runMode
      case Target => target
      case TargetMass => targetMass
      case Intify => intify
      case Precision => precision
      case Tolerance => tolerance
    }

    /** `Enable()` or `Disable()` on one control. */
    function Set(c: Control, b: bool): (r: Enabled)
      ensures r.Get(c) == b
      ensures forall d :: d != c ==> r.Get(d) == Get(d)
    {
      match c
      case Algorithm => this.(algorithm := b)
      case RunMode => this.(runMode := b)
      case Target => this.(target := b)
      case TargetMass => this.(targetMass := b)
      case Intify => this.(intify := b)
      case Precision => this.(precision := b)
      case Tolerance => this.(tolerance := b)
    }
  }

  /** Two records that agree on every control are equal. */
  lemma EnabledExtensional(a: Enabled, b: Enabled)
    requires forall c :: a.Get(c) == b.Get(c)
    ensures a == b
  {
    assert a.Get(Algorithm) == b.Get(Algorithm) && a.Get(RunMode) == b.Get(RunMode);
    assert a.Get(Target) == b.Get(Target) && a.Get(TargetMass) == b.Get(TargetMass);
    assert a.Get(Intify) == b.Get(Intify) && a.Get(Precision) == b.Get(Precision);
    assert a.Get(Tolerance) == b.Get(Tolerance);
  }

  const AllEnabled := Enabled(true, true, true, true, true, true, true)

  /** `AppState` of the Fyne generation; the target mass is a float64 in the source. */
  datatype UiState = UiState(
    mode: string,
    algorithm: string,
    runMode: string,
    target: int,
    targetMass: real,
    intify: bool,
    precision: int,
    tolerance: int,
    inputText: string)

  /** What `initState` stores. */
  const InitialState := UiState("Masses", "Auto", "Balance", 0, 1.0, true, 4, 8, "")

  /** `setWidgetStates(enable, controls...)`: the same action on every control given, and no other
      control touched. */
  function SetAll(en: Enabled, enable: bool, controls: seq<Control>): (r: Enabled)
    ensures forall c :: c in controls ==> r.Get(c) == enable
    ensures forall c :: c !in controls ==> r.Get(c) == en.Get(c)
    decreases |controls|
  {
    if controls == [] then en else SetAll(en.Set(controls[0], enable), enable, controls[1..])
  }

  /** The two `setWidgetStates` calls of `updateWidgetStates` for a selection. Formula enables only
      Precision; Balance enables only Algorithm among the rest; Masses enables all of the rest but
      Algorithm; the last two leave Precision as it was, and an unknown selection changes nothing. */
  function Selected(en: Enabled, selection: string): (r: Enabled)
    ensures selection == "Formula" ==> forall c :: r.Get(c) == (c == Precision)
    ensures selection == "Balance" ==> forall c :: r.Get(c) == (if c == Precision then en.Get(c) else c == Algorithm)
    ensures selection == "Masses" ==> forall c :: r.Get(c) == (if c == Precision then en.Get(c) else c != Algorithm)
    ensures selection != "Formula" && selection != "Balance" && selection != "Masses" ==> r == en
    ensures en.Get(Precision) ==> r.Get(Precision)
  {
    if selection == "Formula" then
      SetAll(SetAll(en, true, [Precision]), false, [Algorithm, RunMode, Target, TargetMass, Intify, Tolerance])
    else if selection == "Balance" then
      SetAll(SetAll(en, true, [Algorithm]), false, [RunMode, Target, TargetMass, Intify, Tolerance])
    else if selection == "Masses" then
      SetAll(SetAll(en, true, [RunMode, Target, TargetMass, Intify, Tolerance]), false, [Algorithm])
    else en
  }

  /** The placeholder of the text entry after a selection; an unknown one leaves it as it was. */
  function Placeholder(selection: string, current: string): (p: string)
    ensures selection == "Formula" ==> p == "Enter chemical formula: H2SO4"
    ensures selection == "Balance" ==> p == "Enter equation to balance: H2+O2=H2O"
    ensures selection == "Masses" ==> p == "Enter equation with masses: H2+O2=H2O"
    ensures selection != "Formula" && selection != "Balance" && selection != "Masses" ==> p == current
  {
    match selection
    case "Formula" => "Enter chemical formula: H2SO4"
    case "Balance" => "Enter equation to balance: H2+O2=H2O"
    case "Masses" => "Enter equation with masses: H2+O2=H2O"
    case _ => current
  }

  /** Selecting the same mode twice is selecting it once. */
  lemma SelectedTwice(en: Enabled, selection: string)
    ensures Selected(Selected(en, selection), selection) == Selected(en, selection)
  {
    EnabledExtensional(Selected(Selected(en, selection), selection), Selected(en, selection));
  }

  /** The enabled states after a sequence of mode selections. */
  function AfterSelections(en: Enabled, selections: seq<string>): Enabled
    decreases |selections|
  {
    if selections == [] then en else AfterSelections(Selected(en, selections[0]), selections[1..])
  }

  /** No sequence of selections disables Precision: it stays enabled once it is. */
  lemma {:induction false} PrecisionStaysEnabled(en: Enabled, selections: seq<string>)
    requires en.Get(Precision)
    ensures AfterSelections(en, selections).Get(Precision)
    decreases |selections|
  {
    if selections != [] {
      PrecisionStaysEnabled(Selected(en, selections[0]), selections[1..]);
    }
  }

  /** Applying one more selection at the end. */
  lemma {:induction false} AfterSelectionsLast(en: Enabled, earlier: seq<string>, last: string)
    ensures AfterSelections(en, earlier + [last]) == Selected(AfterSelections(en, earlier), last)
    decreases |earlier|
  {
    if earlier == [] {
      assert earlier + [last] == [last];
    } else {
      assert (earlier + [last])[1..] == earlier[1..] + [last];
      AfterSelectionsLast(Selected(en, earlier[0]), earlier[1..], last);
    }
  }

  /** After a recognised selection, every control but Precision shows the same state whatever
      happened before; after "Formula" all of them do. */
  lemma LastModeDecides(en1: Enabled, en2: Enabled, earlier1: seq<string>, earlier2: seq<string>, last: string)
    requires last == "Formula" || last == "Balance" || last == "Masses"
    ensures forall c :: c != Precision ==>
      AfterSelections(en1, earlier1 + [last]).Get(c) == AfterSelections(en2, earlier2 + [last]).Get(c)
    ensures last == "Formula" ==> AfterSelections(en1, earlier1 + [last]) == AfterSelections(en2, earlier2 + [last])
  {
    AfterSelectionsLast(en1, earlier1, last);
    AfterSelectionsLast(en2, earlier2, last);
    if last == "Formula" {
      EnabledExtensional(AfterSelections(en1, earlier1 + [last]), AfterSelections(en2, earlier2 + [last]));
    }
  }

  /** One more control handled by the loop of `setWidgetStates`. */
  lemma SetAllStep(en: Enabled, enable: bool, controls: seq<Control>, i: nat)
    requires i < |controls|
    ensures SetAll(en, enable, controls[..i + 1]) == SetAll(en, enable, controls[..i]).Set(controls[i], enable)
  {
    var a := SetAll(en, enable, controls[..i + 1]);
    var b := SetAll(en, enable, controls[..i]).Set(controls[i], enable);
    assert controls[..i + 1] == controls[..i] + [controls[i]];
    forall c
      ensures a.Get(c) == b.Get(c)
    {
      if c != controls[i] {
        assert c in controls[..i + 1] <==> c in controls[..i];
      }
    }
    EnabledExtensional(a, b);
  }

  /** What the Run button starts. The three calc functions call a library that is not part of this
      model. */
  datatype RunAction = FormulaCalc | BalanceCalc | MassesCalc | PrintErr

  /** `handleRunAction`'s switch on the mode: exactly the three mode names dispatch, anything else
      prints "err". */
  function RunDispatch(mode: string): (a: RunAction)
    ensures a == FormulaCalc <==> mode == "Formula"
    ensures a == BalanceCalc <==> mode == "Balance"
    ensures a == MassesCalc <==> mode == "Masses"
  {
    match mode
    case "Formula" => FormulaCalc
    case "Balance" => BalanceCalc
    case "Masses" => MassesCalc
    case _ => PrintErr
  }

  /** The globals `appState` and `widgets`: `hasWidgets` is `widgets != nil`. */
  class Ui {
    var appState: UiState
    var hasWidgets: bool
    var enabled: Enabled
    var placeholder: string

    /** `initState` before `createUI`: no widgets yet. */
    constructor NoWidgets()
      ensures appState == InitialState && !hasWidgets && enabled == AllEnabled && placeholder == ""
    {
      appState := InitialState;
      hasWidgets := false;
      enabled := AllEnabled;
      placeholder := "";
    }

    /** `createUI`: initial state, every widget created enabled, then the mode group selects the
        initial mode, which runs `updateWidgetStates`, and `createUI` runs it once more. */
    constructor ()
      ensures appState == InitialState && hasWidgets
      ensures enabled == Selected(AllEnabled, "Masses")
      ensures forall c :: enabled.Get(c) <==> c != Algorithm
      ensures placeholder == "Enter equation with masses: H2+O2=H2O"
    {
      appState := InitialState;
      hasWidgets := true;
      enabled := AllEnabled;
      placeholder := "";
      new;
      var mode := appState.mode;
      assert mode == "Masses";
      UpdateWidgetStates(mode);
      assert appState == InitialState && enabled == Selected(AllEnabled, mode);
      UpdateWidgetStates(mode);
      SelectedTwice(AllEnabled, mode);
      assert enabled == Selected(AllEnabled, mode);
    }

    /** `setWidgetStates`: the same action on every control given. */
    method SetWidgetStates(enable: bool, controls: seq<Control>)
      modifies this
      ensures enabled == SetAll(old(enabled), enable, controls)
      ensures appState == old(appState) && hasWidgets == old(hasWidgets) && placeholder == old(placeholder)
    {
      var i := 0;
      while i < |controls|
        invariant 0 <= i <= |controls|
        invariant enabled == SetAll(old(enabled), enable, controls[..i])
        invariant appState == old(appState) && hasWidgets == old(hasWidgets) && placeholder == old(placeholder)
      {
        SetAllStep(old(enabled), enable, controls, i);
        enabled := enabled.Set(controls[i], enable);
        i := i + 1;
      }
      assert controls[..i] == controls;
    }

    /** `updateWidgetStates`: with widgets, the mode is stored whatever the selection, the controls
        follow the mode table, and the placeholder follows the mode; without widgets nothing
        changes. */
    method UpdateWidgetStates(selection: string)
      modifies this
      ensures !old(hasWidgets) ==> appState == old(appState) && enabled == old(enabled) && placeholder == old(placeholder)
      ensures old(hasWidgets) ==>
        && appState == old(appState).(mode := selection)
        && enabled == Selected(old(enabled), selection)
        && placeholder == Placeholder(selection, old(placeholder))
      ensures hasWidgets == old(hasWidgets)
    {
      if !hasWidgets {
        return;
      }
      appState := appState.(mode := selection);
      if selection == "Formula" {
        SetWidgetStates(true, [Precision]);
        SetWidgetStates(false, [Algorithm, RunMode, Target, TargetMass, Intify, Tolerance]);
      } else if selection == "Balance" {
        SetWidgetStates(true, [Algorithm]);
        SetWidgetStates(false, [RunMode, Target, TargetMass, Intify, Tolerance]);
      } else if selection == "Masses" {
        SetWidgetStates(true, [RunMode, Target, TargetMass, Intify, Tolerance]);
        SetWidgetStates(false, [Algorithm]);
      }
      placeholder := Placeholder(selection, placeholder);
    }

    /** `UpdateAppState`: copy what the controls show into `appState`, when there are widgets. */
    method UpdateAppState(shown: UiState)
      modifies this
      ensures appState == (if old(hasWidgets) then shown else old(appState))
      ensures hasWidgets == old(hasWidgets) && enabled == old(enabled) && placeholder == old(placeholder)
    {
      if hasWidgets {
        appState := shown;
      }
    }

    /** `handleRunAction`: refresh the state, once directly and once through `PrintAppState`, then
        dispatch on the mode. */
    method HandleRunAction(shown: UiState) returns (action: RunAction)
      modifies this
      ensures appState == (if old(hasWidgets) then shown else old(appState))
      ensures action == RunDispatch(appState.mode)
      ensures hasWidgets == old(hasWidgets) && enabled == old(enabled) && placeholder == old(placeholder)
    {
      UpdateAppState(shown);
      UpdateAppState(shown);
      action := RunDispatch(appState.mode);
    }
  }

  /** An unknown selection changes no widget, yet the stored mode becomes that selection, so the next
      Run prints "err". */
  method UnknownSelection() returns (enabledBefore: Enabled, enabledAfter: Enabled, stored: string, action: RunAction)
    ensures enabledAfter == enabledBefore && stored == "Chemistry" && action == PrintErr
  {
    var ui := new Ui();
    enabledBefore := ui.enabled;
    ui.UpdateWidgetStates("Chemistry");
    enabledAfter, stored := ui.enabled, ui.appState.mode;
    action := RunDispatch(stored);
  }
}
