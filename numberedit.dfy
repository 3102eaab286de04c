/** The Fyne NumberEdit widget (numberedit.go): an integer entry with up/down buttons whose value is
    clamped into [min, max]. */
module NumberEditWidget {
  import opened Wrappers
  import opened GoInt

  /** The clamp of `setValue`: first raise to min, then lower to max. With min > max the second step
      wins, so the result is max. */
  function Clamp(v: Int64, lo: Int64, hi: Int64): (r: Int64)
    ensures lo <= hi ==> lo <= r <= hi
    ensures lo <= v <= hi ==> r == v
    ensures v < lo && lo <= hi ==> r == lo
    ensures hi < v ==> r == hi
    ensures hi < lo ==> r == hi
  {
    var raised := if v < lo then lo else v;
    if raised > hi then hi else raised
  }

  /** The value `increment` (step) or `decrement` (-step) hands to setValue: the 64-bit sum, which
      wraps around on overflow, clamped. */
  function SteppedValue(v: Int64, step: int, lo: Int64, hi: Int64): Int64
  {
    Clamp(Wrap(v + step), lo, hi)
  }

  /** As written, pressing "up" on a widget whose value is math.MaxInt and whose range ends at
      math.MaxInt (the Precision and Tolerance widgets of ui.go) wraps to math.MinInt and is clamped
      to the minimum 0. */
  lemma IncrementAtMaxJumpsToMin()
    ensures SteppedValue(MaxInt, 1, 0, MaxInt) == 0
  {
    assert Wrap(MaxInt + 1) == MinInt;
  }

  /** The exact sum held to the 64-bit range. */
  function Saturate(x: int): (r: Int64)
    ensures MinInt <= x <= MaxInt ==> r == x
    ensures x < MinInt ==> r == MinInt
    ensures x > MaxInt ==> r == MaxInt
  {
    if x < MinInt then MinInt else if x > MaxInt then MaxInt else x
  }

  /** The evidently intended step: the exact sum, held to 64 bits and clamped, so a step never
      leaves the range and never moves the value against the direction of the step. */
  function SaturatedStep(v: Int64, step: int, lo: Int64, hi: Int64): (r: Int64)
    ensures lo <= hi ==> lo <= r <= hi
    ensures lo <= v <= hi && step >= 0 ==> v <= r
    ensures lo <= v <= hi && step <= 0 ==> r <= v
    ensures lo <= v + step <= hi ==> r == v + step
  {
    Clamp(Saturate(v + step), lo, hi)
  }

  /** With the corrected step, pressing "up" at math.MaxInt stays at math.MaxInt. */
  lemma SaturatedIncrementAtMax()
    ensures SaturatedStep(MaxInt, 1, 0, MaxInt) == MaxInt
  {
  }

  /** The two agree whenever the sum does not overflow. */
  lemma SteppedAgreesWithoutOverflow(v: Int64, step: int, lo: Int64, hi: Int64)
    requires lo <= hi && MinInt <= v + step <= MaxInt
    ensures SteppedValue(v, step, lo, hi) == SaturatedStep(v, step, lo, hi)
  {
  }

  class NumberEdit {
    var value: Int64
    var min: Int64
    var max: Int64
    var step: Int64
    var disabled: bool
    /** The text `setValue` last wrote into the entry. What the user types is not recorded: an
        unparsable entry ("abc") leaves it as it was, and so does text naming the current value
        ("0050" while the value is 50). */
    var text: string
    /** The values handed to the onChange callback, oldest first. */
    var notified: seq<Int64>
    /** Whether an onChange callback was given (it may be nil). */
    const hasCallback: bool

    /** `NewNumberEdit`: the initial value is stored as given, without clamping. */
    constructor (value: Int64, min: Int64, max: Int64, step: Int64, hasCallback: bool)
      ensures this.value == value && this.min == min && this.max == max && this.step == step
      ensures this.hasCallback == hasCallback
      ensures !disabled && text == Itoa(value) && notified == []
    {
      this.value := value;
      this.min := min;
      this.max := max;
      this.step := step;
      this.hasCallback := hasCallback;
      disabled := false;
      text := Itoa(value);
      notified := [];
    }

    /** The range invariant, which the widget keeps once it holds. */
    predicate InRange()
      reads this
    {
      min <= value <= max
    }

    /** `setValue`: clamp, and only if the clamped value differs store it, rewrite the text and, when
        enabled, call onChange. (`SetText` re-enters through the entry's OnChanged with the same
        value, which is then a no-op.) */
    method SetClamped(v: Int64)
      modifies this
      ensures value == Clamp(v, min, max)
      ensures min == old(min) && max == old(max) && step == old(step) && disabled == old(disabled)
      ensures value != old(value) ==> text == Itoa(value)
      ensures value == old(value) ==> text == old(text)
      ensures notified == old(notified) + (if value != old(value) && hasCallback && !disabled then [value] else [])
      ensures old(min) <= old(max) ==> InRange()
    {
      var c := Clamp(v, min, max);
      if value != c {
        value := c;
        text := Itoa(c);
        if hasCallback && !disabled {
          notified := notified + [c];
        }
      }
    }

    /** `increment`: nothing while disabled. The sum is the corrected one, held to 64 bits. */
    method Increment()
      modifies this
      ensures old(disabled) ==> unchanged(this)
      ensures !old(disabled) ==> value == SaturatedStep(old(value), old(step), min, max)
      ensures min == old(min) && max == old(max) && step == old(step) && disabled == old(disabled)
      ensures value != old(value) ==> text == Itoa(value) && notified == old(notified) + (if hasCallback then [value] else [])
      ensures value == old(value) ==> text == old(text) && notified == old(notified)
      ensures old(InRange()) ==> InRange()
    {
      if !disabled {
        SetClamped(Saturate(value + step));
      }
    }

    /** `decrement`: nothing while disabled. The difference is the corrected one, held to 64 bits. */
    method Decrement()
      modifies this
      ensures old(disabled) ==> unchanged(this)
      ensures !old(disabled) ==> value == SaturatedStep(old(value), -(old(step) as int), min, max)
      ensures min == old(min) && max == old(max) && step == old(step) && disabled == old(disabled)
      ensures value != old(value) ==> text == Itoa(value) && notified == old(notified) + (if hasCallback then [value] else [])
      ensures value == old(value) ==> text == old(text) && notified == old(notified)
      ensures old(InRange()) ==> InRange()
    {
      if !disabled {
        SetClamped(Saturate(value - step));
      }
    }

    /** The up button's handler checks the flag again before calling increment. */
    method PressUp()
      modifies this
      ensures old(disabled) ==> unchanged(this)
      ensures !old(disabled) ==> value == SaturatedStep(old(value), old(step), min, max)
      ensures min == old(min) && max == old(max) && step == old(step) && disabled == old(disabled)
      ensures value != old(value) ==> text == Itoa(value) && notified == old(notified) + (if hasCallback then [value] else [])
      ensures value == old(value) ==> text == old(text) && notified == old(notified)
      ensures old(InRange()) ==> InRange()
    {
      if !disabled {
        Increment();
      }
    }

    /** The down button's handler. */
    method PressDown()
      modifies this
      ensures old(disabled) ==> unchanged(this)
      ensures !old(disabled) ==> value == SaturatedStep(old(value), -(old(step) as int), min, max)
      ensures min == old(min) && max == old(max) && step == old(step) && disabled == old(disabled)
      ensures value != old(value) ==> text == Itoa(value) && notified == old(notified) + (if hasCallback then [value] else [])
      ensures value == old(value) ==> text == old(text) && notified == old(notified)
      ensures old(InRange()) ==> InRange()
    {
      if !disabled {
        Decrement();
      }
    }

    /** The entry's OnChanged handler: ignored while disabled or when the text is not an integer. */
    method EntryChanged(newText: string)
      modifies this
      ensures old(disabled) || Atoi(newText).None? ==> unchanged(this)
      ensures !old(disabled) && Atoi(newText).Some? ==> value == Clamp(Atoi(newText).value, min, max)
      ensures min == old(min) && max == old(max) && step == old(step) && disabled == old(disabled)
      ensures value != old(value) ==> text == Itoa(value) && notified == old(notified) + (if hasCallback then [value] else [])
      ensures value == old(value) ==> text == old(text) && notified == old(notified)
      ensures old(InRange()) ==> InRange()
    {
      if disabled {
        return;
      }
      var parsed := Atoi(newText);
      if parsed.Some? {
        SetClamped(parsed.value);
      }
    }

    /** `GetValue`. */
    method GetValue() returns (v: Int64)
      ensures v == value
    {
      v := value;
    }

    /** Public `SetValue`: changes the value even while disabled; only the callback is suppressed. */
    method SetValue(v: Int64)
      modifies this
      ensures value == Clamp(v, min, max)
      ensures min == old(min) && max == old(max) && step == old(step) && disabled == old(disabled)
      ensures value != old(value) ==> text == Itoa(value)
      ensures value == old(value) ==> text == old(text)
      ensures notified == old(notified) + (if value != old(value) && hasCallback && !disabled then [value] else [])
    {
      SetClamped(v);
    }

    method Enable()
      modifies this
      ensures !disabled
      ensures value == old(value) && min == old(min) && max == old(max) && step == old(step)
      ensures text == old(text) && notified == old(notified)
    {
      disabled := false;
    }

    method Disable()
      modifies this
      ensures disabled
      ensures value == old(value) && min == old(min) && max == old(max) && step == old(step)
      ensures text == old(text) && notified == old(notified)
    {
      disabled := true;
    }

    /** `Disabled` reports the flag that Enable and Disable set. */
    method Disabled() returns (d: bool)
      ensures d == disabled
    {
      d := disabled;
    }
  }

  /** Typing the text the widget itself shows changes nothing: the text reads back as the current
      value, and setting the current value again is a no-op. */
  method RetypeShownValue(n: NumberEdit)
    requires n.InRange()
    modifies n
    ensures n.value == old(n.value) && n.text == old(n.text) && n.notified == old(n.notified)
  {
    var shown := Itoa(n.value);
    AtoiItoa(n.value);
    n.EntryChanged(shown);
  }

  /** A widget built with an out-of-range value keeps it until something calls setValue: the range
      invariant holds only if the initial value is in range. */
  method UnclampedConstruction() returns (v: Int64)
    ensures v == 5000
  {
    var n := new NumberEdit(5000, -1000, 1000, 1, true);
    v := n.GetValue();
  }
}
