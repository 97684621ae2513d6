/**
 * The numeric entry with wheel stepping: the mouse wheel moves the integer in the entry's
 * text variable up or down by a step, clamped to optional bounds, and writes it back as
 * text. Writing the variable runs the entry's command unless the window is in silent mode.
 */
module ParamEntrySimpleNumeric {
  import opened Wrappers
  import opened Text

  /** The entry's text variable (`var`). */
  class StringVar {
    var value: string

    constructor (value: string)
      ensures this.value == value
    {
      this.value := value;
    }
  }

  /** `int(var.get())`, or 0 when that raises. */
  function CurrentValue(text: string): (v: int)
    ensures ParseInt(text).Some? ==> v == ParseInt(text).value
    ensures ParseInt(text).None? ==> v == 0
  {
    match ParseInt(text)
    case Some(i) => i
    case None => 0
  }

  /** The value after one wheel event: a step up for a positive delta, otherwise a step
      down, then raised to `minValue` and lowered to `maxValue` when they are given. */
  function WheelValue(text: string, delta: int, step: int, minValue: Option<int>, maxValue: Option<int>): (v: int)
  {
    var moved := if delta > 0 then CurrentValue(text) + step else CurrentValue(text) - step;
    var low := if minValue.Some? && minValue.value > moved then minValue.value else moved;
    if maxValue.Some? && maxValue.value < low then maxValue.value else low
  }

  /** The bounds hold after every wheel event (the upper one wins when they cross), and an
      unbounded result is the value stepped once. */
  lemma WheelValueBounds(text: string, delta: int, step: int, minValue: Option<int>, maxValue: Option<int>)
    ensures var v := WheelValue(text, delta, step, minValue, maxValue);
            var moved := CurrentValue(text) + (if delta > 0 then step else -step);
            && (maxValue.Some? ==> v <= maxValue.value)
            && (minValue.Some? && (maxValue.None? || minValue.value <= maxValue.value) ==> v >= minValue.value)
            && (minValue.Some? && maxValue.Some? && maxValue.value < minValue.value ==> v == maxValue.value)
            && ((minValue.None? || minValue.value <= moved) && (maxValue.None? || moved <= maxValue.value) ==> v == moved)
  {
  }

  /** Inside the bounds, a step down undoes a step up. */
  lemma WheelUpThenDown(text: string, step: int, minValue: Option<int>, maxValue: Option<int>)
    requires ParseInt(text).Some?
    requires var v := ParseInt(text).value;
             (minValue.None? || minValue.value <= v) && (maxValue.None? || v + step <= maxValue.value)
    requires step >= 0
    ensures var up := WheelValue(text, 1, step, minValue, maxValue);
            WheelValue(IntToDecimal(up), -1, step, minValue, maxValue) == ParseInt(text).value
  {
    var up := WheelValue(text, 1, step, minValue, maxValue);
    ParseIntRoundTrip(up);
  }

  /** A text that is no integer counts as 0. */
  lemma UnparsableCountsAsZero(text: string, delta: int, step: int)
    requires ParseInt(text).None?
    ensures WheelValue(text, delta, step, None, None) == (if delta > 0 then step else -step)
  {
    var current := CurrentValue(text);
    assert current == 0;
  }

  /** `on_mouse_wheel`: writes the new value back as its decimal text (which reads back as
      that value); `ran` says whether the write ran the entry's command. */
  method OnMouseWheel(v: StringVar, delta: int, step: int, minValue: Option<int>, maxValue: Option<int>,
                      hasCommand: bool, silentMode: bool) returns (ran: bool)
    modifies v
    ensures v.value == IntToDecimal(WheelValue(old(v.value), delta, step, minValue, maxValue))
    ensures ParseInt(v.value) == Some(WheelValue(old(v.value), delta, step, minValue, maxValue))
    ensures ran <==> hasCommand && !silentMode
  {
    var newVal := WheelValue(v.value, delta, step, minValue, maxValue);
    v.value := IntToDecimal(newVal);
    ParseIntRoundTrip(newVal);
    ran := hasCommand && !silentMode;
  }

  /** `<Button-4>`: the wheel event of delta +1. */
  method OnButton4(v: StringVar, step: int, minValue: Option<int>, maxValue: Option<int>,
                   hasCommand: bool, silentMode: bool) returns (ran: bool)
    modifies v
    ensures v.value == IntToDecimal(WheelValue(old(v.value), 1, step, minValue, maxValue))
    ensures ran <==> hasCommand && !silentMode
  {
    ran := OnMouseWheel(v, 1, step, minValue, maxValue, hasCommand, silentMode);
  }

  /** `<Button-5>`: the wheel event of delta -1. */
  method OnButton5(v: StringVar, step: int, minValue: Option<int>, maxValue: Option<int>,
                   hasCommand: bool, silentMode: bool) returns (ran: bool)
    modifies v
    ensures v.value == IntToDecimal(WheelValue(old(v.value), -1, step, minValue, maxValue))
    ensures ran <==> hasCommand && !silentMode
  {
    ran := OnMouseWheel(v, -1, step, minValue, maxValue, hasCommand, silentMode);
  }
}

/**
 * The labelled entry with a digit-only key validator.
 */
module ParamEntryHor {
  import opened Wrappers
  import opened Text

  /** `_validate_numeric`: the empty text, or a non-empty text of decimal digits. */
  function ValidateNumeric(value: string): (ok: bool)
    ensures value == [] ==> ok
    ensures value != [] ==> (ok <==> forall i :: 0 <= i < |value| ==> IsDigit(value[i]))
  {
    value == [] || AllDigits(value)
  }

  /** A sign or a decimal point makes the text invalid. */
  lemma SignOrPointRejected(value: string, i: nat)
    requires i < |value| && value[i] in {'-', '+', '.'}
    ensures !ValidateNumeric(value)
  {
  }

  /** A valid non-empty text reads as the natural number its digits spell. */
  lemma ValidTextParses(value: string)
    requires ValidateNumeric(value) && value != []
    ensures ParseInt(value) == Some(DigitsValue(value))
  {
    assert IsDigit(value[0]) && IsDigit(value[|value| - 1]);
    StripNoSpace(value);
  }

  /** Whether the entry accepts an edit that would leave `proposed` in it: the validator is
      installed only when a master widget is given. */
  function AcceptsEdit(hasMasterWidget: bool, proposed: string): (ok: bool)
    ensures !hasMasterWidget ==> ok
    ensures hasMasterWidget ==> (ok <==> ValidateNumeric(proposed))
  {
    !hasMasterWidget || ValidateNumeric(proposed)
  }
}
