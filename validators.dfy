/** The Boolean and Integer configuration validators of brick/validators.py.
    Each is a pure function of the validator's fields (name and bounds) and the
    value; a ValidationError is `Err` with its message. */
module Validators {
  import opened Wrappers
  import opened Values

  // ------------------------------------------------------------ BooleanValidator

  function TrueOrFalseMessage(name: string): string {
    "Ensure " + name + " is true or false."
  }

  /** `BooleanValidator(name)(value)`: a bool passes through; anything else is
      turned into text, lower-cased, and must be `true`/`yes` or `false`/`no`. */
  function ValidateBoolean(name: string, value: Value): (r: Result<Value, string>)
    ensures value.BoolV? ==> r == Ok(value)
    ensures !value.BoolV? ==>
              (r == Ok(BoolV(true)) <==> Lower(Str(value)) in ["true", "yes"])
              && (r == Ok(BoolV(false)) <==> Lower(Str(value)) in ["false", "no"])
              && (r.Err? <==> Lower(Str(value)) !in ["true", "yes", "false", "no"])
    ensures r.Err? ==> r.error == TrueOrFalseMessage(name)
  {
    if !value.BoolV? then
      var text := Lower(Str(value));
      if text in ["true", "yes"] then Ok(BoolV(true))
      else if text in ["false", "no"] then Ok(BoolV(false))
      else Err(TrueOrFalseMessage(name))
    else Ok(value)
  }

  /** The text of a bool validates back to that bool. */
  lemma BooleanOfItsText(name: string, b: bool)
    ensures ValidateBoolean(name, StrV(Str(BoolV(b)))) == Ok(BoolV(b))
  {
    var text := Lower(Str(BoolV(b)));
    if b {
      assert text == "true";
    } else {
      assert text == "false";
    }
  }

  /** The accepted spellings, in any letter case. */
  lemma BooleanSpellings(name: string)
    ensures ValidateBoolean(name, StrV("Yes")) == Ok(BoolV(true))
    ensures ValidateBoolean(name, StrV("True")) == Ok(BoolV(true))
    ensures ValidateBoolean(name, StrV("No")) == Ok(BoolV(false))
    ensures ValidateBoolean(name, StrV("FALSE")) == Ok(BoolV(false))
  {
    assert Lower("Yes") == "yes";
    assert Lower("True") == "true";
    assert Lower("No") == "no";
    assert Lower("FALSE") == "false";
  }

  /** An integer, None, and other words are rejected. */
  lemma BooleanRejections(name: string)
    ensures ValidateBoolean(name, IntV(1)) == Err(TrueOrFalseMessage(name))
    ensures ValidateBoolean(name, NoneV) == Err(TrueOrFalseMessage(name))
    ensures ValidateBoolean(name, StrV("Maybe")) == Err(TrueOrFalseMessage(name))
  {
    assert Str(IntV(1)) == "1";
    assert Lower("1") == "1";
    assert Lower("None") == "none";
    assert Lower("Maybe") == "maybe";
  }

  // ------------------------------------------------------------ IntegerValidator

  /** Why an integer is refused: a ValidationError with its message, or the
      TypeError `int()` raises for None or a list, which is not caught. */
  datatype Refusal = ValidationError(message: string) | UncaughtTypeError

  /** The number an int or bool stands for. */
  function Number(v: Value): int
    requires v.IntV? || v.BoolV?
  {
    if v.IntV? then v.i else if v.b then 1 else 0
  }

  function IntegerMessage(name: string): string {
    "Ensure " + name + " is an integer number."
  }

  function MinMessage(name: string, bound: int): string {
    "Ensure " + name + " is greater than or equal to " + IntToDecimal(bound)
  }

  function MaxMessage(name: string, bound: int): string {
    "Ensure " + name + " is less than or equal to " + IntToDecimal(bound)
  }

  /** `check_min_value`: the error, if any. */
  function CheckMin(name: string, minValue: Option<int>, n: int): (e: Option<string>)
    ensures e.Some? <==> minValue.Some? && n < minValue.value
    ensures e.Some? ==> e.value == MinMessage(name, minValue.value)
  {
    if minValue.Some? && n < minValue.value then Some(MinMessage(name, minValue.value)) else None
  }

  /** `check_max_value`: the error, if any. */
  function CheckMax(name: string, maxValue: Option<int>, n: int): (e: Option<string>)
    ensures e.Some? <==> maxValue.Some? && n > maxValue.value
    ensures e.Some? ==> e.value == MaxMessage(name, maxValue.value)
  {
    if maxValue.Some? && n > maxValue.value then Some(MaxMessage(name, maxValue.value)) else None
  }

  /** Within both bounds, inclusive; a missing bound does not constrain. */
  predicate InBounds(minValue: Option<int>, maxValue: Option<int>, n: int) {
    (minValue.None? || minValue.value <= n) && (maxValue.None? || n <= maxValue.value)
  }

  /** `IntegerValidator(name, min_value, max_value)(value)`: ints and bools
      pass through unchanged, anything else goes through `int()`; then the
      inclusive bounds are checked, the lower one first. */
  function ValidateInteger(name: string, minValue: Option<int>, maxValue: Option<int>, value: Value): (r: Result<Value, Refusal>)
    // an int or a bool is kept as it is, and accepted exactly within the bounds
    ensures value.IntV? || value.BoolV? ==>
              (r.Ok? <==> InBounds(minValue, maxValue, Number(value))) && (r.Ok? ==> r.value == value)
    // anything else goes through int(): a ValueError becomes the integer message,
    // a TypeError escapes, and a parsed number is accepted exactly within the bounds
    ensures !(value.IntV? || value.BoolV?) && PyInt(value) == Err(ValueError) ==>
              r == Err(ValidationError(IntegerMessage(name)))
    ensures !(value.IntV? || value.BoolV?) && PyInt(value) == Err(TypeError) ==> r == Err(UncaughtTypeError)
    ensures !(value.IntV? || value.BoolV?) && PyInt(value).Ok? ==>
              (r.Ok? <==> InBounds(minValue, maxValue, PyInt(value).value))
              && (r.Ok? ==> r.value == IntV(PyInt(value).value))
  {
    if value.IntV? || value.BoolV? then BoundsChecked(name, minValue, maxValue, value)
    else match PyInt(value)
      case Err(ValueError) => Err(ValidationError(IntegerMessage(name)))
      case Err(TypeError) => Err(UncaughtTypeError)
      case Ok(n) => BoundsChecked(name, minValue, maxValue, IntV(n))
  }

  /** The bound checks applied to an accepted number. */
  function BoundsChecked(name: string, minValue: Option<int>, maxValue: Option<int>, v: Value): (r: Result<Value, Refusal>)
    requires v.IntV? || v.BoolV?
    ensures r.Ok? <==> InBounds(minValue, maxValue, Number(v))
    ensures r.Ok? ==> r.value == v
    // the lower bound is checked first, so a value below it gets the minimum message
    ensures minValue.Some? && Number(v) < minValue.value ==> r == Err(ValidationError(MinMessage(name, minValue.value)))
    ensures (minValue.None? || minValue.value <= Number(v)) && maxValue.Some? && Number(v) > maxValue.value
            ==> r == Err(ValidationError(MaxMessage(name, maxValue.value)))
  {
    match CheckMin(name, minValue, Number(v))
    case Some(message) => Err(ValidationError(message))
    case None =>
      match CheckMax(name, maxValue, Number(v))
      case Some(message) => Err(ValidationError(message))
      case None => Ok(v)
  }

  /** An accepted value is a number within both bounds, inclusive. */
  lemma AcceptedWithinBounds(name: string, minValue: Option<int>, maxValue: Option<int>, value: Value)
    requires ValidateInteger(name, minValue, maxValue, value).Ok?
    ensures var v := ValidateInteger(name, minValue, maxValue, value).value;
            (v.IntV? || v.BoolV?)
            && (minValue.Some? ==> minValue.value <= Number(v))
            && (maxValue.Some? ==> Number(v) <= maxValue.value)
  {
  }

  /** A number outside the bounds, whether given as an int or as text, is
      refused with the message of the first bound it breaks. */
  lemma OutOfBoundsRefused(name: string, minValue: Option<int>, maxValue: Option<int>, value: Value, n: int)
    requires ((value.IntV? || value.BoolV?) && n == Number(value))
             || (!(value.IntV? || value.BoolV?) && PyInt(value) == Ok(n))
    ensures minValue.Some? && n < minValue.value ==>
              ValidateInteger(name, minValue, maxValue, value) == Err(ValidationError(MinMessage(name, minValue.value)))
    ensures (minValue.None? || minValue.value <= n) && maxValue.Some? && n > maxValue.value ==>
              ValidateInteger(name, minValue, maxValue, value) == Err(ValidationError(MaxMessage(name, maxValue.value)))
  {
    if !(value.IntV? || value.BoolV?) {
      assert ValidateInteger(name, minValue, maxValue, value) == BoundsChecked(name, minValue, maxValue, IntV(n));
    }
  }

  /** Without bounds every integer is accepted unchanged, and so is its
      decimal text, which parses back to it. */
  lemma UnboundedAcceptsIntegers(name: string, n: int)
    ensures ValidateInteger(name, None, None, IntV(n)) == Ok(IntV(n))
    ensures ValidateInteger(name, None, None, StrV(IntToDecimal(n))) == Ok(IntV(n))
  {
    PyIntOfDecimal(n);
  }

  /** `-0` is accepted as 0. */
  lemma NegativeZeroAccepted(name: string)
    ensures ValidateInteger(name, None, None, StrV("-0")) == Ok(IntV(0))
  {
    ParseNegativeZero();
    assert PyInt(StrV("-0")) == Ok(0);
  }

  /** Signed decimal text is accepted: `-45` is -45. */
  lemma SignedTextAccepted(name: string)
    ensures ValidateInteger(name, None, None, StrV("-45")) == Ok(IntV(-45))
  {
    ParseMinusFortyFive();
    assert PyInt(StrV("-45")) == Ok(-45);
  }

  /** `1.1` and `text` are not integers. */
  lemma NonIntegerTextRefused(name: string)
    ensures ValidateInteger(name, None, None, StrV("1.1")) == Err(ValidationError(IntegerMessage(name)))
    ensures ValidateInteger(name, None, None, StrV("text")) == Err(ValidationError(IntegerMessage(name)))
  {
    ParseRejectsFraction();
    ParseRejectsWord();
    assert PyInt(StrV("1.1")) == Err(ValueError);
    assert PyInt(StrV("text")) == Err(ValueError);
  }

  /** The bounds are inclusive: the bound itself is accepted, one beyond it is not. */
  lemma InclusiveBounds(name: string, bound: int)
    ensures ValidateInteger(name, Some(bound), None, IntV(bound)) == Ok(IntV(bound))
    ensures ValidateInteger(name, Some(bound), None, IntV(bound - 1)) == Err(ValidationError(MinMessage(name, bound)))
    ensures ValidateInteger(name, None, Some(bound), IntV(bound)) == Ok(IntV(bound))
    ensures ValidateInteger(name, None, Some(bound), IntV(bound + 1)) == Err(ValidationError(MaxMessage(name, bound)))
  {
  }
}
