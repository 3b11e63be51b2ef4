/** Python values as they cross the message bus, a config file or a validator,
    with the few built-in operations the modelled code applies to them:
    truthiness, `==`, `str()`, `str.lower()` and `int()`. */
module Values {
  import opened Wrappers

  /** A Python value. Floating-point numbers are not modelled. */
  datatype Value =
    | NoneV
    | BoolV(b: bool)
    | IntV(i: int)
    | StrV(s: string)
    | ListV(items: seq<Value>)

  /** `bool(v)`. */
  predicate Truthy(v: Value) {
    match v
    case NoneV => false
    case BoolV(b) => b
    case IntV(i) => i != 0
    case StrV(s) => s != ""
    case ListV(items) => items != []
  }

  /** Python's `==`, under which `True == 1` and `False == 0`. */
  predicate PyEq(a: Value, b: Value) {
    match (a, b)
    case (BoolV(x), IntV(y)) => y == (if x then 1 else 0)
    case (IntV(x), BoolV(y)) => x == (if y then 1 else 0)
    case (ListV(xs), ListV(ys)) => |xs| == |ys| && forall k :: 0 <= k < |xs| ==> PyEq(xs[k], ys[k])
    case _ => a == b
  }

  // ---------------------------------------------------------------- decimal text

  predicate IsDigit(c: char) { '0' <= c <= '9' }

  predicate AllDigits(s: string) { forall k :: 0 <= k < |s| ==> IsDigit(s[k]) }

  function DigitChar(d: nat): (c: char)
    requires d < 10
    ensures IsDigit(c)
  {
    (48 + d) as char
  }

  function DigitValue(c: char): (d: nat)
    requires IsDigit(c)
    ensures d < 10
  {
    c as int - 48
  }

  /** Decimal digits of `n`, most significant first, no leading zero. */
  function NatToDecimal(n: nat): (s: string)
    ensures |s| > 0 && AllDigits(s)
  {
    if n < 10 then [DigitChar(n)] else NatToDecimal(n / 10) + [DigitChar(n % 10)]
  }

  /** `str(n)` for a Python int. */
  function IntToDecimal(n: int): (s: string)
    ensures |s| > 0
  {
    if n < 0 then "-" + NatToDecimal(-n) else NatToDecimal(n)
  }

  /** The number a run of decimal digits denotes. */
  function DigitsValue(s: string): nat
    requires AllDigits(s)
  {
    if s == [] then 0 else DigitsValue(s[..|s| - 1]) * 10 + DigitValue(s[|s| - 1])
  }

  lemma {:induction false} DigitsValueOfDecimal(n: nat)
    ensures DigitsValue(NatToDecimal(n)) == n
  {
    if n >= 10 {
      var s := NatToDecimal(n);
      assert s[..|s| - 1] == NatToDecimal(n / 10);
      DigitsValueOfDecimal(n / 10);
    }
  }

  /** The characters `str.isspace()` accepts among the ASCII ones. */
  predicate IsSpace(c: char) {
    9 <= c as int <= 13 || 28 <= c as int <= 32
  }

  /** The index of the first character at or after `i` that is not white space. */
  function SpaceEnd(s: string, i: nat): (j: nat)
    requires i <= |s|
    ensures i <= j <= |s| && (j < |s| ==> !IsSpace(s[j]))
    ensures forall k :: i <= k < j ==> IsSpace(s[k])
    decreases |s| - i
  {
    if i < |s| && IsSpace(s[i]) then SpaceEnd(s, i + 1) else i
  }

  /** The index just after the last character before `j`, and not before
      `lo`, that is not white space. */
  function SpaceStart(s: string, lo: nat, j: nat): (k: nat)
    requires lo <= j <= |s|
    ensures lo <= k <= j && (k > lo ==> !IsSpace(s[k - 1]))
    ensures forall m :: k <= m < j ==> IsSpace(s[m])
  {
    if j > lo && IsSpace(s[j - 1]) then SpaceStart(s, lo, j - 1) else j
  }

  /** `s.strip()` of the white space `int()` ignores around a number: the
      text between a leading and a trailing run of white space. */
  function Strip(s: string): (r: string)
    ensures r != [] ==> !IsSpace(r[0]) && !IsSpace(r[|r| - 1])
    ensures exists lo, hi :: 0 <= lo <= hi <= |s| && r == s[lo..hi]
              && (forall k :: 0 <= k < lo ==> IsSpace(s[k]))
              && (forall k :: hi <= k < |s| ==> IsSpace(s[k]))
  {
    var lo := SpaceEnd(s, 0);
    s[lo..SpaceStart(s, lo, |s|)]
  }

  /** Text that neither starts nor ends with white space is left as it is. */
  lemma Unspaced(s: string)
    requires s != [] && !IsSpace(s[0]) && !IsSpace(s[|s| - 1])
    ensures Strip(s) == s
  {
    assert SpaceEnd(s, 0) == 0;
    assert SpaceStart(s, 0, |s|) == |s|;
  }

  /** White space around a text that neither starts nor ends with white space
      is removed, and nothing else: `' 12 '` strips to `'12'`. */
  lemma StripSurrounding(before: string, t: string, after: string)
    requires t != [] && !IsSpace(t[0]) && !IsSpace(t[|t| - 1])
    requires forall k :: 0 <= k < |before| ==> IsSpace(before[k])
    requires forall k :: 0 <= k < |after| ==> IsSpace(after[k])
    ensures Strip(before + t + after) == t
  {
    var s := before + t + after;
    SpaceEndAt(s, 0, |before|);
    SpaceStartAt(s, |before|, |s|, |before| + |t|);
    assert s[|before|..|before| + |t|] == t;
  }

  lemma {:induction false} SpaceEndAt(s: string, i: nat, m: nat)
    requires i <= m < |s| && !IsSpace(s[m])
    requires forall k :: i <= k < m ==> IsSpace(s[k])
    ensures SpaceEnd(s, i) == m
    decreases m - i
  {
    if i < m {
      SpaceEndAt(s, i + 1, m);
    }
  }

  lemma {:induction false} SpaceStartAt(s: string, lo: nat, j: nat, m: nat)
    requires lo < m <= j <= |s| && !IsSpace(s[m - 1])
    requires forall k :: m <= k < j ==> IsSpace(s[k])
    ensures SpaceStart(s, lo, j) == m
    decreases j - m
  {
    if m < j {
      SpaceStartAt(s, lo, j - 1, m);
    }
  }

  /** `int(' 12 ') == 12`: the white space around a number is ignored. */
  lemma SpacedNumber()
    ensures ParseInt(" 12 ") == Some(12)
  {
    StripSurrounding(" ", "12", " ");
    assert " " + "12" + " " == " 12 ";
    assert "12"[..1] == "1" && "1"[..0] == "";
    assert DigitsValue("12") == 12;
  }

  /** The sign and digits `int()` accepts once white space is stripped. */
  function ParseStripped(t: string): (r: Option<int>)
    ensures |t| > 1 && t[0] == '-' && AllDigits(t[1..]) ==> r == Some(-(DigitsValue(t[1..]) as int))
    ensures |t| > 1 && t[0] == '+' && AllDigits(t[1..]) ==> r == Some(DigitsValue(t[1..]))
    ensures t != [] && AllDigits(t) ==> r == Some(DigitsValue(t))
  {
    if |t| > 1 && (t[0] == '-' || t[0] == '+') && AllDigits(t[1..]) then
      var m: int := DigitsValue(t[1..]);
      Some(if t[0] == '-' then -m else m)
    else if |t| > 0 && AllDigits(t) then
      Some(DigitsValue(t))
    else
      None
  }

  /** `int(s)` for a string: surrounding white space, an optional sign and one or
      more decimal digits; `None` stands for the ValueError any other text raises. */
  function ParseInt(s: string): Option<int> {
    ParseStripped(Strip(s))
  }

  /** `int(str(n)) == n`: the decimal rendering parses back to the same integer. */
  lemma ParseIntOfDecimal(n: int)
    ensures ParseInt(IntToDecimal(n)) == Some(n)
  {
    if n < 0 {
      var m: nat := -n;
      var d := NatToDecimal(m);
      assert IntToDecimal(n) == "-" + d;
      ParseNegative(d);
      DigitsValueOfDecimal(m);
    } else {
      var d := NatToDecimal(n);
      assert IntToDecimal(n) == d;
      ParseDigits(d);
      DigitsValueOfDecimal(n);
    }
  }

  /** Bare digits parse to the number they denote. */
  lemma ParseDigits(d: string)
    requires d != [] && AllDigits(d)
    ensures ParseInt(d) == Some(DigitsValue(d))
  {
    Unspaced(d);
  }

  /** A minus sign followed by digits parses to the negated number. */
  lemma ParseNegative(d: string)
    requires d != [] && AllDigits(d)
    ensures ParseInt("-" + d) == Some(-(DigitsValue(d) as int))
  {
    var s := "-" + d;
    assert s[|s| - 1] == d[|d| - 1] && IsDigit(d[|d| - 1]);
    Unspaced(s);
    assert s[1..] == d;
  }

  /** A character that is neither a digit nor a leading sign makes the
      stripped text unparsable. */
  lemma NotANumber(t: string, k: nat)
    requires k < |t| && !IsDigit(t[k]) && (k == 0 ==> t[0] != '-' && t[0] != '+')
    ensures ParseStripped(t) == None
  {
    if k > 0 {
      assert t[1..][k - 1] == t[k];
    }
  }

  lemma ParseNegativeZero()
    ensures ParseInt("-0") == Some(0)
  {
    assert "0"[..0] == "";
    ParseNegative("0");
    assert "-" + "0" == "-0";
  }

  lemma ParseMinusFortyFive()
    ensures ParseInt("-45") == Some(-45)
  {
    assert "45"[..1] == "4" && "4"[..0] == "";
    assert DigitsValue("45") == 45;
    ParseNegative("45");
    assert "-" + "45" == "-45";
  }

  lemma ParseRejectsFraction()
    ensures ParseInt("1.1") == None
  {
    Unspaced("1.1");
    NotANumber("1.1", 1);
  }

  lemma ParseRejectsWord()
    ensures ParseInt("text") == None
  {
    Unspaced("text");
    NotANumber("text", 0);
  }

  // ---------------------------------------------------------------- str(), lower()

  function LowerChar(c: char): char {
    if 'A' <= c <= 'Z' then (c as int + 32) as char else c
  }

  /** `s.lower()` on ASCII letters. */
  function Lower(s: string): (r: string)
    ensures |r| == |s|
  {
    seq(|s|, k requires 0 <= k < |s| => LowerChar(s[k]))
  }

  function Join(parts: seq<string>, sep: string): string {
    if parts == [] then ""
    else if |parts| == 1 then parts[0]
    else parts[0] + sep + Join(parts[1..], sep)
  }

  /** `str(v)`. */
  function Str(v: Value): string
    decreases v, 0
  {
    match v
    case NoneV => "None"
    case BoolV(b) => if b then "True" else "False"
    case IntV(i) => IntToDecimal(i)
    case StrV(s) => s
    case ListV(items) => "[" + Join(seq(|items|, k requires 0 <= k < |items| => Repr(items[k])), ", ") + "]"
  }

  /** `repr(v)`, which quotes strings (escaping inside them is not modelled). */
  function Repr(v: Value): string
    decreases v, 1
  {
    if v.StrV? then "'" + v.s + "'" else Str(v)
  }

  /** `'{}'.format(x)` for an optional string: `None` prints as `None`. */
  function OptionText(x: Option<string>): string {
    if x.Some? then x.value else "None"
  }

  /** What `int(v)` raises when it fails. */
  datatype IntError = ValueError | TypeError

  /** `int(v)`: ints pass through, bools become 0 or 1, strings are parsed;
      `None` and lists raise TypeError. */
  function PyInt(v: Value): Result<int, IntError> {
    match v
    case IntV(i) => Ok(i)
    case BoolV(b) => Ok(if b then 1 else 0)
    case StrV(s) => if ParseInt(s).Some? then Ok(ParseInt(s).value) else Err(ValueError)
    case _ => Err(TypeError)
  }

  /** `int(str(n)) == n` for the string value. */
  lemma PyIntOfDecimal(n: int)
    ensures PyInt(StrV(IntToDecimal(n))) == Ok(n)
  {
    ParseIntOfDecimal(n);
  }
}
