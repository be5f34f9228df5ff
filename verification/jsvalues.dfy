/** The JavaScript values an assertion can meet in a status code, a header
    value or an expected value, with the three conversions the assertions
    rely on: truthiness, `String(v)` and loose equality (`==`).
    Only integral numbers are modelled; objects and arrays are not. */
module JsValues {
  import opened Wrappers
  import opened Decimal

  datatype JsVal = Undefined | Null | Bool(b: bool) | Num(n: int) | Str(s: string)

  /** JavaScript truthiness: `undefined`, `null`, `false`, `0` and `""` are falsy. */
  predicate Truthy(v: JsVal) {
    match v
    case Undefined => false
    case Null => false
    case Bool(b) => b
    case Num(n) => n != 0
    case Str(s) => s != ""
  }

  function IntToString(n: int): string {
    if n < 0 then "-" + NatToString(-n) else NatToString(n)
  }

  /** `String(v)`, which is what `'...' + v + '...'` inserts into a message. */
  function ToStr(v: JsVal): string {
    match v
    case Undefined => "undefined"
    case Null => "null"
    case Bool(b) => if b then "true" else "false"
    case Num(n) => IntToString(n)
    case Str(s) => s
  }

  /** The characters JavaScript's string-to-number conversion strips from both
      ends: white space (tab, vertical tab, form feed, space, no-break space,
      byte order mark, the other space separators) and line terminators. */
  predicate IsJsSpace(c: char) {
    || c == '\t' || c == '\n' || c == '\U{B}' || c == '\U{C}' || c == '\r' || c == ' '
    || c == '\U{A0}' || c == '\U{1680}' || ('\U{2000}' <= c <= '\U{200A}')
    || c == '\U{2028}' || c == '\U{2029}' || c == '\U{202F}' || c == '\U{205F}'
    || c == '\U{3000}' || c == '\U{FEFF}'
  }

  function TrimStart(s: string): (t: string)
    ensures |t| <= |s| && t == s[|s| - |t|..]
    ensures t == [] || !IsJsSpace(t[0])
    ensures forall i :: 0 <= i < |s| - |t| ==> IsJsSpace(s[i])
    decreases |s|
  {
    if |s| > 0 && IsJsSpace(s[0]) then TrimStart(s[1..]) else s
  }

  function TrimEnd(s: string): (t: string)
    ensures |t| <= |s| && t == s[..|t|]
    ensures t == [] || !IsJsSpace(t[|t| - 1])
    ensures forall i :: |t| <= i < |s| ==> IsJsSpace(s[i])
    decreases |s|
  {
    if |s| > 0 && IsJsSpace(s[|s| - 1]) then TrimEnd(s[..|s| - 1]) else s
  }

  function Trim(s: string): string {
    TrimEnd(TrimStart(s))
  }

  /** `Number(s)` for a string, restricted to integers: `None` stands for NaN
      (and for the non-integer or non-decimal spellings this model omits).
      Blank strings convert to 0; an optional sign may precede the digits. */
  function StringToNumber(s: string): Option<int> {
    SignedDigitsValue(Trim(s))
  }

  /** The value of a trimmed string: empty is 0, otherwise optionally signed digits. */
  function SignedDigitsValue(t: string): Option<int> {
    if t == [] then Some(0)
    else if AllDigits(t) then Some(DigitsValue(t))
    else if |t| > 1 && t[0] == '-' && AllDigits(t[1..]) then Some(-(DigitsValue(t[1..]) as int))
    else if |t| > 1 && t[0] == '+' && AllDigits(t[1..]) then Some(DigitsValue(t[1..]))
    else None
  }

  function BoolToNumber(b: bool): int {
    if b then 1 else 0
  }

  /** `x == y` in JavaScript for the modelled values: same-type values compare
      strictly; `null` and `undefined` equal each other and nothing else;
      otherwise booleans and strings are converted to numbers and compared. */
  predicate LooseEq(x: JsVal, y: JsVal) {
    match (x, y)
    case (Undefined, Undefined) => true
    case (Undefined, Null) => true
    case (Null, Undefined) => true
    case (Null, Null) => true
    case (Undefined, _) => false
    case (Null, _) => false
    case (_, Undefined) => false
    case (_, Null) => false
    case (Bool(a), Bool(b)) => a == b
    case (Num(a), Num(b)) => a == b
    case (Str(a), Str(b)) => a == b
    case (Num(a), Str(b)) => StringToNumber(b) == Some(a)
    case (Str(a), Num(b)) => StringToNumber(a) == Some(b)
    case (Bool(a), Num(b)) => BoolToNumber(a) == b
    case (Num(a), Bool(b)) => a == BoolToNumber(b)
    case (Bool(a), Str(b)) => StringToNumber(b) == Some(BoolToNumber(a))
    case (Str(a), Bool(b)) => StringToNumber(a) == Some(BoolToNumber(b))
  }

  /** Loose equality does not depend on the order of its operands. */
  lemma LooseEqSymmetric(x: JsVal, y: JsVal)
    ensures LooseEq(x, y) == LooseEq(y, x)
  {
  }

  /** A string that neither starts nor ends with white space is its own trim. */
  lemma TrimOfUnpadded(s: string)
    requires s == [] || (!IsJsSpace(s[0]) && !IsJsSpace(s[|s| - 1]))
    ensures Trim(s) == s
  {
  }

  /** Neither a digit nor a minus sign is white space. */
  lemma SignOrDigitNotSpace(c: char)
    requires IsDigit(c) || c == '-'
    ensures !IsJsSpace(c)
  {
  }

  /** A printed integer has no white space to trim. */
  lemma IntToStringUntrimmed(n: int)
    ensures Trim(IntToString(n)) == IntToString(n)
  {
    var s := IntToString(n);
    var d := NatToString(if n >= 0 then n else -n);
    assert s[|s| - 1] == d[|d| - 1];
    SignOrDigitNotSpace(s[0]);
    SignOrDigitNotSpace(d[|d| - 1]);
    TrimOfUnpadded(s);
  }

  /** Reading the digits of a printed integer, sign included, gives it back. */
  lemma SignedDigitsValueOfIntToString(n: int)
    ensures SignedDigitsValue(IntToString(n)) == Some(n)
  {
    var s := IntToString(n);
    if n >= 0 {
      DigitsValueOfNatToString(n);
    } else {
      assert s[1..] == NatToString(-n);
      assert !AllDigits(s) by { assert !IsDigit(s[0]); }
      DigitsValueOfNatToString(-n);
    }
  }

  /** Converting an integer to a string and back to a number gives it back. */
  lemma StringToNumberOfIntToString(n: int)
    ensures StringToNumber(IntToString(n)) == Some(n)
  {
    IntToStringUntrimmed(n);
    SignedDigitsValueOfIntToString(n);
  }

  /** A status code compares loosely equal to its own decimal spelling, so
      `status("200")` and `status(200)` agree on a response with status 200. */
  lemma NumericStringLooselyEqual(n: int)
    ensures LooseEq(Str(IntToString(n)), Num(n))
    ensures LooseEq(Num(n), Str(IntToString(n)))
  {
    StringToNumberOfIntToString(n);
  }

  /** Loose equality is not transitive: "0" == 0 and 0 == "" but "0" != "". */
  lemma LooseEqNotTransitive()
    ensures LooseEq(Str("0"), Num(0)) && LooseEq(Num(0), Str("")) && !LooseEq(Str("0"), Str(""))
  {
  }
}
