/** JavaScript value semantics that the request handlers rely on: truthiness,
    `??` and `||`, `String(v)`, `Number(v)`, `trim()`, `toLowerCase()` and
    `toUpperCase()`. Scalar values are modelled (undefined, null, booleans,
    integers and strings); JSON objects and arrays, and repeated query
    parameters, which Express hands over as arrays, are not. */
module JsValues {

  datatype Option<T> = None | Some(value: T)

  /** A scalar value as the HTTP layer hands it over (a JSON body field or a
      query parameter). Numbers are integers in this model. */
  datatype JsVal = Undefined | Null | Bool(b: bool) | Num(n: int) | Str(s: string)

  /** What `Number(v)` yields: an integer or NaN. */
  datatype Numeric = NaN | Finite(n: int)

  predicate Truthy(v: JsVal)
  {
    match v
    case Undefined => false
    case Null => false
    case Bool(b) => b
    case Num(n) => n != 0
    case Str(s) => s != ""
  }

  predicate NumericTruthy(x: Numeric)
  {
    x.Finite? && x.n != 0
  }

  predicate Nullish(v: JsVal)
  {
    v.Undefined? || v.Null?
  }

  /** `a ?? b` */
  function Coalesce(a: JsVal, b: JsVal): JsVal
  {
    if Nullish(a) then b else a
  }

  /** `a || b` */
  function Or(a: JsVal, b: JsVal): JsVal
  {
    if Truthy(a) then a else b
  }

  // ---------------------------------------------------------------------
  // Decimal digits

  predicate IsDigit(c: char)
  {
    '0' <= c <= '9'
  }

  predicate AllDigits(s: string)
  {
    forall i :: 0 <= i < |s| ==> IsDigit(s[i])
  }

  function DigitChar(d: nat): char
    requires d < 10
  {
    ('0' as int + d) as char
  }

  /** The value of a string of decimal digits, read left to right. */
  function DigitsValue(s: string): nat
    requires AllDigits(s)
  {
    if s == [] then 0
    else DigitsValue(s[..|s| - 1]) * 10 + (s[|s| - 1] as int - '0' as int)
  }

  /** Decimal rendering of a natural number, as `String(n)` does. */
  function NatToString(n: nat): (r: string)
    ensures r != [] && AllDigits(r)
    ensures DigitsValue(r) == n
  {
    if n < 10 then [DigitChar(n)]
    else
      var prefix := NatToString(n / 10);
      var r := prefix + [DigitChar(n % 10)];
      assert r[..|r| - 1] == prefix;
      r
  }

  /** `String(n)` for an integer. */
  function IntToString(n: int): string
  {
    if n < 0 then "-" + NatToString(-n) else NatToString(n)
  }

  // ---------------------------------------------------------------------
  // String(v)

  /** `String(v)` for every value this model has. */
  function ToJsString(v: JsVal): string
  {
    match v
    case Undefined => "undefined"
    case Null => "null"
    case Bool(b) => if b then "true" else "false"
    case Num(n) => IntToString(n)
    case Str(s) => s
  }

  // ---------------------------------------------------------------------
  // trim()

  /** The white space and line terminators that `String.prototype.trim`
      removes (ECMAScript WhiteSpace and LineTerminator). */
  predicate IsJsWhitespace(c: char)
  {
    c == ' ' || c == '\t' || c == '\n' || c == '\r' || c == '\U{000B}' || c == '\U{000C}'
    || c == '\U{00A0}' || c == '\U{1680}' || ('\U{2000}' <= c <= '\U{200A}')
    || c == '\U{2028}' || c == '\U{2029}' || c == '\U{202F}' || c == '\U{205F}'
    || c == '\U{3000}' || c == '\U{FEFF}'
  }

  /** A string with no white space at either end. */
  predicate IsTrimmed(s: string)
  {
    s == [] || (!IsJsWhitespace(s[0]) && !IsJsWhitespace(s[|s| - 1]))
  }

  /** Leading white space removed: `r` is a suffix of `s`, everything cut off
      was white space, and `r` does not start with white space. */
  function TrimStart(s: string): (r: string)
    ensures |r| <= |s| && r == s[|s| - |r|..]
    ensures forall k :: 0 <= k < |s| - |r| ==> IsJsWhitespace(s[k])
    ensures r == [] || !IsJsWhitespace(r[0])
  {
    if s != [] && IsJsWhitespace(s[0]) then TrimStart(s[1..]) else s
  }

  /** Trailing white space removed: `r` is a prefix of `s`, everything cut
      off was white space, and `r` does not end with white space. */
  function TrimEnd(s: string): (r: string)
    ensures |r| <= |s| && r == s[..|r|]
    ensures forall k :: |r| <= k < |s| ==> IsJsWhitespace(s[k])
    ensures r == [] || !IsJsWhitespace(r[|r| - 1])
  {
    if s != [] && IsJsWhitespace(s[|s| - 1]) then TrimEnd(s[..|s| - 1]) else s
  }

  /** `s.trim()` */
  function Trim(s: string): (r: string)
    ensures IsTrimmed(r)
  {
    var t := TrimStart(s);
    var r := TrimEnd(t);
    assert r != [] ==> r[0] == t[0];
    r
  }

  /** A string without white space at its ends is its own trim. */
  lemma TrimOfTrimmed(s: string)
    requires IsTrimmed(s)
    ensures Trim(s) == s
  {
    assert TrimStart(s) == s;
    assert TrimEnd(s) == s;
  }

  /** `trim()` is idempotent. */
  lemma TrimIdempotent(s: string)
    ensures Trim(Trim(s)) == Trim(s)
  {
    TrimOfTrimmed(Trim(s));
  }

  /** Trimming keeps a contiguous piece of the string and drops only white
      space around it. */
  lemma TrimIsInfix(s: string)
    ensures exists i, j :: 0 <= i <= j <= |s| && Trim(s) == s[i..j]
              && (forall k :: 0 <= k < i ==> IsJsWhitespace(s[k]))
              && (forall k :: j <= k < |s| ==> IsJsWhitespace(s[k]))
  {
    var i, j := TrimBounds(s);
  }

  /** Where the trimmed text sits in `s`. */
  lemma TrimBounds(s: string) returns (i: int, j: int)
    ensures 0 <= i <= j <= |s| && Trim(s) == s[i..j]
    ensures forall k :: 0 <= k < i ==> IsJsWhitespace(s[k])
    ensures forall k :: j <= k < |s| ==> IsJsWhitespace(s[k])
  {
    var t := TrimStart(s);
    i := |s| - |t|;
    assert t == s[i..];
    j := i + |TrimEnd(t)|;
    TrailingBlanks(s, t, i);
    assert Trim(s) == TrimEnd(t);
  }

  /** Trimming the end of a suffix `t` of `s` cuts only white space of `s`. */
  lemma TrailingBlanks(s: string, t: string, i: int)
    requires 0 <= i <= |s| && t == s[i..]
    ensures TrimEnd(t) == s[i..i + |TrimEnd(t)|]
    ensures forall k :: i + |TrimEnd(t)| <= k < |s| ==> IsJsWhitespace(s[k])
  {
    var r := TrimEnd(t);
    assert r == t[..|r|];
    forall k | i + |r| <= k < |s|
      ensures IsJsWhitespace(s[k])
    {
      assert s[k] == t[k - i];
    }
  }

  // ---------------------------------------------------------------------
  // toLowerCase() / toUpperCase()

  function LowerChar(c: char): char
  {
    if 'A' <= c <= 'Z' then (c as int + 32) as char else c
  }

  function UpperChar(c: char): char
  {
    if 'a' <= c <= 'z' then (c as int - 32) as char else c
  }

  /** `s.toLowerCase()` (letters A-Z). */
  function ToLower(s: string): string
  {
    seq(|s|, i requires 0 <= i < |s| => LowerChar(s[i]))
  }

  /** `s.toUpperCase()` (letters a-z). */
  function ToUpper(s: string): string
  {
    seq(|s|, i requires 0 <= i < |s| => UpperChar(s[i]))
  }

  predicate IsLowerCase(s: string)
  {
    ToLower(s) == s
  }

  predicate IsUpperCase(s: string)
  {
    ToUpper(s) == s
  }

  /** Lower-casing twice is lower-casing once. */
  lemma ToLowerIdempotent(s: string)
    ensures IsLowerCase(ToLower(s))
  {
    var l := ToLower(s);
    assert forall i :: 0 <= i < |l| ==> LowerChar(l[i]) == l[i];
  }

  /** Upper-casing twice is upper-casing once. */
  lemma ToUpperIdempotent(s: string)
    ensures IsUpperCase(ToUpper(s))
  {
    var u := ToUpper(s);
    assert forall i :: 0 <= i < |u| ==> UpperChar(u[i]) == u[i];
  }

  /** Lower-casing never creates or removes white space at the ends. */
  lemma ToLowerKeepsTrimmed(s: string)
    requires IsTrimmed(s)
    ensures IsTrimmed(ToLower(s))
  {
  }

  // ---------------------------------------------------------------------
  // Number(v)

  /** `Number(s)` for a string: surrounding white space is ignored, the empty
      string is 0, an optionally signed run of decimal digits is its value,
      and anything else is NaN. */
  function StringToNumber(s: string): (r: Numeric)
    ensures Trim(s) == "" ==> r == Finite(0)
    ensures Trim(s) != "" && AllDigits(Trim(s)) ==> r == Finite(DigitsValue(Trim(s)))
    ensures var t := Trim(s);
            |t| > 1 && (t[0] == '-' || t[0] == '+') && AllDigits(t[1..]) ==>
              r == Finite(if t[0] == '-' then 0 - DigitsValue(t[1..]) as int else DigitsValue(t[1..]))
    ensures var t := Trim(s);
            r.NaN? <==> t != "" && !AllDigits(t) && !(|t| > 1 && (t[0] == '-' || t[0] == '+') && AllDigits(t[1..]))
    ensures r.Finite? && r.n < 0 ==> Trim(s)[0] == '-'
  {
    NumberOfTrimmed(Trim(s))
  }

  /** `Number` of a text without surrounding blanks. */
  function NumberOfTrimmed(t: string): Numeric
  {
    if t == "" then Finite(0)
    else if (t[0] == '-' || t[0] == '+') && |t| > 1 && AllDigits(t[1..]) then
      Finite(if t[0] == '-' then 0 - DigitsValue(t[1..]) as int else DigitsValue(t[1..]))
    else if AllDigits(t) then Finite(DigitsValue(t))
    else NaN
  }

  /** Blanks around a number do not change what `Number` reads. */
  lemma StringToNumberIgnoresBlanks(s: string)
    ensures StringToNumber(Trim(s)) == StringToNumber(s)
  {
    TrimIdempotent(s);
  }

  /** `Number(v)` */
  function ToNumber(v: JsVal): (r: Numeric)
    ensures r.NaN? ==> v.Undefined? || v.Str?
    ensures v.Undefined? ==> r.NaN?
    ensures v.Str? ==> r == StringToNumber(v.s)
    ensures v == Bool(true) ==> r == Finite(1)
    ensures v.Num? ==> r == Finite(v.n)
    ensures v.Null? || v == Bool(false) ==> r == Finite(0)
  {
    match v
    case Undefined => NaN
    case Null => Finite(0)
    case Bool(b) => Finite(if b then 1 else 0)
    case Num(n) => Finite(n)
    case Str(s) => StringToNumber(s)
  }

  /** `Number(String(n)) === n`: the decimal rendering of an integer parses
      back to that integer. */
  lemma {:induction false} NumberOfString(n: int)
    ensures StringToNumber(IntToString(n)) == Finite(n)
    ensures ToNumber(Str(IntToString(n))) == Finite(n)
  {
    var s := IntToString(n);
    if n < 0 {
      var digits := NatToString(-n);
      assert s[1..] == digits;
      assert !IsJsWhitespace(s[0]) && s[|s| - 1] == digits[|digits| - 1];
      assert IsDigit(digits[|digits| - 1]);
    } else {
      assert IsDigit(s[0]) && IsDigit(s[|s| - 1]);
    }
    TrimOfTrimmed(s);
  }
}
