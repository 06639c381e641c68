/** The JavaScript values that arrive in request bodies and that the pages
    keep in state, with the parts of the language's semantics the handlers
    rely on: truthiness (`!x`, `x || y`), property access, `String(x)`,
    `parseInt` and `parseFloat`.

    A number is held as its `String(x)` rendering (`Num("12.7")`,
    `Num("0")`, `Num("NaN")`); `parseInt`, template strings and the falsy
    test all see a number through that rendering. JSON parsing and
    stringifying are not defined here: code that uses them takes a `Json`
    codec as a parameter. */
module Js {
  import opened Base
  import opened Text

  datatype Value =
    | Undefined
    | Null
    | Bool(b: bool)
    | Num(text: string)
    | Str(s: string)
    | Arr(items: seq<Value>)
    | Obj(fields: map<string, Value>)

  /** The integer `n` as a JavaScript number. */
  function FromInt(n: int): Value
  {
    Num(IntToString(n))
  }

  /** `!!v`: everything except undefined, null, false, 0, -0, NaN and "". */
  predicate Truthy(v: Value)
  {
    match v
    case Undefined => false
    case Null => false
    case Bool(b) => b
    case Num(t) => t != "0" && t != "NaN"
    case Str(s) => s != ""
    case Arr(_) => true
    case Obj(_) => true
  }

  /** `a || b`. */
  function Or(a: Value, b: Value): Value
  {
    if Truthy(a) then a else b
  }

  /** `v[key]` for the own properties of a parsed JSON object; any other
      value has none of the keys the handlers read. */
  function Field(v: Value, key: string): Value
  {
    if v.Obj? && key in v.fields then v.fields[key] else Undefined
  }

  /** Destructuring `const { .. } = v` throws a TypeError exactly for
      undefined and null. */
  predicate Destructurable(v: Value)
  {
    !v.Undefined? && !v.Null?
  }

  /** `String(v)`. An array is joined with "," and its undefined and null
      elements render as "". */
  function ToString(v: Value): string
    decreases v
  {
    match v
    case Undefined => "undefined"
    case Null => "null"
    case Bool(b) => if b then "true" else "false"
    case Num(t) => t
    case Str(s) => s
    case Arr(items) => Join(items)
    case Obj(_) => "[object Object]"
  }

  function Join(items: seq<Value>): string
    decreases items
  {
    if items == [] then ""
    else
      var head := if items[0].Undefined? || items[0].Null? then "" else ToString(items[0]);
      if |items| == 1 then head else head + "," + Join(items[1..])
  }

  /** An abstract JSON codec: `parse` is `JSON.parse` (None for a
      SyntaxError), `stringify` is `JSON.stringify`. */
  datatype Json = Json(parse: string -> Option<Value>, stringify: Value -> string)

  /** The white space and line terminators that `parseInt` and
      `parseFloat` skip before the number. */
  predicate IsWhiteSpace(c: char)
  {
    || c == '\t' || c == '\n' || c == '\U{000B}' || c == '\U{000C}' || c == '\r'
    || c == ' ' || c == '\U{00A0}' || c == '\U{1680}'
    || ('\U{2000}' <= c <= '\U{200A}')
    || c == '\U{2028}' || c == '\U{2029}' || c == '\U{202F}' || c == '\U{205F}'
    || c == '\U{3000}' || c == '\U{FEFF}'
  }

  /** `s` without its leading white space. */
  function TrimStart(s: string): (r: string)
    ensures |r| <= |s| && r == s[|s| - |r|..]
    ensures forall i :: 0 <= i < |s| - |r| ==> IsWhiteSpace(s[i])
    ensures r == [] || !IsWhiteSpace(r[0])
  {
    if s != [] && IsWhiteSpace(s[0]) then TrimStart(s[1..]) else s
  }

  /** The result of `parseInt`: NaN or an integer (-0 reads as 0). */
  datatype IntParse = NaN | Int(value: int)

  /** Text that starts with anything but white space is its own `TrimStart`. */
  lemma TrimStartOfNonSpace(s: string)
    requires s == [] || !IsWhiteSpace(s[0])
    ensures TrimStart(s) == s
  {
  }

  /** The longest run of radix digits at the start of `t`, read; NaN when
      the run is empty. */
  function DigitRun(t: string, radix: nat): IntParse
  {
    var digits := DigitPrefix(t, radix);
    if digits == [] then NaN else Int(DigitsValue(digits, radix))
  }

  /** The unsigned part: a "0x"/"0X" prefix selects radix 16, anything else
      radix 10. */
  function ParseUnsigned(t: string): IntParse
  {
    if |t| >= 2 && t[0] == '0' && (t[1] == 'x' || t[1] == 'X') then DigitRun(t[2..], 16)
    else DigitRun(t, 10)
  }

  function Negate(p: IntParse): IntParse
  {
    if p.Int? then Int(-p.value) else NaN
  }

  /** One optional sign before the unsigned part. */
  function ParseSigned(s: string): IntParse
  {
    if |s| > 0 && s[0] == '-' then Negate(ParseUnsigned(s[1..]))
    else if |s| > 0 && s[0] == '+' then ParseUnsigned(s[1..])
    else ParseUnsigned(s)
  }

  /** `parseInt(s)` with no radix argument: skip white space, take one
      optional sign, read a "0x"/"0X" prefix as radix 16 (otherwise radix
      10), and read the longest run of digits that follows; NaN when that
      run is empty. */
  function ParseInt(input: string): IntParse
  {
    ParseSigned(TrimStart(input))
  }

  /** `parseInt(v)` for any value: the argument is rendered with `String` first. */
  function ParseIntValue(v: Value): IntParse
  {
    ParseInt(ToString(v))
  }

  /** The canonical decimal text of a number: digits, and no leading zero
      unless it is "0" itself. */
  predicate CanonicalDigits(d: string)
  {
    d != [] && AllDigits(d) && (d[0] == '0' ==> |d| == 1)
  }

  lemma NatToStringIsCanonical(n: nat)
    ensures CanonicalDigits(NatToString(n))
    ensures DigitsValue(NatToString(n), 10) == n
  {
    DigitsValueOfNatToString(n);
  }

  /** Canonical decimal digits followed by anything that is neither a digit
      nor the 'x' of a hexadecimal prefix are read as those digits: "12.7"
      is 12, "40abc" is 40. */
  lemma ParseUnsignedOfDigits(d: string, rest: string)
    requires CanonicalDigits(d)
    requires rest == [] || (!IsDigit(rest[0]) && rest[0] != 'x' && rest[0] != 'X')
    ensures ParseUnsigned(d + rest) == Int(DigitsValue(d, 10))
  {
    var t := d + rest;
    assert t[0] == d[0];
    assert !(|t| >= 2 && t[0] == '0' && (t[1] == 'x' || t[1] == 'X')) by {
      if |t| >= 2 && t[0] == '0' {
        assert t[1] == rest[0];
      }
    }
    DigitPrefixOfDigitsThenRest(d, rest);
  }

  /** Canonical digits followed by anything that is neither a digit nor the
      'x' of a hexadecimal prefix: parseInt reads the digits. */
  lemma DigitsThenRest(d: string, rest: string)
    requires CanonicalDigits(d)
    requires rest == [] || (!IsDigit(rest[0]) && rest[0] != 'x' && rest[0] != 'X')
    ensures ParseInt(d + rest) == Int(DigitsValue(d, 10))
  {
    var t := d + rest;
    assert t[0] == d[0];
    TrimStartOfNonSpace(t);
    assert ParseInt(t) == ParseUnsigned(t);
    ParseUnsignedOfDigits(d, rest);
  }

  lemma {:induction false} DigitPrefixOfDigitsThenRest(d: string, rest: string)
    requires AllDigits(d)
    requires rest == [] || !IsDigit(rest[0])
    ensures DigitPrefix(d + rest, 10) == d
  {
    if d != [] {
      assert (d + rest)[1..] == d[1..] + rest;
      DigitPrefixOfDigitsThenRest(d[1..], rest);
    } else {
      assert d + rest == rest;
    }
  }

  /** A minus sign before canonical digits: parseInt reads their negation. */
  lemma NegativeDigits(d: string)
    requires CanonicalDigits(d)
    ensures ParseInt("-" + d) == Int(0 - DigitsValue(d, 10))
  {
    var s := "-" + d;
    assert s[0] == '-';
    TrimStartOfNonSpace(s);
    assert ParseInt(s) == ParseSigned(s);
    assert ParseSigned(s) == Negate(ParseUnsigned(s[1..]));
    assert s[1..] == d + "";
    ParseUnsignedOfDigits(d, "");
  }

  /** The result of `parseFloat`, with decimal values held exactly. */
  datatype FloatParse = FNaN | Infinite(negative: bool) | Finite(x: real)

  function Pow10(e: nat): (r: nat)
    ensures r >= 1
  {
    if e == 0 then 1 else 10 * Pow10(e - 1)
  }

  /** m * 10^e as an exact real. */
  function Scale(m: int, e: int): real
  {
    if e >= 0 then (m * Pow10(e)) as real else (m as real) / (Pow10(-e) as real)
  }

  /** The value of an exponent part "e12", "E-3", "e+4" at the start of `s`,
      or 0 when there is none (an "e" without digits is not an exponent). */
  function ExponentValue(s: string): int
  {
    if |s| >= 2 && (s[0] == 'e' || s[0] == 'E') then
      var body := if s[1] == '+' || s[1] == '-' then s[2..] else s[1..];
      var d := DigitPrefix(body, 10);
      if s[1] == '-' then -DigitsValue(d, 10) else DigitsValue(d, 10)
    else 0
  }

  /** The unsigned part of `parseFloat`: "Infinity", or the longest
      decimal literal (digits, an optional "." and fraction digits, at least
      one digit in all, an optional exponent); NaN when there is none. */
  function ParseDecimal(t: string): FloatParse
  {
    if |t| >= 8 && t[..8] == "Infinity" then Infinite(false)
    else
      var whole := DigitPrefix(t, 10);
      var rest := t[|whole|..];
      var hasPoint := |rest| > 0 && rest[0] == '.';
      var frac := if hasPoint then DigitPrefix(rest[1..], 10) else "";
      if whole == [] && frac == [] then FNaN
      else
        var tail := if hasPoint then rest[1 + |frac|..] else rest;
        Finite(Scale(DigitsValue(whole + frac, 10), ExponentValue(tail) - |frac|))
  }

  function NegateFloat(f: FloatParse): FloatParse
  {
    match f
    case FNaN => FNaN
    case Infinite(negative) => Infinite(!negative)
    case Finite(x) => Finite(-x)
  }

  /** `parseFloat(s)`: skip white space, take one optional sign, then read
      the unsigned part. */
  function ParseFloat(input: string): FloatParse
  {
    var s := TrimStart(input);
    if |s| > 0 && s[0] == '-' then NegateFloat(ParseDecimal(s[1..]))
    else if |s| > 0 && s[0] == '+' then ParseDecimal(s[1..])
    else ParseDecimal(s)
  }

  /** The JavaScript comparison `f <= 0` (false for NaN). */
  predicate AtMostZero(f: FloatParse)
  {
    match f
    case FNaN => false
    case Infinite(negative) => negative
    case Finite(x) => x <= 0.0
  }

  /** A run of decimal digits alone reads as its value. */
  lemma ParseDecimalOfDigits(d: string)
    requires d != [] && AllDigits(d)
    ensures ParseDecimal(d) == Finite(DigitsValue(d, 10) as real)
  {
    assert !(|d| >= 8 && d[..8] == "Infinity") by {
      assert IsDigit(d[0]);
    }
    assert d + "" == d;
    DigitPrefixOfDigitsThenRest(d, "");
    assert d[|d|..] == "";
    assert ExponentValue("") == 0;
    assert Scale(DigitsValue(d, 10), 0) == DigitsValue(d, 10) as real;
  }

  /** A run of decimal digits: parseFloat reads its value. */
  lemma DecimalDigits(d: string)
    requires d != [] && AllDigits(d)
    ensures ParseFloat(d) == Finite(DigitsValue(d, 10) as real)
  {
    assert IsDigit(d[0]);
    TrimStartOfNonSpace(d);
    assert ParseFloat(d) == ParseDecimal(d);
    ParseDecimalOfDigits(d);
  }
}
