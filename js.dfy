/**
 * The few pieces of JavaScript semantics the pages rely on: the values they
 * inspect, truthiness (`if (x)`, `x || y`, `!x`), nullish coalescing (`x ?? y`),
 * `String(x)` as used by template literals, `parseInt(x, 10)`, `String.prototype.trim`
 * and `indexOf(...) !== -1`.
 */
module Js {

  /** A JavaScript value as far as the pages look at it (numbers are integers here). */
  datatype Value = Undefined | Null | Bool(b: bool) | Int(i: int) | NaN | Str(s: string)

  /** The values `if (v)` accepts: everything except undefined, null, false, 0, NaN and "". */
  predicate Truthy(v: Value) {
    match v
    case Undefined => false
    case Null => false
    case NaN => false
    case Bool(b) => b
    case Int(i) => i != 0
    case Str(s) => s != ""
  }

  /** `a ?? b`: the right operand only when the left one is null or undefined. */
  function Coalesce(a: Value, b: Value): (r: Value)
    ensures a.Undefined? || a.Null? ==> r == b
    ensures r.Undefined? || r.Null? ==> b == r
    ensures !(a.Undefined? || a.Null?) ==> r == a
  {
    if a.Undefined? || a.Null? then b else a
  }

  /** `message || fallback` on an Error's message: the fallback replaces an empty message. */
  function OrElse(message: string, fallback: string): (r: string)
    ensures fallback != "" ==> r != ""
    ensures r == message || r == fallback
    ensures message != "" ==> r == message
  {
    if message != "" then message else fallback
  }

  // ---------------------------------------------------------------------------
  // Decimal digits

  predicate IsDigit(c: char) {
    '0' <= c <= '9'
  }

  predicate AllDigits(s: string) {
    forall i :: 0 <= i < |s| ==> IsDigit(s[i])
  }

  function DigitChar(d: nat): (c: char)
    requires d < 10
    ensures IsDigit(c)
  {
    (48 + d) as char
  }

  function DigitValue(c: char): (d: nat)
    requires IsDigit(c)
    ensures d < 10 && DigitChar(d) == c
  {
    c as int - 48
  }

  /** The decimal numeral of `n`, without leading zeros. */
  function NatToString(n: nat): (s: string)
    ensures |s| > 0 && AllDigits(s)
    ensures s[0] == '0' ==> n == 0
    decreases n
  {
    if n < 10 then [DigitChar(n)] else NatToString(n / 10) + [DigitChar(n % 10)]
  }

  /** `String(i)` / `${i}` for an integer. */
  function IntToString(i: int): (s: string)
    ensures |s| > 0
  {
    if i < 0 then "-" + NatToString(-i) else NatToString(i)
  }

  /** The number a string of decimal digits denotes. */
  function DigitsValue(s: string): nat
    requires AllDigits(s)
  {
    if s == [] then 0 else DigitsValue(s[..|s| - 1]) * 10 + DigitValue(s[|s| - 1])
  }

  lemma {:induction false} NatToStringRoundTrip(n: nat)
    ensures DigitsValue(NatToString(n)) == n
    decreases n
  {
    var s := NatToString(n);
    if n < 10 {
      assert s[..|s| - 1] == [];
    } else {
      assert s[..|s| - 1] == NatToString(n / 10);
      NatToStringRoundTrip(n / 10);
    }
  }

  /** The longest prefix of `s` made of decimal digits. */
  function DigitPrefix(s: string): (p: string)
    ensures p <= s && AllDigits(p)
    ensures |p| < |s| ==> !IsDigit(s[|p|])
  {
    if s != [] && IsDigit(s[0]) then [s[0]] + DigitPrefix(s[1..]) else []
  }

  lemma {:induction false} DigitPrefixOfDigits(d: string, rest: string)
    requires AllDigits(d)
    requires rest == [] || !IsDigit(rest[0])
    ensures DigitPrefix(d + rest) == d
  {
    if d != [] {
      assert (d + rest)[1..] == d[1..] + rest;
      DigitPrefixOfDigits(d[1..], rest);
    } else {
      assert d + rest == rest;
    }
  }

  // ---------------------------------------------------------------------------
  // Whitespace and trim

  /** The characters JavaScript's `trim` and `parseInt` skip (WhiteSpace and LineTerminator). */
  predicate IsWhitespace(c: char) {
    var u := c as int;
    (0x09 <= u <= 0x0D) || u == 0x20 || u == 0xA0 || u == 0x1680
    || (0x2000 <= u <= 0x200A) || u == 0x2028 || u == 0x2029 || u == 0x202F
    || u == 0x205F || u == 0x3000 || u == 0xFEFF
  }

  /** `s` without its leading whitespace. */
  function TrimStart(s: string): (r: string)
    ensures |r| <= |s| && r == s[|s| - |r|..]
    ensures r == [] || !IsWhitespace(r[0])
    ensures forall i :: 0 <= i < |s| - |r| ==> IsWhitespace(s[i])
  {
    if s != [] && IsWhitespace(s[0]) then TrimStart(s[1..]) else s
  }

  /** `s` without its trailing whitespace. */
  function TrimEnd(s: string): (r: string)
    ensures r <= s
    ensures r == [] || !IsWhitespace(r[|r| - 1])
    ensures forall i :: |r| <= i < |s| ==> IsWhitespace(s[i])
  {
    if s != [] && IsWhitespace(s[|s| - 1]) then TrimEnd(s[..|s| - 1]) else s
  }

  /** `s.trim()`. */
  function Trim(s: string): string {
    TrimEnd(TrimStart(s))
  }

  /** `!s.trim()` holds exactly of the strings made only of whitespace (the empty one included). */
  lemma TrimEmptyIffBlank(s: string)
    ensures Trim(s) == "" <==> forall i :: 0 <= i < |s| ==> IsWhitespace(s[i])
  {
    var t := TrimStart(s);
    if t != [] {
      assert !IsWhitespace(s[|s| - |t|]);
      assert !IsWhitespace(t[0]);
    }
  }

  // ---------------------------------------------------------------------------
  // String(v) and parseInt

  /** `String(v)`: how a value is rendered inside a template literal or passed to `parseInt`. */
  function ToStr(v: Value): string {
    match v
    case Undefined => "undefined"
    case Null => "null"
    case Bool(b) => if b then "true" else "false"
    case Int(i) => IntToString(i)
    case NaN => "NaN"
    case Str(s) => s
  }

  lemma TruthyToStrNonEmpty(v: Value)
    requires Truthy(v)
    ensures ToStr(v) != ""
  {
  }

  /**
   * `parseInt(text, 10)`: skip leading whitespace, read an optional sign and the
   * longest run of decimal digits; NaN when there is no digit.
   */
  function ParseIntText(text: string): (v: Value)
    ensures v.Int? || v.NaN?
    decreases |text|
  {
    if text != [] && IsWhitespace(text[0]) then ParseIntText(text[1..])
    else if text != [] && (text[0] == '-' || text[0] == '+') then ReadDigits(text[1..], text[0] == '-')
    else ReadDigits(text, false)
  }

  /** The signed value of the digits at the head of `t`; NaN when there are none. */
  function ReadDigits(t: string, negative: bool): (v: Value)
    ensures v.Int? || v.NaN?
  {
    var d := DigitPrefix(t);
    if d == [] then NaN
    else if negative then Int(-(DigitsValue(d) as int))
    else Int(DigitsValue(d))
  }

  /** `parseInt(v, 10)`: the argument is converted with `String` first (see ParseIntOfString). */
  function ParseInt(v: Value): (r: Value)
    ensures r.Int? || r.NaN?
  {
    match v
    case Int(i) => Int(i)
    case Str(s) => ParseIntText(s)
    case _ => NaN
  }

  /** The digits of a numeral followed by a non-digit are read back as its value. */
  lemma {:induction false} ReadDigitsOfNumeral(n: nat, rest: string, negative: bool)
    requires rest == [] || !IsDigit(rest[0])
    ensures ReadDigits(NatToString(n) + rest, negative) == if negative then Int(-(n as int)) else Int(n)
  {
    NatToStringRoundTrip(n);
    DigitPrefixOfDigits(NatToString(n), rest);
  }

  /** `parseInt` reads back the natural number at the head of a text that starts with its numeral. */
  lemma {:induction false} ParseIntTextOfNatNumeral(n: nat, rest: string)
    requires rest == [] || !IsDigit(rest[0])
    ensures ParseIntText(IntToString(n) + rest) == Int(n)
  {
    var t := NatToString(n) + rest;
    assert IntToString(n) + rest == t;
    assert t[0] == NatToString(n)[0];
    ReadDigitsOfNumeral(n, rest, false);
  }

  /** `parseInt` reads a minus sign followed by a numeral as the negated number. */
  lemma {:induction false} ParseIntTextOfMinusNumeral(n: nat, rest: string)
    requires rest == [] || !IsDigit(rest[0])
    ensures ParseIntText("-" + NatToString(n) + rest) == Int(-(n as int))
  {
    var u := NatToString(n) + rest;
    var t := ['-'] + u;
    assert "-" + NatToString(n) + rest == t;
    assert t != [] && t[0] == '-' && t[1..] == u;
    assert !IsWhitespace('-');
    assert ParseIntText(t) == ReadDigits(u, true);
    ReadDigitsOfNumeral(n, rest, true);
  }

  /** `parseInt` reads back the negative integer at the head of a text that starts with its numeral. */
  lemma {:induction false} ParseIntTextOfNegativeNumeral(i: int, rest: string)
    requires i < 0
    requires rest == [] || !IsDigit(rest[0])
    ensures ParseIntText(IntToString(i) + rest) == Int(i)
  {
    var n: nat := -i;
    var s := "-" + NatToString(n);
    assert IntToString(i) == s;
    ParseIntTextOfMinusNumeral(n, rest);
    assert s + rest == "-" + NatToString(n) + rest;
  }

  /** `parseInt` reads back the integer at the head of a text that starts with its numeral. */
  lemma ParseIntTextOfNumeral(i: int, rest: string)
    requires rest == [] || !IsDigit(rest[0])
    ensures ParseIntText(IntToString(i) + rest) == Int(i)
  {
    if i < 0 {
      ParseIntTextOfNegativeNumeral(i, rest);
    } else {
      ParseIntTextOfNatNumeral(i, rest);
    }
  }

  /** A text whose first character is neither whitespace, a sign nor a digit parses to NaN. */
  lemma ParseIntTextNoDigit(t: string)
    requires t != [] && !IsWhitespace(t[0]) && t[0] != '-' && t[0] != '+' && !IsDigit(t[0])
    ensures ParseIntText(t) == NaN
  {
    assert DigitPrefix(t) == [];
  }

  /** The case-wise `ParseInt` is `parseInt` applied to `String(v)`, and an integer comes back unchanged. */
  lemma ParseIntOfString(v: Value)
    ensures ParseInt(v) == ParseIntText(ToStr(v))
    ensures v.Int? ==> ParseInt(v) == v
  {
    match v {
      case Int(i) =>
        ParseIntTextOfNumeral(i, "");
        assert IntToString(i) + "" == IntToString(i);
      case Str(_) =>
      case Undefined => ParseIntTextNoDigit("undefined");
      case Null => ParseIntTextNoDigit("null");
      case NaN => ParseIntTextNoDigit("NaN");
      case Bool(b) =>
        if b { ParseIntTextNoDigit("true"); } else { ParseIntTextNoDigit("false"); }
    }
  }

  // ---------------------------------------------------------------------------
  // indexOf

  /** `s.startsWith(prefix)`. */
  predicate StartsWith(s: string, prefix: string) {
    prefix <= s
  }

  /** `haystack.indexOf(needle) !== -1`: the needle occurs somewhere in the haystack. */
  predicate Contains(haystack: string, needle: string)
    decreases |haystack|
  {
    StartsWith(haystack, needle) || (haystack != [] && Contains(haystack[1..], needle))
  }

  lemma {:induction false} ContainsAt(haystack: string, needle: string, k: nat)
    requires k + |needle| <= |haystack| && haystack[k..k + |needle|] == needle
    ensures Contains(haystack, needle)
    decreases k
  {
    if k > 0 {
      assert haystack[1..][k - 1..k - 1 + |needle|] == needle;
      ContainsAt(haystack[1..], needle, k - 1);
    } else {
      assert needle <= haystack;
    }
  }
}
