/**
 * The few JavaScript semantics the server and the client rely on:
 * ToBoolean (section 7.1.2 of ECMA-262), ToString of the primitive values
 * (section 7.1.17) and the global `parseInt` called without a radix
 * (section 19.2.5).
 */
module Js {
  import opened Common

  /** An integral Number small enough that ToString writes it in plain decimal. */
  type JsInt = n: int | -1_000_000_000_000_000_000_000 < n < 1_000_000_000_000_000_000_000

  /**
   * A value of a decoded request body.  `Object` stands for an array or a plain
   * object; `text` is what String(value) gives for it.
   */
  datatype JsValue =
    | Undefined
    | Null
    | Bool(b: bool)
    | Num(n: JsInt)
    | Str(s: string)
    | Object(text: string)

  /** ToBoolean: what `!x`, `x || y` and `if (x)` test. */
  predicate Truthy(v: JsValue) {
    match v
    case Undefined => false
    case Null => false
    case Bool(b) => b
    case Num(n) => n != 0
    case Str(s) => s != ""
    case Object(_) => true
  }

  /** `a || b`: the left operand when it is truthy, otherwise the right one. */
  function Or(a: JsValue, b: JsValue): (r: JsValue)
    ensures Truthy(a) ==> r == a
    ensures !Truthy(a) ==> r == b
  {
    if Truthy(a) then a else b
  }

  /** The falsy values of ToBoolean, listed: every other value is truthy. */
  lemma FalsyValues(v: JsValue)
    ensures !Truthy(v) <==> v == Undefined || v == Null || v == Bool(false) || v == Num(0) || v == Str("")
  {
  }

  /** `||` is truthy when either operand is, and it groups either way. */
  lemma OrLaws(a: JsValue, b: JsValue, c: JsValue)
    ensures Truthy(Or(a, b)) <==> Truthy(a) || Truthy(b)
    ensures Truthy(b) ==> Truthy(Or(a, b))
    ensures Or(Or(a, b), c) == Or(a, Or(b, c))
  {
  }

  // ---------------------------------------------------------------------------
  // Number to String

  function DecimalChar(d: nat): (c: char)
    requires d < 10
    ensures IsDigit(c, 10) && DigitValue(c) == d
  {
    "0123456789"[d]
  }

  /** The decimal numeral of a natural number, without leading zeros. */
  function Decimal(n: nat): (r: string)
    ensures |r| > 0
    ensures forall i :: 0 <= i < |r| ==> IsDigit(r[i], 10)
    ensures r[0] == '0' ==> n == 0 && |r| == 1
  {
    if n < 10 then [DecimalChar(n)] else Decimal(n / 10) + [DecimalChar(n % 10)]
  }

  /** Number::toString for the integral Numbers of JsInt. */
  function NumberToString(n: JsInt): string {
    if n < 0 then "-" + Decimal(-n) else Decimal(n)
  }

  /** ToString. */
  function ToStr(v: JsValue): string {
    match v
    case Undefined => "undefined"
    case Null => "null"
    case Bool(b) => if b then "true" else "false"
    case Num(n) => NumberToString(n)
    case Str(s) => s
    case Object(text) => text
  }

  // ---------------------------------------------------------------------------
  // parseInt

  /** WhiteSpace and LineTerminator code points, which parseInt skips at the start. */
  predicate IsWhiteSpace(c: char) {
    // TAB, LF, VT, FF, CR, SP
    c == '\t' || c == '\n' || c == '\U{B}' || c == '\U{C}' || c == '\r' || c == ' '
    // NBSP, OGHAM SPACE MARK, EN QUAD .. HAIR SPACE
    || c == '\U{A0}' || c == '\U{1680}' || ('\U{2000}' <= c <= '\U{200A}')
    // LS, PS, NNBSP, MMSP, IDEOGRAPHIC SPACE, ZWNBSP
    || c == '\U{2028}' || c == '\U{2029}' || c == '\U{202F}' || c == '\U{205F}'
    || c == '\U{3000}' || c == '\U{FEFF}'
  }

  /** A digit of radix 10 or 16 (`radix` is one of the two). */
  predicate IsDigit(c: char, radix: int) {
    ('0' <= c <= '9')
    || (radix == 16 && (('a' <= c <= 'f') || ('A' <= c <= 'F')))
  }

  function DigitValue(c: char): (d: nat)
    requires IsDigit(c, 16)
    ensures d < 16
    ensures '0' <= c <= '9' ==> d < 10
  {
    if '0' <= c <= '9' then c as int - '0' as int
    else if 'a' <= c <= 'f' then c as int - 'a' as int + 10
    else c as int - 'A' as int + 10
  }

  /** How many white-space code points `s` starts with. */
  function LeadingWhiteSpace(s: string): (k: nat)
    ensures k <= |s|
    ensures forall i :: 0 <= i < k ==> IsWhiteSpace(s[i])
    ensures k < |s| ==> !IsWhiteSpace(s[k])
  {
    if s != [] && IsWhiteSpace(s[0]) then 1 + LeadingWhiteSpace(s[1..]) else 0
  }

  /** TrimString(s, start): `s` without its leading white space. */
  function TrimStart(s: string): string {
    s[LeadingWhiteSpace(s)..]
  }

  /** The length of the longest prefix of `s` made of radix digits. */
  function DigitRunLength(s: string, radix: int): (k: nat)
    ensures k <= |s|
    ensures forall i :: 0 <= i < k ==> IsDigit(s[i], radix)
    ensures k < |s| ==> !IsDigit(s[k], radix)
  {
    if s != [] && IsDigit(s[0], radix) then 1 + DigitRunLength(s[1..], radix) else 0
  }

  /** The mathematical value of a numeral in radix 10 or 16. */
  function DigitsValue(z: string, radix: int): nat
    requires radix == 10 || radix == 16
    requires forall i :: 0 <= i < |z| ==> IsDigit(z[i], radix)
  {
    if z == [] then 0
    else
      var last := z[|z| - 1];
      assert IsDigit(last, radix);
      DigitsValue(z[..|z| - 1], radix) * radix + DigitValue(last)
  }

  /** Steps 3 to 5 of parseInt: note a leading `-` and drop a leading sign. */
  function SplitSign(t: string): (r: (bool, string))
    ensures r.0 <==> t != [] && t[0] == '-'
    ensures |r.1| <= |t| && r.1 == t[|t| - |r.1|..]
  {
    if t != [] && (t[0] == '-' || t[0] == '+') then (t[0] == '-', t[1..]) else (false, t)
  }

  /**
   * Steps 10 to 14 of parseInt: an optional `0x`/`0X` prefix selects radix 16,
   * then the longest run of digits is read; None when that run is empty.
   */
  function ParseUnsigned(u: string): Option<nat> {
    var hex := |u| >= 2 && u[0] == '0' && (u[1] == 'x' || u[1] == 'X');
    var radix := if hex then 16 else 10;
    var digits := if hex then u[2..] else u;
    var z := digits[..DigitRunLength(digits, radix)];
    if z == [] then None else Some(DigitsValue(z, radix))
  }

  /**
   * `parseInt(s)` with no radix: skip leading white space, take an optional
   * sign, then read the digits.  None stands for NaN; the sign of zero is not
   * kept, and the result is the exact value rather than the nearest double.
   */
  function ParseInt(s: string): (r: Option<int>)
    ensures r.Some? ==>
      var t := TrimStart(s);
      t != [] && (IsDigit(t[0], 10) || t[0] == '-' || t[0] == '+')
    ensures r.Some? && r.value < 0 ==> TrimStart(s) != [] && TrimStart(s)[0] == '-'
  {
    ParseTrimmed(TrimStart(s))
  }

  /** Steps 3 to 16 of parseInt, on text that no longer starts with white space. */
  function ParseTrimmed(t: string): Option<int> {
    var (negative, u) := SplitSign(t);
    match ParseUnsigned(u)
    case None => None
    case Some(v) => Some(if negative then -(v as int) else v as int)
  }

  /** `parseInt(v)`: ToString first, then parse. */
  function ParseIntValue(v: JsValue): (r: Option<int>)
    ensures v.Num? ==> r == Some(v.n)
    ensures v.Undefined? || v.Null? || v.Bool? ==> r == None
  {
    if v.Num? then
      ParseIntOfNumberToString(v.n);
      ParseInt(ToStr(v))
    else if v.Str? || v.Object? then
      ParseInt(ToStr(v))
    else
      ParseIntOfWord(ToStr(v));
      ParseInt(ToStr(v))
  }

  /** Text that starts with a letter is NaN, as "undefined", "null", "true" and "false" are. */
  lemma ParseIntOfWord(s: string)
    requires s != [] && 'a' <= s[0] <= 'z'
    ensures ParseInt(s) == None
  {
    assert !IsWhiteSpace(s[0]);
    assert LeadingWhiteSpace(s) == 0;
    assert TrimStart(s) == s;
  }

  // ---------------------------------------------------------------------------
  // Properties of parseInt

  lemma {:induction false} DecimalValue(n: nat)
    ensures DigitsValue(Decimal(n), 10) == n
  {
    if n >= 10 {
      var d := Decimal(n);
      assert d[..|d| - 1] == Decimal(n / 10);
      DecimalValue(n / 10);
    }
  }

  /** A run of digits followed by anything that is not a digit is read up to its end. */
  lemma {:induction false} DigitRunStopsAt(z: string, rest: string, radix: int)
    requires forall i :: 0 <= i < |z| ==> IsDigit(z[i], radix)
    requires rest == [] || !IsDigit(rest[0], radix)
    ensures DigitRunLength(z + rest, radix) == |z|
  {
    if z == [] {
      assert z + rest == rest;
    } else {
      assert (z + rest)[0] == z[0];
      assert (z + rest)[1..] == z[1..] + rest;
      DigitRunStopsAt(z[1..], rest, radix);
    }
  }

  /** A decimal numeral and what follows it: the numeral's value. */
  lemma ParseUnsignedDecimal(n: nat, rest: string)
    requires rest == [] || !IsDigit(rest[0], 10)
    requires n == 0 ==> rest == [] || (rest[0] != 'x' && rest[0] != 'X')
    ensures ParseUnsigned(Decimal(n) + rest) == Some(n)
  {
    var d := Decimal(n);
    var u := d + rest;
    assert u[0] == d[0];
    assert |u| >= 2 && u[0] == '0' ==> u[1] == rest[0];
    DigitRunStopsAt(d, rest, 10);
    assert u[..|d|] == d;
    DecimalValue(n);
  }

  /**
   * parseInt reads the decimal numeral at the start of a string and ignores
   * what follows the last digit: "3abc" gives 3.  (After a lone "0", an "x"
   * would start a hexadecimal prefix instead, so it is excluded.)
   */
  lemma ParseIntIgnoresTrailing(n: nat, rest: string)
    requires rest == [] || !IsDigit(rest[0], 10)
    requires n == 0 ==> rest == [] || (rest[0] != 'x' && rest[0] != 'X')
    ensures ParseInt(Decimal(n) + rest) == Some(n)
  {
    var s := Decimal(n) + rest;
    assert s[0] == Decimal(n)[0];
    assert TrimStart(s) == s;
    assert SplitSign(s) == (false, s);
    ParseUnsignedDecimal(n, rest);
  }

  /** TrimString removes exactly the white space in front. */
  lemma {:induction false} LeadingWhiteSpaceSkips(ws: string, s: string)
    requires forall i :: 0 <= i < |ws| ==> IsWhiteSpace(ws[i])
    ensures LeadingWhiteSpace(ws + s) == |ws| + LeadingWhiteSpace(s)
  {
    if ws == [] {
      assert ws + s == s;
    } else {
      assert (ws + s)[0] == ws[0];
      assert (ws + s)[1..] == ws[1..] + s;
      LeadingWhiteSpaceSkips(ws[1..], s);
    }
  }

  /** Leading white space does not change what parseInt reads: " 2" gives 2. */
  lemma ParseIntSkipsWhiteSpace(ws: string, s: string)
    requires forall i :: 0 <= i < |ws| ==> IsWhiteSpace(ws[i])
    ensures ParseInt(ws + s) == ParseInt(s)
  {
    LeadingWhiteSpaceSkips(ws, s);
    assert TrimStart(ws + s) == (ws + s)[|ws| + LeadingWhiteSpace(s)..] == TrimStart(s);
  }

  /** Text that, after white space and a sign, does not begin with a digit is NaN. */
  lemma ParseIntNaN(s: string)
    requires var u := SplitSign(TrimStart(s)).1; u == [] || !IsDigit(u[0], 10)
    ensures ParseInt(s) == None
  {
  }

  /** parseInt inverts Number::toString on the integral Numbers. */
  lemma ParseIntOfNumberToString(n: JsInt)
    ensures ParseInt(NumberToString(n)) == Some(n)
  {
    if n >= 0 {
      assert Decimal(n) + [] == Decimal(n);
      ParseIntIgnoresTrailing(n, []);
    } else {
      var s := NumberToString(n);
      var d := Decimal(-n);
      assert TrimStart(s) == s;
      assert s[1..] == d;
      assert SplitSign(s) == (true, d);
      assert d + [] == d;
      ParseUnsignedDecimal(-n, []);
    }
  }

  /** A single decimal digit is read as its value. */
  lemma ParseIntOneDigit(d: nat)
    requires d < 10
    ensures ParseInt([DecimalChar(d)]) == Some(d)
  {
    assert Decimal(d) == [DecimalChar(d)];
    assert Decimal(d) + [] == Decimal(d);
    ParseIntIgnoresTrailing(d, []);
  }

  /** "3abc" is read as 3: the letters after the digits are ignored. */
  lemma ParseIntDigitsThenLetters()
    ensures ParseInt("3abc") == Some(3)
  {
    assert Decimal(3) == "3";
    assert "3" + "abc" == "3abc";
    ParseIntIgnoresTrailing(3, "abc");
  }

  /** " 2" is read as 2: leading white space is skipped. */
  lemma ParseIntLeadingSpace()
    ensures ParseInt(" 2") == Some(2)
  {
    assert Decimal(2) == "2";
    assert " " + "2" == " 2";
    assert "2" + [] == "2";
    ParseIntSkipsWhiteSpace(" ", "2");
    ParseIntIgnoresTrailing(2, []);
  }

  lemma ParseUnsignedHexDigit()
    ensures ParseUnsigned("0x5") == Some(5)
  {
    var digits := "0x5"[2..];
    assert digits == "5";
    assert IsDigit('5', 16) && DigitRunLength("", 16) == 0;
    assert DigitRunLength(digits, 16) == 1;
    assert digits[..1] == "5" && "5"[..0] == "";
    assert DigitValue('5') == 5;
    assert DigitsValue("5", 16) == DigitsValue("", 16) * 16 + 5;
  }

  /** "0x5" is read in radix 16. */
  lemma ParseIntHexPrefix()
    ensures ParseInt("0x5") == Some(5)
  {
    assert !IsWhiteSpace('0');
    assert LeadingWhiteSpace("0x5") == 0;
    assert TrimStart("0x5") == "0x5";
    assert SplitSign("0x5") == (false, "0x5");
    ParseUnsignedHexDigit();
  }

  /** Text without digits is NaN. */
  lemma ParseIntNoDigits()
    ensures ParseInt("abc") == None
    ensures ParseInt("-") == None
  {
    assert !IsWhiteSpace('a') && !IsWhiteSpace('-');
    assert LeadingWhiteSpace("abc") == 0 && LeadingWhiteSpace("-") == 0;
    assert "abc"[0..] == "abc" && "-"[0..] == "-";
    ParseIntNaN("abc");
    assert SplitSign("-").1 == "";
    ParseIntNaN("-");
  }

  /** A hexadecimal prefix with no digit after it is NaN, not 0. */
  lemma ParseIntBareHexPrefix()
    ensures ParseInt("0x") == None
  {
    assert !IsWhiteSpace('0');
    assert LeadingWhiteSpace("0x") == 0;
    assert TrimStart("0x") == "0x";
    assert SplitSign("0x") == (false, "0x");
    assert "0x"[2..] == "" && DigitRunLength("", 16) == 0;
    assert ParseUnsigned("0x") == None;
  }
}
