/**
 * The JavaScript built-ins the application leans on, stated exactly:
 * white space as `trim()` and the regular-expression class `\s` see it,
 * `parseInt`, `parseFloat`, and the `x || d` default idiom.
 *
 * A JavaScript number is modelled as `JsNum`: `None` is NaN and `Some(x)`
 * is an exact finite value (no binary floating-point rounding).
 */
module JsText {
  import opened Wrappers

  type JsNum = Option<real>

  // ---------------------------------------------------------------------
  // Characters

  /** WhiteSpace and LineTerminator code points of ECMAScript (what `trim()` strips and `\s` matches). */
  predicate IsSpace(c: char) {
    || c == '\t' || c == '\n' || c == '\U{B}' || c == '\U{C}' || c == '\r' || c == ' '
    || c == '\U{A0}' || c == '\U{1680}' || ('\U{2000}' <= c <= '\U{200A}')
    || c == '\U{2028}' || c == '\U{2029}' || c == '\U{202F}' || c == '\U{205F}'
    || c == '\U{3000}' || c == '\U{FEFF}'
  }

  predicate IsDigit(c: char) { '0' <= c <= '9' }

  predicate IsHexDigit(c: char) { IsDigit(c) || 'a' <= c <= 'f' || 'A' <= c <= 'F' }

  predicate IsUpper(c: char) { 'A' <= c <= 'Z' }

  predicate IsLower(c: char) { 'a' <= c <= 'z' }

  /** The class `\w` of a regular expression without the `u` flag. */
  predicate IsWordChar(c: char) { IsUpper(c) || IsLower(c) || IsDigit(c) || c == '_' }

  /** ASCII-only case folding, which is what the `i` flag does for the ASCII patterns used here. */
  function ToLowerAscii(c: char): (r: char)
    ensures IsUpper(c) ==> IsLower(r) && r as int - 'a' as int == c as int - 'A' as int
    ensures !IsUpper(c) ==> r == c
  {
    if IsUpper(c) then (c as int - 'A' as int + 'a' as int) as char else c
  }

  function DigitValue(c: char): (r: nat)
    requires IsDigit(c)
    ensures r < 10
  {
    c as int - '0' as int
  }

  function HexValue(c: char): (r: nat)
    requires IsHexDigit(c)
    ensures r < 16
  {
    if IsDigit(c) then DigitValue(c)
    else if 'a' <= c <= 'f' then c as int - 'a' as int + 10
    else c as int - 'A' as int + 10
  }

  /**
   * `s.length`: JavaScript counts UTF-16 code units, so a character outside the
   * Basic Multilingual Plane counts twice.
   */
  function Utf16Length(s: string): (n: nat)
    ensures |s| <= n <= 2 * |s|
    ensures (forall i :: 0 <= i < |s| ==> s[i] <= '\U{FFFF}') ==> n == |s|
    decreases |s|
  {
    if s == [] then 0 else (if s[0] <= '\U{FFFF}' then 1 else 2) + Utf16Length(s[1..])
  }

  // ---------------------------------------------------------------------
  // Trimming

  /** `String.prototype.trimStart`. */
  function TrimStart(s: string): (r: string)
    ensures |r| <= |s| && r == s[|s| - |r|..]
    ensures forall i :: 0 <= i < |s| - |r| ==> IsSpace(s[i])
    ensures r == [] || !IsSpace(r[0])
  {
    if s != [] && IsSpace(s[0]) then
      var r := TrimStart(s[1..]);
      assert s[1..][|s| - 1 - |r|..] == s[|s| - |r|..];
      assert forall i :: 1 <= i < |s| - |r| ==> s[i] == s[1..][i - 1];
      r
    else s
  }

  /** `String.prototype.trimEnd`. */
  function TrimEnd(s: string): (r: string)
    ensures |r| <= |s| && r == s[..|r|]
    ensures forall i :: |r| <= i < |s| ==> IsSpace(s[i])
    ensures r == [] || !IsSpace(r[|r| - 1])
  {
    if s != [] && IsSpace(s[|s| - 1]) then TrimEnd(s[..|s| - 1]) else s
  }

  /** How many leading white-space characters `trim()` removes. */
  function TrimOffset(s: string): (a: nat)
    ensures a <= |s|
  {
    |s| - |TrimStart(s)|
  }

  /** `String.prototype.trim`: a contiguous slice of the input, white space removed at both ends only. */
  function Trim(s: string): (r: string)
    ensures TrimOffset(s) + |r| <= |s| && r == s[TrimOffset(s)..TrimOffset(s) + |r|]
    ensures forall i :: 0 <= i < TrimOffset(s) ==> IsSpace(s[i])
    ensures forall i :: TrimOffset(s) + |r| <= i < |s| ==> IsSpace(s[i])
    ensures r == [] || (!IsSpace(r[0]) && !IsSpace(r[|r| - 1]))
  {
    var t := TrimStart(s);
    var r := TrimEnd(t);
    TrimBothEnds(s, TrimOffset(s), t, r, IsSpace);
    r
  }

  /**
   * Stripping the characters satisfying `p` from the front of `s` (leaving `t`)
   * and then from the back of `t` (leaving `r`) leaves a slice of `s` with
   * stripped characters on both sides of it only.
   */
  lemma TrimBothEnds(s: string, a: nat, t: string, r: string, p: char -> bool)
    requires a <= |s| && t == s[a..] && (forall i :: 0 <= i < a ==> p(s[i]))
    requires t == [] || !p(t[0])
    requires |r| <= |t| && r == t[..|r|] && (forall i :: |r| <= i < |t| ==> p(t[i]))
    requires r == [] || !p(r[|r| - 1])
    ensures a + |r| <= |s| && r == s[a..a + |r|]
    ensures forall i :: a + |r| <= i < |s| ==> p(s[i])
    ensures r == [] || (!p(r[0]) && !p(r[|r| - 1]))
  {
    forall i | a + |r| <= i < |s| ensures p(s[i]) {
      assert s[i] == t[i - a];
    }
  }

  lemma {:induction false} TrimOfAllSpaces(s: string)
    requires forall i :: 0 <= i < |s| ==> IsSpace(s[i])
    ensures Trim(s) == []
  {
    if s != [] {
      assert TrimStart(s) == TrimStart(s[1..]);
      TrimOfAllSpaces(s[1..]);
    }
  }

  // ---------------------------------------------------------------------
  // Digit runs and their values

  /** Length of the longest prefix of `s` made of decimal digits. */
  function DigitRun(s: string): (n: nat)
    ensures n <= |s|
    ensures forall i :: 0 <= i < n ==> IsDigit(s[i])
    ensures n == |s| || !IsDigit(s[n])
  {
    if s != [] && IsDigit(s[0]) then 1 + DigitRun(s[1..]) else 0
  }

  /** Length of the longest prefix of `s` made of hexadecimal digits. */
  function HexRun(s: string): (n: nat)
    ensures n <= |s|
    ensures forall i :: 0 <= i < n ==> IsHexDigit(s[i])
    ensures n == |s| || !IsHexDigit(s[n])
  {
    if s != [] && IsHexDigit(s[0]) then 1 + HexRun(s[1..]) else 0
  }

  predicate AllDigits(d: string) { forall i :: 0 <= i < |d| ==> IsDigit(d[i]) }

  predicate AllHexDigits(d: string) { forall i :: 0 <= i < |d| ==> IsHexDigit(d[i]) }

  /** The value of a string of decimal digits, read most significant first. */
  function DecimalValue(d: string): nat
    requires AllDigits(d)
  {
    if d == [] then 0 else DecimalValue(d[..|d| - 1]) * 10 + DigitValue(d[|d| - 1])
  }

  /** The value of a string of hexadecimal digits, read most significant first. */
  function HexStringValue(d: string): nat
    requires AllHexDigits(d)
  {
    if d == [] then 0 else HexStringValue(d[..|d| - 1]) * 16 + HexValue(d[|d| - 1])
  }

  /** `x * 10^e`, shifting the decimal point one place at a time. */
  function Scale10(x: real, e: int): real
    decreases if e < 0 then -e else e
  {
    if e == 0 then x
    else if e > 0 then Scale10(10.0 * x, e - 1)
    else Scale10(x / 10.0, e + 1)
  }

  function Negate(neg: bool, x: real): real { if neg then -x else x }

  // ---------------------------------------------------------------------
  // parseInt

  predicate HasSign(t: string) { t != [] && (t[0] == '+' || t[0] == '-') }

  /** Whether `t` starts with a minus sign. */
  predicate IsNegative(t: string) { t != [] && t[0] == '-' }

  /** `t` without its leading `+` or `-`, if it has one. */
  function Unsigned(t: string): (u: string)
    ensures u == if HasSign(t) then t[1..] else t
  {
    if HasSign(t) then t[1..] else t
  }

  function SignedInt(neg: bool, n: nat): int { if neg then -(n as int) else n }

  predicate HasHexPrefix(u: string) { |u| >= 2 && u[0] == '0' && (u[1] == 'x' || u[1] == 'X') }

  /** The unsigned part of `parseInt`: the leading digits of `u`, or `None` when there are none. */
  function ParseDigits(u: string, radix10: bool): Option<nat>
  {
    if !radix10 && HasHexPrefix(u) then
      var h := HexRun(u[2..]);
      if h == 0 then None else Some(HexStringValue(u[2..2 + h]))
    else
      var n := DigitRun(u);
      if n == 0 then None else Some(DecimalValue(u[..n]))
  }

  /**
   * `parseInt(s)` when `radix10` is false (a `0x`/`0X` prefix then selects base 16)
   * and `parseInt(s, 10)` when it is true. `None` is NaN: no digit follows the
   * leading white space and sign. Trailing text after the digits is ignored.
   */
  function ParseInt(s: string, radix10: bool): Option<int>
  {
    var t := TrimStart(s);
    match ParseDigits(Unsigned(t), radix10)
    case None => None
    case Some(n) => Some(SignedInt(IsNegative(t), n))
  }

  // ---------------------------------------------------------------------
  // parseFloat

  /**
   * The value of an exponent part `e`/`E`, optional sign, at least one digit, at the
   * start of `s`; 0 when `s` does not start with a complete exponent part (then
   * `parseFloat` stops before the `e`).
   */
  function ExponentValue(s: string): int
  {
    if s != [] && (s[0] == 'e' || s[0] == 'E') then
      var u := Unsigned(s[1..]);
      var n := DigitRun(u);
      if n == 0 then 0 else SignedInt(IsNegative(s[1..]), DecimalValue(u[..n]))
    else 0
  }

  /** The unsigned part of `parseFloat`: `digits [. digits] [exponent]` at the start of `u`. */
  function ParseDecimal(u: string): Option<real>
  {
    var n := DigitRun(u);
    var rest := u[n..];
    var hasDot := rest != [] && rest[0] == '.';
    var f := if hasDot then DigitRun(rest[1..]) else 0;
    if n == 0 && f == 0 then None
    else
      var frac := if hasDot then Scale10(DecimalValue(rest[1..1 + f]) as real, -f) else 0.0;
      var after := if hasDot then rest[1 + f..] else rest;
      Some(Scale10(DecimalValue(u[..n]) as real + frac, ExponentValue(after)))
  }

  /**
   * `parseFloat(s)`: the longest prefix of `s`, after leading white space, that is a
   * decimal literal `[sign] digits [. digits] [exponent]` with at least one digit
   * before or after the point. `None` (NaN) when there is no such prefix.
   */
  function ParseFloat(s: string): JsNum
  {
    var t := TrimStart(s);
    match ParseDecimal(Unsigned(t))
    case None => None
    case Some(x) => Some(if IsNegative(t) then -x else x)
  }

  // ---------------------------------------------------------------------
  // Number arithmetic with NaN and the `||` idiom

  function NumOfInt(i: Option<int>): (r: JsNum)
    ensures r.Some? <==> i.Some?
    ensures i.Some? ==> r.value == i.value as real
  {
    match i
    case None => None
    case Some(v) => Some(v as real)
  }

  /** `a + b`: NaN when either side is NaN. */
  function Add(a: JsNum, b: JsNum): (r: JsNum)
    ensures r.Some? <==> a.Some? && b.Some?
    ensures r.Some? ==> r.value == a.value + b.value
  {
    if a.Some? && b.Some? then Some(a.value + b.value) else None
  }

  /** `a * b`: NaN when either side is NaN. */
  function Mul(a: JsNum, b: JsNum): (r: JsNum)
    ensures r.Some? <==> a.Some? && b.Some?
    ensures r.Some? ==> r.value == a.value * b.value
  {
    if a.Some? && b.Some? then Some(a.value * b.value) else None
  }

  /** `x || d` for a number `x`: NaN and zero (including -0) are falsy, so they give `d`. */
  function NumOr(x: JsNum, d: real): (r: real)
    ensures x.None? ==> r == d
    ensures x.Some? && x.value == 0.0 ==> r == d
    ensures x.Some? && x.value != 0.0 ==> r == x.value
  {
    if x.Some? && x.value != 0.0 then x.value else d
  }

  /** `x || d` for an integer result of `parseInt`. */
  function IntOr(x: Option<int>, d: int): (r: int)
    ensures r == (if x.Some? && x.value != 0 then x.value else d)
    ensures d != 0 ==> r != 0
  {
    if x.Some? && x.value != 0 then x.value else d
  }

  /** `x || d` for a possibly missing string: `undefined`, `null` and `''` are falsy. */
  function StrOr(x: Option<string>, d: string): (r: string)
    ensures x.Some? && x.value != [] ==> r == x.value
    ensures (x.None? || x.value == []) ==> r == d
  {
    if x.Some? && x.value != [] then x.value else d
  }

  // ---------------------------------------------------------------------
  // Decimal rendering, the inverse the parsers are checked against

  function DigitChar(d: nat): (c: char)
    requires d < 10
    ensures IsDigit(c) && DigitValue(c) == d
  {
    ('0' as int + d) as char
  }

  /** The decimal rendering of a natural number, as `String(n)` writes it. */
  function ShowNat(n: nat): (s: string)
    ensures s != [] && AllDigits(s)
    decreases n
  {
    if n < 10 then [DigitChar(n)] else ShowNat(n / 10) + [DigitChar(n % 10)]
  }

  /** The decimal rendering of an integer, with a leading `-` when negative. */
  function ShowInt(i: int): string
  {
    if i < 0 then "-" + ShowNat(-i) else ShowNat(i)
  }

  lemma {:induction false} DecimalValueOfShowNat(n: nat)
    ensures DecimalValue(ShowNat(n)) == n
    decreases n
  {
    var s := ShowNat(n);
    if n >= 10 {
      DecimalValueOfShowNat(n / 10);
      assert s[..|s| - 1] == ShowNat(n / 10);
    }
  }

  /** A run of digits followed by a non-digit is read up to exactly that non-digit. */
  lemma {:induction false} DigitRunOfDigits(d: string, rest: string)
    requires AllDigits(d)
    requires rest == [] || !IsDigit(rest[0])
    ensures DigitRun(d + rest) == |d|
  {
    if d != [] {
      assert (d + rest)[1..] == d[1..] + rest;
      DigitRunOfDigits(d[1..], rest);
    } else {
      assert d + rest == rest;
    }
  }

  /** A string that starts with a digit or a sign is not touched by `trimStart`. */
  lemma TrimStartNoSpace(s: string)
    requires s != [] && !IsSpace(s[0])
    ensures TrimStart(s) == s
  {
  }

  /** A run of digits that `rest` does not continue is read whole, in base 10. */
  lemma ParseDigitsOfRun(d: string, rest: string, radix10: bool)
    requires d != [] && AllDigits(d)
    requires rest == [] || !IsDigit(rest[0])
    requires !radix10 ==> |d| > 1 || d[0] != '0' || rest == [] || (rest[0] != 'x' && rest[0] != 'X')
    ensures ParseDigits(d + rest, radix10) == Some(DecimalValue(d))
  {
    var u := d + rest;
    if |d| > 1 { assert IsDigit(u[1]); } else if rest != [] { assert u[1] == rest[0]; }
    assert !(!radix10 && HasHexPrefix(u));
    DigitRunOfDigits(d, rest);
    assert u[..|d|] == d;
  }

  /** What the parsers see of a rendered integer: no white space, the sign, then the digits. */
  lemma ShowIntParts(i: int, rest: string)
    ensures var s := ShowInt(i) + rest;
            && TrimStart(s) == s
            && IsNegative(s) == (i < 0)
            && Unsigned(s) == ShowNat(if i < 0 then -i else i) + rest
  {
    var s := ShowInt(i) + rest;
    var d := ShowNat(if i < 0 then -i else i);
    if i < 0 {
      assert s == "-" + (d + rest);
      assert s[1..] == d + rest;
    } else {
      assert s == d + rest;
      assert IsDigit(s[0]);
    }
    TrimStartNoSpace(s);
  }

  /** `parseInt(String(i) + rest, 10) === i` whenever `rest` does not continue the number. */
  lemma ParseIntShowInt(i: int, rest: string)
    requires rest == [] || !IsDigit(rest[0])
    ensures ParseInt(ShowInt(i) + rest, true) == Some(i)
  {
    var m := if i < 0 then -i else i;
    ShowIntParts(i, rest);
    ParseDigitsOfRun(ShowNat(m), rest, true);
    DecimalValueOfShowNat(m);
  }

  /** The same round trip without a radix, when `rest` cannot start a hexadecimal prefix either. */
  lemma ParseIntNoRadixShowInt(i: int, rest: string)
    requires rest == [] || (!IsDigit(rest[0]) && rest[0] != 'x' && rest[0] != 'X')
    ensures ParseInt(ShowInt(i) + rest, false) == Some(i)
  {
    var m := if i < 0 then -i else i;
    ShowIntParts(i, rest);
    ParseDigitsOfRun(ShowNat(m), rest, false);
    DecimalValueOfShowNat(m);
  }

  /** A plain run of digits reads as the integer it spells. */
  lemma ParseDecimalOfDigits(d: string)
    requires d != [] && AllDigits(d)
    ensures ParseDecimal(d) == Some(DecimalValue(d) as real)
  {
    DigitRunOfDigits(d, []);
    assert d + [] == d;
    assert d[..|d|] == d && d[|d|..] == [];
    assert ExponentValue([]) == 0;
  }

  /** `parseFloat(String(i)) === i` for every integer. */
  lemma ParseFloatShowInt(i: int)
    ensures ParseFloat(ShowInt(i)) == Some(i as real)
  {
    var m := if i < 0 then -i else i;
    var s := ShowInt(i);
    TrimStartNoSpace(s);
    assert Unsigned(s) == ShowNat(m);
    DecimalValueOfShowNat(m);
    ParseDecimalOfDigits(ShowNat(m));
  }

  /**
   * `parseFloat` fails exactly when, after the white space and the sign, there is
   * neither a digit nor a point followed by a digit.
   */
  lemma ParseFloatNaN(s: string)
    ensures ParseFloat(s).None? <==>
              var u := Unsigned(TrimStart(s));
              (u == [] || !IsDigit(u[0])) && (|u| < 2 || u[0] != '.' || !IsDigit(u[1]))
  {
    var u := Unsigned(TrimStart(s));
    if u != [] && !IsDigit(u[0]) {
      assert DigitRun(u) == 0;
      assert u[0..] == u;
      if u[0] == '.' && |u| >= 2 {
        assert u[1..][0] == u[1];
      }
    }
  }

  /** `parseInt` fails exactly when no digit follows the white space and the sign (radix 10). */
  lemma ParseIntNaN(s: string)
    ensures ParseInt(s, true).None? <==>
              var u := Unsigned(TrimStart(s)); u == [] || !IsDigit(u[0])
  {
  }
}
