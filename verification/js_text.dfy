/**
 * The JavaScript string built-ins the application relies on: the white-space
 * class shared by `\s` and `String.prototype.trim`, trimming, the truthiness of
 * strings, decimal rendering of a non-negative integer (template literals and
 * `toString()`), and `parseInt` with no radix argument.
 */
module JsText {
  import opened Wrappers

  /** The characters that `\s` matches and that `trim` removes (WhiteSpace and LineTerminator). */
  predicate IsWhitespace(c: char) {
    || c == '\t' || c == '\n' || c == '\U{000B}' || c == '\U{000C}' || c == '\r'
    || c == ' ' || c == '\U{00A0}' || c == '\U{1680}'
    || ('\U{2000}' <= c <= '\U{200A}')
    || c == '\U{2028}' || c == '\U{2029}' || c == '\U{202F}' || c == '\U{205F}'
    || c == '\U{3000}' || c == '\U{FEFF}'
  }

  /** Every character of `s` is white space (the empty string included). */
  predicate Blank(s: string) {
    forall k | 0 <= k < |s| :: IsWhitespace(s[k])
  }

  /** A string is truthy exactly when it is not empty. */
  predicate IsTruthy(s: string) {
    s != ""
  }

  /** An optional string field is truthy when present and not empty. */
  predicate IsTruthyField(o: Option<string>) {
    o.Some? && o.value != ""
  }

  /**
   * A decoded JSON field that the code only tests for truthiness, passes on,
   * or interpolates: missing (`undefined` or `null`), a string, or any other
   * value (a number, a boolean, an array, an object), which keeps whether it
   * is truthy and its `String(...)` text.
   */
  datatype JsValue = Missing | Str(s: string) | Other(truthy: bool, text: string) {
    predicate IsTruthy() {
      match this
      case Missing => false
      case Str(s) => s != ""
      case Other(truthy, _) => truthy
    }
  }

  /** A field whose declared type is `string | undefined`. */
  function FromOption(o: Option<string>): (v: JsValue)
    ensures v.IsTruthy() <==> IsTruthyField(o)
    ensures v.Missing? <==> o.None?
  {
    match o
    case None => Missing
    case Some(s) => Str(s)
  }

  /** `a || b`: `a` when it is truthy, `b` otherwise. */
  function Or(a: JsValue, b: JsValue): (r: JsValue)
    ensures r.IsTruthy() <==> a.IsTruthy() || b.IsTruthy()
    ensures a.IsTruthy() ==> r == a
    ensures !a.IsTruthy() ==> r == b
  {
    if a.IsTruthy() then a else b
  }

  /** `${v}` inside a template literal, for a value that is defined. */
  function Interpolated(v: JsValue): (t: string)
    requires !v.Missing?
    ensures v.Str? ==> t == v.s
    ensures v.Other? ==> t == v.text
  {
    match v
    case Str(s) => s
    case Other(_, text) => text
  }

  /** The number of white-space characters at the start of `s`. */
  function LeadingBlank(s: string): (n: nat)
    ensures n <= |s|
    ensures forall k | 0 <= k < n :: IsWhitespace(s[k])
    ensures n < |s| ==> !IsWhitespace(s[n])
  {
    if s != [] && IsWhitespace(s[0]) then 1 + LeadingBlank(s[1..]) else 0
  }

  /** The number of white-space characters at the end of `s`. */
  function TrailingBlank(s: string): (n: nat)
    ensures n <= |s|
    ensures forall k | |s| - n <= k < |s| :: IsWhitespace(s[k])
    ensures n < |s| ==> !IsWhitespace(s[|s| - 1 - n])
  {
    if s != [] && IsWhitespace(s[|s| - 1]) then 1 + TrailingBlank(s[..|s| - 1]) else 0
  }

  /** `s.trimStart()`: the suffix of `s` left after dropping its leading white space. */
  function TrimStart(s: string): (r: string)
    ensures |r| <= |s| && r == s[|s| - |r|..]
    ensures Blank(s[..|s| - |r|])
    ensures r == [] || !IsWhitespace(r[0])
  {
    var n := LeadingBlank(s);
    assert forall k | 0 <= k < n :: s[..n][k] == s[k];
    s[n..]
  }

  /** `s.trimEnd()`: the prefix of `s` left after dropping its trailing white space. */
  function TrimEnd(s: string): (r: string)
    ensures |r| <= |s| && r == s[..|r|]
    ensures Blank(s[|r|..])
    ensures r == [] || !IsWhitespace(r[|r| - 1])
  {
    var n := TrailingBlank(s);
    var tail := s[|s| - n..];
    forall k | 0 <= k < |tail| ensures IsWhitespace(tail[k]) {
      assert tail[k] == s[|s| - n + k];
    }
    s[..|s| - n]
  }

  /** `r` sits at offset `i` of `s` with only white space before and after it. */
  predicate Surrounded(s: string, i: int, r: string) {
    0 <= i <= |s| - |r| && r == s[i..i + |r|] && Blank(s[..i]) && Blank(s[i + |r|..])
  }

  /**
   * `s.trim()`: a contiguous piece of `s` with only white space around it,
   * itself neither starting nor ending with white space; it is empty exactly
   * when `s` is blank.
   */
  function Trim(s: string): (r: string)
    ensures exists i :: Surrounded(s, i, r)
    ensures r == [] || (!IsWhitespace(r[0]) && !IsWhitespace(r[|r| - 1]))
    ensures r == [] <==> Blank(s)
  {
    var t := TrimStart(s);
    var r := TrimEnd(t);
    TrimSurrounded(s, t, r);
    assert r == [] || r[0] == t[0];
    r
  }

  /** The pieces that `trimStart` and `trimEnd` leave, put together. */
  lemma TrimSurrounded(s: string, t: string, r: string)
    requires |t| <= |s| && t == s[|s| - |t|..] && Blank(s[..|s| - |t|])
    requires t == [] || !IsWhitespace(t[0])
    requires |r| <= |t| && r == t[..|r|] && Blank(t[|r|..])
    ensures Surrounded(s, |s| - |t|, r)
    ensures r == [] <==> Blank(s)
  {
    var i := |s| - |t|;
    assert s[i + |r|..] == t[|r|..];
    if r == [] {
      assert t[|r|..] == t;
      BlankSplit(s, i);
    } else {
      assert r[0] == t[0] == s[i];
    }
  }

  /** A string is blank exactly when both pieces of any split of it are. */
  lemma BlankSplit(s: string, i: nat)
    requires i <= |s|
    ensures Blank(s) <==> Blank(s[..i]) && Blank(s[i..])
  {
    if Blank(s[..i]) && Blank(s[i..]) {
      forall k | 0 <= k < |s| ensures IsWhitespace(s[k]) {
        if k < i { assert s[k] == s[..i][k]; } else { assert s[k] == s[i..][k - i]; }
      }
    }
  }

  function DigitChar(d: nat): (c: char)
    requires d < 10
    ensures '0' <= c <= '9'
  {
    ('0' as int + d) as char
  }

  /** The decimal rendering of `n`, as `${n}` produces it: digits only, no leading zero. */
  function NatToString(n: nat): (r: string)
    ensures |r| >= 1
    ensures forall k | 0 <= k < |r| :: '0' <= r[k] <= '9'
    ensures r[0] == '0' ==> n == 0 && r == "0"
  {
    if n < 10 then [DigitChar(n)] else NatToString(n / 10) + [DigitChar(n % 10)]
  }

  /** The value `parseInt` produces: an integer or NaN. */
  datatype ParsedInt = Int(value: int) | NaN {
    /** NaN and zero are falsy. */
    predicate IsTruthy() {
      Int? && value != 0
    }
  }

  /** The value of `c` as a digit in base `radix` (10 or 16), if it is one. */
  function DigitValue(c: char, radix: nat): (d: Option<nat>)
    ensures d.Some? ==> d.value < radix
  {
    var v :=
      if '0' <= c <= '9' then c as int - '0' as int
      else if 'a' <= c <= 'z' then c as int - 'a' as int + 10
      else if 'A' <= c <= 'Z' then c as int - 'A' as int + 10
      else radix;
    if v < radix then Some(v) else None
  }

  /** The length of the longest prefix of `s` made of digits of base `radix`. */
  function DigitRunLength(s: string, radix: nat): (n: nat)
    ensures n <= |s|
    ensures forall k | 0 <= k < n :: DigitValue(s[k], radix).Some?
    ensures n < |s| ==> DigitValue(s[n], radix).None?
  {
    if s != [] && DigitValue(s[0], radix).Some? then 1 + DigitRunLength(s[1..], radix) else 0
  }

  /** The number that the digit string `ds` denotes in base `radix`, most significant first. */
  function DigitsValue(ds: string, radix: nat): nat
    requires forall k | 0 <= k < |ds| :: DigitValue(ds[k], radix).Some?
  {
    if ds == [] then 0
    else DigitsValue(ds[..|ds| - 1], radix) * radix + DigitValue(ds[|ds| - 1], radix).value
  }

  /** The value of the longest run of base-`radix` digits at the start of `v`; NaN if there is none. */
  function LeadingDigitsValue(v: string, radix: nat): (r: ParsedInt)
    ensures r.Int? ==> r.value >= 0
  {
    var n := DigitRunLength(v, radix);
    if n == 0 then NaN else Int(DigitsValue(v[..n], radix))
  }

  /** The unsigned part: a `0x`/`0X` prefix selects base 16, anything else is read in base 10. */
  function ParseMagnitude(u: string): ParsedInt {
    if |u| >= 2 && u[0] == '0' && (u[1] == 'x' || u[1] == 'X') then LeadingDigitsValue(u[2..], 16)
    else LeadingDigitsValue(u, 10)
  }

  /**
   * `parseInt(s)` with no radix: leading white space is skipped, one sign is
   * read, a `0x`/`0X` prefix selects base 16, and the longest run of digits
   * that follows is the value; with no digit at all the result is NaN.
   */
  function ParseInt(s: string): ParsedInt {
    var t := TrimStart(s);
    if t != [] && t[0] == '-' then
      match ParseMagnitude(t[1..])
      case Int(m) => Int(-m)
      case NaN => NaN
    else if t != [] && t[0] == '+' then ParseMagnitude(t[1..])
    else ParseMagnitude(t)
  }

  /**
   * Reading back a rendered number gives the number, whatever follows it so
   * long as that does not continue the numeral: `parseInt(`${n}` + rest) === n`.
   */
  lemma {:induction false} ParseIntOfNatToString(n: nat, rest: string)
    requires rest == [] || (DigitValue(rest[0], 10).None? && rest[0] != 'x' && rest[0] != 'X')
    ensures ParseInt(NatToString(n) + rest) == Int(n)
  {
    DigitsValueOfNatToString(n);
    ParseIntOfDigits(NatToString(n), rest);
  }

  /** Distinct numbers render differently. */
  lemma NatToStringInjective(i: nat, j: nat)
    ensures NatToString(i) == NatToString(j) ==> i == j
  {
    ParseIntOfNatToString(i, []);
    ParseIntOfNatToString(j, []);
    assert NatToString(i) + [] == NatToString(i);
    assert NatToString(j) + [] == NatToString(j);
  }

  /** A decimal numeral without a leading zero, followed by a non-digit, parses to the number it denotes. */
  lemma ParseIntOfDigits(s: string, rest: string)
    requires s != [] && forall k | 0 <= k < |s| :: '0' <= s[k] <= '9'
    requires |s| >= 2 ==> s[0] != '0'
    requires rest == [] || (DigitValue(rest[0], 10).None? && rest[0] != 'x' && rest[0] != 'X')
    ensures forall k | 0 <= k < |s| :: DigitValue(s[k], 10).Some?
    ensures ParseInt(s + rest) == Int(DigitsValue(s, 10))
  {
    var t := s + rest;
    DecimalDigitValues(s);
    assert t[0] == s[0];
    ParseIntOfUnsigned(t);
    assert |s| == 1 ==> rest == t[1..];
    assert !(|t| >= 2 && t[0] == '0' && (t[1] == 'x' || t[1] == 'X'));
    DigitsThenRun(s, rest);
    assert t[..|s|] == s;
  }

  /** Input that starts with a digit has no white space or sign to skip. */
  lemma ParseIntOfUnsigned(t: string)
    requires t != [] && '0' <= t[0] <= '9'
    ensures ParseInt(t) == ParseMagnitude(t)
  {
    assert LeadingBlank(t) == 0;
    assert TrimStart(t) == t;
  }

  lemma DecimalDigitValues(s: string)
    requires forall k | 0 <= k < |s| :: '0' <= s[k] <= '9'
    ensures forall k | 0 <= k < |s| :: DigitValue(s[k], 10).Some?
  {
  }

  lemma {:induction false} DigitsThenRun(s: string, rest: string)
    requires forall k | 0 <= k < |s| :: '0' <= s[k] <= '9'
    requires rest == [] || DigitValue(rest[0], 10).None?
    ensures DigitRunLength(s + rest, 10) == |s|
  {
    if s == [] {
      assert s + rest == rest;
    } else {
      assert (s + rest)[0] == s[0];
      assert (s + rest)[1..] == s[1..] + rest;
      DigitsThenRun(s[1..], rest);
    }
  }

  lemma {:induction false} DigitsValueOfNatToString(n: nat)
    ensures forall k | 0 <= k < |NatToString(n)| :: DigitValue(NatToString(n)[k], 10).Some?
    ensures DigitsValue(NatToString(n), 10) == n
  {
    var s := NatToString(n);
    if n < 10 {
      DigitValueOfDigitChar(n);
    } else {
      var prefix := NatToString(n / 10);
      DigitsValueOfNatToString(n / 10);
      DigitValueOfDigitChar(n % 10);
      assert s == prefix + [DigitChar(n % 10)];
      assert s[..|s| - 1] == prefix;
      assert DigitsValue(s, 10) == DigitsValue(prefix, 10) * 10 + n % 10;
    }
  }

  lemma DigitValueOfDigitChar(d: nat)
    requires d < 10
    ensures DigitValue(DigitChar(d), 10) == Some(d)
  {
  }

  /** `text ? parseInt(text) : none`, as number inputs are read: empty text gives no number. */
  function ParseNonEmpty(text: string): (r: Option<ParsedInt>)
    ensures r.None? <==> text == ""
    ensures r.Some? ==> r.value == ParseInt(text)
  {
    if text == "" then None else Some(ParseInt(text))
  }

  /** Typing a number in gives exactly that number. */
  lemma ParseNonEmptyOfNumber(n: nat)
    ensures ParseNonEmpty(NatToString(n)) == Some(Int(n))
  {
    ParseIntOfNatToString(n, []);
    assert NatToString(n) + [] == NatToString(n);
  }

  /** A blank input (the empty string included) parses to NaN. */
  lemma ParseIntOfBlank(s: string)
    requires Blank(s)
    ensures ParseInt(s) == NaN
  {
    assert TrimStart(s) == [];
  }
}
