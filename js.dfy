/**
 * The small pieces of ECMAScript semantics the utilities rely on:
 * truthiness and `||` on optional values, `parseInt(s, 10)`, the decimal
 * text of an integer, `String.prototype.split` on one character and
 * `toLowerCase` restricted to ASCII.
 *
 * Strings are sequences of Unicode scalar values rather than UTF-16 code
 * units; none of the functions below depends on the difference.
 */
module Js {
  import opened Wrappers

  // ---------------------------------------------------------------------
  // Truthiness

  /** A number option is truthy when it is present and not 0 (NaN is not modelled). */
  predicate NumberTruthy(x: Option<real>) {
    x.Some? && x.value != 0.0
  }

  /** A string option is truthy when it is present and not empty. */
  predicate StringTruthy(s: Option<string>) {
    s.Some? && s.value != ""
  }

  /** A boolean option is truthy when it is present and true. */
  predicate BoolTruthy(b: Option<bool>) {
    b.Some? && b.value
  }

  /** `x || fallback` for a number. */
  function OrNumber(x: Option<real>, fallback: real): real {
    if NumberTruthy(x) then x.value else fallback
  }

  /** `s || fallback` for a string. */
  function OrString(s: Option<string>, fallback: string): string {
    if StringTruthy(s) then s.value else fallback
  }

  // ---------------------------------------------------------------------
  // parseInt(s, 10), ECMA-262 section 19.2.5

  /** StrWhiteSpaceChar: the WhiteSpace and LineTerminator code points of ECMA-262. */
  predicate IsStrWhiteSpace(c: char) {
    var u := c as int;
    u == 0x09 || u == 0x0A || u == 0x0B || u == 0x0C || u == 0x0D || u == 0x20
    || u == 0xA0 || u == 0x1680 || (0x2000 <= u <= 0x200A) || u == 0x2028
    || u == 0x2029 || u == 0x202F || u == 0x205F || u == 0x3000 || u == 0xFEFF
  }

  /** The radix-10 digits. */
  predicate IsDecimalDigit(c: char) {
    '0' <= c <= '9'
  }

  predicate AllDigits(s: string) {
    forall i :: 0 <= i < |s| ==> IsDecimalDigit(s[i])
  }

  predicate AllWhiteSpace(s: string) {
    forall i :: 0 <= i < |s| ==> IsStrWhiteSpace(s[i])
  }

  /** The input with its leading white space removed (step 2 of parseInt). */
  function TrimStart(s: string): (r: string)
    ensures |r| <= |s| && r == s[|s| - |r|..]
    ensures AllWhiteSpace(s[..|s| - |r|])
    ensures r == "" || !IsStrWhiteSpace(r[0])
  {
    if s != "" && IsStrWhiteSpace(s[0]) then TrimStart(s[1..]) else s
  }

  /** The longest prefix of radix-10 digits (step 11 of parseInt). */
  function DigitPrefix(s: string): (r: string)
    ensures r <= s && AllDigits(r)
    ensures |r| == |s| || !IsDecimalDigit(s[|r|])
  {
    if s != "" && IsDecimalDigit(s[0]) then [s[0]] + DigitPrefix(s[1..]) else ""
  }

  function DigitValue(c: char): (d: nat)
    requires IsDecimalDigit(c)
    ensures d < 10
  {
    c as int - '0' as int
  }

  /** The mathematical value of a string of digits, most significant first. */
  function DigitsValue(digits: string): nat
    requires AllDigits(digits)
  {
    if digits == "" then 0
    else DigitsValue(digits[..|digits| - 1]) * 10 + DigitValue(digits[|digits| - 1])
  }

  /**
   * `parseInt(s, 10)`; `None` is NaN. Leading white space is skipped, one
   * sign is accepted, and the longest run of decimal digits after it is
   * read; anything after that run is ignored. `-0` is represented by 0.
   */
  function ParseInt10(s: string): (r: Option<int>)
    ensures var t := TrimStart(s);
      var u := if t != "" && (t[0] == '-' || t[0] == '+') then t[1..] else t;
      r.Some? <==> u != "" && IsDecimalDigit(u[0])
    ensures r.Some? && r.value < 0 ==> TrimStart(s)[0] == '-'
  {
    ParseSigned(TrimStart(s))
  }

  /** Steps 3 to 16 of parseInt, on text whose leading white space is gone: one optional sign. */
  function ParseSigned(t: string): Option<int> {
    if t != "" && t[0] == '-' then
      match ParseUnsigned(t[1..])
      case None => None
      case Some(v) => Some(-(v as int))
    else if t != "" && t[0] == '+' then ParseUnsigned(t[1..])
    else ParseUnsigned(t)
  }

  /** The longest run of leading digits, read as a number; `None` when there is none. */
  function ParseUnsigned(u: string): Option<nat> {
    var z := DigitPrefix(u);
    if z == "" then None else Some(DigitsValue(z))
  }

  // ---------------------------------------------------------------------
  // Decimal text of an integer

  function DigitChar(d: nat): (c: char)
    requires d < 10
    ensures IsDecimalDigit(c) && DigitValue(c) == d
  {
    ('0' as int + d) as char
  }

  /** The shortest decimal text of a natural number. */
  function NaturalText(n: nat): (s: string)
    ensures |s| >= 1 && AllDigits(s)
  {
    if n < 10 then [DigitChar(n)] else NaturalText(n / 10) + [DigitChar(n % 10)]
  }

  /** What JavaScript prints for an integral number of magnitude below 10^21. */
  function IntegerText(n: int): (s: string)
    ensures |s| >= 1 && (IsDecimalDigit(s[0]) || s[0] == '-')
  {
    if n < 0 then "-" + NaturalText(-n) else NaturalText(n)
  }

  lemma {:induction false} DigitsValueOfText(n: nat)
    ensures DigitsValue(NaturalText(n)) == n
  {
    if n >= 10 {
      var s := NaturalText(n);
      assert s[..|s| - 1] == NaturalText(n / 10);
      DigitsValueOfText(n / 10);
    }
  }

  lemma {:induction false} TrimStartSkips(ws: string, s: string)
    requires AllWhiteSpace(ws)
    requires s == "" || !IsStrWhiteSpace(s[0])
    ensures TrimStart(ws + s) == s
  {
    if ws != "" {
      assert (ws + s)[1..] == ws[1..] + s;
      TrimStartSkips(ws[1..], s);
    }
  }

  lemma {:induction false} DigitPrefixStops(digits: string, rest: string)
    requires AllDigits(digits)
    requires rest == "" || !IsDecimalDigit(rest[0])
    ensures DigitPrefix(digits + rest) == digits
  {
    if digits != "" {
      assert (digits + rest)[1..] == digits[1..] + rest;
      DigitPrefixStops(digits[1..], rest);
    }
  }

  /**
   * parseInt reads back the decimal text of any integer, whatever white
   * space precedes it and whatever non-digit text follows it.
   */
  lemma ParseIntOfIntegerText(ws: string, n: int, rest: string)
    requires AllWhiteSpace(ws)
    requires rest == "" || !IsDecimalDigit(rest[0])
    ensures ParseInt10(ws + IntegerText(n) + rest) == Some(n)
  {
    var t := IntegerText(n) + rest;
    assert ws + IntegerText(n) + rest == ws + t;
    TrimStartSkips(ws, t);
    ParseSignedOfIntegerText(n, rest);
  }

  lemma ParseSignedOfIntegerText(n: int, rest: string)
    requires rest == "" || !IsDecimalDigit(rest[0])
    ensures ParseSigned(IntegerText(n) + rest) == Some(n)
  {
    if n < 0 {
      ParseSignedOfNegativeText(n, rest);
    } else {
      ParseSignedOfNaturalText(n, rest);
    }
  }

  lemma ParseSignedOfNaturalText(n: nat, rest: string)
    requires rest == "" || !IsDecimalDigit(rest[0])
    ensures ParseSigned(NaturalText(n) + rest) == Some(n)
  {
    var digits := NaturalText(n);
    UnsignedOfNaturalText(n, rest);
    assert (digits + rest)[0] == digits[0];
    ParseNonNegative(digits + rest, n);
  }

  lemma ParseSignedOfNegativeText(n: int, rest: string)
    requires n < 0
    requires rest == "" || !IsDecimalDigit(rest[0])
    ensures ParseSigned(IntegerText(n) + rest) == Some(n)
  {
    var u := NaturalText(-n) + rest;
    UnsignedOfNaturalText(-n, rest);
    ParseNegative(u, -n);
    assert IntegerText(n) + rest == ['-'] + u;
  }

  /** The digits of a natural number, followed by a non-digit or nothing, read back as that number. */
  lemma UnsignedOfNaturalText(n: nat, rest: string)
    requires rest == "" || !IsDecimalDigit(rest[0])
    ensures ParseUnsigned(NaturalText(n) + rest) == Some(n)
  {
    DigitsValueOfText(n);
    ParseUnsignedStops(NaturalText(n), rest);
  }

  /** Text that starts with a digit is read without a sign. */
  lemma ParseNonNegative(u: string, v: nat)
    requires u != "" && IsDecimalDigit(u[0]) && ParseUnsigned(u) == Some(v)
    ensures ParseSigned(u) == Some(v)
  {
  }

  /** A leading minus negates what follows it. */
  lemma ParseNegative(u: string, v: nat)
    requires ParseUnsigned(u) == Some(v)
    ensures ParseSigned(['-'] + u) == Some(-(v as int))
  {
    var t := ['-'] + u;
    assert t[0] == '-' && t[1..] == u;
  }

  lemma ParseUnsignedStops(digits: string, rest: string)
    requires digits != "" && AllDigits(digits)
    requires rest == "" || !IsDecimalDigit(rest[0])
    ensures ParseUnsigned(digits + rest) == Some(DigitsValue(digits))
  {
    DigitPrefixStops(digits, rest);
  }

  /** parseInt gives NaN when the first non-blank character is neither a sign nor a digit. */
  lemma ParseIntNaN(ws: string, s: string)
    requires AllWhiteSpace(ws)
    requires s == "" || !(IsStrWhiteSpace(s[0]) || IsDecimalDigit(s[0]) || s[0] == '-' || s[0] == '+')
    ensures ParseInt10(ws + s) == None
  {
    TrimStartSkips(ws, s);
  }

  // ---------------------------------------------------------------------
  // toLowerCase on ASCII

  predicate IsUpper(c: char) {
    'A' <= c <= 'Z'
  }

  /** Text with no upper-case ASCII letter. */
  predicate NoUpper(s: string) {
    forall i :: 0 <= i < |s| ==> !IsUpper(s[i])
  }

  /** Two characters that are equal, or the same ASCII letter in the two cases. */
  predicate SameIgnoringCase(c: char, d: char) {
    c == d || (IsUpper(c) && d as int == c as int + 32) || (IsUpper(d) && c as int == d as int + 32)
  }

  /** Two texts that differ at most in the case of ASCII letters. */
  predicate EqualIgnoringCase(a: string, b: string) {
    |a| == |b| && forall i :: 0 <= i < |a| ==> SameIgnoringCase(a[i], b[i])
  }

  function LowerChar(c: char): char {
    if IsUpper(c) then (c as int + 32) as char else c
  }

  /**
   * `toLowerCase`, folding only A-Z. Every lookup key used with it is
   * ASCII, and U+212A (which lowers to `k`) is the only non-ASCII
   * character whose lower case is entirely ASCII, so lookups through it
   * agree with full folding.
   * The result is the one text equal to `s` up to case with no upper-case
   * letter left; text that has none is unchanged.
   */
  function LowerCase(s: string): (r: string)
    ensures NoUpper(r)
    ensures EqualIgnoringCase(r, s)
    ensures NoUpper(s) ==> r == s
  {
    seq(|s|, i requires 0 <= i < |s| => LowerChar(s[i]))
  }

  /** Two texts lower to the same text exactly when they differ only in letter case. */
  lemma LowerCaseIgnoresCase(a: string, b: string)
    ensures LowerCase(a) == LowerCase(b) <==> EqualIgnoringCase(a, b)
  {
    if LowerCase(a) == LowerCase(b) {
      forall i | 0 <= i < |a|
        ensures SameIgnoringCase(a[i], b[i])
      {
        assert LowerChar(a[i]) == LowerCase(a)[i] == LowerCase(b)[i] == LowerChar(b[i]);
      }
    }
    if EqualIgnoringCase(a, b) {
      assert forall i :: 0 <= i < |a| ==> LowerCase(a)[i] == LowerCase(b)[i];
    }
  }

  // ---------------------------------------------------------------------
  // String.prototype.split on one character

  /** The pieces glued back together with the separator between them. */
  function Join(parts: seq<string>, sep: char): string
    requires |parts| >= 1
  {
    if |parts| == 1 then parts[0] else parts[0] + [sep] + Join(parts[1..], sep)
  }

  /**
   * `s.split(sep)`: the unique list of separator-free pieces that joins
   * back to `s` (an empty input gives one empty piece).
   */
  function Split(s: string, sep: char): (parts: seq<string>)
    ensures |parts| >= 1
    ensures forall i :: 0 <= i < |parts| ==> sep !in parts[i]
    ensures Join(parts, sep) == s
  {
    if s == "" then [""]
    else
      var rest := Split(s[1..], sep);
      if s[0] == sep then
        assert ([""] + rest)[1..] == rest;
        [""] + rest
      else
        var parts := [[s[0]] + rest[0]] + rest[1..];
        assert |rest| > 1 ==> parts[1..] == rest[1..];
        assert s == [s[0]] + s[1..];
        parts
  }

  /** Splitting at the first separator peels off the text before it. */
  lemma {:induction false} SplitAtFirst(a: string, b: string, sep: char)
    requires sep !in a
    ensures Split(a + [sep] + b, sep) == [a] + Split(b, sep)
  {
    if a == "" {
      assert a + [sep] + b == [sep] + b;
      assert ([sep] + b)[1..] == b;
    } else {
      assert (a + [sep] + b)[1..] == a[1..] + [sep] + b;
      SplitAtFirst(a[1..], b, sep);
      assert [a[0]] + a[1..] == a;
    }
  }

  /** Text without the separator comes back as a single piece. */
  lemma {:induction false} SplitWithout(a: string, sep: char)
    ensures sep !in a ==> Split(a, sep) == [a]
  {
    if a != "" && sep !in a {
      SplitWithout(a[1..], sep);
      assert [a[0]] + a[1..] == a;
    }
  }
}
