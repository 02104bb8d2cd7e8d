/** The JavaScript built-ins that the payslip core relies on: the `\s` and `\d`
    character classes, `parseInt`/`parseFloat` in base 10, `Number#toString`,
    `String#padStart`, `String#replace(/,/g, "")`, `String#split(/\s+/)` and
    `Array#findIndex`. Strings are sequences of Unicode characters. */
module Js {
  import opened Wrappers

  /** `\s` of a regular expression, and the white space `parseInt` and
      `parseFloat` skip: ECMAScript's WhiteSpace and LineTerminator characters. */
  predicate IsSpace(c: char) {
    || c == '\t' || c == '\n' || c == '\U{000B}' || c == '\U{000C}' || c == '\r'
    || c == ' ' || c == '\U{00A0}' || c == '\U{1680}'
    || ('\U{2000}' <= c <= '\U{200A}')
    || c == '\U{2028}' || c == '\U{2029}' || c == '\U{202F}' || c == '\U{205F}'
    || c == '\U{3000}' || c == '\U{FEFF}'
  }

  predicate IsNotSpace(c: char) { !IsSpace(c) }

  /** `\d` without the `u` flag: the ASCII digits only. */
  predicate IsDigit(c: char) { '0' <= c <= '9' }

  predicate AllDigits(s: string) {
    forall i :: 0 <= i < |s| ==> IsDigit(s[i])
  }

  predicate NoSpace(s: string) {
    forall i :: 0 <= i < |s| ==> !IsSpace(s[i])
  }

  /** Length of the longest prefix of `s` whose characters all satisfy `p`. */
  function SpanLength(s: string, p: char -> bool): (n: nat)
    ensures n <= |s|
    ensures forall i :: 0 <= i < n ==> p(s[i])
    ensures n < |s| ==> !p(s[n])
  {
    if s == [] || !p(s[0]) then 0 else 1 + SpanLength(s[1..], p)
  }

  function DigitValue(c: char): nat
    requires IsDigit(c)
  {
    (c as int) - ('0' as int)
  }

  function DigitChar(d: nat): (c: char)
    requires d < 10
    ensures IsDigit(c) && DigitValue(c) == d
  {
    ('0' as int + d) as char
  }

  /** The number a decimal digit string denotes, most significant digit first. */
  function DigitsValue(s: string): nat
    requires AllDigits(s)
  {
    if s == [] then 0 else DigitsValue(s[..|s| - 1]) * 10 + DigitValue(s[|s| - 1])
  }

  /** `Number#toString()` of a non-negative integer: its shortest decimal digits. */
  function NatToString(n: nat): (s: string)
    ensures |s| > 0 && AllDigits(s) && DigitsValue(s) == n
    ensures |s| == 1 <==> n < 10
  {
    if n < 10 then [DigitChar(n)]
    else
      var prefix := NatToString(n / 10);
      var s := prefix + [DigitChar(n % 10)];
      assert s[..|s| - 1] == prefix;
      s
  }

  /** `Number#toString()` of an integer. */
  function IntToString(i: int): (s: string)
    ensures |s| > 0
    ensures i < 0 <==> s[0] == '-'
  {
    if i < 0 then "-" + NatToString(-i) else NatToString(i)
  }

  /** `String#padStart(targetLength, fill)` with a one-character fill string. */
  function PadStart(s: string, targetLength: nat, fill: char): (r: string)
    ensures |r| == if |s| < targetLength then targetLength else |s|
    ensures r[|r| - |s|..] == s
    ensures forall i :: 0 <= i < |r| - |s| ==> r[i] == fill
  {
    if |s| >= targetLength then s
    else
      var padding := seq(targetLength - |s|, _ => fill);
      assert (padding + s)[|padding|..] == s;
      padding + s
  }

  /** `String#trimStart()` as `parseInt` and `parseFloat` apply it. */
  function TrimStart(s: string): (t: string)
    ensures |t| <= |s| && t == s[|s| - |t|..]
    ensures forall i :: 0 <= i < |s| - |t| ==> IsSpace(s[i])
    ensures |t| > 0 ==> !IsSpace(t[0])
  {
    s[SpanLength(s, IsSpace)..]
  }

  /** `s.replace(/,/g, "")`: digits and commas leave only digits; the rest
      of what it keeps is stated by the lemmas below it. */
  function RemoveCommas(s: string): (t: string)
    ensures |t| <= |s|
    ensures (forall i :: 0 <= i < |s| ==> IsDigit(s[i]) || s[i] == ',') ==> AllDigits(t)
  {
    if s == [] then [] else (if s[0] == ',' then [] else [s[0]]) + RemoveCommas(s[1..])
  }

  /** No comma is left. */
  lemma {:induction false} RemoveCommasDropsCommas(s: string)
    ensures forall i :: 0 <= i < |RemoveCommas(s)| ==> RemoveCommas(s)[i] != ','
  {
    if s != [] {
      RemoveCommasDropsCommas(s[1..]);
    }
  }

  /** Text without commas is unchanged. */
  lemma {:induction false} RemoveCommasWithoutCommas(s: string)
    requires forall i :: 0 <= i < |s| ==> s[i] != ','
    ensures RemoveCommas(s) == s
  {
    if s != [] {
      assert forall i :: 0 <= i < |s[1..]| ==> s[1..][i] == s[i + 1];
      RemoveCommasWithoutCommas(s[1..]);
    }
  }

  /** No digit is made from text without digits. */
  lemma {:induction false} RemoveCommasWithoutDigits(s: string)
    requires forall i :: 0 <= i < |s| ==> !IsDigit(s[i])
    ensures forall i :: 0 <= i < |RemoveCommas(s)| ==> !IsDigit(RemoveCommas(s)[i])
  {
    if s != [] {
      assert forall i :: 0 <= i < |s[1..]| ==> s[1..][i] == s[i + 1];
      RemoveCommasWithoutDigits(s[1..]);
    }
  }

  /** No digit is lost: text with a digit keeps at least one character. */
  lemma {:induction false} RemoveCommasKeepsDigits(s: string, k: nat)
    requires k < |s| && IsDigit(s[k])
    ensures |RemoveCommas(s)| > 0
  {
    if k > 0 {
      assert IsDigit(s[1..][k - 1]);
      RemoveCommasKeepsDigits(s[1..], k - 1);
    }
  }

  /** Concatenation is associative (stated once, so that proofs can name
      the step). */
  lemma ConcatAssoc(x: string, y: string, z: string)
    ensures x + (y + z) == (x + y) + z
  {
  }

  /** Dropping the commas works piece by piece. */
  lemma {:induction false} RemoveCommasAppend(a: string, b: string)
    ensures RemoveCommas(a + b) == RemoveCommas(a) + RemoveCommas(b)
  {
    if a == [] {
      assert a + b == b;
    } else {
      var x := if a[0] == ',' then [] else [a[0]];
      assert (a + b)[0] == a[0];
      assert (a + b)[1..] == a[1..] + b;
      calc {
        RemoveCommas(a + b);
        x + RemoveCommas(a[1..] + b);
        { RemoveCommasAppend(a[1..], b); }
        x + (RemoveCommas(a[1..]) + RemoveCommas(b));
        { ConcatAssoc(x, RemoveCommas(a[1..]), RemoveCommas(b)); }
        RemoveCommas(a) + RemoveCommas(b);
      }
    }
  }

  /** `parseInt(s, 10)`; None stands for NaN. */
  function ParseInt(s: string): Option<int>
  {
    var t := TrimStart(s);
    var negative := |t| > 0 && t[0] == '-';
    var u := if |t| > 0 && (t[0] == '-' || t[0] == '+') then t[1..] else t;
    var n := SpanLength(u, IsDigit);
    if n == 0 then None
    else
      var magnitude: int := DigitsValue(u[..n]);
      Some(if negative then -magnitude else magnitude)
  }

  /** `parseInt(s, 10) || 0`: NaN becomes 0. */
  function ParseIntOrZero(s: string): int {
    ParseInt(s).GetOr(0)
  }

  function Pow10(k: nat): (p: nat)
    ensures p >= 1
  {
    if k == 0 then 1 else 10 * Pow10(k - 1)
  }

  /** `k` decimal digits stay below `10^k`. */
  lemma {:induction false} DigitsValueBound(s: string)
    requires AllDigits(s)
    ensures DigitsValue(s) < Pow10(|s|)
  {
    if s != [] {
      DigitsValueBound(s[..|s| - 1]);
    }
  }

  /** Appending digits shifts the value of the leading ones. */
  lemma {:induction false} DigitsValueAppend(a: string, b: string)
    requires AllDigits(a) && AllDigits(b)
    ensures DigitsValue(a + b) == DigitsValue(a) * Pow10(|b|) + DigitsValue(b)
  {
    if b == [] {
      assert a + b == a;
    } else {
      var c := a + b;
      var b' := b[..|b| - 1];
      assert c[..|c| - 1] == a + b';
      assert c[|c| - 1] == b[|b| - 1];
      DigitsValueAppend(a, b');
      ShiftDigit(DigitsValue(a), Pow10(|b'|), DigitsValue(b'), DigitValue(b[|b| - 1]));
    }
  }

  lemma ShiftDigit(x: int, p: int, y: int, d: int)
    ensures (x * p + y) * 10 + d == x * (10 * p) + (y * 10 + d)
  {
  }

  /** The value of the digits after a decimal point. */
  function Fraction(digits: string): (r: real)
    requires AllDigits(digits)
    ensures 0.0 <= r
  {
    (DigitsValue(digits) as real) / (Pow10(|digits|) as real)
  }

  /** The unsigned decimal `digits[.digits]` at the start of `u`, if any;
      either part may be empty, but not both. */
  function UnsignedDecimal(u: string): Option<real> {
    var n := SpanLength(u, IsDigit);
    if n < |u| && u[n] == '.' then PointAndFraction(u[..n], u[n + 1..])
    else if n == 0 then None
    else Some(DigitsValue(u[..n]) as real)
  }

  /** The decimal with whole part `whole` and the digits that start `rest`
      after the point. */
  function PointAndFraction(whole: string, rest: string): Option<real>
    requires AllDigits(whole)
  {
    var f := SpanLength(rest, IsDigit);
    if |whole| == 0 && f == 0 then None
    else Some(DigitsValue(whole) as real + Fraction(rest[..f]))
  }

  /** `parseFloat(s)` for the plain decimal notation `[+-]digits[.digits]`,
      `[+-].digits` or `[+-]digits.`, after leading white space;
      None stands for NaN. */
  function ParseFloat(s: string): Option<real>
  {
    var t := TrimStart(s);
    var negative := |t| > 0 && t[0] == '-';
    var u := if |t| > 0 && (t[0] == '-' || t[0] == '+') then t[1..] else t;
    match UnsignedDecimal(u)
    case None => None
    case Some(m) => Some(if negative then -m else m)
  }

  /** `parseFloat(s) || 0`: NaN becomes 0. */
  function ParseFloatOrZero(s: string): real {
    ParseFloat(s).GetOr(0.0)
  }

  /** `Array#findIndex(p)`: the first index whose element satisfies `p`, or -1. */
  function FindIndex<T>(s: seq<T>, p: T -> bool): (r: int)
    ensures -1 <= r < |s|
    ensures r >= 0 ==> p(s[r]) && forall j :: 0 <= j < r ==> !p(s[j])
    ensures r == -1 <==> forall j :: 0 <= j < |s| ==> !p(s[j])
  {
    if s == [] then -1
    else if p(s[0]) then 0
    else
      var k := FindIndex(s[1..], p);
      if k < 0 then -1 else k + 1
  }

  /** `s.split(/\s+/).filter((t) => t.length > 0)`: the maximal runs of
      non-space characters, in order. */
  function SplitWhitespace(s: string): (ts: seq<string>)
    ensures forall i :: 0 <= i < |ts| ==> |ts[i]| > 0 && NoSpace(ts[i])
    decreases |s|
  {
    if s == [] then []
    else if IsSpace(s[0]) then SplitWhitespace(s[1..])
    else
      var n := SpanLength(s, IsNotSpace);
      [s[..n]] + SplitWhitespace(s[n..])
  }

  /** `ts.join(" ")`. */
  function JoinWithSpace(ts: seq<string>): string {
    if ts == [] then ""
    else if |ts| == 1 then ts[0]
    else ts[0] + " " + JoinWithSpace(ts[1..])
  }

  /** `parseInt` reads a plain digit string as the number it denotes. */
  lemma ParseIntOfDigits(s: string)
    requires |s| > 0 && AllDigits(s)
    ensures ParseInt(s) == Some(DigitsValue(s))
  {
    assert !IsSpace(s[0]);
    assert TrimStart(s) == s;
    var n := SpanLength(s, IsDigit);
    assert n == |s|;
    assert s[..n] == s;
  }

  /** A string without any digit is NaN for `parseInt`. */
  lemma ParseIntWithoutDigits(s: string)
    requires forall i :: 0 <= i < |s| ==> !IsDigit(s[i])
    ensures ParseInt(s) == None
  {
    var t := TrimStart(s);
    var u := if |t| > 0 && (t[0] == '-' || t[0] == '+') then t[1..] else t;
    if |u| > 0 {
      assert u[0] == s[|s| - |u|];
    }
  }

  /** A single word splits into itself. */
  lemma SplitSingleWord(w: string)
    requires |w| > 0 && NoSpace(w)
    ensures SplitWhitespace(w) == [w]
  {
    var n := SpanLength(w, IsNotSpace);
    assert n == |w|;
    assert w[..n] == w && w[n..] == [];
  }

  /** Splitting undoes joining with single spaces, for non-empty words
      without white space. */
  lemma {:induction false} SplitJoin(ts: seq<string>)
    requires forall i :: 0 <= i < |ts| ==> |ts[i]| > 0 && NoSpace(ts[i])
    ensures SplitWhitespace(JoinWithSpace(ts)) == ts
  {
    if ts == [] {
    } else if |ts| == 1 {
      SplitSingleWord(ts[0]);
    } else {
      var w, rest := ts[0], JoinWithSpace(ts[1..]);
      var s := w + " " + rest;
      assert JoinWithSpace(ts) == s;
      assert s[0] == w[0] && !IsSpace(s[0]);
      var n := SpanLength(s, IsNotSpace);
      assert s[|w|] == ' ';
      assert n == |w|;
      assert s[..n] == w;
      assert s[n..] == " " + rest;
      assert (" " + rest)[1..] == rest;
      SplitJoin(ts[1..]);
      assert SplitWhitespace(s) == [w] + SplitWhitespace(" " + rest);
      assert SplitWhitespace(" " + rest) == SplitWhitespace(rest);
      assert [w] + ts[1..] == ts;
    }
  }

  /** A span over `a + b` stops at the end of `a` when every character of `a`
      satisfies `p` and the first character of `b` does not. */
  lemma SpanStopsAt(a: string, b: string, p: char -> bool)
    requires forall i :: 0 <= i < |a| ==> p(a[i])
    requires |b| > 0 && !p(b[0])
    ensures SpanLength(a + b, p) == |a|
  {
    assert (a + b)[|a|] == b[0];
  }

  /** `parseFloat` reads a plain digit string as the number it denotes. */
  lemma ParseFloatOfDigits(w: string)
    requires |w| > 0 && AllDigits(w)
    ensures ParseFloat(w) == Some(DigitsValue(w) as real)
  {
    assert !IsSpace(w[0]);
    assert TrimStart(w) == w;
    var n := SpanLength(w, IsDigit);
    assert n == |w|;
    assert w[..n] == w;
  }

  /** `parseFloat` reads `w.f` as the whole part plus the fraction. */
  lemma ParseFloatOfDecimal(w: string, f: string)
    requires |w| > 0 && AllDigits(w) && AllDigits(f)
    ensures ParseFloat(w + "." + f) == Some(DigitsValue(w) as real + Fraction(f))
  {
    var s := w + "." + f;
    assert s[0] == w[0] && !IsSpace(s[0]);
    assert TrimStart(s) == s;
    UnsignedDecimalOfParts(w, f);
  }

  lemma UnsignedDecimalOfParts(w: string, f: string)
    requires |w| > 0 && AllDigits(w) && AllDigits(f)
    ensures UnsignedDecimal(w + "." + f) == Some(DigitsValue(w) as real + Fraction(f))
  {
    UnsignedDecimalAtPoint(w, f);
    PointAndFractionOfDigits(w, f);
  }

  lemma PointAndFractionOfDigits(w: string, f: string)
    requires |w| > 0 && AllDigits(w) && AllDigits(f)
    ensures PointAndFraction(w, f) == Some(DigitsValue(w) as real + Fraction(f))
  {
    assert SpanLength(f, IsDigit) == |f|;
    assert f[..|f|] == f;
  }

  lemma UnsignedDecimalAtPoint(w: string, f: string)
    requires AllDigits(w)
    ensures UnsignedDecimal(w + "." + f) == PointAndFraction(w, f)
  {
    var s := w + "." + f;
    assert s == w + ("." + f);
    SpanStopsAt(w, "." + f, IsDigit);
    assert s[..|w|] == w;
    assert s[|w| + 1..] == f;
  }

}
