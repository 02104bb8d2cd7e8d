/** The payslip text parser: repair of two line-break artefacts, the period,
    the label scan and the unlabelled totals. */
module PdfParser {
  import opened Wrappers
  import opened Js
  import opened UploadSchema
  import opened UploadService

  // ---------------------------------------------------------------------
  // Value coercion

  /** `parseValue`: the number a value token stands for under its label's
      value type. */
  function ParseValue(value: string, valueType: ValueType): real {
    match valueType
    case Time => TimeStringToMinutes(value) as real
    case Currency => ParseIntOrZero(RemoveCommas(value)) as real
    case Decimal => ParseFloatOrZero(value)
  }

  /** Time values are read as the form reads a time field, and currency
      values as the form reads an amount field. */
  lemma ParseValueAgreesWithForm(value: string)
    ensures ParseValue(value, Time) == TimeStringToMinutes(GetStringValue(Forms.Text(value))) as real
    ensures ParseValue(value, Currency) == ParseCurrencyString(Forms.Text(value)) as real
  {
  }

  /** A time value that is not digits ":" digits is 0. */
  lemma TimeValueOfMalformed(value: string)
    requires !IsTimeString(value)
    ensures ParseValue(value, Time) == 0.0
  {
  }

  /** A group-separated amount reads as the number its digits denote. */
  lemma CurrencyValueOfSeparatedDigits(value: string)
    requires forall i :: 0 <= i < |value| ==> IsDigit(value[i]) || value[i] == ','
    requires exists i :: 0 <= i < |value| && IsDigit(value[i])
    ensures ParseValue(value, Currency) == DigitsValue(RemoveCommas(value)) as real
  {
    CurrencyOfSeparatedDigits(value);
  }

  /** A token without digits is 0 as currency. */
  lemma CurrencyValueWithoutDigits(value: string)
    requires forall i :: 0 <= i < |value| ==> !IsDigit(value[i])
    ensures ParseValue(value, Currency) == 0.0
  {
    ParseIntWithoutDigitsAfterCommas(value);
  }

  /** A decimal token `w.f` reads as the whole part plus the fraction. */
  lemma DecimalValueOfParts(w: string, f: string)
    requires |w| > 0 && AllDigits(w) && AllDigits(f)
    ensures ParseValue(w + "." + f, Decimal) == DigitsValue(w) as real + Fraction(f)
  {
    ParseFloatOfDecimal(w, f);
  }

  /** The base salary example of `util-pdf-parser.server.test.ts`: "300,000" is 300000. */
  lemma CurrencyValueExample()
    ensures ParseValue("300,000", Currency) == 300000.0
  {
    assert "300" + "," + "000" == "300,000";
    assert DigitsValue("300") == 300 by {
      assert "300"[..2] == "30" && "30"[..1] == "3" && "3"[..0] == [];
    }
    assert DigitsValue("000") == 0 by {
      assert "000"[..2] == "00" && "00"[..1] == "0" && "0"[..0] == [];
    }
    AmountOfGroups("300", "000");
    CurrencyValueOfSeparatedDigits("300,000");
  }

  /** The leave-day examples of `util-pdf-parser.server.test.ts`: "2.5" and "15.0". */
  lemma DecimalValueExampleHalf()
    ensures ParseValue("2.5", Decimal) == 2.5
  {
    DecimalValueOfHalf();
    DecimalExampleParts();
  }

  lemma DecimalValueExampleWhole()
    ensures ParseValue("15.0", Decimal) == 15.0
  {
    DecimalValueOfWhole();
    DecimalExampleParts();
  }

  lemma DecimalValueOfHalf()
    ensures ParseValue("2" + "." + "5", Decimal) == DigitsValue("2") as real + Fraction("5")
  {
    DecimalValueOfParts("2", "5");
  }

  lemma DecimalValueOfWhole()
    ensures ParseValue("15" + "." + "0", Decimal) == DigitsValue("15") as real + Fraction("0")
  {
    DecimalValueOfParts("15", "0");
  }

  lemma DecimalExampleParts()
    ensures "2" + "." + "5" == "2.5" && "15" + "." + "0" == "15.0"
    ensures DigitsValue("2") == 2 && DigitsValue("5") == 5
    ensures DigitsValue("15") == 15 && DigitsValue("0") == 0
    ensures Fraction("5") == 0.5 && Fraction("0") == 0.0
  {
    assert "2"[..0] == [] && "5"[..0] == [] && "0"[..0] == [];
    assert "15"[..1] == "1" && "1"[..0] == [];
    assert Pow10(1) == 10;
  }

  // ---------------------------------------------------------------------
  // Text normalisation

  /** The two line-break artefacts `normalizeText` repairs: a break inside
      "(60時間超)" before "時間超", and one before the closing parenthesis. */
  datatype Artefact = BreakBeforeHours | BreakBeforeParen

  /** What precedes the white space of an artefact. */
  function Head(a: Artefact): string {
    match a
    case BreakBeforeHours => "(60"
    case BreakBeforeParen => "(60時間超"
  }

  /** What follows the white space of an artefact. */
  function Tail(a: Artefact): string {
    match a
    case BreakBeforeHours => "時間超)"
    case BreakBeforeParen => ")"
  }

  /** The repaired label both artefacts are replaced with. */
  const Repaired: string := "(60時間超)"

  predicate HasNewline(s: string) {
    exists k :: 0 <= k < |s| && s[k] == '\n'
  }

  /** The length of the match of the artefact's pattern at the start of `s`,
      or 0: the head, a run of white space holding a line feed, the tail.
      As the tail starts with a non-space character, the run is the whole
      white space after the head. */
  function MatchLength(s: string, a: Artefact): (n: nat)
    ensures n <= |s|
    ensures n > 0 ==> n > |Repaired| && HasNewline(s[..n])
  {
    var h, t := Head(a), Tail(a);
    if h <= s then
      var rest := s[|h|..];
      var w := SpanLength(rest, IsSpace);
      if HasNewline(rest[..w]) && t <= rest[w..] then
        var k :| 0 <= k < w && rest[k] == '\n';
        assert s[..|h| + w + |t|][|h| + k] == '\n';
        |h| + w + |t|
      else 0
    else 0
  }

  /** `s.replace(pattern, "(60時間超)")` with the global flag: scanning from
      the left, every match is replaced and scanning resumes after it. */
  function ReplaceAll(s: string, a: Artefact): (r: string)
    ensures |r| <= |s|
    decreases |s|
  {
    if s == [] then []
    else
      var n := MatchLength(s, a);
      if n > 0 then Repaired + ReplaceAll(s[n..], a)
      else [s[0]] + ReplaceAll(s[1..], a)
  }

  /** Every match holds a line feed, so text without one is left unchanged. */
  lemma {:induction false} ReplaceAllWithoutNewline(s: string, a: Artefact)
    requires !HasNewline(s)
    ensures ReplaceAll(s, a) == s
    decreases |s|
  {
    if s != [] && MatchLength(s, a) == 0 {
      ReplaceAllWithoutNewline(s[1..], a);
    }
  }

  /** `normalizeText`: first the break before "時間超", then the break before
      the closing parenthesis. */
  function NormalizeText(text: string): (r: string)
    ensures |r| <= |text|
  {
    ReplaceAll(ReplaceAll(text, BreakBeforeHours), BreakBeforeParen)
  }

  /** Text without a line feed is left unchanged. */
  lemma NormalizeWithoutNewline(text: string)
    requires !HasNewline(text)
    ensures NormalizeText(text) == text
  {
    ReplaceAllWithoutNewline(text, BreakBeforeHours);
    ReplaceAllWithoutNewline(text, BreakBeforeParen);
  }

  /** A prefix without an opening parenthesis holds no match and is copied. */
  lemma {:induction false} ReplaceAllCopiesPlainPrefix(a: string, s: string, art: Artefact)
    requires forall k :: 0 <= k < |a| ==> a[k] != '('
    ensures ReplaceAll(a + s, art) == a + ReplaceAll(s, art)
    decreases |a|
  {
    if a == [] {
      assert a + s == s;
    } else {
      calc {
        ReplaceAll(a + s, art);
      == { NoMatchWithoutParen(a + s, art); ReplaceAllCopiesFirst(a + s, art); }
        [a[0]] + ReplaceAll((a + s)[1..], art);
      == { assert (a + s)[1..] == a[1..] + s; }
        [a[0]] + ReplaceAll(a[1..] + s, art);
      == { ReplaceAllCopiesPlainPrefix(a[1..], s, art); }
        [a[0]] + (a[1..] + ReplaceAll(s, art));
      == { ConcatAssoc([a[0]], a[1..], ReplaceAll(s, art)); assert [a[0]] + a[1..] == a; }
        a + ReplaceAll(s, art);
      }
    }
  }

  /** Every match starts with an opening parenthesis. */
  lemma NoMatchWithoutParen(x: string, art: Artefact)
    requires |x| > 0 && x[0] != '('
    ensures MatchLength(x, art) == 0
  {
    assert Head(art)[0] == '(';
  }

  /** Without a match at the start the first character is copied. */
  lemma ReplaceAllCopiesFirst(x: string, art: Artefact)
    requires |x| > 0 && MatchLength(x, art) == 0
    ensures ReplaceAll(x, art) == [x[0]] + ReplaceAll(x[1..], art)
  {
  }

  /** An artefact at the start is replaced by the repaired label. */
  lemma ReplaceAllRepairsAtStart(w: string, s: string, art: Artefact)
    requires forall k :: 0 <= k < |w| ==> IsSpace(w[k])
    requires HasNewline(w)
    ensures ReplaceAll(Head(art) + w + Tail(art) + s, art) == Repaired + ReplaceAll(s, art)
  {
    var x := Head(art) + w + Tail(art) + s;
    var n := |Head(art)| + |w| + |Tail(art)|;
    MatchAtStart(w, s, art);
    ReplaceAllRepairsFirst(x, art);
    assert x[n..] == s;
  }

  lemma MatchAtStart(w: string, s: string, art: Artefact)
    requires forall k :: 0 <= k < |w| ==> IsSpace(w[k])
    requires HasNewline(w)
    ensures MatchLength(Head(art) + w + Tail(art) + s, art) == |Head(art)| + |w| + |Tail(art)|
  {
    var h, t := Head(art), Tail(art);
    var x := h + w + t + s;
    assert h <= x && x[|h|..] == w + (t + s);
    MatchAfterHead(x, w, t + s, art);
  }

  /** The match after the head: the white space, then the tail. */
  lemma MatchAfterHead(x: string, w: string, y: string, art: Artefact)
    requires Head(art) <= x && x[|Head(art)|..] == w + y
    requires forall k :: 0 <= k < |w| ==> IsSpace(w[k])
    requires HasNewline(w) && Tail(art) <= y
    ensures MatchLength(x, art) == |Head(art)| + |w| + |Tail(art)|
  {
    assert !IsSpace(y[0]);
    SpanStopsAt(w, y, IsSpace);
    assert (w + y)[..|w|] == w;
    assert (w + y)[|w|..] == y;
  }

  /** A match at the start is replaced and the scan resumes after it. */
  lemma ReplaceAllRepairsFirst(x: string, art: Artefact)
    requires MatchLength(x, art) > 0
    ensures ReplaceAll(x, art) == Repaired + ReplaceAll(x[MatchLength(x, art)..], art)
  {
  }

  /** `normalizeText` joins the broken label "固定外残業時間(60\n時間超)" and
      leaves the text around it alone. */
  lemma NormalizeJoinsBreakBeforeHours(a: string, w: string, b: string)
    requires forall k :: 0 <= k < |a| ==> a[k] != '(' && a[k] != '\n'
    requires forall k :: 0 <= k < |w| ==> IsSpace(w[k])
    requires HasNewline(w)
    requires !HasNewline(b)
    ensures NormalizeText(a + "(60" + w + "時間超)" + b) == a + Repaired + b
  {
    var art := BreakBeforeHours;
    var broken := Head(art) + w + Tail(art) + b;
    var once := a + (Repaired + b);
    calc {
      ReplaceAll(a + "(60" + w + "時間超)" + b, art);
    == { BrokenLabelParts(a, w, b); }
      ReplaceAll(a + broken, art);
    == { ReplaceAllCopiesPlainPrefix(a, broken, art); }
      a + ReplaceAll(broken, art);
    == { ReplaceAllRepairsAtStart(w, b, art); ReplaceAllWithoutNewline(b, art); }
      once;
    }
    NoNewlineAround(a, b);
    ReplaceAllWithoutNewline(once, BreakBeforeParen);
    ConcatAssoc(a, Repaired, b);
  }

  /** ...and "残業手当(60時間超\n)" too: the first pass finds no match in
      it, the second joins it. */
  lemma NormalizeJoinsBreakBeforeParen(a: string, w: string, b: string)
    requires forall k :: 0 <= k < |a| ==> a[k] != '(' && a[k] != '\n'
    requires forall k :: 0 <= k < |w| ==> IsSpace(w[k])
    requires HasNewline(w)
    requires !HasNewline(b)
    ensures NormalizeText(a + "(60時間超" + w + ")" + b) == a + Repaired + b
  {
    var art := BreakBeforeParen;
    var broken := Head(art) + w + Tail(art) + b;
    var once := a + (Repaired + b);
    assert a + "(60時間超" + w + ")" + b == a + broken;
    FirstPassKeepsBreakBeforeParen(a, w, b);
    calc {
      ReplaceAll(a + broken, art);
    == { ReplaceAllCopiesPlainPrefix(a, broken, art); }
      a + ReplaceAll(broken, art);
    == { ReplaceAllRepairsAtStart(w, b, art); ReplaceAllWithoutNewline(b, art); }
      once;
    }
    ConcatAssoc(a, Repaired, b);
  }

  /** The break before the closing parenthesis is no match of the pattern
      for the break before "時間超". */
  lemma FirstPassKeepsBreakBeforeParen(a: string, w: string, b: string)
    requires forall k :: 0 <= k < |a| ==> a[k] != '('
    requires forall k :: 0 <= k < |w| ==> IsSpace(w[k])
    requires !HasNewline(b)
    ensures var x := a + (Head(BreakBeforeParen) + w + Tail(BreakBeforeParen) + b);
            ReplaceAll(x, BreakBeforeHours) == x
  {
    var art := BreakBeforeHours;
    var y := Head(BreakBeforeParen) + w + Tail(BreakBeforeParen) + b;
    var m := Head(BreakBeforeParen)[1..] + w + Tail(BreakBeforeParen);
    assert y[0] == '(' && y[1..] == m + b;
    assert forall k :: 0 <= k < |m| ==> m[k] != '(' by {
      forall k | 0 <= k < |m|
        ensures m[k] != '('
      {
        if k >= |Head(BreakBeforeParen)| - 1 && k < |Head(BreakBeforeParen)| - 1 + |w| {
          assert m[k] == w[k - |Head(BreakBeforeParen)| + 1];
        }
      }
    }
    calc {
      ReplaceAll(a + y, art);
    == { ReplaceAllCopiesPlainPrefix(a, y, art); }
      a + ReplaceAll(y, art);
    == { NoMatchBeforeHours(y, w + Tail(BreakBeforeParen) + b); ReplaceAllCopiesFirst(y, art); }
      a + ([y[0]] + ReplaceAll(m + b, art));
    == { ReplaceAllCopiesPlainPrefix(m, b, art); ReplaceAllWithoutNewline(b, art); }
      a + ([y[0]] + (m + b));
    == { assert [y[0]] + (m + b) == y; }
      a + y;
    }
  }

  /** "(60時間超" is no start of the pattern for the break before "時間超":
      no white space follows "(60". */
  lemma NoMatchBeforeHours(y: string, rest: string)
    requires y == Head(BreakBeforeParen) + rest
    ensures MatchLength(y, BreakBeforeHours) == 0
  {
    var h := Head(BreakBeforeHours);
    assert h <= y;
    var r := y[|h|..];
    assert r[0] == '時';
    assert SpanLength(r, IsSpace) == 0;
    assert r[..0] == [];
  }

  lemma BrokenLabelParts(a: string, w: string, b: string)
    ensures a + "(60" + w + "時間超)" + b
            == a + (Head(BreakBeforeHours) + w + Tail(BreakBeforeHours) + b)
  {
  }

  /** The repaired label holds no line feed, so neither does it between
      text without one. */
  lemma NoNewlineAround(a: string, b: string)
    requires forall k :: 0 <= k < |a| ==> a[k] != '\n'
    requires !HasNewline(b)
    ensures !HasNewline(a + (Repaired + b))
  {
    var once := a + (Repaired + b);
    if k :| 0 <= k < |once| && once[k] == '\n' {
      if k < |a| {
        assert once[k] == a[k];
      }
    }
  }

  // ---------------------------------------------------------------------
  // Year and month

  /** A payslip period as `extractYearMonth` returns it. */
  datatype Period = Period(year: int, month: int)

  /** `token.match(/^(\d{4})/)`: the year in the first four characters. */
  function YearOf(token: string): (r: Option<nat>)
    ensures r.Some? <==> |token| >= 4 && AllDigits(token[..4])
    ensures r.Some? ==> r.value == DigitsValue(token[..4]) && r.value < 10000
  {
    if |token| >= 4 && AllDigits(token[..4]) then
      FourDigitsBelowTenThousand(token[..4]);
      Some(DigitsValue(token[..4]))
    else None
  }

  lemma FourDigitsBelowTenThousand(s: string)
    requires |s| == 4 && AllDigits(s)
    ensures DigitsValue(s) < 10000
  {
    DigitsValueBound(s);
    assert Pow10(4) == 10000;
  }

  /** The regular expression `年(\d{1,2})月` tried at position `p`: greedily
      two digits, and one digit when the second character is not a digit. */
  function MonthAt(token: string, p: nat): (r: Option<nat>)
    ensures r.Some? <==>
              && p + 2 < |token| && token[p] == '年' && IsDigit(token[p + 1])
              && (token[p + 2] == '月' || (IsDigit(token[p + 2]) && p + 3 < |token| && token[p + 3] == '月'))
    ensures r.Some? && token[p + 2] == '月' ==> r.value == DigitValue(token[p + 1])
    ensures r.Some? && token[p + 2] != '月' ==> r.value == DigitsValue(token[p + 1..p + 3])
    ensures r.Some? ==> r.value < 100
  {
    if p + 2 < |token| && token[p] == '年' && IsDigit(token[p + 1]) then
      if IsDigit(token[p + 2]) then
        if p + 3 < |token| && token[p + 3] == '月' then
          DigitsValueBound(token[p + 1..p + 3]);
          assert Pow10(2) == 100;
          Some(DigitsValue(token[p + 1..p + 3]))
        else None
      else if token[p + 2] == '月' then Some(DigitValue(token[p + 1]))
      else None
    else None
  }

  /** The leftmost match of `年(\d{1,2})月` at or after position `p`. */
  function MonthFrom(token: string, p: nat): (r: Option<nat>)
    ensures r.Some? ==> exists q :: p <= q < |token| && MonthAt(token, q) == r
                                   && forall j :: p <= j < q ==> MonthAt(token, j).None?
    ensures r.None? ==> forall j :: p <= j < |token| ==> MonthAt(token, j).None?
    decreases |token| - p
  {
    if p >= |token| then None
    else if MonthAt(token, p).Some? then MonthAt(token, p)
    else MonthFrom(token, p + 1)
  }

  predicate Contains(s: string, c: char) {
    exists k :: 0 <= k < |s| && s[k] == c
  }

  /** The period one token yields: it contains 年 and 月, starts with four
      digits (the year) and holds 年, one or two digits, 月 (the month). */
  function PeriodOf(token: string): (r: Option<Period>)
    ensures r.Some? <==> YearOf(token).Some? && MonthFrom(token, 0).Some?
    ensures r.Some? ==> r == Some(Period(YearOf(token).value, MonthFrom(token, 0).value))
  {
    if Contains(token, '年') && Contains(token, '月') then
      match (YearOf(token), MonthFrom(token, 0))
      case (Some(y), Some(m)) => Some(Period(y, m))
      case _ => None
    else
      // a match of the month pattern holds both characters
      assert MonthFrom(token, 0).None?;
      None
  }

  /** A token made of a four-digit year, text without 年, then
      年, one or two digits and 月, yields that year and month. */
  lemma PeriodOfParts(y: string, mid: string, mm: string, rest: string)
    requires |y| == 4 && AllDigits(y)
    requires forall j :: 0 <= j < |mid| ==> mid[j] != '年'
    requires 1 <= |mm| <= 2 && AllDigits(mm)
    ensures PeriodOf(y + mid + "年" + mm + "月" + rest) == Some(Period(DigitsValue(y), DigitsValue(mm)))
  {
    var prefix := y + mid;
    var token := prefix + "年" + mm + "月" + rest;
    assert forall j :: 0 <= j < |prefix| ==> prefix[j] != '年' by {
      forall j | 0 <= j < |prefix|
        ensures prefix[j] != '年'
      {
        if j >= |y| {
          assert prefix[j] == mid[j - |y|];
        } else {
          assert prefix[j] == y[j];
        }
      }
    }
    MonthFromOfParts(prefix, mm, rest);
    assert token[..4] == y;
    assert token[|prefix|] == '年';
    assert token[|prefix| + |mm| + 1] == '月';
  }

  /** The leftmost month match in text without 年 followed by 年, one or two
      digits and 月 is those digits. */
  lemma MonthFromOfParts(prefix: string, mm: string, rest: string)
    requires forall j :: 0 <= j < |prefix| ==> prefix[j] != '年'
    requires 1 <= |mm| <= 2 && AllDigits(mm)
    ensures MonthFrom(prefix + "年" + mm + "月" + rest, 0) == Some(DigitsValue(mm))
  {
    var token := prefix + "年" + mm + "月" + rest;
    var p := |prefix|;
    assert token == (prefix + "年" + mm) + ("月" + rest) by {
      ConcatAssoc(prefix + "年" + mm, "月", rest);
    }
    MonthAtOfParts(prefix, mm, "月" + rest);
    assert forall j :: 0 <= j < p ==> MonthAt(token, j).None? by {
      forall j | 0 <= j < p
        ensures MonthAt(token, j).None?
      {
        assert token[j] == prefix[j];
      }
    }
    MonthFromSkips(token, 0, p);
    assert MonthFrom(token, p) == MonthAt(token, p);
  }

  lemma MonthAtOfParts(prefix: string, mm: string, rest: string)
    requires 1 <= |mm| <= 2 && AllDigits(mm)
    requires |rest| > 0 && rest[0] == '月'
    ensures MonthAt(prefix + "年" + mm + rest, |prefix|) == Some(DigitsValue(mm))
  {
    var token := prefix + "年" + mm + rest;
    var p := |prefix|;
    assert token[p] == '年';
    assert token[p + 1] == mm[0];
    assert token[p + 1 + |mm|] == rest[0];
    if |mm| == 2 {
      assert token[p + 2] == mm[1];
      assert token[p + 1..p + 3] == mm;
    } else {
      assert mm[..0] == [];
    }
  }

  /** The examples of `util-pdf-parser.server.test.ts` and of the comment
      in `extractYearMonth`. */
  lemma PeriodExampleNovember()
    ensures PeriodOf("2025(令和07)年11月25日支給分") == Some(Period(2025, 11))
  {
    PeriodOfParts("2025", "(令和07)", "11", "25日支給分");
    PeriodExampleParts();
  }

  lemma PeriodExampleMarch()
    ensures PeriodOf("2024(令和06)年3月20日支給分") == Some(Period(2024, 3))
  {
    PeriodOfParts("2024", "(令和06)", "3", "20日支給分");
    PeriodExampleParts();
  }

  lemma PeriodExampleParts()
    ensures "2025" + "(令和07)" + "年" + "11" + "月" + "25日支給分" == "2025(令和07)年11月25日支給分"
    ensures "2024" + "(令和06)" + "年" + "3" + "月" + "20日支給分" == "2024(令和06)年3月20日支給分"
    ensures DigitsValue("2025") == 2025 && DigitsValue("2024") == 2024
    ensures DigitsValue("11") == 11 && DigitsValue("3") == 3
  {
    YearDigitsExamples();
    assert "11"[..1] == "1" && "1"[..0] == [] && "3"[..0] == [];
  }

  lemma YearDigitsExamples()
    ensures DigitsValue("2025") == 2025 && DigitsValue("2024") == 2024
  {
    assert "2025"[..3] == "202" && "202"[..2] == "20" && "20"[..1] == "2" && "2"[..0] == [];
    assert "2024"[..3] == "202";
  }

  /** Positions without a match are skipped by the leftmost search. */
  lemma {:induction false} MonthFromSkips(token: string, p: nat, q: nat)
    requires p <= q < |token|
    requires forall j :: p <= j < q ==> MonthAt(token, j).None?
    ensures MonthFrom(token, p) == MonthFrom(token, q)
    decreases q - p
  {
    if p < q {
      MonthFromStep(token, p);
      MonthFromSkips(token, p + 1, q);
    }
  }

  /** One position without a match is skipped. */
  lemma MonthFromStep(token: string, p: nat)
    requires p < |token| && MonthAt(token, p).None?
    ensures MonthFrom(token, p) == MonthFrom(token, p + 1)
  {
  }

  /** The period of the first token that yields one, else the current date
      (`Date#getMonth()` counts from 0). The month is not range-checked. */
  function YearMonthOf(tokens: seq<string>, today: Date): (r: Period)
    ensures (forall i :: 0 <= i < |tokens| ==> PeriodOf(tokens[i]).None?) ==>
              r == Period(today.fullYear, today.monthIndex + 1)
    ensures (exists i :: 0 <= i < |tokens| && PeriodOf(tokens[i]).Some?) ==>
              exists i :: 0 <= i < |tokens| && PeriodOf(tokens[i]) == Some(r)
                          && forall j :: 0 <= j < i ==> PeriodOf(tokens[j]).None?
  {
    var k := FindIndex(tokens, (t: string) => PeriodOf(t).Some?);
    if k < 0 then Period(today.fullYear, today.monthIndex + 1) else PeriodOf(tokens[k]).value
  }

  /** `extractYearMonth`: the loop over the white-space tokens of the text
      that returns at the first token yielding a period. */
  method ExtractYearMonth(text: string, today: Date) returns (period: Period)
    ensures period == YearMonthOf(SplitWhitespace(text), today)
  {
    var tokens := SplitWhitespace(text);
    var i := 0;
    while i < |tokens|
      invariant 0 <= i <= |tokens|
      invariant forall j :: 0 <= j < i ==> PeriodOf(tokens[j]).None?
    {
      var token := tokens[i];
      if Contains(token, '年') && Contains(token, '月') {
        var yearMatch := YearOf(token);
        var monthMatch := MonthFrom(token, 0);
        if yearMatch.Some? && monthMatch.Some? {
          period := Period(yearMatch.value, monthMatch.value);
          FirstPeriodIsYearMonth(tokens, i, today);
          return;
        }
      }
      i := i + 1;
    }
    period := Period(today.fullYear, today.monthIndex + 1);
  }

  /** The first token that yields a period decides it. */
  lemma FirstPeriodIsYearMonth(tokens: seq<string>, i: nat, today: Date)
    requires i < |tokens| && PeriodOf(tokens[i]).Some?
    requires forall j :: 0 <= j < i ==> PeriodOf(tokens[j]).None?
    ensures YearMonthOf(tokens, today) == PeriodOf(tokens[i]).value
  {
    var r := YearMonthOf(tokens, today);
    var k :| 0 <= k < |tokens| && PeriodOf(tokens[k]) == Some(r)
             && forall j :: 0 <= j < k ==> PeriodOf(tokens[j]).None?;
    assert k == i;
  }

  // ---------------------------------------------------------------------
  // Totals

  /** Deductions and earnings totals, in the order the payslip prints them. */
  datatype Totals = Totals(deductions: int, earnings: int)

  /** Where the search for the totals ends: the first `差引支給額:` token when
      its index is positive, else the end of the tokens (also when the label
      is the very first token). */
  function TotalsEnd(tokens: seq<string>): (e: nat)
    ensures e <= |tokens|
    ensures e < |tokens| ==> 0 < e && tokens[e] == NetSalaryLabel
                             && forall j :: 0 <= j < e ==> tokens[j] != NetSalaryLabel
    ensures e == |tokens| ==> (|tokens| > 0 && tokens[0] == NetSalaryLabel)
                              || forall j :: 0 <= j < |tokens| ==> tokens[j] != NetSalaryLabel
  {
    var netSalaryIndex := FindIndex(tokens, (t: string) => t == NetSalaryLabel);
    if netSalaryIndex > 0 then netSalaryIndex else |tokens|
  }

  /** `/^[\d,]+$/`: a non-empty run of digits and commas. */
  predicate IsCurrencyToken(s: string) {
    |s| > 0 && forall i :: 0 <= i < |s| ==> IsDigit(s[i]) || s[i] == ','
  }

  /** `isLargeAmount`: at least 10,000 once the commas are dropped (NaN is not). */
  predicate IsLargeAmount(s: string) {
    match ParseInt(RemoveCommas(s))
    case Some(n) => n >= 10000
    case None => false
  }

  /** The number a currency token denotes: its digits read together. */
  function CurrencyValue(s: string): nat
    requires IsCurrencyToken(s)
  {
    DigitsValue(RemoveCommas(s))
  }

  /** On a currency token `parseInt(s.replace(/,/g, ""), 10)` is its digits
      read together (NaN for commas alone), so it is large exactly when that
      number is. */
  lemma CurrencyTokenParses(s: string)
    requires IsCurrencyToken(s)
    ensures IsLargeAmount(s) <==> CurrencyValue(s) >= 10000
    ensures IsLargeAmount(s) ==> ParseInt(RemoveCommas(s)) == Some(CurrencyValue(s))
  {
    if forall i :: 0 <= i < |s| ==> !IsDigit(s[i]) {
      ParseIntWithoutDigitsAfterCommas(s);
      RemoveCommasWithoutDigits(s);
      assert RemoveCommas(s) == [];
    } else {
      var k :| 0 <= k < |s| && IsDigit(s[k]);
      RemoveCommasKeepsDigits(s, k);
      ParseIntOfDigits(RemoveCommas(s));
    }
  }

  /** Tokens `i` and `i + 1` are two adjacent large amounts. `isLargeAmount` reads
      each amount as its digits, which `CurrencyTokenParses` shows is what
      `parseInt` gives on a currency token. */
  predicate IsTotalsPair(tokens: seq<string>, i: int) {
    && 0 <= i && i + 1 < |tokens|
    && |tokens[i]| > 0 && |tokens[i + 1]| > 0
    && IsCurrencyToken(tokens[i]) && IsCurrencyToken(tokens[i + 1])
    && CurrencyValue(tokens[i]) >= 10000 && CurrencyValue(tokens[i + 1]) >= 10000
  }

  function PairTotals(tokens: seq<string>, i: int): Totals
    requires IsTotalsPair(tokens, i)
  {
    Totals(CurrencyValue(tokens[i]), CurrencyValue(tokens[i + 1]))
  }

  /** The totals of the first pair starting at `i` or later whose second
      token lies before `end`, or 0 and 0. */
  function ScanTotals(tokens: seq<string>, end: nat, i: nat): Totals
    requires end <= |tokens|
    decreases end - i
  {
    if i + 1 >= end then Totals(0, 0)
    else if IsTotalsPair(tokens, i) then PairTotals(tokens, i)
    else ScanTotals(tokens, end, i + 1)
  }

  function TotalsOf(tokens: seq<string>): Totals {
    ScanTotals(tokens, TotalsEnd(tokens), 0)
  }

  /** The first qualifying pair before the end decides the totals... */
  lemma {:induction false} TotalsOfFirstPair(tokens: seq<string>, k: nat)
    requires k + 1 < TotalsEnd(tokens) && IsTotalsPair(tokens, k)
    requires forall j :: 0 <= j < k ==> !IsTotalsPair(tokens, j)
    ensures TotalsOf(tokens) == PairTotals(tokens, k)
  {
    ScanTotalsSkips(tokens, TotalsEnd(tokens), 0, k);
  }

  /** ...and without one both totals are 0. */
  lemma {:induction false} TotalsWithoutPair(tokens: seq<string>)
    requires forall j :: 0 <= j && j + 1 < TotalsEnd(tokens) ==> !IsTotalsPair(tokens, j)
    ensures TotalsOf(tokens) == Totals(0, 0)
  {
    var e := TotalsEnd(tokens);
    if e >= 1 {
      ScanTotalsSkips(tokens, e, 0, e - 1);
    }
  }

  lemma {:induction false} ScanTotalsSkips(tokens: seq<string>, end: nat, i: nat, k: nat)
    requires end <= |tokens| && i <= k && k + 1 <= end
    requires forall j :: i <= j < k ==> !IsTotalsPair(tokens, j)
    ensures ScanTotals(tokens, end, i) == ScanTotals(tokens, end, k)
    decreases k - i
  {
    if i < k {
      ScanTotalsSkips(tokens, end, i + 1, k);
    }
  }

  /** A token of a leading group, a comma and a three-digit group is a
      currency token; at 10,000 or more it is a large amount and its value
      is the digits read together. */
  lemma AmountOfGroups(a: string, b: string)
    requires |a| > 0 && AllDigits(a) && |b| == 3 && AllDigits(b)
    requires DigitsValue(a) * 1000 + DigitsValue(b) >= 10000
    ensures IsCurrencyToken(a + "," + b)
    ensures CurrencyValue(a + "," + b) == DigitsValue(a) * 1000 + DigitsValue(b)
  {
    GroupsAreCurrencyToken(a, b);
    GroupsDropComma(a, b);
    DigitsValueAppend(a, b);
    assert Pow10(3) == 1000;
  }

  lemma GroupsAreCurrencyToken(a: string, b: string)
    requires |a| > 0 && AllDigits(a) && AllDigits(b)
    ensures IsCurrencyToken(a + "," + b)
  {
    var s := a + "," + b;
    forall i | 0 <= i < |s|
      ensures IsDigit(s[i]) || s[i] == ','
    {
      if i > |a| {
        assert s[i] == b[i - |a| - 1];
      }
    }
  }

  lemma GroupsDropComma(a: string, b: string)
    requires AllDigits(a) && AllDigits(b)
    ensures RemoveCommas(a + "," + b) == a + b
  {
    var c := a + ",";
    assert RemoveCommas(c) == a by {
      RemoveCommasAppend(a, ",");
      DigitsHaveNoComma(a);
      LoneComma();
    }
    RemoveCommasAppend(c, b);
    DigitsHaveNoComma(b);
  }

  lemma DigitsHaveNoComma(s: string)
    requires AllDigits(s)
    ensures RemoveCommas(s) == s
  {
    RemoveCommasWithoutCommas(s);
  }

  lemma LoneComma()
    ensures RemoveCommas(",") == []
  {
    assert ","[1..] == [];
  }

  /** The shape of the totals example of `util-pdf-parser.server.test.ts`:
      a date token, deductions and earnings as two large amounts, then the net pay label and whatever follows
      (for instance "11月30日", "108,000", "455,000", "差引支給額:"; the two
      amounts are `AmountOfGroups` of "108", "000" and of "455", "000"). */
  lemma TotalsBeforeNetSalary(tokens: seq<string>)
    requires |tokens| >= 4 && tokens[3] == NetSalaryLabel
    requires |tokens[0]| > 0 && !IsCurrencyToken(tokens[0]) && tokens[0] != NetSalaryLabel
    requires IsCurrencyToken(tokens[1]) && CurrencyValue(tokens[1]) >= 10000 && tokens[1] != NetSalaryLabel
    requires IsCurrencyToken(tokens[2]) && CurrencyValue(tokens[2]) >= 10000 && tokens[2] != NetSalaryLabel
    ensures TotalsOf(tokens) == Totals(CurrencyValue(tokens[1]), CurrencyValue(tokens[2]))
  {
    TotalsEndAt(tokens, 3);
    PairAtOne(tokens);
    TotalsAtSecond(tokens);
  }

  /** The tokens of the totals example of `util-pdf-parser.server.test.ts`. */
  const TotalsTokens: seq<string> :=
    ["2025(令和07)年6月支給分", "11月30日", "108,000", "455,000", "差引支給額:", "347,000"]

  /** The totals example: 108,000 and 455,000 before the net pay label are
      the deductions and the earnings. */
  lemma TotalsExample()
    ensures TotalsOf(TotalsTokens) == Totals(108000, 455000)
  {
    TotalsExampleEnd();
    TotalsExamplePairs();
    TotalsOfFirstPair(TotalsTokens, 2);
  }

  lemma TotalsExampleEnd()
    ensures TotalsEnd(TotalsTokens) == 4
  {
    var tokens := TotalsTokens;
    assert tokens[4] == NetSalaryLabel;
    assert forall j :: 0 <= j < 4 ==> tokens[j][0] != NetSalaryLabel[0];
    TotalsEndAt(tokens, 4);
  }

  lemma TotalsExamplePairs()
    ensures !IsTotalsPair(TotalsTokens, 0) && !IsTotalsPair(TotalsTokens, 1)
    ensures IsTotalsPair(TotalsTokens, 2) && PairTotals(TotalsTokens, 2) == Totals(108000, 455000)
  {
    var tokens := TotalsTokens;
    assert !IsCurrencyToken(tokens[0]) by { assert !IsDigit(tokens[0][4]); }
    assert !IsCurrencyToken(tokens[1]) by { assert !IsDigit(tokens[1][2]); }
    ExampleAmounts(tokens[2], tokens[3]);
  }

  lemma ExampleAmounts(deductions: string, earnings: string)
    requires deductions == "108,000" && earnings == "455,000"
    ensures IsCurrencyToken(deductions) && CurrencyValue(deductions) == 108000
    ensures IsCurrencyToken(earnings) && CurrencyValue(earnings) == 455000
  {
    assert DigitsValue("108") == 108 by {
      assert "108"[..2] == "10" && "10"[..1] == "1" && "1"[..0] == [];
    }
    assert DigitsValue("455") == 455 by {
      assert "455"[..2] == "45" && "45"[..1] == "4" && "4"[..0] == [];
    }
    ExampleAmount("108", 108, deductions);
    ExampleAmount("455", 455, earnings);
  }

  /** "<a>,000" is a currency token of value a * 1000. */
  lemma ExampleAmount(a: string, n: nat, token: string)
    requires |a| == 3 && AllDigits(a) && DigitsValue(a) == n && n >= 10
    requires token == a + "," + "000"
    ensures IsCurrencyToken(token) && CurrencyValue(token) == n * 1000
  {
    assert DigitsValue("000") == 0 by {
      assert "000"[..2] == "00" && "00"[..1] == "0" && "0"[..0] == [];
    }
    AmountOfGroups(a, "000");
  }

  lemma TotalsAtSecond(tokens: seq<string>)
    requires 2 < TotalsEnd(tokens) && !IsTotalsPair(tokens, 0) && IsTotalsPair(tokens, 1)
    ensures TotalsOf(tokens) == PairTotals(tokens, 1)
  {
    assert ScanTotals(tokens, TotalsEnd(tokens), 0) == ScanTotals(tokens, TotalsEnd(tokens), 1);
  }

  /** The first net pay label at a positive index ends the search. */
  lemma TotalsEndAt(tokens: seq<string>, k: nat)
    requires 0 < k < |tokens| && tokens[k] == NetSalaryLabel
    requires forall j :: 0 <= j < k ==> tokens[j] != NetSalaryLabel
    ensures TotalsEnd(tokens) == k
  {
  }

  lemma PairAtOne(tokens: seq<string>)
    requires |tokens| >= 3 && |tokens[0]| > 0 && !IsCurrencyToken(tokens[0])
    requires IsCurrencyToken(tokens[1]) && CurrencyValue(tokens[1]) >= 10000
    requires IsCurrencyToken(tokens[2]) && CurrencyValue(tokens[2]) >= 10000
    ensures !IsTotalsPair(tokens, 0) && IsTotalsPair(tokens, 1)
  {
  }

  /** A currency token is never the net pay label. */
  lemma NetSalaryLabelIsNotAmount()
    ensures !IsCurrencyToken(NetSalaryLabel)
  {
    assert !IsDigit(NetSalaryLabel[0]);
  }

  /** `extractTotals`: the index loop that returns at the first pair of large
      amounts before the end. */
  method ExtractTotals(tokens: seq<string>) returns (totals: Totals)
    ensures totals == TotalsOf(tokens)
  {
    var netSalaryIndex := FindIndex(tokens, (t: string) => t == NetSalaryLabel);
    var endIndex := if netSalaryIndex > 0 then netSalaryIndex else |tokens|;
    var i := 0;
    while i < endIndex - 1
      invariant 0 <= i
      invariant endIndex == TotalsEnd(tokens)
      invariant ScanTotals(tokens, endIndex, i) == TotalsOf(tokens)
    {
      var first := tokens[i];
      var second := tokens[i + 1];
      PairCheck(tokens, i);
      if |first| > 0 && |second| > 0 && IsCurrencyToken(first) && IsCurrencyToken(second)
         && IsLargeAmount(first) && IsLargeAmount(second)
      {
        return Totals(ParseInt(RemoveCommas(first)).value, ParseInt(RemoveCommas(second)).value);
      }
      i := i + 1;
    }
    return Totals(0, 0);
  }

  /** The loop's test is the totals pair, and its reading of the two
      amounts the pair's totals. */
  lemma PairCheck(tokens: seq<string>, i: nat)
    requires i + 1 < |tokens|
    ensures var first := tokens[i];
            var second := tokens[i + 1];
            (|first| > 0 && |second| > 0 && IsCurrencyToken(first) && IsCurrencyToken(second)
             && IsLargeAmount(first) && IsLargeAmount(second)) <==> IsTotalsPair(tokens, i)
    ensures IsTotalsPair(tokens, i) ==>
              ParseInt(RemoveCommas(tokens[i])).Some? && ParseInt(RemoveCommas(tokens[i + 1])).Some?
              && PairTotals(tokens, i)
                 == Totals(ParseInt(RemoveCommas(tokens[i])).value, ParseInt(RemoveCommas(tokens[i + 1])).value)
  {
    if IsCurrencyToken(tokens[i]) {
      CurrencyTokenParses(tokens[i]);
    }
    if IsCurrencyToken(tokens[i + 1]) {
      CurrencyTokenParses(tokens[i + 1]);
    }
  }

  // ---------------------------------------------------------------------
  // The label scan
  //
  // The scan is stated for any label lookup, so that its proofs do not
  // depend on the contents of the table; the parse uses `LookupLabel`.

  /** A lookup from a token to the mapping registered under it. */
  type Lookup = string -> Option<Mapping>

  /** What token `i` does to the record: a label followed by a non-empty
      token writes that token's value into the label's field. */
  function Step(lookup: Lookup, tokens: seq<string>, i: nat, r: Payslip): Payslip
    requires i < |tokens|
  {
    match lookup(tokens[i])
    case Some(m) =>
      var valueIndex := i + 1;
      if valueIndex < |tokens| && |tokens[valueIndex]| > 0 then
        r[m.field := ParseValue(tokens[valueIndex], m.valueType)]
      else r
    case None => r
  }

  /** The record after the first `n` tokens have been scanned. */
  function ScanLabels(lookup: Lookup, tokens: seq<string>, n: nat, base: Payslip): Payslip
    requires n <= |tokens|
  {
    if n == 0 then base else Step(lookup, tokens, n - 1, ScanLabels(lookup, tokens, n - 1, base))
  }

  /** Label token `i` writes field `f`: it names `f` and a non-empty token
      follows it. */
  predicate Writes(lookup: Lookup, tokens: seq<string>, i: int, f: Field) {
    && 0 <= i && i + 1 < |tokens| && |tokens[i + 1]| > 0
    && lookup(tokens[i]).Some? && lookup(tokens[i]).value.field == f
  }

  /** The value label token `i` writes. */
  function Written(lookup: Lookup, tokens: seq<string>, i: int, f: Field): real
    requires Writes(lookup, tokens, i, f)
  {
    ParseValue(tokens[i + 1], lookup(tokens[i]).value.valueType)
  }

  /** The last of the first `n` tokens that writes `f`, or -1. */
  function LastWriter(lookup: Lookup, tokens: seq<string>, n: nat, f: Field): (k: int)
    requires n <= |tokens|
    ensures -1 <= k < n
    ensures k >= 0 ==> Writes(lookup, tokens, k, f) && forall j :: k < j < n ==> !Writes(lookup, tokens, j, f)
    ensures k == -1 ==> forall j :: 0 <= j < n ==> !Writes(lookup, tokens, j, f)
  {
    if n == 0 then -1
    else if Writes(lookup, tokens, n - 1, f) then n - 1
    else LastWriter(lookup, tokens, n - 1, f)
  }

  /** Scanning keeps the record complete. */
  lemma {:induction false} ScanComplete(lookup: Lookup, tokens: seq<string>, n: nat, base: Payslip)
    requires n <= |tokens| && Complete(base)
    ensures Complete(ScanLabels(lookup, tokens, n, base))
  {
    if n > 0 {
      ScanComplete(lookup, tokens, n - 1, base);
      StepField(lookup, tokens, n - 1, ScanLabels(lookup, tokens, n - 1, base), Year);
    }
  }

  /** Each field ends up with the value of its last label occurrence that is
      followed by a token, and keeps its prior value without one. */
  lemma {:induction false} ScanField(lookup: Lookup, tokens: seq<string>, n: nat, base: Payslip, f: Field)
    requires n <= |tokens| && Complete(base)
    ensures Complete(ScanLabels(lookup, tokens, n, base))
    ensures var k := LastWriter(lookup, tokens, n, f);
            ScanLabels(lookup, tokens, n, base)[f] == if k < 0 then base[f] else Written(lookup, tokens, k, f)
  {
    if n > 0 {
      var prior := ScanLabels(lookup, tokens, n - 1, base);
      ScanField(lookup, tokens, n - 1, base, f);
      StepField(lookup, tokens, n - 1, prior, f);
      assert ScanLabels(lookup, tokens, n, base) == Step(lookup, tokens, n - 1, prior);
      if Writes(lookup, tokens, n - 1, f) {
        assert LastWriter(lookup, tokens, n, f) == n - 1;
      } else {
        assert LastWriter(lookup, tokens, n, f) == LastWriter(lookup, tokens, n - 1, f);
      }
    }
  }

  /** The two cases of a step, as the loop of `parsePayslipText` takes them. */
  lemma StepCases(lookup: Lookup, tokens: seq<string>, i: nat, r: Payslip)
    requires i < |tokens|
    ensures var m := lookup(tokens[i]);
            Step(lookup, tokens, i, r)
            == if m.Some? && i + 1 < |tokens| && |tokens[i + 1]| > 0
               then r[m.value.field := ParseValue(tokens[i + 1], m.value.valueType)]
               else r
  {
  }

  /** One step keeps the record complete and changes field `f` exactly when
      it writes `f`. */
  lemma StepField(lookup: Lookup, tokens: seq<string>, i: nat, r: Payslip, f: Field)
    requires i < |tokens| && Complete(r)
    ensures Complete(Step(lookup, tokens, i, r))
    ensures Step(lookup, tokens, i, r)[f] == if Writes(lookup, tokens, i, f) then Written(lookup, tokens, i, f) else r[f]
  {
  }

  /** A field no label names is never written. */
  lemma ScanKeepsUnlabelledFields(lookup: Lookup, tokens: seq<string>, base: Payslip, f: Field)
    requires Complete(base)
    requires forall t :: lookup(t).Some? ==> lookup(t).value.field != f
    ensures Complete(ScanLabels(lookup, tokens, |tokens|, base))
    ensures ScanLabels(lookup, tokens, |tokens|, base)[f] == base[f]
  {
    ScanField(lookup, tokens, |tokens|, base, f);
  }

  /** A label as the last token writes nothing. */
  lemma TrailingLabelWritesNothing(lookup: Lookup, tokens: seq<string>, f: Field)
    requires |tokens| > 0
    ensures !Writes(lookup, tokens, |tokens| - 1, f)
  {
  }

  // ---------------------------------------------------------------------
  // The whole parse

  /** The tokens the parse works on: the normalised text split on white space. */
  function TokensOf(text: string): seq<string> {
    SplitWhitespace(NormalizeText(text))
  }

  /** The default record with the period found in the text. */
  function PeriodBase(today: Date, period: Period): (p: Payslip)
    ensures Complete(p)
    ensures p[Year] == period.year as real && p[Month] == period.month as real
    ensures forall f: Field :: f != Year && f != Month ==> p[f] == 0.0
  {
    DefaultPayslip(today)[Year := period.year as real][Month := period.month as real]
  }

  /** The label scan over all tokens from `base`, then the two totals. */
  function ParseTokens(lookup: Lookup, tokens: seq<string>, base: Payslip): (p: Payslip)
    requires Complete(base)
    ensures Complete(p)
  {
    ScanComplete(lookup, tokens, |tokens|, base);
    var totals := TotalsOf(tokens);
    ScanLabels(lookup, tokens, |tokens|, base)
      [TotalEarnings := totals.earnings as real]
      [TotalDeductions := totals.deductions as real]
  }

  /** The record `parsePayslipText(text)` returns when the current date is
      `today`. */
  function ParseSpec(text: string, today: Date): (p: Payslip)
    ensures Complete(p)
  {
    var tokens := TokensOf(text);
    ParseTokens(LookupLabel, tokens, PeriodBase(today, YearMonthOf(tokens, today)))
  }

  /** The label loop of `parsePayslipText`: every token `lookup` maps to a
      field, and that is followed by a non-empty token, stores that token's
      value in the field. */
  method ScanTokens(lookup: Lookup, tokens: seq<string>, base: Payslip) returns (result: Payslip)
    ensures result == ScanLabels(lookup, tokens, |tokens|, base)
  {
    result := base;
    var i := 0;
    while i < |tokens|
      invariant 0 <= i <= |tokens|
      invariant result == ScanLabels(lookup, tokens, i, base)
    {
      StepCases(lookup, tokens, i, result);
      var mapping := lookup(tokens[i]);
      if mapping.Some? {
        var valueIndex := i + 1;
        if valueIndex < |tokens| && |tokens[valueIndex]| > 0 {
          var parsedValue := ParseValue(tokens[valueIndex], mapping.value.valueType);
          result := result[mapping.value.field := parsedValue];
        }
      }
      i := i + 1;
    }
  }

  /** `parsePayslipText`: start from the default record, set the period, scan
      the tokens for labels, then overwrite the two totals. */
  method ParsePayslipText(text: string, today: Date) returns (result: Payslip)
    ensures result == ParseSpec(text, today)
  {
    result := DefaultPayslip(today);

    var normalizedText := NormalizeText(text);

    var period := ExtractYearMonth(normalizedText, today);
    result := result[Year := period.year as real];
    result := result[Month := period.month as real];

    var tokens := SplitWhitespace(normalizedText);
    ghost var base := result;
    PeriodBaseOfDefault(today, period, base);

    result := ScanTokens(LookupLabel, tokens, result);

    var totals := ExtractTotals(tokens);
    result := result[TotalEarnings := totals.earnings as real];
    result := result[TotalDeductions := totals.deductions as real];
    ParseTokensOfScan(LookupLabel, tokens, base, totals, result);
  }

  /** The record `parsePayslipText` builds before its scan is the period base. */
  lemma PeriodBaseOfDefault(today: Date, period: Period, base: Payslip)
    requires base == DefaultPayslip(today)[Year := period.year as real][Month := period.month as real]
    ensures base == PeriodBase(today, period) && Complete(base)
  {
  }

  /** The scan followed by the two total writes is `ParseTokens`. */
  lemma ParseTokensOfScan(lookup: Lookup, tokens: seq<string>, base: Payslip, totals: Totals, p: Payslip)
    requires Complete(base) && totals == TotalsOf(tokens)
    requires p == ScanLabels(lookup, tokens, |tokens|, base)
                   [TotalEarnings := totals.earnings as real][TotalDeductions := totals.deductions as real]
    ensures p == ParseTokens(lookup, tokens, base)
  {
  }

  /** From a complete base the parse yields a value for every field; the
      totals come from the totals search whatever the scan wrote; fields no
      label names keep their base value; a labelled field holds the value
      after its last label occurrence that is followed by a token. */
  lemma ParseTokensFields(lookup: Lookup, tokens: seq<string>, base: Payslip, f: Field)
    requires Complete(base)
    ensures Complete(ParseTokens(lookup, tokens, base))
    ensures ParseTokens(lookup, tokens, base)[TotalEarnings] == TotalsOf(tokens).earnings as real
    ensures ParseTokens(lookup, tokens, base)[TotalDeductions] == TotalsOf(tokens).deductions as real
    ensures f != TotalEarnings && f != TotalDeductions ==>
              var k := LastWriter(lookup, tokens, |tokens|, f);
              ParseTokens(lookup, tokens, base)[f] == if k < 0 then base[f] else Written(lookup, tokens, k, f)
  {
    ScanField(lookup, tokens, |tokens|, base, f);
  }

  /** The totals always come from the totals search, whatever the scan wrote;
      the period always comes from the period search. */
  lemma ParseTotalsAndPeriod(text: string, today: Date)
    ensures var p := ParseSpec(text, today);
            && p[TotalEarnings] == TotalsOf(TokensOf(text)).earnings as real
            && p[TotalDeductions] == TotalsOf(TokensOf(text)).deductions as real
            && p[Year] == YearMonthOf(TokensOf(text), today).year as real
            && p[Month] == YearMonthOf(TokensOf(text), today).month as real
  {
    var tokens := TokensOf(text);
    var base := PeriodBase(today, YearMonthOf(tokens, today));
    LookupSkipsPeriodAndTotals();
    ParseTokensFields(LookupLabel, tokens, base, Year);
    NoWriterOfUnlabelled(LookupLabel, tokens, Year);
    ParseTokensFields(LookupLabel, tokens, base, Month);
    NoWriterOfUnlabelled(LookupLabel, tokens, Month);
  }

  /** A field no label names has no writer. */
  lemma NoWriterOfUnlabelled(lookup: Lookup, tokens: seq<string>, f: Field)
    requires forall t :: lookup(t).Some? ==> lookup(t).value.field != f
    ensures LastWriter(lookup, tokens, |tokens|, f) == -1
  {
  }

  /** A labelled field holds the value after its last label occurrence that
      is followed by a token, and 0 when there is none. */
  lemma ParseLabelledField(text: string, today: Date, f: Field)
    requires LabelOf(f).Some?
    ensures var tokens := TokensOf(text);
            var k := LastWriter(LookupLabel, tokens, |tokens|, f);
            ParseSpec(text, today)[f] == if k < 0 then 0.0 else Written(LookupLabel, tokens, k, f)
  {
    var tokens := TokensOf(text);
    assert f != Year && f != Month && f != TotalEarnings && f != TotalDeductions;
    ParseTokensFields(LookupLabel, tokens, PeriodBase(today, YearMonthOf(tokens, today)), f);
  }

  /** The tokens of the base salary example of `util-pdf-parser.server.test.ts`. */
  const BaseSalaryTokens: seq<string> := ["2025(令和07)年6月支給分", "基本給(月給)", "300,000", "テスト"]

  /** The base salary example of `util-pdf-parser.server.test.ts`, as
      tokens: the amount after "基本給(月給)" becomes the base salary. */
  lemma BaseSalaryExample(base: Payslip)
    requires Complete(base)
    ensures ParseTokens(LookupLabel, BaseSalaryTokens, base)[BaseSalary] == 300000.0
  {
    BaseSalaryWriter();
    ParseTokensFields(LookupLabel, BaseSalaryTokens, base, BaseSalary);
    CurrencyValueExample();
  }

  /** In the example only the label token writes the base salary. */
  lemma BaseSalaryWriter()
    ensures LastWriter(LookupLabel, BaseSalaryTokens, 4, BaseSalary) == 1
    ensures Written(LookupLabel, BaseSalaryTokens, 1, BaseSalary) == ParseValue("300,000", Currency)
  {
    var tokens := BaseSalaryTokens;
    assert |tokens| == 4 && tokens[1] == "基本給(月給)" && tokens[2] == "300,000";
    BaseSalaryLabelFound();
    assert Writes(LookupLabel, tokens, 1, BaseSalary);
    AmountIsNoBaseSalaryLabel(tokens[2]);
    assert !Writes(LookupLabel, tokens, 2, BaseSalary);
    assert !Writes(LookupLabel, tokens, 3, BaseSalary);
    assert LastWriter(LookupLabel, tokens, 2, BaseSalary) == 1;
    assert LastWriter(LookupLabel, tokens, 3, BaseSalary) == 1;
  }

  lemma AmountIsNoBaseSalaryLabel(t: string)
    requires t == "300,000"
    ensures LookupLabel(t).None? || LookupLabel(t).value.field != BaseSalary
  {
    LookupOnlyUnderOwnLabel(t, BaseSalary);
    assert LabelOf(BaseSalary) == Some("基本給(月給)");
    assert t != "基本給(月給)" by {
      assert t[0] != "基本給(月給)"[0];
    }
  }

  lemma BaseSalaryLabelFound()
    ensures LookupLabel("基本給(月給)") == Some(Mapping(BaseSalary, Currency))
  {
    LabelTableShape();
    LookupFindsLabel(5);
    assert LabelMappings[5] == LabelEntry("基本給(月給)", Mapping(BaseSalary, Currency));
  }

  /** Tokens without a label and without a pair of large amounts leave a
      base with zero totals as it is. */
  lemma ParseTokensWithoutLabels(lookup: Lookup, tokens: seq<string>, base: Payslip)
    requires Complete(base) && base[TotalEarnings] == 0.0 && base[TotalDeductions] == 0.0
    requires forall i :: 0 <= i < |tokens| ==> lookup(tokens[i]).None?
    requires forall i :: 0 <= i < |tokens| ==> !IsTotalsPair(tokens, i)
    ensures ParseTokens(lookup, tokens, base) == base
  {
    TotalsWithoutPair(tokens);
    var p := ParseTokens(lookup, tokens, base);
    forall f: Field
      ensures p[f] == base[f]
    {
      ParseTokensFields(lookup, tokens, base, f);
    }
  }

  /** Text with no period, no label and no pair of large amounts yields the
      default record of the current date. */
  lemma UnrelatedTextGivesDefault(text: string, today: Date)
    requires forall i :: 0 <= i < |TokensOf(text)| ==>
               PeriodOf(TokensOf(text)[i]).None? && LookupLabel(TokensOf(text)[i]).None?
    requires forall i :: 0 <= i < |TokensOf(text)| ==> !IsTotalsPair(TokensOf(text), i)
    ensures ParseSpec(text, today) == DefaultPayslip(today)
  {
    var tokens := TokensOf(text);
    assert YearMonthOf(tokens, today) == Period(today.fullYear, today.monthIndex + 1);
    PeriodBaseOfToday(today);
    ParseTokensWithoutLabels(LookupLabel, tokens, DefaultPayslip(today));
  }

  /** The current date's period changes nothing in its default record. */
  lemma PeriodBaseOfToday(today: Date)
    ensures PeriodBase(today, Period(today.fullYear, today.monthIndex + 1)) == DefaultPayslip(today)
  {
    var p := PeriodBase(today, Period(today.fullYear, today.monthIndex + 1));
    var d := DefaultPayslip(today);
    assert forall f: Field :: f in p && f in d && p[f] == d[f];
  }

  /** The empty text yields the default record. */
  lemma EmptyTextGivesDefault(today: Date)
    ensures ParseSpec("", today) == DefaultPayslip(today)
  {
    assert TokensOf("") == [];
    UnrelatedTextGivesDefault("", today);
  }
}
