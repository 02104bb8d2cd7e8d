/** The upload helpers: file-type checks, the default record, the clock-time
    conversions and the coercion of the confirmation form's fields. */
module UploadService {
  import opened Wrappers
  import opened Js
  import opened Forms
  import opened UploadSchema

  /** A calendar date as `Date#getFullYear()` and `Date#getMonth()` report it:
      the month index counts from 0. */
  datatype Date = Date(fullYear: int, monthIndex: int)

  predicate ValidDate(d: Date) {
    0 <= d.monthIndex < 12
  }

  /** `isAllowedFileType`: membership in `ALLOWED_FILE_TYPES`. */
  predicate IsAllowedFileType(fileType: string) {
    fileType in AllowedFileTypes
  }

  /** Exactly the four listed MIME types are allowed; the empty type is not. */
  lemma AllowedFileTypesAreTheFour(fileType: string)
    ensures IsAllowedFileType(fileType) <==>
              fileType == "application/pdf" || fileType == "image/png"
              || fileType == "image/jpeg" || fileType == "image/jpg"
    ensures !IsAllowedFileType("")
  {
  }

  /** `isImageFile`: the type starts with "image/". */
  function IsImageFile(fileType: string): (b: bool)
    ensures b <==> |fileType| >= 6 && fileType[..6] == "image/"
  {
    "image/" <= fileType
  }

  /** Among the allowed types, everything but the PDF type is an image. */
  lemma AllowedImageTypes(fileType: string)
    requires IsAllowedFileType(fileType)
    ensures IsImageFile(fileType) <==> fileType != "application/pdf"
  {
    AllowedFileTypesAreTheFour(fileType);
    assert "image/png"[..6] == "image/jpeg"[..6] == "image/jpg"[..6] == "image/";
    assert "application/pdf"[..6] != "image/" by {
      assert "application/pdf"[0] != "image/"[0];
    }
  }

  /** The fields of the object literal of `createDefaultPayslipData(date)`. */
  function DefaultValue(date: Date, f: Field): real {
    match f
    case Year => date.fullYear as real
    case Month => (date.monthIndex + 1) as real
    case _ => 0.0
  }

  /** `createDefaultPayslipData(date)`: the period of `date`, every other field 0. */
  function DefaultPayslip(date: Date): (p: Payslip)
    ensures Complete(p)
    ensures p[Year] == date.fullYear as real
    ensures p[Month] == (date.monthIndex + 1) as real
    ensures forall f: Field :: f != Year && f != Month ==> p[f] == 0.0
  {
    map f: Field :: DefaultValue(date, f)
  }

  /** The default record of a date in 2000..2100 passes `payslipSchema`. */
  lemma DefaultPayslipIsValid(date: Date)
    requires ValidDate(date) && 2000 <= date.fullYear <= 2100
    ensures ValidPayslip(DefaultPayslip(date))
  {
  }

  /** A record that is zero except for an in-range period passes `payslipSchema`. */
  lemma ZeroRecordIsValid(p: Payslip, year: real, month: real)
    requires Complete(p)
    requires forall f: Field :: f != Year && f != Month ==> p[f] == 0.0
    requires 2000.0 <= year <= 2100.0 && 1.0 <= month <= 12.0
    requires p[Year] == year && p[Month] == month
    ensures ValidPayslip(p)
  {
  }

  /** A negative amount in any field other than the period is rejected. */
  lemma NegativeAmountIsInvalid(p: Payslip, f: Field)
    requires Complete(p) && f != Year && f != Month && p[f] < 0.0
    ensures !ValidPayslip(p)
  {
  }

  /** An out-of-range year or month is rejected. */
  lemma PeriodOutOfRangeIsInvalid(p: Payslip)
    requires Complete(p)
    requires p[Year] < 2000.0 || p[Year] > 2100.0 || p[Month] < 1.0 || p[Month] > 12.0
    ensures !ValidPayslip(p)
  {
  }

  // ---------------------------------------------------------------------
  // Clock times

  /** The shape `/^(\d+):(\d+)$/`: digits, a colon at `k`, digits. */
  predicate TimeSplitAt(s: string, k: int) {
    && 0 < k < |s| - 1
    && AllDigits(s[..k]) && s[k] == ':' && AllDigits(s[k + 1..])
  }

  ghost predicate IsTimeString(s: string) {
    exists k :: TimeSplitAt(s, k)
  }

  /** `timeStringToMinutes`: hours * 60 + minutes for a string of the shape
      digits ":" digits, and 0 for any other string. The minutes are not
      range-checked. */
  function TimeStringToMinutes(s: string): (m: int)
    ensures m >= 0
    ensures !IsTimeString(s) ==> m == 0
    ensures forall k :: TimeSplitAt(s, k) ==> m == DigitsValue(s[..k]) * 60 + DigitsValue(s[k + 1..])
  {
    var k := SpanLength(s, IsDigit);
    assert forall j :: TimeSplitAt(s, j) ==> j == k by {
      forall j | TimeSplitAt(s, j) ensures j == k {
        TimeSplitIsSpan(s, j);
      }
    }
    if k > 0 && k < |s| - 1 && s[k] == ':' && AllDigits(s[k + 1..]) then
      assert TimeSplitAt(s, k);
      // the two groups are plain digit strings, which parseInt reads exactly
      DigitsValue(s[..k]) * 60 + DigitsValue(s[k + 1..])
    else 0
  }

  /** The colon of a time string ends its leading run of digits. */
  lemma TimeSplitIsSpan(s: string, k: int)
    requires TimeSplitAt(s, k)
    ensures SpanLength(s, IsDigit) == k
  {
    assert s == s[..k] + s[k..];
    assert s[k..][0] == ':';
    SpanStopsAt(s[..k], s[k..], IsDigit);
  }

  /** The time string of hours `h` and minutes `mm`. */
  lemma TimeStringOfParts(h: string, mm: string)
    requires |h| > 0 && AllDigits(h) && |mm| > 0 && AllDigits(mm)
    ensures TimeStringToMinutes(h + ":" + mm) == DigitsValue(h) * 60 + DigitsValue(mm)
  {
    var s := h + ":" + mm;
    assert s[..|h|] == h && s[|h| + 1..] == mm;
    assert TimeSplitAt(s, |h|);
  }

  /** Well-formed examples of the upload `service.test.ts`. */
  lemma TimeStringExample90()
    ensures TimeStringToMinutes("1:30") == 90
  {
    TimeStringOfParts("1", "30");
    assert "1" + ":" + "30" == "1:30";
  }

  lemma TimeStringExample6030()
    ensures TimeStringToMinutes("100:30") == 6030
  {
    TimeStringOfParts("100", "30");
    assert "100" + ":" + "30" == "100:30";
  }

  lemma TimeStringExampleZero()
    ensures TimeStringToMinutes("0:00") == 0
  {
    TimeStringOfParts("0", "00");
    assert "0" + ":" + "00" == "0:00";
  }

  /** The malformed examples of the upload `service.test.ts` all read as 0. */
  lemma MalformedTimeStringExamples()
    ensures TimeStringToMinutes("invalid") == 0
    ensures TimeStringToMinutes("") == 0
    ensures TimeStringToMinutes("1:") == 0
    ensures TimeStringToMinutes(":30") == 0
    ensures TimeStringToMinutes("1-30") == 0
  {
  }

  /** The remainder of JavaScript's `%`, which takes the sign of the dividend. */
  function JsRemainder(a: int, b: int): (r: int)
    requires b > 0
    ensures -b < r < b
    ensures a >= 0 ==> r == a % b
    ensures a < 0 ==> r <= 0
  {
    if a >= 0 then a % b else -((-a) % b)
  }

  /** `minutesToTimeString`: `Math.floor(m / 60)`, a colon, and `m % 60`
      left-padded with "0" to two characters. Dafny's division by a positive
      divisor rounds down, as `Math.floor` does. */
  function MinutesToTimeString(totalMinutes: int): (s: string)
    ensures |s| >= 4
  {
    var hours := totalMinutes / 60;
    var minutes := JsRemainder(totalMinutes, 60);
    IntToString(hours) + ":" + PadStart(IntToString(minutes), 2, '0')
  }

  lemma MinutesToTimeStringParts(m: int)
    requires m >= 0
    ensures MinutesToTimeString(m) == NatToString(m / 60) + ":" + PadStart(NatToString(m % 60), 2, '0')
  {
    assert IntToString(m / 60) == NatToString(m / 60);
    assert JsRemainder(m, 60) == m % 60;
    assert IntToString(m % 60) == NatToString(m % 60);
  }

  /** `s` reads as a clock time `hours:minutes`: the hours in decimal, a
      colon, and exactly two digits of minutes. */
  predicate IsClockString(s: string, hours: nat, minutes: nat) {
    && |s| >= 4
    && s[|s| - 3] == ':'
    && AllDigits(s[..|s| - 3]) && DigitsValue(s[..|s| - 3]) == hours
    && AllDigits(s[|s| - 2..]) && DigitsValue(s[|s| - 2..]) == minutes
  }

  /** For a non-negative count the string is the hours in decimal, a colon and
      two digits of minutes below 60. */
  lemma MinutesToTimeStringShape(m: int)
    requires m >= 0
    ensures IsClockString(MinutesToTimeString(m), m / 60, m % 60)
  {
    MinutesToTimeStringParts(m);
    ClockStringOfParts(m, NatToString(m / 60), PadStart(NatToString(m % 60), 2, '0'));
  }

  lemma ClockStringOfParts(m: int, h: string, mm: string)
    requires m >= 0
    requires h == NatToString(m / 60)
    requires mm == PadStart(NatToString(m % 60), 2, '0')
    ensures IsClockString(h + ":" + mm, m / 60, m % 60)
  {
    PaddedMinutes(m % 60);
    ColonSplit(h, mm);
  }

  lemma ColonSplit(h: string, mm: string)
    requires |mm| == 2
    ensures var s := h + ":" + mm;
            s[|s| - 3] == ':' && s[..|s| - 3] == h && s[|s| - 2..] == mm
  {
    var s := h + ":" + mm;
    assert s[..|h|] == h && s[|h| + 1..] == mm;
  }

  /** The minutes part is two digits denoting the minutes. */
  lemma PaddedMinutes(r: nat)
    requires r < 60
    ensures var mm := PadStart(NatToString(r), 2, '0');
            |mm| == 2 && AllDigits(mm) && DigitsValue(mm) == r
  {
    var d := NatToString(r);
    var mm := PadStart(d, 2, '0');
    if r < 10 {
      assert mm == ['0'] + d;
      assert mm[..1] == ['0'];
      assert DigitsValue(['0']) == 0 by {
        assert ['0'][..0] == [];
      }
    } else {
      NatToStringOfTwoDigits(r);
      assert mm == d;
    }
  }

  /** A number between 10 and 99 prints as two digits. */
  lemma NatToStringOfTwoDigits(n: nat)
    requires 10 <= n < 100
    ensures |NatToString(n)| == 2
  {
    assert NatToString(n) == NatToString(n / 10) + [DigitChar(n % 10)];
  }

  /** The test examples of `minutesToTimeString`. */
  lemma MinutesToTimeStringExample90()
    ensures MinutesToTimeString(90) == "1:30"
  {
    OneHourThirty(90);
  }

  lemma MinutesToTimeStringExample65()
    ensures MinutesToTimeString(65) == "1:05"
  {
    OneHourFive(65);
  }

  lemma MinutesToTimeStringExample6030()
    ensures MinutesToTimeString(6030) == "100:30"
  {
    HundredHoursThirty(6030);
  }

  /** 6030 minutes, given as a variable so that the printing functions are
      unfolded one step at a time. */
  lemma HundredHoursThirty(m: int)
    requires m == 6030
    ensures MinutesToTimeString(m) == "100:30"
  {
    MinutesToTimeStringParts(m);
    assert m / 60 == 100 && m % 60 == 30;
    var hours, minutes := NatToString(m / 60), PadStart(NatToString(m % 60), 2, '0');
    assert hours == "100" by {
      assert NatToString(100) == NatToString(10) + [DigitChar(0)];
      assert NatToString(10) == NatToString(1) + [DigitChar(0)];
    }
    assert minutes == "30" by {
      assert NatToString(30) == NatToString(3) + [DigitChar(0)];
    }
  }

  /** 90 minutes, as a variable: one hour and thirty minutes. */
  lemma OneHourThirty(m: int)
    requires m == 90
    ensures MinutesToTimeString(m) == "1:30"
  {
    OneDigitPrints(1);
    ThirtyPads();
    ClockOfParts(m, "1", "30");
    assert "1" + ":" + "30" == "1:30";
  }

  /** 65 minutes, as a variable: one hour and five minutes, padded. */
  lemma OneHourFive(m: int)
    requires m == 65
    ensures MinutesToTimeString(m) == "1:05"
  {
    OneDigitPrints(1);
    FivePads();
    ClockOfParts(m, "1", "05");
    assert "1" + ":" + "05" == "1:05";
  }

  /** The printed form of `m` from its printed hours and padded minutes. */
  lemma ClockOfParts(m: int, hours: string, minutes: string)
    requires m >= 0
    requires NatToString(m / 60) == hours
    requires PadStart(NatToString(m % 60), 2, '0') == minutes
    ensures MinutesToTimeString(m) == hours + ":" + minutes
  {
    MinutesToTimeStringParts(m);
  }

  lemma OneDigitPrints(d: nat)
    requires d < 10
    ensures NatToString(d) == [DigitChar(d)]
  {
  }

  lemma ThirtyPads()
    ensures PadStart(NatToString(30), 2, '0') == "30"
  {
    OneDigitPrints(3);
    assert NatToString(30) == NatToString(3) + [DigitChar(0)];
  }

  lemma FivePads()
    ensures PadStart(NatToString(5), 2, '0') == "05"
  {
    OneDigitPrints(5);
  }

  /** A clock string reads as its hours * 60 + minutes. */
  lemma ClockStringReads(s: string, hours: nat, minutes: nat)
    requires IsClockString(s, hours, minutes)
    ensures TimeStringToMinutes(s) == hours * 60 + minutes
  {
    var k := |s| - 3;
    assert s == s[..k] + ":" + s[k + 1..];
    TimeStringOfParts(s[..k], s[k + 1..]);
  }

  /** Reading back a printed non-negative count gives the count again. */
  lemma {:induction false} TimeStringRoundTrip(m: int)
    requires m >= 0
    ensures TimeStringToMinutes(MinutesToTimeString(m)) == m
  {
    var s := MinutesToTimeString(m);
    MinutesToTimeStringShape(m);
    ClockStringReads(s, m / 60, m % 60);
    HoursAndMinutes(m);
  }

  lemma HoursAndMinutes(m: int)
    requires m >= 0
    ensures m / 60 * 60 + m % 60 == m
  {
  }

  /** A negative count prints with a leading minus sign, which the reader
      rejects: negative counts do not round-trip. */
  lemma NegativeMinutesDoNotRoundTrip(m: int)
    requires m < 0
    ensures MinutesToTimeString(m)[0] == '-'
    ensures TimeStringToMinutes(MinutesToTimeString(m)) == 0
  {
    var s := MinutesToTimeString(m);
    assert m / 60 < 0;
    assert s[0] == '-';
  }

  // ---------------------------------------------------------------------
  // Form coercion

  /** `getStringValue`: the text, or "0:00" for a missing field or a file. */
  function GetStringValue(value: Entry): (s: string)
    ensures value.Text? ==> s == value.s
    ensures !value.Text? ==> TimeStringToMinutes(s) == 0
  {
    if value.Text? then value.s else "0:00"
  }

  /** `parseCurrencyString`: commas removed, then `parseInt(·, 10) || 0`;
      0 for a missing field or a file. */
  function ParseCurrencyString(value: Entry): (n: int)
    ensures !value.Text? ==> n == 0
    ensures value.Text? && (forall i :: 0 <= i < |value.s| ==> !IsDigit(value.s[i])) ==> n == 0
  {
    match value
    case Null => 0
    case File => 0
    case Text(s) =>
      ParseIntWithoutDigitsAfterCommas(s);
      ParseIntOrZero(RemoveCommas(s))
  }

  lemma ParseIntWithoutDigitsAfterCommas(s: string)
    ensures (forall i :: 0 <= i < |s| ==> !IsDigit(s[i])) ==> ParseInt(RemoveCommas(s)) == None
  {
    if forall i :: 0 <= i < |s| ==> !IsDigit(s[i]) {
      RemoveCommasWithoutDigits(s);
      ParseIntWithoutDigits(RemoveCommas(s));
    }
  }

  /** A group-separated amount such as "300,000" reads as the number its
      digits denote. */
  lemma CurrencyOfSeparatedDigits(s: string)
    requires forall i :: 0 <= i < |s| ==> IsDigit(s[i]) || s[i] == ','
    requires exists i :: 0 <= i < |s| && IsDigit(s[i])
    ensures ParseCurrencyString(Text(s)) == DigitsValue(RemoveCommas(s))
  {
    var k :| 0 <= k < |s| && IsDigit(s[k]);
    RemoveCommasKeepsDigits(s, k);
    ParseIntOfDigits(RemoveCommas(s));
  }

  /** What a field of the extracted form record holds: the raw form entry
      (period and leave days), or a number. */
  datatype FormValue = Raw(entry: Entry) | Num(n: int)

  /** How `extractPayslipFromFormData` coerces each field. */
  datatype Coercion = PassThrough | Minutes | Amount

  function CoercionOf(f: Field): Coercion {
    match f
    case Year | Month | PaidLeaveDays | PaidLeaveRemainingDays => PassThrough
    case ExtraOvertimeMinutes | Over60OvertimeMinutes | NightOvertimeMinutes => Minutes
    case _ => Amount
  }

  function CoerceField(form: FormData, f: Field): FormValue {
    var e := Get(form, FieldName(f));
    match CoercionOf(f)
    case PassThrough => Raw(e)
    case Minutes => Num(TimeStringToMinutes(GetStringValue(e)))
    case Amount => Num(ParseCurrencyString(e))
  }

  /** `extractPayslipFromFormData`: every field, read from the form entry of
      the same name and coerced by its kind. */
  function ExtractPayslipFromFormData(form: FormData): (r: map<Field, FormValue>)
    ensures forall f: Field :: f in r
    ensures forall f: Field :: CoercionOf(f) == PassThrough ==> r[f] == Raw(Get(form, FieldName(f)))
    ensures forall f: Field :: CoercionOf(f) == Minutes ==>
              r[f] == Num(TimeStringToMinutes(GetStringValue(Get(form, FieldName(f)))))
    ensures forall f: Field :: CoercionOf(f) == Amount ==>
              r[f] == Num(ParseCurrencyString(Get(form, FieldName(f))))
  {
    map f: Field :: CoerceField(form, f)
  }

  /** A time field whose text is not digits ":" digits ("1-30"), and an
      amount field whose text holds no digit ("abc"), both become 0. */
  lemma MalformedFieldsBecomeZero(form: FormData, f: Field)
    requires Get(form, FieldName(f)).Text?
    requires CoercionOf(f) == Minutes ==> !IsTimeString(Get(form, FieldName(f)).s)
    requires CoercionOf(f) == Amount ==>
               forall i :: 0 <= i < |Get(form, FieldName(f)).s| ==> !IsDigit(Get(form, FieldName(f)).s[i])
    ensures CoercionOf(f) != PassThrough ==> ExtractPayslipFromFormData(form)[f] == Num(0)
  {
  }

  /** A field missing from the form, or holding a file, becomes 0 when it is a
      time or an amount: "0:00" reads as 0 minutes. */
  lemma MissingFieldsBecomeZero(form: FormData, f: Field)
    requires CoercionOf(f) != PassThrough
    requires !Get(form, FieldName(f)).Text?
    ensures ExtractPayslipFromFormData(form)[f] == Num(0)
  {
  }

  /** A time field holding digits ":" digits becomes its count of minutes. */
  lemma TimeFieldIsConverted(form: FormData, f: Field, h: string, mm: string)
    requires CoercionOf(f) == Minutes
    requires |h| > 0 && AllDigits(h) && |mm| > 0 && AllDigits(mm)
    requires Get(form, FieldName(f)) == Text(h + ":" + mm)
    ensures ExtractPayslipFromFormData(form)[f] == Num(DigitsValue(h) * 60 + DigitsValue(mm))
  {
    TimeStringOfParts(h, mm);
  }

  /** An amount field holding separated digits becomes the number they denote. */
  lemma AmountFieldIsConverted(form: FormData, f: Field, s: string)
    requires CoercionOf(f) == Amount
    requires forall i :: 0 <= i < |s| ==> IsDigit(s[i]) || s[i] == ','
    requires exists i :: 0 <= i < |s| && IsDigit(s[i])
    requires Get(form, FieldName(f)) == Text(s)
    ensures ExtractPayslipFromFormData(form)[f] == Num(DigitsValue(RemoveCommas(s)))
  {
    CurrencyOfSeparatedDigits(s);
  }
}
