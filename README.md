# Payslip parsing core of SalaryLens, in Dafny

SalaryLens is a personal salary-statement web application. A user uploads a
payslip, the server turns its extracted text into a payslip record, the user
confirms the figures in a form, and a dashboard summarises the stored
records. This project models the deterministic core of that flow and proves
what it promises:

- `PdfParser` (`app/routes/payslips/upload/util-pdf-parser.server.ts`)
  models the payslip text parser. It repairs the two line-break artefacts
  around "(60時間超)", splits the text on white space and takes the period
  from the first `YYYY…年M月` token. Its label scan writes the value token
  after each exact label into the record. Its totals heuristic takes the
  first adjacent pair of amounts of at least 10,000 before `差引支給額:`.
  `ExtractYearMonth`, `ExtractTotals`, `ScanTokens` and `ParsePayslipText`
  are methods with the source's loops. Each is proved equal to a
  specification function, and the lemmas are stated about those functions.
- `UploadSchema` (`schema.ts`) holds the record's fields, the
  `payslipSchema` bounds as a predicate, `ALLOWED_FILE_TYPES` and the
  21-entry label table.
- `UploadService` (`service.ts`) holds the file-type predicates, the default
  record, the clock-time conversions with their round trip, and the
  coercion of the confirmation form.
- `DashboardService` (`app/routes/dashboard/service.ts`) holds the summary
  sums, the floor average and the recent-records selection.
- `SidebarService` (`app/shared/layout/sidebar/service.ts`) holds icon
  lookup, navigation items with icons, the theme toggle and its cookie.
- `Root` (`app/root.tsx`) holds the theme cookie parser, the theme cookie,
  the theme action's validation, the loader and the layout's theme choice.
- `Js`, `Forms`, `Themes` and `Wrappers` are helper modules. `Js` models the
  JavaScript built-ins the core relies on: `\s`, `\d`, `parseInt`,
  `parseFloat`, `toString`, `padStart`, comma removal, the white-space
  split and `findIndex`. `Forms` models `FormData#get`, and `Themes` models
  the `"light" | "dark"` type.

Modelling decisions:

- Strings are `seq<char>`. Every label is in the Basic Multilingual Plane,
  so JavaScript's UTF-16 units and Dafny characters coincide.
- A payslip record is a `map<Field, real>`: every field is a JavaScript
  number, and the leave days are fractional. The parser keeps the record in
  a local variable that it updates step by step, as the source does with
  its local object.
- Every label is a single token. `LabelsAreSingleTokens` proves this, and
  `LabelTableShape` proves that the labels are distinct. So the
  multi-token comparison and the sort by label length in
  `parsePayslipText` come down to an exact lookup of `tokens[i]`. The
  model states that lookup directly (`LookupLabel`).
- "The current date" (`new Date()`) is a parameter `today`.
  `parsePayslipText` reads the clock three times. The first read is
  through `createDefaultPayslipData()`, and its year and month are always
  overwritten. The fallback in `extractYearMonth` makes the other two, one
  for `getFullYear()` and one for `getMonth()`. The model takes those two
  reads as one date.
- The label scan is stated for any lookup function. Its proofs therefore do
  not depend on the table's contents. The parse instantiates it with
  `LookupLabel`.
- `NavigationItem.label` is named `labelText`, because `label` is a Dafny
  keyword.
- The dashboard record has only the fields that `calculateSummary`,
  `getRecentRecords` and their tests read. The dashboard's own
  `schema.ts` lists other fields.

## Model

| member | source | states |
|---|---|---|
| `PdfParser.ParseValueAgreesWithForm` | app/routes/payslips/upload/util-pdf-parser.server.ts:23-31 | a time value token is read as the form reads a time field, and a currency token as the form reads an amount |
| `PdfParser.TimeValueOfMalformed` | app/routes/payslips/upload/util-pdf-parser.server.ts:28-29 | a time token that is not digits ":" digits coerces to 0 |
| `PdfParser.CurrencyValueOfSeparatedDigits` | app/routes/payslips/upload/util-pdf-parser.server.ts:30-31 | a token of digits and commas with at least one digit coerces to the number its digits denote, commas dropped |
| `PdfParser.CurrencyValueWithoutDigits` | app/routes/payslips/upload/util-pdf-parser.server.ts:30-31 | a token without digits coerces to 0 (NaN becomes 0) |
| `PdfParser.DecimalValueOfParts` | app/routes/payslips/upload/util-pdf-parser.server.ts:32-33 | a decimal token `w.f` coerces to the whole part plus the fraction |
| `PdfParser.CurrencyValueExample` | app/routes/payslips/upload/__tests__/util-pdf-parser.server.test.ts:89-95 | "300,000" coerces to 300000 |
| `PdfParser.DecimalValueExampleHalf` | app/routes/payslips/upload/__tests__/util-pdf-parser.server.test.ts:71-77 | "2.5" coerces to 2.5 |
| `PdfParser.DecimalValueExampleWhole` | app/routes/payslips/upload/__tests__/util-pdf-parser.server.test.ts:79-85 | "15.0" coerces to 15 |
| `PdfParser.MatchLength` | app/routes/payslips/upload/util-pdf-parser.server.ts:111-113 | a match of either artefact pattern is longer than the repaired label and contains a line feed |
| `PdfParser.ReplaceAllWithoutNewline` | app/routes/payslips/upload/util-pdf-parser.server.ts:111-113 | the global replace leaves text without a line feed unchanged |
| `PdfParser.NormalizeWithoutNewline` | app/routes/payslips/upload/util-pdf-parser.server.ts:107-115 | normalizeText returns text without a line feed unchanged |
| `PdfParser.NormalizeJoinsBreakBeforeHours` | app/routes/payslips/upload/util-pdf-parser.server.ts:110-111 | "(60", white space holding a line feed, "時間超)" becomes "(60時間超)"; the text around it is kept |
| `PdfParser.NormalizeJoinsBreakBeforeParen` | app/routes/payslips/upload/util-pdf-parser.server.ts:112-113 | "(60時間超", white space holding a line feed, ")" becomes "(60時間超)"; the text around it is kept |
| `PdfParser.FirstPassKeepsBreakBeforeParen` | app/routes/payslips/upload/util-pdf-parser.server.ts:111-113 | the first replacement does not touch the second artefact, so the second replacement sees it intact |
| `PdfParser.YearOf` | app/routes/payslips/upload/util-pdf-parser.server.ts:46 | a year is found exactly when the token starts with four ASCII digits; it is the value of those four digits, below 10000 |
| `PdfParser.MonthAt` | app/routes/payslips/upload/util-pdf-parser.server.ts:47 | a match at p exists exactly when 年, a digit, then either 月 or a second digit and 月 follow; the month is the value of those one or two digits |
| `PdfParser.MonthFromSkips` | app/routes/payslips/upload/util-pdf-parser.server.ts:47 | positions with no month match do not change the leftmost match |
| `PdfParser.MonthFrom` | app/routes/payslips/upload/util-pdf-parser.server.ts:47 | the month is the leftmost match of 年(1-2 digits)月, and no match exists when none is returned |
| `PdfParser.PeriodOf` | app/routes/payslips/upload/util-pdf-parser.server.ts:45-53 | a token yields a period exactly when both the year pattern and the month pattern match; the period is those two values |
| `PdfParser.PeriodOfParts` | app/routes/payslips/upload/util-pdf-parser.server.ts:44-53 | a token of four digits, text without 年, then 年 mm 月 yields that year and that month |
| `PdfParser.PeriodExampleNovember` | app/routes/payslips/upload/__tests__/util-pdf-parser.server.test.ts:24-31 | "2025(令和07)年11月25日支給分" yields 2025 and 11 |
| `PdfParser.PeriodExampleMarch` | app/routes/payslips/upload/__tests__/util-pdf-parser.server.test.ts:33-40 | "2024(令和06)年3月20日支給分" yields 2024 and 3 |
| `PdfParser.YearMonthOf` | app/routes/payslips/upload/util-pdf-parser.server.ts:40-57 | the period of the first token that yields one; otherwise today's year and month index + 1, with the month unchecked |
| `PdfParser.ExtractYearMonth` | app/routes/payslips/upload/util-pdf-parser.server.ts:40-57 | the early-return loop over the tokens computes YearMonthOf |
| `PdfParser.FirstPeriodIsYearMonth` | app/routes/payslips/upload/util-pdf-parser.server.ts:43-53 | the first token that yields a period decides it, whatever follows |
| `PdfParser.TotalsEnd` | app/routes/payslips/upload/util-pdf-parser.server.ts:70-71 | the boundary is the first `差引支給額:` index when it is positive; otherwise it is the token count, also when the label is at index 0 |
| `PdfParser.CurrencyTokenParses` | app/routes/payslips/upload/util-pdf-parser.server.ts:74-79 | on a `^[\d,]+$` token, isLargeAmount holds exactly when its digits denote at least 10000, and parseInt then gives that number |
| `PdfParser.AmountOfGroups` | app/routes/payslips/upload/util-pdf-parser.server.ts:73-79 | a token "a,bbb" is a currency token worth a*1000+bbb |
| `PdfParser.NetSalaryLabelIsNotAmount` | app/routes/payslips/upload/util-pdf-parser.server.ts:70-74 | the net pay label is never taken for an amount |
| `PdfParser.TotalsOfFirstPair` | app/routes/payslips/upload/util-pdf-parser.server.ts:82-98 | the first qualifying adjacent pair before the boundary gives deductions = first and earnings = second |
| `PdfParser.TotalsWithoutPair` | app/routes/payslips/upload/util-pdf-parser.server.ts:82-100 | with no qualifying pair before the boundary, both totals are 0 |
| `PdfParser.TotalsAtSecond` | app/routes/payslips/upload/util-pdf-parser.server.ts:82-98 | when the pair at 0 fails and the pair at 1 qualifies before the boundary, the totals are the pair at 1 |
| `PdfParser.TotalsBeforeNetSalary` | app/routes/payslips/upload/__tests__/util-pdf-parser.server.test.ts:150-160 | a non-empty token that is not an amount, two large amounts, then the net pay label: the amounts are the deductions and the earnings |
| `PdfParser.TotalsExample` | app/routes/payslips/upload/__tests__/util-pdf-parser.server.test.ts:150-160 | the test's tokens give deductions 108000 and earnings 455000 |
| `PdfParser.PairCheck` | app/routes/payslips/upload/util-pdf-parser.server.ts:85-97 | the loop's test is the totals-pair predicate, and its two parseInt readings are the pair's amounts |
| `PdfParser.ExtractTotals` | app/routes/payslips/upload/util-pdf-parser.server.ts:65-101 | the early-return index loop computes TotalsOf(tokens) |
| `PdfParser.LastWriter` | app/routes/payslips/upload/util-pdf-parser.server.ts:140-171 | the last label occurrence writing f among the first n tokens, or -1 when there is none |
| `PdfParser.StepCases` | app/routes/payslips/upload/util-pdf-parser.server.ts:142-168 | one step writes parseValue(tokens[i+1]) into the looked-up field when a label is found and a non-empty token follows; otherwise it changes nothing |
| `PdfParser.ScanComplete` | app/routes/payslips/upload/util-pdf-parser.server.ts:122-171 | the scan never removes a field from the record |
| `PdfParser.StepField` | app/routes/payslips/upload/util-pdf-parser.server.ts:159-168 | one token changes field f exactly when it is a label for f followed by a non-empty token, and then sets parseValue of that token |
| `PdfParser.ScanField` | app/routes/payslips/upload/util-pdf-parser.server.ts:140-171 | after the scan, each field holds the value after its last label occurrence that has a following token; later occurrences overwrite earlier ones; with no occurrence it keeps its prior value |
| `PdfParser.ScanKeepsUnlabelledFields` | app/routes/payslips/upload/util-pdf-parser.server.ts:159-168 | a field that no label names keeps its prior value |
| `PdfParser.TrailingLabelWritesNothing` | app/routes/payslips/upload/util-pdf-parser.server.ts:161-164 | a label as the last token writes nothing |
| `PdfParser.ScanTokens` | app/routes/payslips/upload/util-pdf-parser.server.ts:140-171 | the label loop, with its value token scanned again at the next index, computes ScanLabels |
| `PdfParser.PeriodBase` | app/routes/payslips/upload/util-pdf-parser.server.ts:122-129 | the record before the scan is the default record with the extracted year and month |
| `PdfParser.ParsePayslipText` | app/routes/payslips/upload/util-pdf-parser.server.ts:121-179 | the whole parse (default, normalise, period, tokens, scan, totals) computes ParseSpec(text, today) |
| `PdfParser.ParseTokensOfScan` | app/routes/payslips/upload/util-pdf-parser.server.ts:140-176 | the scan result with the two totals written over it is the parse of the tokens |
| `PdfParser.NoWriterOfUnlabelled` | app/routes/payslips/upload/util-pdf-parser.server.ts:159-168 | a field no label maps to has no writer in any token sequence |
| `PdfParser.ParseTokensFields` | app/routes/payslips/upload/util-pdf-parser.server.ts:140-176 | the totals always equal the extractTotals output; every other field holds its last labelled write or its base value |
| `PdfParser.ParseTotalsAndPeriod` | app/routes/payslips/upload/util-pdf-parser.server.ts:127-176 | in the parsed record, the totals come from the totals search and the year/month from the period search, whatever the scan saw |
| `PdfParser.ParseLabelledField` | app/routes/payslips/upload/util-pdf-parser.server.ts:140-171 | a labelled field holds the value after its last label occurrence, or 0 when there is none |
| `PdfParser.BaseSalaryExample` | app/routes/payslips/upload/__tests__/util-pdf-parser.server.test.ts:89-95 | "基本給(月給) 300,000" sets the base salary to 300000 |
| `PdfParser.ParseTokensWithoutLabels` | app/routes/payslips/upload/util-pdf-parser.server.ts:140-176 | tokens with no label and no qualifying pair leave a base with zero totals unchanged |
| `PdfParser.UnrelatedTextGivesDefault` | app/routes/payslips/upload/__tests__/util-pdf-parser.server.test.ts:225-232 | text with no period, no label and no pair of large amounts parses to the default record of today |
| `PdfParser.PeriodBaseOfToday` | app/routes/payslips/upload/util-pdf-parser.server.ts:122-129 | with today's year and month as the period, the base record is the default record |
| `PdfParser.EmptyTextGivesDefault` | app/routes/payslips/upload/__tests__/util-pdf-parser.server.test.ts:216-223 | the empty text parses to the default record of today |
| `UploadSchema.LookupLabel` | app/routes/payslips/upload/schema.ts:158-190 | a token finds a mapping exactly when it equals a label, and the mapping is that label's entry |
| `UploadSchema.LabelTableShape` | app/routes/payslips/upload/schema.ts:158-190 | the table has 21 entries with distinct labels |
| `UploadSchema.LabelTableSkipsPeriodAndTotals` | app/routes/payslips/upload/schema.ts:158-190 | no entry maps to year, month, totalEarnings or totalDeductions |
| `UploadSchema.LabelOfInvertsTable` | app/routes/payslips/upload/schema.ts:163-189 | each entry's field leads back to the entry's label |
| `UploadSchema.LabelTableInjective` | app/routes/payslips/upload/schema.ts:158-190 | distinct entries map to distinct fields |
| `UploadSchema.LookupFindsEveryLabel` | app/routes/payslips/upload/schema.ts:158-190 | exact lookup finds every entry under its own label |
| `UploadSchema.LookupOnlyUnderOwnLabel` | app/routes/payslips/upload/schema.ts:158-190 | a lookup gives field f only for f's own label |
| `UploadSchema.NoLabelForPeriodOrTotals` | app/routes/payslips/upload/schema.ts:158-190 | a token that finds a mapping never maps to the period or a total |
| `UploadSchema.LookupSkipsPeriodAndTotals` | app/routes/payslips/upload/schema.ts:158-190 | no token at all looks up the period or a total |
| `UploadSchema.LabelValueTypes` | app/routes/payslips/upload/schema.ts:163-189 | the three overtime labels are time, the two leave labels decimal, all others currency |
| `UploadSchema.LabelsHaveNoSpace` | app/routes/payslips/upload/schema.ts:163-189 | no label contains white space |
| `UploadSchema.LabelsAreSingleTokens` | app/routes/payslips/upload/util-pdf-parser.server.ts:142-157 | every label splits into exactly itself, so the multi-token match is a single-token comparison |
| `UploadService.AllowedFileTypesAreTheFour` | app/routes/payslips/upload/service.ts:10-14 | a type is allowed exactly when it is one of application/pdf, image/png, image/jpeg, image/jpg; "" is not |
| `UploadService.IsImageFile` | app/routes/payslips/upload/service.ts:19-21 | true exactly when the type starts with "image/" |
| `UploadService.AllowedImageTypes` | app/routes/payslips/upload/service.ts:10-21 | among the allowed types, all but application/pdf are images |
| `UploadService.DefaultPayslip` | app/routes/payslips/upload/service.ts:27-64 | year and month (1-based) come from the date; every other field is 0 |
| `UploadService.DefaultPayslipIsValid` | app/routes/payslips/upload/schema.ts:15-50 | the default record of a date in 2000..2100 passes the schema |
| `UploadService.ZeroRecordIsValid` | app/routes/payslips/upload/__tests__/schema.test.ts:72-103 | an all-zero record with an in-range year and month is valid |
| `UploadService.NegativeAmountIsInvalid` | app/routes/payslips/upload/schema.ts:21-49 | a negative value in any field but year and month, netSalary included, is invalid |
| `UploadService.PeriodOutOfRangeIsInvalid` | app/routes/payslips/upload/schema.ts:17-18 | a year outside 2000..2100 or a month outside 1..12 is invalid |
| `UploadService.TimeStringToMinutes` | app/routes/payslips/upload/service.ts:148-154 | non-negative; h*60+m for a string of digits ":" digits, minutes unchecked; 0 for any other string |
| `UploadService.TimeStringOfParts` | app/routes/payslips/upload/service.ts:148-154 | hours ":" minutes reads as hours*60 + minutes |
| `UploadService.TimeStringExample90` | app/routes/payslips/upload/__tests__/service.test.ts:102-106 | "1:30" is 90 |
| `UploadService.TimeStringExample6030` | app/routes/payslips/upload/__tests__/service.test.ts:112-114 | "100:30" is 6030 |
| `UploadService.TimeStringExampleZero` | app/routes/payslips/upload/__tests__/service.test.ts:108-110 | "0:00" is 0 |
| `UploadService.MalformedTimeStringExamples` | app/routes/payslips/upload/__tests__/service.test.ts:116-122 | "invalid", "", "1:", ":30" and "1-30" are 0 |
| `UploadService.JsRemainder` | app/routes/payslips/upload/service.ts:161 | JavaScript's % takes the dividend's sign and agrees with the Euclidean remainder on non-negative dividends |
| `UploadService.MinutesToTimeStringShape` | app/routes/payslips/upload/service.ts:159-163 | for m >= 0: the decimal of m div 60, a colon, and m mod 60 as two digits |
| `UploadService.MinutesToTimeStringExample90` | app/routes/payslips/upload/__tests__/service.test.ts:126-130 | 90 prints as "1:30" |
| `UploadService.MinutesToTimeStringExample65` | app/routes/payslips/upload/__tests__/service.test.ts:136-139 | 65 prints as "1:05" |
| `UploadService.MinutesToTimeStringExample6030` | app/routes/payslips/upload/__tests__/service.test.ts:141-143 | 6030 prints as "100:30" |
| `UploadService.ClockStringReads` | app/routes/payslips/upload/service.ts:148-154 | a clock string reads back as its hours*60 + minutes |
| `UploadService.TimeStringRoundTrip` | app/routes/payslips/upload/service.ts:148-163 | for every m >= 0, timeStringToMinutes(minutesToTimeString(m)) == m |
| `UploadService.NegativeMinutesDoNotRoundTrip` | app/routes/payslips/upload/service.ts:148-163 | a negative count prints with a minus sign and reads back as 0 |
| `UploadService.GetStringValue` | app/routes/payslips/upload/service.ts:69-74 | a text entry is returned as is; a missing entry or a file becomes a string that reads as 0 minutes |
| `UploadService.ParseCurrencyString` | app/routes/payslips/upload/service.ts:79-84 | a missing entry, a file or a text without digits is 0 |
| `UploadService.CurrencyOfSeparatedDigits` | app/routes/payslips/upload/service.ts:79-84 | an amount of digits and commas is the number its digits denote |
| `UploadService.ExtractPayslipFromFormData` | app/routes/payslips/upload/service.ts:90-143 | every field is present; year, month and leave days are the raw entries; a time field is timeStringToMinutes of getStringValue of its entry; an amount field is parseCurrencyString of its entry |
| `UploadService.MissingFieldsBecomeZero` | app/routes/payslips/upload/__tests__/service.test.ts:199-212 | a missing or file-valued time or amount field becomes 0 |
| `UploadService.TimeFieldIsConverted` | app/routes/payslips/upload/service.ts:99-107 | a time field holding digits ":" digits becomes its minutes |
| `UploadService.MalformedFieldsBecomeZero` | app/routes/payslips/upload/service.ts:79-107 | a time field whose text is not digits ":" digits, and an amount field whose text has no digit, become 0 |
| `UploadService.AmountFieldIsConverted` | app/routes/payslips/upload/service.ts:112-141 | an amount field holding digits and commas becomes the number its digits denote |
| `DashboardService.ReduceIsSum` | app/routes/dashboard/service.ts:7-14 | the reduce fold from acc is acc plus the sum of the field over the records |
| `DashboardService.SumAppend` | app/routes/dashboard/service.ts:7-14 | the sum over a concatenation is the sum of the parts |
| `DashboardService.SumReverse` | app/routes/dashboard/service.ts:7-14 | the sum does not depend on the records' order |
| `DashboardService.FloorDiv` | app/routes/dashboard/service.ts:8-9 | Math.floor(total / n): q*n <= total < (q+1)*n |
| `DashboardService.CalculateSummary` | app/routes/dashboard/service.ts:6-25 | the three totals are the field sums, negatives included; the average is their floor quotient, or 0 for no records |
| `DashboardService.EmptySummary` | app/routes/dashboard/__tests__/service.test.ts:102-114 | no records give 0 for every figure |
| `DashboardService.SingleRecordSummary` | app/routes/dashboard/__tests__/service.test.ts:82-100 | one record's summary is its own amounts |
| `DashboardService.SummaryOfReversed` | app/routes/dashboard/service.ts:6-25 | the summary does not depend on the records' order |
| `DashboardService.ThreeMonthSummary` | app/routes/dashboard/__tests__/service.test.ts:48-80 | 300000, 350000 and 320000 net give total 970000 and average 323333 |
| `DashboardService.NegativeNetSummary` | app/routes/dashboard/__tests__/service.test.ts:116-129 | a negative net amount is added like any other |
| `DashboardService.NegativeAverageIsFloored` | app/routes/dashboard/service.ts:8-9 | a negative average is floored toward minus infinity |
| `DashboardService.ReverseFacts` | app/routes/dashboard/service.ts:34 | reverse keeps the length and puts element i at |rs|-1-i |
| `DashboardService.ReverseTwice` | app/routes/dashboard/service.ts:34 | reversing twice gives back the records |
| `DashboardService.SliceEnd` | app/routes/dashboard/service.ts:34 | slice(0, count) ends at min(count, len), or counts back from the end for a negative count |
| `DashboardService.GetRecentRecords` | app/routes/dashboard/service.ts:30-35 | the result has SliceEnd(|rs|, count) records, and element i is rs[|rs|-1-i] |
| `DashboardService.RecentRecordsLength` | app/routes/dashboard/__tests__/service.test.ts:133-188 | for count >= 0 the result has min(count, |rs|) records |
| `DashboardService.RecentRecordsAll` | app/routes/dashboard/__tests__/service.test.ts:154-166 | asking for at least all records gives them all, reversed |
| `DashboardService.RecentRecordsExample` | app/routes/dashboard/__tests__/service.test.ts:133-152 | of five months, three asked for, months 5, 4, 3 come back in that order |
| `SidebarService.IconName` | app/shared/layout/sidebar/service.ts:17-25 | every icon has a non-empty registered key |
| `SidebarService.RegisteredIcon` | app/shared/layout/sidebar/service.ts:17-25 | a found icon is registered under the name looked up |
| `SidebarService.RegisteredIconOfName` | app/shared/layout/sidebar/service.ts:17-25 | each icon is found under its own key |
| `SidebarService.GetIconByName` | app/shared/layout/sidebar/service.ts:31-33 | a registered name gives its icon; any other name, "" included, gives FileText |
| `SidebarService.IconLookupExamples` | app/shared/layout/sidebar/__tests__/service.test.ts:13-30 | "LayoutDashboard" gives its icon; "UnknownIcon" and "" give FileText |
| `SidebarService.GetIconByNameAsWritten` | app/shared/layout/sidebar/service.ts:31-33 | the plain-object lookup with `??`: an inherited Object.prototype member is returned instead of the default |
| `SidebarService.ToStringMissesDefault` | app/shared/layout/sidebar/service.ts:31-33 | for "toString" the intended lookup gives FileText, and the lookup as written gives the inherited member |
| `SidebarService.AsWrittenAgreesOffPrototype` | app/shared/layout/sidebar/service.ts:31-33 | off Object.prototype names, the two lookups agree |
| `SidebarService.WithIcon` | app/shared/layout/sidebar/service.ts:38-41 | the spread keeps every stored field and adds the icon of iconName |
| `SidebarService.MapNavigationItemsWithIcons` | app/shared/layout/sidebar/service.ts:36-43 | same length and order, every field kept, and icon = getIconByName(iconName) |
| `SidebarService.MapNavigationItemsAsWritten` | app/shared/layout/sidebar/service.ts:36-43 | the map over the lookup as written: same length and order, every stored field kept, each icon the as-written lookup of its name |
| `SidebarService.AsWrittenMapAgreesOffPrototype` | app/shared/layout/sidebar/service.ts:31-43 | when no item's icon name is an Object.prototype member, the map as written and the corrected map build the same items |
| `SidebarService.ConstructorEntryMissesDefault` | app/shared/layout/sidebar/service.ts:31-43 | an item named "constructor" gets the inherited member as written, and FileText in the corrected map |
| `SidebarService.IconsDropToItems` | app/shared/layout/sidebar/service.ts:36-43 | dropping the icons gives back exactly the input items |
| `SidebarService.NavigationExamples` | app/shared/layout/sidebar/__tests__/service.test.ts:33-63 | the dashboard item gets its icon; no items give no items |
| `SidebarService.GetNextTheme` | app/shared/layout/sidebar/service.ts:46-48 | the next theme differs from the current one |
| `SidebarService.NextThemeIsInvolution` | app/shared/layout/sidebar/service.ts:46-48 | toggling twice gives back the theme |
| `SidebarService.CreateThemeCookieValue` | app/shared/layout/sidebar/service.ts:51-53 | "theme=" + theme + "; Path=/; SameSite=Lax; Max-Age=31536000", part by part |
| `Themes.ParseTheme` | app/root.tsx:43 | a string is a theme exactly when it is "light" or "dark" |
| `Themes.ParseThemeName` | app/root.tsx:43 | each theme's name parses back to that theme |
| `Root.ThemeMatchAt` | app/root.tsx:23 | a match at p is an occurrence of "theme=light" or "theme=dark" there; there is none otherwise |
| `Root.FirstThemeMatch` | app/root.tsx:23 | the leftmost match in the header, or none when no position matches |
| `Root.GetThemeFromCookie` | app/root.tsx:21-25 | a missing or empty header gives light, and so does a header with no match |
| `Root.LeftmostMatchDecides` | app/root.tsx:23-24 | the leftmost match's captured theme is the result |
| `Root.FirstMatchFrom` | app/root.tsx:23 | the search from p finds the first matching position at or after p |
| `Root.PairAtStart` | app/root.tsx:21-25 | a header starting with "theme=<t>" gives t |
| `Root.MatchInsideOtherName` | app/root.tsx:23 | the unanchored pattern also matches inside another cookie's name |
| `Root.CreateThemeCookie` | app/root.tsx:28-30 | "theme=" + theme + "; Path=/; HttpOnly; SameSite=Lax; Max-Age=31536000", part by part |
| `Root.CookieRoundTrip` | app/root.tsx:21-30 | the cookie the action sets reads back as its theme |
| `Root.SidebarCookieRoundTrip` | app/shared/layout/sidebar/service.ts:51-53 | the sidebar's cookie value also reads back as its theme |
| `Root.Action` | app/root.tsx:38-51 | status 400, "Invalid theme" and no cookie exactly when the entry is not the text "light" or "dark"; otherwise that theme and its cookie |
| `Root.ActionCookieReadsBack` | app/root.tsx:47-50 | an accepted theme's cookie is read by the loader as that theme |
| `Root.ActionAcceptsThemeName` | app/root.tsx:47-50 | submitting a theme's name is accepted with that theme |
| `Root.Loader` | app/root.tsx:32-36 | without a Cookie header the theme is light |
| `Root.LayoutTheme` | app/root.tsx:71-74 | the action's theme when it carries one, else the loader's, else light |
| `Root.LayoutNextTheme` | app/root.tsx:75 | the layout's next theme is always the other one |
| `Root.LayoutAgreesWithSidebar` | app/root.tsx:75 | the layout's toggle and the sidebar's getNextTheme agree |
| `Root.ToggleRoundTrip` | app/root.tsx:71-88 | after the toggle's form is accepted, the layout shows the submitted theme, and its next toggle goes back |

## Findings

| source | as written | input that shows it | evidently intended | confidence | as-written member | corrected member |
|---|---|---|---|---|---|---|
| app/shared/layout/sidebar/service.ts:31-33 | `iconMap[iconName] ?? defaultIcon` on a plain object literal: `??` replaces only a missing property, and names inherited from `Object.prototype` are present | `getIconByName("toString")` returns `Object.prototype.toString`, which is not an icon component | any name that is not one of the seven registered keys gives FileText | medium, not executed | `SidebarService.GetIconByNameAsWritten` (counterexample `SidebarService.ToStringMissesDefault`) | `SidebarService.GetIconByName` |

The same discrepancy reaches `mapNavigationItemsWithIcons`.
`SidebarService.MapNavigationItemsAsWritten` models it as written, and
`SidebarService.ConstructorEntryMissesDefault` exhibits it.
`SidebarService.MapNavigationItemsWithIcons` is the corrected map.
`SidebarService.AsWrittenMapAgreesOffPrototype` proves that the two agree
unless an item's icon name is an `Object.prototype` member. Navigation
items come from the database, so an icon name such as "constructor" is
unusual but possible.

## Left out

- `SidebarService.MapNavigationItemsWithIcons`: uses the corrected icon lookup, so for an item whose icon name is an `Object.prototype` member ("constructor", "toString") it gives FileText. The source gives the inherited member. `SidebarService.MapNavigationItemsAsWritten` models that behaviour; see Findings.
- `extractTextFromPdf` and `parsePdfPayslip` (util-pdf-parser.server.ts:10-18, 184-187) are asynchronous wrappers over the `pdf-parse` library. The model starts from the extracted text.
- The clock (`new Date()`) is a parameter. `extractYearMonth`'s fallback reads the clock twice, once for the year and once for the month. The model takes both reads as one date, so a year boundary between them (which would pair the new year with the old year's month, or the reverse) is not modelled.
- Number precision: every JavaScript number is an unbounded `int` or an exact `real`. `parseInt` of very long digit strings, float rounding in `h*60+m` and the `-0` value are not modelled.
- `PdfParser.ParseValue`: the decimal type models `parseFloat` for leading white space, a sign, and digits with an optional point and fraction, either side of the point possibly empty (".5" and "5." included). Exponents and `Infinity` are left out, because they are floating-point syntax that payslip tokens do not use.
- `UploadSchema.ValidPayslip` is a predicate over already-numeric fields. Zod's `coerce` step (such as `Number("")` being 0) is not modelled.
- `extractPayslipFromFormData` keeps the year, month and leave-day entries raw, as the source does; no member converts them.
- The label scan's sort by label length and its multi-token comparison are not modelled separately. They reduce to an exact single-token lookup, because `UploadSchema.LabelsAreSingleTokens` and `UploadSchema.LabelTableShape` hold.
- `getRecentRecords` does not modify its input. That holds by construction here, because Dafny sequences are values.
- `yearOverYearChange` (dashboard/service.ts:16) is a constant float placeholder and is not modelled.
- `app/routes/dashboard/schema.ts` is not part of this model. Its record fields do not match the ones the service and its tests use.
- Rendering is not modelled: the React components and hooks, `root.tsx`'s markup, `links` and `ErrorBoundary`, and `SalaryChart`'s `minutesToHours`.
- Database access, the seed scripts, route configuration and `server.ts` (upload) are not modelled: they are I/O glue over Prisma and `toLocaleString`.
- `app/shared/utils/format.ts` is not part of this model. It only wraps `Intl`.
