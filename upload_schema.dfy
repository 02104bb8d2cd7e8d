/** The payslip record, its validation bounds, the accepted upload types
    and the table from printed payslip labels to record fields. */
module UploadSchema {
  import opened Js
  import opened Wrappers

  /** The fields of a payslip record (`PayslipData`). */
  datatype Field =
    | Year | Month
    // attendance
    | ExtraOvertimeMinutes | Over60OvertimeMinutes | NightOvertimeMinutes
    | PaidLeaveDays | PaidLeaveRemainingDays
    // earnings
    | BaseSalary | FixedOvertimeAllowance | OvertimeAllowance | Over60OvertimeAllowance
    | NightAllowance | SpecialAllowance | ExpenseReimbursement | CommuteAllowance
    | StockIncentive | TotalEarnings
    // deductions
    | HealthInsurance | PensionInsurance | EmploymentInsurance | ResidentTax
    | IncomeTax | StockContribution | TotalDeductions
    // net pay
    | NetSalary

  /** A payslip record: every field holds a JavaScript number. */
  type Payslip = map<Field, real>

  predicate Complete(p: Payslip) {
    forall f: Field :: f in p
  }

  /** The property name of a field, as used in form data. */
  function FieldName(f: Field): string {
    match f
    case Year => "year"
    case Month => "month"
    case ExtraOvertimeMinutes => "extraOvertimeMinutes"
    case Over60OvertimeMinutes => "over60OvertimeMinutes"
    case NightOvertimeMinutes => "nightOvertimeMinutes"
    case PaidLeaveDays => "paidLeaveDays"
    case PaidLeaveRemainingDays => "paidLeaveRemainingDays"
    case BaseSalary => "baseSalary"
    case FixedOvertimeAllowance => "fixedOvertimeAllowance"
    case OvertimeAllowance => "overtimeAllowance"
    case Over60OvertimeAllowance => "over60OvertimeAllowance"
    case NightAllowance => "nightAllowance"
    case SpecialAllowance => "specialAllowance"
    case ExpenseReimbursement => "expenseReimbursement"
    case CommuteAllowance => "commuteAllowance"
    case StockIncentive => "stockIncentive"
    case TotalEarnings => "totalEarnings"
    case HealthInsurance => "healthInsurance"
    case PensionInsurance => "pensionInsurance"
    case EmploymentInsurance => "employmentInsurance"
    case ResidentTax => "residentTax"
    case IncomeTax => "incomeTax"
    case StockContribution => "stockContribution"
    case TotalDeductions => "totalDeductions"
    case NetSalary => "netSalary"
  }

  /** `payslipSchema`: year in 2000..2100, month in 1..12, every other field
      non-negative (the fields already coerced to numbers). */
  predicate ValidPayslip(p: Payslip) {
    && Complete(p)
    && 2000.0 <= p[Year] <= 2100.0
    && 1.0 <= p[Month] <= 12.0
    && forall f: Field :: f != Year && f != Month ==> p[f] >= 0.0
  }

  /** `ALLOWED_FILE_TYPES`. */
  const AllowedFileTypes: seq<string> := ["application/pdf", "image/png", "image/jpeg", "image/jpg"]

  /** How the token after a label is turned into a number. */
  datatype ValueType = Time | Currency | Decimal

  datatype Mapping = Mapping(field: Field, valueType: ValueType)

  /** The label that precedes the net pay, and ends the search for the totals. */
  const NetSalaryLabel: string := "差引支給額:"

  /** One entry of the label table: a printed label and what it is read into. */
  datatype LabelEntry = LabelEntry(text: string, mapping: Mapping)

  /** `PDF_LABEL_MAPPINGS`, in the order of its source: printed label to record
      field and value type. */
  const LabelMappings: seq<LabelEntry> := [
    // attendance
    LabelEntry("固定外残業時間", Mapping(ExtraOvertimeMinutes, Time)),
    LabelEntry("固定外残業時間(60時間超)", Mapping(Over60OvertimeMinutes, Time)),
    LabelEntry("深夜割増時間", Mapping(NightOvertimeMinutes, Time)),
    LabelEntry("有休日数", Mapping(PaidLeaveDays, Decimal)),
    LabelEntry("有休残日数", Mapping(PaidLeaveRemainingDays, Decimal)),
    // earnings
    LabelEntry("基本給(月給)", Mapping(BaseSalary, Currency)),
    LabelEntry("固定時間外手当", Mapping(FixedOvertimeAllowance, Currency)),
    LabelEntry("残業手当", Mapping(OvertimeAllowance, Currency)),
    LabelEntry("残業手当(60時間超)", Mapping(Over60OvertimeAllowance, Currency)),
    LabelEntry("深夜割増額", Mapping(NightAllowance, Currency)),
    LabelEntry("特別手当", Mapping(SpecialAllowance, Currency)),
    LabelEntry("立替経費", Mapping(ExpenseReimbursement, Currency)),
    LabelEntry("非課税通勤費", Mapping(CommuteAllowance, Currency)),
    LabelEntry("持株会奨励金", Mapping(StockIncentive, Currency)),
    // deductions
    LabelEntry("健康保険料", Mapping(HealthInsurance, Currency)),
    LabelEntry("厚生年金保険", Mapping(PensionInsurance, Currency)),
    LabelEntry("雇用保険料", Mapping(EmploymentInsurance, Currency)),
    LabelEntry("住民税", Mapping(ResidentTax, Currency)),
    LabelEntry("所得税", Mapping(IncomeTax, Currency)),
    LabelEntry("持株会拠出金", Mapping(StockContribution, Currency)),
    // net pay
    LabelEntry(NetSalaryLabel, Mapping(NetSalary, Currency))
  ]

  /** The label of each field in the table, read the other way round. */
  function LabelOf(f: Field): Option<string> {
    match f
    case ExtraOvertimeMinutes => Some("固定外残業時間")
    case Over60OvertimeMinutes => Some("固定外残業時間(60時間超)")
    case NightOvertimeMinutes => Some("深夜割増時間")
    case PaidLeaveDays => Some("有休日数")
    case PaidLeaveRemainingDays => Some("有休残日数")
    case BaseSalary => Some("基本給(月給)")
    case FixedOvertimeAllowance => Some("固定時間外手当")
    case OvertimeAllowance => Some("残業手当")
    case Over60OvertimeAllowance => Some("残業手当(60時間超)")
    case NightAllowance => Some("深夜割増額")
    case SpecialAllowance => Some("特別手当")
    case ExpenseReimbursement => Some("立替経費")
    case CommuteAllowance => Some("非課税通勤費")
    case StockIncentive => Some("持株会奨励金")
    case HealthInsurance => Some("健康保険料")
    case PensionInsurance => Some("厚生年金保険")
    case EmploymentInsurance => Some("雇用保険料")
    case ResidentTax => Some("住民税")
    case IncomeTax => Some("所得税")
    case StockContribution => Some("持株会拠出金")
    case NetSalary => Some(NetSalaryLabel)
    case _ => None
  }

  /** The value type each field is read with: the three overtime counts as
      clock times, the two leave counts as decimals, money as currency. */
  function ExpectedValueType(f: Field): ValueType {
    match f
    case ExtraOvertimeMinutes | Over60OvertimeMinutes | NightOvertimeMinutes => Time
    case PaidLeaveDays | PaidLeaveRemainingDays => Decimal
    case _ => Currency
  }

  /** `PDF_LABEL_MAPPINGS[token]`: the mapping registered under exactly this
      label, if any. */
  function LookupLabel(token: string): (r: Option<Mapping>)
    ensures r.Some? <==> exists i :: 0 <= i < |LabelMappings| && LabelMappings[i].text == token
    ensures r.Some? ==> exists i :: 0 <= i < |LabelMappings| && LabelMappings[i] == LabelEntry(token, r.value)
  {
    var k := FindIndex(LabelMappings, (e: LabelEntry) => e.text == token);
    if k < 0 then None else Some(LabelMappings[k].mapping)
  }

  /** Twenty-one entries, with distinct labels. */
  lemma LabelTableShape()
    ensures |LabelMappings| == 21
    ensures forall i, j :: 0 <= i < j < |LabelMappings| ==> LabelMappings[i].text != LabelMappings[j].text
  {
  }

  /** No entry writes the period or one of the two totals. */
  lemma LabelTableSkipsPeriodAndTotals()
    ensures forall i :: 0 <= i < |LabelMappings| ==>
              LabelMappings[i].mapping.field !in {Year, Month, TotalEarnings, TotalDeductions}
  {
  }

  /** `LabelOf` reads the table backwards: each entry's field leads back to its label. */
  lemma LabelOfInvertsTable()
    ensures forall i :: 0 <= i < |LabelMappings| ==>
              LabelOf(LabelMappings[i].mapping.field) == Some(LabelMappings[i].text)
  {
    AttendanceLabelsInvert();
    BasicEarningsLabelsInvert();
    OvertimeEarningsLabelsInvert();
    OtherEarningsLabelsInvert();
    InsuranceLabelsInvert();
    TaxAndNetLabelsInvert();
  }

  lemma AttendanceLabelsInvert()
    ensures forall i :: 0 <= i < 5 ==>
              LabelOf(LabelMappings[i].mapping.field) == Some(LabelMappings[i].text)
  {
  }

  lemma BasicEarningsLabelsInvert()
    ensures forall i :: 5 <= i < 8 ==>
              LabelOf(LabelMappings[i].mapping.field) == Some(LabelMappings[i].text)
  {
  }

  lemma OvertimeEarningsLabelsInvert()
    ensures forall i :: 8 <= i < 10 ==>
              LabelOf(LabelMappings[i].mapping.field) == Some(LabelMappings[i].text)
  {
  }

  lemma OtherEarningsLabelsInvert()
    ensures forall i :: 10 <= i < 14 ==>
              LabelOf(LabelMappings[i].mapping.field) == Some(LabelMappings[i].text)
  {
  }

  lemma InsuranceLabelsInvert()
    ensures forall i :: 14 <= i < 17 ==>
              LabelOf(LabelMappings[i].mapping.field) == Some(LabelMappings[i].text)
  {
  }

  lemma TaxAndNetLabelsInvert()
    ensures forall i :: 17 <= i < 21 ==>
              LabelOf(LabelMappings[i].mapping.field) == Some(LabelMappings[i].text)
  {
  }

  /** The table is injective: distinct entries write distinct fields. */
  lemma LabelTableInjective()
    ensures forall i, j :: 0 <= i < j < |LabelMappings| ==>
              LabelMappings[i].mapping.field != LabelMappings[j].mapping.field
  {
    LabelTableShape();
    LabelOfInvertsTable();
  }

  /** Exact lookup finds every entry of the table under its own label. */
  lemma LookupFindsEveryLabel()
    ensures forall i :: 0 <= i < |LabelMappings| ==>
              LookupLabel(LabelMappings[i].text) == Some(LabelMappings[i].mapping)
  {
    LabelTableShape();
    forall i | 0 <= i < |LabelMappings| {
      LookupFindsLabel(i);
    }
  }

  /** Entry `i` is found under its own label, since no other entry shares it. */
  lemma LookupFindsLabel(i: nat)
    requires i < |LabelMappings|
    requires forall i, j :: 0 <= i < j < |LabelMappings| ==> LabelMappings[i].text != LabelMappings[j].text
    ensures LookupLabel(LabelMappings[i].text) == Some(LabelMappings[i].mapping)
  {
    var t := LabelMappings[i].text;
    var r := LookupLabel(t);
    assert r.Some?;
    var j :| 0 <= j < |LabelMappings| && LabelMappings[j] == LabelEntry(t, r.value);
    assert LabelMappings[j].text == LabelMappings[i].text;
    assert j == i;
  }

  /** A token looks up a mapping for field `f` only when it is `f`'s own label. */
  lemma LookupOnlyUnderOwnLabel(token: string, f: Field)
    ensures LookupLabel(token).Some? && LookupLabel(token).value.field == f ==> LabelOf(f) == Some(token)
  {
    LabelOfInvertsTable();
  }

  /** The three overtime labels are read as times, the two leave labels as
      decimals and all others as currency. */
  lemma LabelValueTypes()
    ensures forall i :: 0 <= i < |LabelMappings| ==>
              LabelMappings[i].mapping.valueType == ExpectedValueType(LabelMappings[i].mapping.field)
  {
    ValueTypesUpTo(7);
    ValueTypesUpTo(14);
    ValueTypesUpTo(21);
  }

  /** The value types of the seven entries below `hi`. */
  lemma ValueTypesUpTo(hi: nat)
    requires hi == 7 || hi == 14 || hi == 21
    ensures forall i :: hi - 7 <= i < hi ==>
              LabelMappings[i].mapping.valueType == ExpectedValueType(LabelMappings[i].mapping.field)
  {
  }

  /** The attendance labels contain no white space. */
  lemma AttendanceLabelsHaveNoSpace()
    ensures forall i :: 0 <= i < 5 ==> NoSpace(LabelMappings[i].text)
  {
  }

  /** The first three earnings labels contain no white space. */
  lemma BasicEarningsLabelsHaveNoSpace()
    ensures forall i :: 5 <= i < 8 ==> NoSpace(LabelMappings[i].text)
  {
  }

  /** The labels of the over-60-hours and night allowances contain no white space. */
  lemma OvertimeEarningsLabelsHaveNoSpace()
    ensures forall i :: 8 <= i < 10 ==> NoSpace(LabelMappings[i].text)
  {
  }

  /** The remaining earnings labels contain no white space. */
  lemma OtherEarningsLabelsHaveNoSpace()
    ensures forall i :: 10 <= i < 14 ==> NoSpace(LabelMappings[i].text)
  {
  }

  /** The insurance deduction labels contain no white space. */
  lemma InsuranceLabelsHaveNoSpace()
    ensures forall i :: 14 <= i < 17 ==> NoSpace(LabelMappings[i].text)
  {
  }

  /** The tax, contribution and net pay labels contain no white space. */
  lemma TaxAndNetLabelsHaveNoSpace()
    ensures forall i :: 17 <= i < 21 ==> NoSpace(LabelMappings[i].text)
  {
  }

  /** No label contains white space. */
  lemma LabelsHaveNoSpace()
    ensures forall i :: 0 <= i < |LabelMappings| ==> NoSpace(LabelMappings[i].text)
  {
    AttendanceLabelsHaveNoSpace();
    BasicEarningsLabelsHaveNoSpace();
    OvertimeEarningsLabelsHaveNoSpace();
    OtherEarningsLabelsHaveNoSpace();
    InsuranceLabelsHaveNoSpace();
    TaxAndNetLabelsHaveNoSpace();
  }

  /** Every label is one non-empty word, so split on white space it spans
      exactly one token: matching a label is comparing it with one token. */
  lemma LabelsAreSingleTokens()
    ensures forall i :: 0 <= i < |LabelMappings| ==>
              SplitWhitespace(LabelMappings[i].text) == [LabelMappings[i].text]
  {
    LabelsHaveNoSpace();
    forall i | 0 <= i < |LabelMappings|
      ensures SplitWhitespace(LabelMappings[i].text) == [LabelMappings[i].text]
    {
      SplitSingleWord(LabelMappings[i].text);
    }
  }

  /** A field outside the table (the period and the two totals) is the
      field of no label. */
  lemma NoLabelForPeriodOrTotals(token: string)
    requires LookupLabel(token).Some?
    ensures LookupLabel(token).value.field !in {Year, Month, TotalEarnings, TotalDeductions}
  {
    LabelTableSkipsPeriodAndTotals();
  }

  /** No token at all looks up a mapping for the period or a total. */
  lemma LookupSkipsPeriodAndTotals()
    ensures forall t :: LookupLabel(t).Some? ==>
              LookupLabel(t).value.field !in {Year, Month, TotalEarnings, TotalDeductions}
  {
    forall t | LookupLabel(t).Some?
      ensures LookupLabel(t).value.field !in {Year, Month, TotalEarnings, TotalDeductions}
    {
      NoLabelForPeriodOrTotals(t);
    }
  }
}
