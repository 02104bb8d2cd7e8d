/** The dashboard's summary figures and its recent-history selection
    (`app/routes/dashboard/service.ts`). */
module DashboardService {

  /** A stored payslip, reduced to the fields the dashboard reads. Amounts
      are whole yen and may be negative. */
  datatype SalaryRecord = SalaryRecord(
    id: string,
    year: int,
    month: int,
    netSalary: int,
    totalEarnings: int,
    totalDeductions: int)

  /** The three amounts a summary adds up. */
  datatype Amount = NetSalary | TotalEarnings | TotalDeductions

  function AmountOf(r: SalaryRecord, a: Amount): int {
    match a
    case NetSalary => r.netSalary
    case TotalEarnings => r.totalEarnings
    case TotalDeductions => r.totalDeductions
  }

  /** The summary figures (the placeholder year-over-year change is not
      modelled). */
  datatype Summary = Summary(
    totalNetSalary: int,
    averageNetSalary: int,
    totalEarnings: int,
    totalDeductions: int)

  // ---------------------------------------------------------------------
  // Sums
  // ---------------------------------------------------------------------

  /** The sum of one amount over the records, as a mathematician writes it. */
  function Sum(records: seq<SalaryRecord>, a: Amount): int {
    if records == [] then 0 else AmountOf(records[0], a) + Sum(records[1..], a)
  }

  /** `records.reduce((sum, r) => sum + r.<amount>, acc)`: the left fold that
      adds each record's amount to the running sum, first record first. */
  function Reduce(records: seq<SalaryRecord>, a: Amount, acc: int): int {
    if records == [] then acc else Reduce(records[1..], a, acc + AmountOf(records[0], a))
  }

  /** The fold from `acc` is `acc` plus the sum of the records. */
  lemma {:induction false} ReduceIsSum(records: seq<SalaryRecord>, a: Amount, acc: int)
    ensures Reduce(records, a, acc) == acc + Sum(records, a)
  {
    if records != [] {
      ReduceIsSum(records[1..], a, acc + AmountOf(records[0], a));
    }
  }

  /** The sum of a concatenation is the sum of the parts. */
  lemma {:induction false} SumAppend(xs: seq<SalaryRecord>, ys: seq<SalaryRecord>, a: Amount)
    ensures Sum(xs + ys, a) == Sum(xs, a) + Sum(ys, a)
  {
    if xs != [] {
      assert (xs + ys)[0] == xs[0] && (xs + ys)[1..] == xs[1..] + ys;
      SumAppend(xs[1..], ys, a);
    } else {
      assert xs + ys == ys;
    }
  }

  /** The sum is independent of the order of the records: reversing them
      keeps it. */
  lemma {:induction false} SumReverse(records: seq<SalaryRecord>, a: Amount)
    ensures Sum(Reverse(records), a) == Sum(records, a)
  {
    if records != [] {
      SumReverse(records[1..], a);
      SumAppend(Reverse(records[1..]), [records[0]], a);
    }
  }

  // ---------------------------------------------------------------------
  // calculateSummary
  // ---------------------------------------------------------------------

  /** `Math.floor(total / n)` for a positive count `n`. */
  function FloorDiv(total: int, n: int): (q: int)
    requires n > 0
    ensures q * n <= total < (q + 1) * n
  {
    total / n
  }

  /** `calculateSummary(records)`. */
  function CalculateSummary(records: seq<SalaryRecord>): (s: Summary)
    ensures s.totalNetSalary == Sum(records, NetSalary)
    ensures s.totalEarnings == Sum(records, TotalEarnings)
    ensures s.totalDeductions == Sum(records, TotalDeductions)
    ensures |records| == 0 ==> s.averageNetSalary == 0
    ensures |records| > 0 ==>
              s.averageNetSalary * |records| <= s.totalNetSalary < (s.averageNetSalary + 1) * |records|
  {
    var totalNetSalary := Reduce(records, NetSalary, 0);
    var averageNetSalary := if |records| > 0 then FloorDiv(totalNetSalary, |records|) else 0;
    var totalEarnings := Reduce(records, TotalEarnings, 0);
    var totalDeductions := Reduce(records, TotalDeductions, 0);
    ReduceIsSum(records, NetSalary, 0);
    ReduceIsSum(records, TotalEarnings, 0);
    ReduceIsSum(records, TotalDeductions, 0);
    Summary(totalNetSalary, averageNetSalary, totalEarnings, totalDeductions)
  }

  /** No records: every figure is 0. */
  lemma EmptySummary()
    ensures CalculateSummary([]) == Summary(0, 0, 0, 0)
  {
    assert Sum([], NetSalary) == 0 && Sum([], TotalEarnings) == 0 && Sum([], TotalDeductions) == 0;
  }

  /** One record: the summary is that record's own amounts. */
  lemma SingleRecordSummary(r: SalaryRecord)
    ensures CalculateSummary([r]) == Summary(r.netSalary, r.netSalary, r.totalEarnings, r.totalDeductions)
  {
    SumOfOne(r, NetSalary);
    SumOfOne(r, TotalEarnings);
    SumOfOne(r, TotalDeductions);
    var s := CalculateSummary([r]);
    assert s.averageNetSalary * 1 <= r.netSalary < (s.averageNetSalary + 1) * 1;
  }

  lemma SumOfOne(r: SalaryRecord, a: Amount)
    ensures Sum([r], a) == AmountOf(r, a)
  {
    assert [r][1..] == [];
  }

  /** The summary does not depend on the order of the records. */
  lemma SummaryOfReversed(records: seq<SalaryRecord>)
    ensures CalculateSummary(Reverse(records)) == CalculateSummary(records)
  {
    SumReverse(records, NetSalary);
    SumReverse(records, TotalEarnings);
    SumReverse(records, TotalDeductions);
    ReverseFacts(records);
  }

  /** A record with the given net amount, earnings and deductions. */
  function Sample(id: string, net: int, earnings: int, deductions: int): SalaryRecord {
    SalaryRecord(id, 2025, 1, net, earnings, deductions)
  }

  /** Three months of 300000, 350000 and 320000 net: total 970000, average
      floor(970000 / 3) = 323333, earnings 1420000, deductions 450000. */
  lemma ThreeMonthSummary()
    ensures CalculateSummary([Sample("1", 300000, 450000, 150000),
                              Sample("2", 350000, 500000, 150000),
                              Sample("3", 320000, 470000, 150000)])
            == Summary(970000, 323333, 1420000, 450000)
  {
    var rs := [Sample("1", 300000, 450000, 150000),
               Sample("2", 350000, 500000, 150000),
               Sample("3", 320000, 470000, 150000)];
    assert rs[1..][1..][1..] == [];
  }

  /** A negative net amount is added like any other: 300000 and -50000 give
      total 250000 and average 125000. */
  lemma NegativeNetSummary()
    ensures var s := CalculateSummary([Sample("1", 300000, 450000, 108000),
                                       Sample("2", -50000, 450000, 108000)]);
            s.totalNetSalary == 250000 && s.averageNetSalary == 125000
  {
    var rs := [Sample("1", 300000, 450000, 108000), Sample("2", -50000, 450000, 108000)];
    assert rs[1..][1..] == [];
  }

  /** A negative total is floored towards minus infinity, as `Math.floor`
      does: -1 over two records averages -1. */
  lemma NegativeAverageIsFloored()
    ensures CalculateSummary([Sample("1", -1, 0, 0), Sample("2", 0, 0, 0)]).averageNetSalary == -1
  {
    var rs := [Sample("1", -1, 0, 0), Sample("2", 0, 0, 0)];
    assert rs[1..][1..] == [];
  }

  // ---------------------------------------------------------------------
  // getRecentRecords
  // ---------------------------------------------------------------------

  /** The records in reverse order (`[...records].reverse()`). */
  function Reverse(records: seq<SalaryRecord>): (r: seq<SalaryRecord>) {
    if records == [] then [] else Reverse(records[1..]) + [records[0]]
  }

  /** Reversing keeps the length and puts element `i` at `|records| - 1 - i`. */
  lemma {:induction false} ReverseFacts(records: seq<SalaryRecord>)
    ensures |Reverse(records)| == |records|
    ensures forall i :: 0 <= i < |records| ==> Reverse(records)[i] == records[|records| - 1 - i]
  {
    if records != [] {
      ReverseFacts(records[1..]);
      forall i | 0 <= i < |records|
        ensures Reverse(records)[i] == records[|records| - 1 - i]
      {
        if i < |records| - 1 {
          assert Reverse(records)[i] == Reverse(records[1..])[i];
        }
      }
    }
  }

  /** Reversing twice gives back the records. */
  lemma ReverseTwice(records: seq<SalaryRecord>)
    ensures Reverse(Reverse(records)) == records
  {
    ReverseFacts(records);
    ReverseFacts(Reverse(records));
  }

  /** Where `Array#slice(0, count)` stops on an array of length `len`: a
      negative count counts back from the end; both ends are clamped. */
  function SliceEnd(len: nat, count: int): (e: nat)
    ensures e <= len
    ensures count >= 0 ==> e == if count < len then count else len
    ensures count < 0 ==> e == if len + count > 0 then len + count else 0
  {
    if count < 0 then (if len + count > 0 then len + count else 0)
    else if count < len then count else len
  }

  /** `getRecentRecords(records, count)`: the first `count` records of the
      reversed copy, that is the latest `count` records, latest first. */
  function GetRecentRecords(records: seq<SalaryRecord>, count: int): (r: seq<SalaryRecord>)
    ensures |r| == SliceEnd(|records|, count)
    ensures forall i :: 0 <= i < |r| ==> r[i] == records[|records| - 1 - i]
  {
    ReverseFacts(records);
    Reverse(records)[..SliceEnd(|records|, count)]
  }

  /** For a non-negative count, min(count, |records|) records come back. */
  lemma RecentRecordsLength(records: seq<SalaryRecord>, count: nat)
    ensures |GetRecentRecords(records, count)| == if count < |records| then count else |records|
  {
  }

  /** Asking for at least as many records as there are gives them all,
      reversed. */
  lemma RecentRecordsAll(records: seq<SalaryRecord>, count: int)
    requires count >= |records|
    ensures GetRecentRecords(records, count) == Reverse(records)
  {
    ReverseFacts(records);
  }

  /** Five months, three asked for: months 5, 4 and 3, in that order. */
  lemma RecentRecordsExample()
    ensures var rs := [Sample("1", 0, 0, 0).(month := 1), Sample("2", 0, 0, 0).(month := 2),
                       Sample("3", 0, 0, 0).(month := 3), Sample("4", 0, 0, 0).(month := 4),
                       Sample("5", 0, 0, 0).(month := 5)];
            var recent := GetRecentRecords(rs, 3);
            |recent| == 3 && recent[0].month == 5 && recent[1].month == 4 && recent[2].month == 3
  {
  }
}
