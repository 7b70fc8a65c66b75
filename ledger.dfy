/**
 * What the three calculators share about ledgers: column sums over months
 * (the `reduce` folds), the running cumulative cash flow, the 12-month year
 * slices of the annual rollup, and the guarded ratios.
 */
module Ledger {
  import opened Optional
  import opened Finance
  import opened Types

  /** The month columns the rollups and totals add up. */
  datatype Column = RentColumn | ExpenseColumn | CashFlowColumn | DebtServiceColumn | TaxColumn | InsuranceColumn

  function Get(row: MonthlyResult, c: Column): real {
    match c
    case RentColumn => row.rent
    case ExpenseColumn => row.operatingExpenses
    case CashFlowColumn => row.cashFlow
    case DebtServiceColumn => row.debtService
    case TaxColumn => row.taxes
    case InsuranceColumn => row.insurance
  }

  /** The sum of one column, folded from the left as `reduce((sum, r) => sum + r.x, 0)` does. */
  function Sum(rows: seq<MonthlyResult>, c: Column): real
    decreases |rows|
  {
    if rows == [] then 0.0 else Sum(rows[..|rows| - 1], c) + Get(rows[|rows| - 1], c)
  }

  lemma {:induction false} SumAppend(a: seq<MonthlyResult>, b: seq<MonthlyResult>, c: Column)
    ensures Sum(a + b, c) == Sum(a, c) + Sum(b, c)
    decreases |b|
  {
    if b != [] {
      var last := b[|b| - 1];
      assert (a + b)[..|a + b| - 1] == a + b[..|b| - 1];
      SumAppend(a, b[..|b| - 1], c);
    } else {
      assert a + b == a;
    }
  }

  /** The guarded division the metrics use: `d > 0 ? x / d : 0`. */
  function SafeRatio(x: real, d: real): (r: real)
    ensures d > 0.0 ==> r * d == x
    ensures d <= 0.0 ==> r == 0.0
  {
    if d > 0.0 then x / d else 0.0
  }

  /** The debt-service coverage of a run of months: NOI sum over debt-service sum, undefined without debt service. */
  function Dscr(slice: seq<MonthlyResult>): (r: Option<real>)
    ensures r.None? <==> Sum(slice, DebtServiceColumn) <= 0.0
    ensures r.Some? ==> r.value * Sum(slice, DebtServiceColumn) == Sum(slice, RentColumn) - Sum(slice, ExpenseColumn)
  {
    var debtService := Sum(slice, DebtServiceColumn);
    if debtService > 0.0 then Some((Sum(slice, RentColumn) - Sum(slice, ExpenseColumn)) / debtService) else None
  }

  /** The cumulative cash flow after `rows`, starting from `seed`. */
  function LastCumulative(rows: seq<MonthlyResult>, seed: real): real {
    if rows == [] then seed else rows[|rows| - 1].cumulativeCashFlow
  }

  /** Each month's cumulative cash flow is the previous one (or the seed) plus its own cash flow. */
  ghost predicate RunningSum(rows: seq<MonthlyResult>, seed: real) {
    forall i :: 0 <= i < |rows| ==>
      rows[i].cumulativeCashFlow == LastCumulative(rows[..i], seed) + rows[i].cashFlow
  }

  lemma RunningSumAppend(rows: seq<MonthlyResult>, seed: real, row: MonthlyResult)
    requires RunningSum(rows, seed)
    requires row.cumulativeCashFlow == LastCumulative(rows, seed) + row.cashFlow
    ensures RunningSum(rows + [row], seed)
  {
    var all := rows + [row];
    forall i | 0 <= i < |all|
      ensures all[i].cumulativeCashFlow == LastCumulative(all[..i], seed) + all[i].cashFlow
    {
      assert all[..i] == if i == |rows| then rows else rows[..i];
    }
  }

  /** The running total is the seed plus the sum of the cash flows so far. */
  lemma {:induction false} RunningSumTotal(rows: seq<MonthlyResult>, seed: real)
    requires RunningSum(rows, seed)
    ensures LastCumulative(rows, seed) == seed + Sum(rows, CashFlowColumn)
    decreases |rows|
  {
    if rows != [] {
      var front := rows[..|rows| - 1];
      assert RunningSum(front, seed) by {
        forall i | 0 <= i < |front|
          ensures front[i].cumulativeCashFlow == LastCumulative(front[..i], seed) + front[i].cashFlow
        {
          assert front[..i] == rows[..i];
        }
      }
      RunningSumTotal(front, seed);
    }
  }

  /** Every month's cumulative cash flow is the seed plus the cash flows of the months up to it. */
  lemma RunningSumPrefix(rows: seq<MonthlyResult>, seed: real, i: nat)
    requires RunningSum(rows, seed) && i < |rows|
    ensures rows[i].cumulativeCashFlow == seed + Sum(rows[..i + 1], CashFlowColumn)
  {
    var prefix := rows[..i + 1];
    assert RunningSum(prefix, seed) by {
      forall k | 0 <= k < |prefix|
        ensures prefix[k].cumulativeCashFlow == LastCumulative(prefix[..k], seed) + prefix[k].cashFlow
      {
        assert prefix[..k] == rows[..k];
      }
    }
    RunningSumTotal(prefix, seed);
  }

  /** Two ledgers with the same cash flows and the same seed have the same cumulative cash flows. */
  lemma {:induction false} RunningSumUnique(a: seq<MonthlyResult>, b: seq<MonthlyResult>, seed: real)
    requires RunningSum(a, seed) && RunningSum(b, seed) && |a| == |b|
    requires forall i :: 0 <= i < |a| ==> a[i].cashFlow == b[i].cashFlow
    ensures forall i :: 0 <= i < |a| ==> a[i].cumulativeCashFlow == b[i].cumulativeCashFlow
  {
    var k := 0;
    while k < |a|
      invariant 0 <= k <= |a|
      invariant forall i :: 0 <= i < k ==> a[i].cumulativeCashFlow == b[i].cumulativeCashFlow
    {
      assert LastCumulative(a[..k], seed) == LastCumulative(b[..k], seed);
      k := k + 1;
    }
  }

  /** `Math.ceil(n / 12)` as the number of years a loop `for (year = 1; year <= ...)` visits. */
  function YearCount(n: int): (r: nat)
    ensures n <= 0 ==> r == 0
    ensures n > 0 ==> 12 * (r - 1) < n <= 12 * r
  {
    if n <= 0 then 0 else (n + 11) / 12
  }

  /** Months `12k+1 .. min(12k+12, n)`: `rows.slice(12k, 12k + 12)`. */
  function YearSlice(rows: seq<MonthlyResult>, k: nat): (slice: seq<MonthlyResult>)
    requires 12 * k < |rows|
    ensures 1 <= |slice| <= 12
    ensures |slice| == 12 || 12 * k + |slice| == |rows|
  {
    var end := if 12 * k + 12 <= |rows| then 12 * k + 12 else |rows|;
    rows[12 * k .. end]
  }

  /** A year's slice is a full twelve months unless it is the last year. */
  lemma YearSliceLength(rows: seq<MonthlyResult>, k: nat)
    requires 12 * k < |rows|
    ensures k + 1 < YearCount(|rows|) ==> |YearSlice(rows, k)| == 12
    ensures k + 1 == YearCount(|rows|) ==> |YearSlice(rows, k)| == |rows| - 12 * k
    ensures k < YearCount(|rows|)
  {
  }

  /** The sum of a column over the first `y` year slices. */
  function YearsSum(rows: seq<MonthlyResult>, c: Column, y: nat): real
    requires y <= YearCount(|rows|)
  {
    if y == 0 then 0.0 else YearsSum(rows, c, y - 1) + Sum(YearSlice(rows, y - 1), c)
  }

  /** The year slices cover the ledger in order, so their sums add up to the whole column. */
  lemma {:induction false} YearsSumPrefix(rows: seq<MonthlyResult>, c: Column, y: nat)
    requires y <= YearCount(|rows|)
    ensures YearsSum(rows, c, y) == Sum(rows[..if 12 * y <= |rows| then 12 * y else |rows|], c)
  {
    if y == 0 {
      assert rows[..0] == [];
    } else {
      YearsSumPrefix(rows, c, y - 1);
      var start := 12 * (y - 1);
      var end := if 12 * y <= |rows| then 12 * y else |rows|;
      assert rows[..end] == rows[..start] + YearSlice(rows, y - 1);
      SumAppend(rows[..start], YearSlice(rows, y - 1), c);
    }
  }

  lemma YearsSumTotal(rows: seq<MonthlyResult>, c: Column)
    ensures YearsSum(rows, c, YearCount(|rows|)) == Sum(rows, c)
  {
    YearsSumPrefix(rows, c, YearCount(|rows|));
    assert rows[..|rows|] == rows;
  }

  /** Interest of the schedule rows `from .. from + count - 1`, a missing row counting as 0. */
  function ScheduleInterest(schedule: seq<AmortizationRow>, from: int, count: nat): real
    decreases count
  {
    if count == 0 then 0.0
    else
      var idx := from + count - 1;
      ScheduleInterest(schedule, from, count - 1) + InterestAt(schedule, idx)
  }

  /** A rent-proportional reserve: `rent * (rate ?? 0)`. */
  function Reserve(rent: real, rate: Option<real>): real {
    rent * Or0(rate)
  }

  /** The month's property tax on a value: `(rate ?? 0) * value / 12`. */
  function MonthlyTax(rate: Option<real>, value: real): real {
    Or0(rate) * value / 12.0
  }

  /**
   * A rental month's operating expenses: vacancy, repairs, capex and
   * management as shares of rent, plus taxes, insurance and the lease-up fee
   * (charged every month, not once).
   */
  function RentalOperatingExpenses(re: RentExpenseInputs, rent: real, taxes: real, insurance: real): real {
    Reserve(rent, re.vacancyRate) + Reserve(rent, re.repairsRate) + Reserve(rent, re.capexRate)
    + Reserve(rent, re.managementRate) + taxes + insurance + Or0(re.leaseUpFee)
  }

  /** The sum of the annual cash flows, year by year. */
  function AnnualCashFlowSum(annual: seq<AnnualSummary>): real
    decreases |annual|
  {
    if annual == [] then 0.0 else AnnualCashFlowSum(annual[..|annual| - 1]) + annual[|annual| - 1].cashFlow
  }

  /** Annual rows that each carry their year slice's cash flow add up, year by year, to the year slices' sums. */
  lemma {:induction false} AnnualCashFlowsPrefix(monthly: seq<MonthlyResult>, annual: seq<AnnualSummary>, y: nat)
    requires |annual| == YearCount(|monthly|) && y <= |annual|
    requires forall k :: 0 <= k < |annual| ==>
               12 * k < |monthly| && annual[k].cashFlow == Sum(YearSlice(monthly, k), CashFlowColumn)
    ensures AnnualCashFlowSum(annual[..y]) == YearsSum(monthly, CashFlowColumn, y)
  {
    if y > 0 {
      AnnualCashFlowsPrefix(monthly, annual, y - 1);
      assert annual[..y][..y - 1] == annual[..y - 1];
      assert annual[..y][y - 1] == annual[y - 1];
    }
  }

  /** Annual rows that each carry their year slice's cash flow add up to the whole ledger's cash flow. */
  lemma AnnualCashFlowsCover(monthly: seq<MonthlyResult>, annual: seq<AnnualSummary>)
    requires |annual| == YearCount(|monthly|)
    requires forall k :: 0 <= k < |annual| ==>
               12 * k < |monthly| && annual[k].cashFlow == Sum(YearSlice(monthly, k), CashFlowColumn)
    ensures AnnualCashFlowSum(annual) == Sum(monthly, CashFlowColumn)
  {
    AnnualCashFlowsPrefix(monthly, annual, |annual|);
    assert annual[..|annual|] == annual;
    YearsSumTotal(monthly, CashFlowColumn);
  }

  /** `schedule[i]?.payment ?? 0`: the payment of row `i`, or 0 past the schedule's end. */
  function PaymentAt(schedule: seq<AmortizationRow>, i: int): real {
    if 0 <= i < |schedule| then schedule[i].payment else 0.0
  }

  /** `schedule[i]?.balance ?? 0`. */
  function BalanceAt(schedule: seq<AmortizationRow>, i: int): real {
    if 0 <= i < |schedule| then schedule[i].balance else 0.0
  }

  /** `schedule[i]?.interest ?? 0`. */
  function InterestAt(schedule: seq<AmortizationRow>, i: int): real {
    if 0 <= i < |schedule| then schedule[i].interest else 0.0
  }

  /**
   * The annual summary of year `k + 1` shared by the rental strategies: value,
   * debt and equity at the year's last month, the column sums over its slice,
   * equity growth over the equity at purchase, and the return ratios.
   */
  function Rollup(monthly: seq<MonthlyResult>, k: nat, baseEquityStart: real, cashInvested: real, interestPaid: real): AnnualSummary
    requires 12 * k < |monthly|
  {
    var slice := YearSlice(monthly, k);
    var last := slice[|slice| - 1];
    var cashFlow := Sum(slice, CashFlowColumn);
    var equityGrowth := last.equity - baseEquityStart;
    var totalReturn := cashFlow + equityGrowth;
    AnnualSummary(k + 1, last.propertyValue, last.loanBalance, last.equity, cashInvested, cashInvested,
                  interestPaid, Sum(slice, RentColumn), Sum(slice, ExpenseColumn), cashFlow, equityGrowth,
                  totalReturn, SafeRatio(totalReturn, cashInvested), Dscr(slice))
  }

  /** A rollup's return is its cash flow plus the equity gained over `baseEquityStart`, measured against `cashInvested`. */
  lemma RollupReturn(monthly: seq<MonthlyResult>, k: nat, baseEquityStart: real, cashInvested: real, interestPaid: real)
    requires 12 * k < |monthly|
    ensures var a := Rollup(monthly, k, baseEquityStart, cashInvested, interestPaid);
            && a.year == k + 1
            && a.totalReturn == a.cashFlow + a.equity - baseEquityStart
            && a.cashInvested == cashInvested && a.totalCashInvested == cashInvested
            && a.interestPaid == interestPaid
            && (cashInvested > 0.0 ==> a.annualReturnOnInvestedCash * cashInvested == a.totalReturn)
            && (cashInvested <= 0.0 ==> a.annualReturnOnInvestedCash == 0.0)
  {
  }

  /** `months` months of the same monthly amount. */
  function OverMonths(months: int, perMonth: real): real {
    (months as real) * perMonth
  }

  lemma OverMonthsStep(months: nat, perMonth: real)
    ensures OverMonths(months + 1, perMonth) == OverMonths(months, perMonth) + perMonth
  {
  }

  /** The sum of the annual interest, year by year. */
  function AnnualInterestSum(annual: seq<AnnualSummary>): real
    decreases |annual|
  {
    if annual == [] then 0.0 else AnnualInterestSum(annual[..|annual| - 1]) + annual[|annual| - 1].interestPaid
  }

  /** More months never make fewer years. */
  lemma YearCountMonotone(a: int, b: int)
    requires a <= b
    ensures YearCount(a) <= YearCount(b)
  {
  }
}
