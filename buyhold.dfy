/**
 * The buy-and-hold projection: a property bought with a long-term loan and
 * rented for the loan's whole term. One ledger row per loan month, one
 * annual summary per 12-month slice, and the headline metrics.
 */
module BuyHoldCalculator {
  import opened Optional
  import opened Finance
  import opened Types
  import opened Ledger
  import Growth

  /** How the purchase price is split between the loan and the buyer's down payment. */
  datatype Financing = Financing(loanAmount: real, downPayment: real)

  /**
   * The first sizing field present wins: an explicit loan amount, then a
   * loan-to-value ratio, then a down payment. With none of them the whole
   * price is borrowed.
   */
  function DeriveLoanAmount(inputs: BuyHoldInputs): (f: Financing)
    ensures inputs.loan.loanAmount.Some? ==> f.loanAmount == inputs.loan.loanAmount.value
    ensures inputs.loan.loanAmount.None? && inputs.loan.ltv.Some? ==>
              f.loanAmount == inputs.base.purchasePrice * inputs.loan.ltv.value
    ensures inputs.loan.loanAmount.Some? || inputs.loan.ltv.Some? ==>
              f.downPayment == Max0(inputs.base.purchasePrice - f.loanAmount) && f.downPayment >= 0.0
    ensures inputs.loan.loanAmount.None? && inputs.loan.ltv.None? && inputs.loan.downPayment.Some? ==>
              f.downPayment == inputs.loan.downPayment.value
              && f.loanAmount == Max0(inputs.base.purchasePrice - inputs.loan.downPayment.value) && f.loanAmount >= 0.0
    ensures inputs.loan.loanAmount.None? && inputs.loan.ltv.None? && inputs.loan.downPayment.None? ==>
              f == Financing(inputs.base.purchasePrice, 0.0)
  {
    var price := inputs.base.purchasePrice;
    match inputs.loan.loanAmount
    case Some(amount) => Financing(amount, Max0(price - amount))
    case None =>
      match inputs.loan.ltv
      case Some(ltv) =>
        var amount := price * ltv;
        Financing(amount, Max0(price - amount))
      case None =>
        match inputs.loan.downPayment
        case Some(down) => Financing(Max0(price - down), down)
        case None => Financing(price, 0.0)
  }

  /**
   * Loan and down payment together always pay for the property, and exactly
   * so unless one of them alone exceeds the price.
   */
  lemma FinancingCoversPrice(inputs: BuyHoldInputs)
    ensures DeriveLoanAmount(inputs).loanAmount + DeriveLoanAmount(inputs).downPayment >= inputs.base.purchasePrice
    ensures var f := DeriveLoanAmount(inputs);
            f.loanAmount <= inputs.base.purchasePrice && f.downPayment <= inputs.base.purchasePrice ==>
              f.loanAmount + f.downPayment == inputs.base.purchasePrice
  {
    var price := inputs.base.purchasePrice;
    var f := DeriveLoanAmount(inputs);
    if inputs.loan.loanAmount.None? && inputs.loan.ltv.None? && inputs.loan.downPayment.Some? {
      SplitCoversPrice(price, f.downPayment);
    } else if inputs.loan.loanAmount.Some? || inputs.loan.ltv.Some? {
      SplitCoversPrice(price, f.loanAmount);
    }
  }

  /** One part given, the other the rest of the price floored at 0. */
  lemma SplitCoversPrice(price: real, part: real)
    ensures part + Max0(price - part) >= price
    ensures part <= price ==> part + Max0(price - part) == price
  {
  }

  /** The quantities fixed before the month loop. */
  datatype Setup = Setup(
    financing: Financing,
    monthlyInterestRate: real,
    monthlyAppreciationRate: real,
    annualRentIncreaseRate: real,
    pointsCost: real,
    loanClosingCosts: real,
    purchaseClosingCosts: real,
    initialCashInvested: real,
    startingValue: real)

  function SetupOf(inputs: BuyHoldInputs, monthlyRate: RateConversion): Setup {
    var f := DeriveLoanAmount(inputs);
    var points := Or0(inputs.loan.pointsRate) * f.loanAmount;
    var loanClosing := Or0(inputs.loan.loanClosingCostRate) * f.loanAmount;
    var purchaseClosing := Or0(inputs.base.purchaseClosingCostRate) * inputs.base.purchasePrice;
    Setup(
      f,
      monthlyRate(inputs.loan.interestRateAnnual),
      monthlyRate(Or0(inputs.base.annualAppreciationRate)),
      Or0(inputs.base.annualRentIncreaseRate),
      points,
      loanClosing,
      purchaseClosing,
      f.downPayment + inputs.base.rehabCost + points + loanClosing + purchaseClosing,
      // `arv || purchasePrice`: an ARV of 0 falls back to the price
      if inputs.base.arv != 0.0 then inputs.base.arv else inputs.base.purchasePrice)
  }

  /** The long-term loan: the derived amount at the monthly rate over the term, paid at period ends. */
  function LoanParams(inputs: BuyHoldInputs, s: Setup): AmortizationParams {
    StandardLoan(s.financing.loanAmount, s.monthlyInterestRate, inputs.loan.loanTermMonths)
  }

  /** The loan's payment is a finite number (see `Finance.PmtDefined`). */
  predicate Computable(inputs: BuyHoldInputs, monthlyRate: RateConversion) {
    PmtDefined(monthlyRate(inputs.loan.interestRateAnnual), inputs.loan.loanTermMonths, End)
  }

  function LoanSchedule(inputs: BuyHoldInputs, monthlyRate: RateConversion): seq<AmortizationRow>
    requires Computable(inputs, monthlyRate)
  {
    Schedule(LoanParams(inputs, SetupOf(inputs, monthlyRate)))
  }

  /** Ledger row `i` (month `i + 1`), given the cumulative cash flow before it. */
  function MonthRow(inputs: BuyHoldInputs, s: Setup, schedule: seq<AmortizationRow>, i: nat, previous: real): MonthlyResult {
    var m := i + 1;
    var rent := Growth.RentForMonth(inputs.rent.monthlyRent, s.annualRentIncreaseRate, m);
    var value := Growth.PropertyValueForMonth(s.startingValue, s.monthlyAppreciationRate, m);
    var taxes := MonthlyTax(inputs.base.propertyTaxRate, value);
    var insurance := Or0(inputs.base.insurancePerMonth);
    var expenses := RentalOperatingExpenses(inputs.rent, rent, taxes, insurance);
    var noi := rent - expenses;
    var debtService := PaymentAt(schedule, i);
    var cashFlow := noi - debtService;
    var balance := BalanceAt(schedule, i);
    MonthlyResult(m, rent, rent, Reserve(rent, inputs.rent.vacancyRate), expenses, noi, debtService, cashFlow,
                  previous + cashFlow, value, value - balance, balance, taxes, insurance,
                  Some(if m == 1 then inputs.base.rehabCost else 0.0), Stabilized)
  }

  /** Annual summary `k` (year `k + 1`): interest is the loan schedule's over the year's months. */
  function YearRow(s: Setup, schedule: seq<AmortizationRow>, monthly: seq<MonthlyResult>, k: nat): AnnualSummary
    requires 12 * k < |monthly|
  {
    Rollup(monthly, k, s.startingValue - s.financing.loanAmount, s.initialCashInvested,
           ScheduleInterest(schedule, 12 * k, |YearSlice(monthly, k)|))
  }

  function MetricsOf(s: Setup, annual: seq<AnnualSummary>): BuyHoldMetrics {
    var yearOne := if |annual| > 0 then annual[0].cashFlow else 0.0;
    BuyHoldMetrics(
      s.initialCashInvested,
      yearOne,
      if |annual| > 0 then annual[0].dscr.GetOr(0.0) else 0.0,
      SafeRatio(yearOne, s.initialCashInvested),
      if |annual| > 0 then annual[|annual| - 1].totalReturn else 0.0)
  }


  /** The first `count` ledger rows, each after the one before it. */
  function Months(inputs: BuyHoldInputs, s: Setup, schedule: seq<AmortizationRow>, count: nat): (rows: seq<MonthlyResult>)
    ensures |rows| == count
  {
    if count == 0 then []
    else
      var before := Months(inputs, s, schedule, count - 1);
      before + [MonthRow(inputs, s, schedule, count - 1, LastCumulative(before, 0.0))]
  }

  /** The first `y` annual summaries. */
  function Years(s: Setup, schedule: seq<AmortizationRow>, monthly: seq<MonthlyResult>, y: nat): (rows: seq<AnnualSummary>)
    requires y <= YearCount(|monthly|)
    ensures |rows| == y
  {
    if y == 0 then [] else Years(s, schedule, monthly, y - 1) + [YearRow(s, schedule, monthly, y - 1)]
  }

  /** What `calculateBuyHold` returns: one row per loan month, one summary per year of the term. */
  function BuyHold(inputs: BuyHoldInputs, monthlyRate: RateConversion): BuyHoldResult
    requires Computable(inputs, monthlyRate)
  {
    var s := SetupOf(inputs, monthlyRate);
    var schedule := LoanSchedule(inputs, monthlyRate);
    var monthly := Months(inputs, s, schedule, Nat(inputs.loan.loanTermMonths));
    var annual := Years(s, schedule, monthly, YearCount(|monthly|));
    BuyHoldResult(monthly, annual, MetricsOf(s, annual))
  }

  method CalculateBuyHold(inputs: BuyHoldInputs, monthlyRate: RateConversion) returns (result: BuyHoldResult)
    requires Computable(inputs, monthlyRate)
    ensures result == BuyHold(inputs, monthlyRate)
  {
    var s := SetupOf(inputs, monthlyRate);
    var schedule := BuildAmortizationSchedule(LoanParams(inputs, s));
    var monthly := BuildMonthly(inputs, s, schedule);
    var annual := BuildAnnual(s, schedule, monthly);
    result := BuyHoldResult(monthly, annual, MetricsOf(s, annual));
  }

  /** The month loop: one row per month of the loan term, accumulating the cash flow. */
  method BuildMonthly(inputs: BuyHoldInputs, s: Setup, schedule: seq<AmortizationRow>) returns (monthly: seq<MonthlyResult>)
    ensures monthly == Months(inputs, s, schedule, Nat(inputs.loan.loanTermMonths))
  {
    var n := inputs.loan.loanTermMonths;
    monthly := [];
    var cumulativeCashFlow := 0.0;
    var m := 1;
    while m <= n
      invariant 1 <= m && (n >= 1 ==> m <= n + 1) && (n < 1 ==> m == 1)
      invariant monthly == Months(inputs, s, schedule, m - 1)
      invariant cumulativeCashFlow == LastCumulative(monthly, 0.0)
    {
      var row := MonthRow(inputs, s, schedule, m - 1, cumulativeCashFlow);
      cumulativeCashFlow := row.cumulativeCashFlow;
      monthly := monthly + [row];
      m := m + 1;
    }
  }

  /** The year loop: one summary per 12-month slice of the ledger. */
  method BuildAnnual(s: Setup, schedule: seq<AmortizationRow>, monthly: seq<MonthlyResult>) returns (annual: seq<AnnualSummary>)
    ensures annual == Years(s, schedule, monthly, YearCount(|monthly|))
  {
    annual := [];
    var totalYears := YearCount(|monthly|);
    var year := 1;
    while year <= totalYears
      invariant 1 <= year <= totalYears + 1
      invariant annual == Years(s, schedule, monthly, year - 1)
    {
      annual := annual + [YearRow(s, schedule, monthly, year - 1)];
      year := year + 1;
    }
  }

  /** Row `i` of the ledger is month `i + 1` computed after the rows before it. */
  lemma {:induction false} MonthAt(inputs: BuyHoldInputs, s: Setup, schedule: seq<AmortizationRow>, count: nat, i: nat)
    requires i < count
    ensures Months(inputs, s, schedule, count)[i]
            == MonthRow(inputs, s, schedule, i, LastCumulative(Months(inputs, s, schedule, count)[..i], 0.0))
    decreases count
  {
    var before := Months(inputs, s, schedule, count - 1);
    assert Months(inputs, s, schedule, count) == before + [MonthRow(inputs, s, schedule, count - 1, LastCumulative(before, 0.0))];
    if i < count - 1 {
      MonthAt(inputs, s, schedule, count - 1, i);
      assert Months(inputs, s, schedule, count)[..i] == before[..i];
    } else {
      assert Months(inputs, s, schedule, count)[..i] == before;
    }
  }

  lemma {:induction false} YearAt(s: Setup, schedule: seq<AmortizationRow>, monthly: seq<MonthlyResult>, y: nat, k: nat)
    requires y <= YearCount(|monthly|) && k < y
    ensures 12 * k < |monthly| && Years(s, schedule, monthly, y)[k] == YearRow(s, schedule, monthly, k)
    decreases y
  {
    if k < y - 1 {
      YearAt(s, schedule, monthly, y - 1, k);
    }
  }

  /*
   * The lemmas below are stated over the pieces `BuyHold` assembles: the
   * ledger `Months(inputs, s, schedule, count)` and the rollup `Years(...)`
   * for any setup and schedule, and `MetricsOf` for any rollup; the result
   * of `CalculateBuyHold` is their instance at `SetupOf(inputs, monthlyRate)`,
   * `LoanSchedule(inputs, monthlyRate)` and `count == Nat(loanTermMonths)`.
   */

  /** Month `i + 1` sits at index `i`, every month is stabilised, the rehab budget is spent in month 1 only. */
  lemma LedgerShape(inputs: BuyHoldInputs, s: Setup, schedule: seq<AmortizationRow>, count: nat, i: nat)
    requires i < count
    ensures var row := Months(inputs, s, schedule, count)[i];
            && row.month == i + 1 && row.phase == Stabilized
            && row.rehabSpend == Some(if i == 0 then inputs.base.rehabCost else 0.0)
  {
    MonthAt(inputs, s, schedule, count, i);
  }

  /** NOI is rent less operating expenses; cash flow is NOI less the month's loan payment. */
  lemma MonthCashFlow(inputs: BuyHoldInputs, s: Setup, schedule: seq<AmortizationRow>, count: nat, i: nat)
    requires i < count
    ensures var row := Months(inputs, s, schedule, count)[i];
            && row.noi == row.rent - row.operatingExpenses
            && row.cashFlow == row.rent - row.operatingExpenses - row.debtService
            && row.debtService == PaymentAt(schedule, i)
  {
    MonthAt(inputs, s, schedule, count, i);
  }

  /** The month's balance is the schedule's, and equity is value less that balance. */
  lemma MonthEquity(inputs: BuyHoldInputs, s: Setup, schedule: seq<AmortizationRow>, count: nat, i: nat)
    requires i < count
    ensures var row := Months(inputs, s, schedule, count)[i];
            row.loanBalance == BalanceAt(schedule, i) && row.equity + row.loanBalance == row.propertyValue
  {
    MonthAt(inputs, s, schedule, count, i);
  }

  /** Expenses are the rent-proportional reserves, taxes on the month's value, insurance and the lease-up fee. */
  lemma MonthExpenses(inputs: BuyHoldInputs, s: Setup, schedule: seq<AmortizationRow>, count: nat, i: nat)
    requires i < count
    ensures var row := Months(inputs, s, schedule, count)[i];
            && row.taxes == MonthlyTax(inputs.base.propertyTaxRate, row.propertyValue)
            && row.insurance == Or0(inputs.base.insurancePerMonth)
            && row.operatingExpenses == RentalOperatingExpenses(inputs.rent, row.rent, row.taxes, row.insurance)
            && row.vacancy == Reserve(row.rent, inputs.rent.vacancyRate)
  {
    MonthAt(inputs, s, schedule, count, i);
  }

  /** Rent is the month's annual step of the base rent. */
  lemma MonthRent(inputs: BuyHoldInputs, s: Setup, schedule: seq<AmortizationRow>, count: nat, i: nat)
    requires i < count
    ensures Months(inputs, s, schedule, count)[i].rent
            == Growth.RentForMonth(inputs.rent.monthlyRent, s.annualRentIncreaseRate, i + 1)
  {
    MonthAt(inputs, s, schedule, count, i);
  }

  /** Rent stays at the base rent through the first year. */
  lemma RentInFirstYear(inputs: BuyHoldInputs, s: Setup, schedule: seq<AmortizationRow>, count: nat, i: nat)
    requires i < count && i < 12
    ensures Months(inputs, s, schedule, count)[i].rent == inputs.rent.monthlyRent
  {
    MonthRent(inputs, s, schedule, count, i);
  }

  /** The value is the starting value compounded by the monthly appreciation rate; month 1 carries the starting value. */
  lemma MonthValue(inputs: BuyHoldInputs, s: Setup, schedule: seq<AmortizationRow>, count: nat, i: nat)
    requires i < count
    ensures Months(inputs, s, schedule, count)[i].propertyValue
            == Growth.PropertyValueForMonth(s.startingValue, s.monthlyAppreciationRate, i + 1)
    ensures i == 0 ==> Months(inputs, s, schedule, count)[i].propertyValue == s.startingValue
  {
    MonthAt(inputs, s, schedule, count, i);
  }

  /** The cumulative cash flow starts from 0 and adds each month's cash flow. */
  lemma LedgerRunningSum(inputs: BuyHoldInputs, s: Setup, schedule: seq<AmortizationRow>, count: nat)
    ensures RunningSum(Months(inputs, s, schedule, count), 0.0)
  {
    var rows := Months(inputs, s, schedule, count);
    forall i | 0 <= i < |rows|
      ensures rows[i].cumulativeCashFlow == LastCumulative(rows[..i], 0.0) + rows[i].cashFlow
    {
      MonthAt(inputs, s, schedule, count, i);
    }
  }

  /** Each month's cumulative cash flow is the sum of the cash flows of months 1 through it. */
  lemma CumulativeIsRunningTotal(inputs: BuyHoldInputs, s: Setup, schedule: seq<AmortizationRow>, count: nat, i: nat)
    requires i < count
    ensures var rows := Months(inputs, s, schedule, count);
            rows[i].cumulativeCashFlow == Sum(rows[..i + 1], CashFlowColumn)
  {
    LedgerRunningSum(inputs, s, schedule, count);
    RunningSumPrefix(Months(inputs, s, schedule, count), 0.0, i);
  }

  /**
   * The annual cash flows add up to the whole ledger's cash flow, which is
   * the last month's cumulative cash flow.
   */
  lemma AnnualCashFlowsAddUp(inputs: BuyHoldInputs, s: Setup, schedule: seq<AmortizationRow>, count: nat)
    requires count > 0
    ensures var monthly := Months(inputs, s, schedule, count);
            var annual := Years(s, schedule, monthly, YearCount(count));
            && AnnualCashFlowSum(annual) == Sum(monthly, CashFlowColumn)
            && AnnualCashFlowSum(annual) == monthly[count - 1].cumulativeCashFlow
  {
    var monthly := Months(inputs, s, schedule, count);
    var annual := Years(s, schedule, monthly, YearCount(count));
    forall k | 0 <= k < |annual|
      ensures 12 * k < |monthly| && annual[k].cashFlow == Sum(YearSlice(monthly, k), CashFlowColumn)
    {
      YearAt(s, schedule, monthly, YearCount(count), k);
    }
    AnnualCashFlowsCover(monthly, annual);
    LedgerRunningSum(inputs, s, schedule, count);
    RunningSumTotal(monthly, 0.0);
  }

  /**
   * Year `k + 1` rolls up months `12k + 1 ..`: twelve of them unless it is the
   * last year of a term that is not a whole number of years; its value and
   * debt are those of its last month.
   */
  lemma YearsPartitionTheTerm(s: Setup, schedule: seq<AmortizationRow>, monthly: seq<MonthlyResult>, k: nat)
    requires k < YearCount(|monthly|)
    ensures var annual := Years(s, schedule, monthly, YearCount(|monthly|));
            var slice := YearSlice(monthly, k);
            && annual[k].year == k + 1
            && (k + 1 < |annual| || |monthly| % 12 == 0 ==> |slice| == 12)
            && annual[k].value == slice[|slice| - 1].propertyValue
            && annual[k].debt == slice[|slice| - 1].loanBalance
  {
    YearAt(s, schedule, monthly, YearCount(|monthly|), k);
    YearSliceLength(monthly, k);
  }

  /**
   * Each year's total return is its cash flow plus the equity gained over
   * the equity at purchase (starting value less loan), and its return on
   * invested cash is that over the cash invested.
   */
  lemma YearReturn(s: Setup, schedule: seq<AmortizationRow>, monthly: seq<MonthlyResult>, k: nat)
    requires k < YearCount(|monthly|)
    ensures var a := Years(s, schedule, monthly, YearCount(|monthly|))[k];
            && a.totalReturn == a.cashFlow + a.equity - (s.startingValue - s.financing.loanAmount)
            && a.cashInvested == s.initialCashInvested
            && a.annualReturnOnInvestedCash == SafeRatio(a.totalReturn, s.initialCashInvested)
  {
    YearAt(s, schedule, monthly, YearCount(|monthly|), k);
    RollupReturn(monthly, k, s.startingValue - s.financing.loanAmount, s.initialCashInvested,
                 ScheduleInterest(schedule, 12 * k, |YearSlice(monthly, k)|));
  }

  /** With a term of at least a year, year one's cash flow is the cumulative cash flow after month 12. */
  lemma YearOneIsFirstTwelveMonths(inputs: BuyHoldInputs, s: Setup, schedule: seq<AmortizationRow>, count: nat)
    requires count >= 12
    ensures var monthly := Months(inputs, s, schedule, count);
            MetricsOf(s, Years(s, schedule, monthly, YearCount(count))).yearOneCashFlow == monthly[11].cumulativeCashFlow
  {
    var monthly := Months(inputs, s, schedule, count);
    YearAt(s, schedule, monthly, YearCount(count), 0);
    assert YearSlice(monthly, 0) == monthly[..12];
    CumulativeIsRunningTotal(inputs, s, schedule, count, 11);
  }

  /** Every month of the loan pays the same amortizing payment, and no balance goes negative. */
  lemma LoanMonths(inputs: BuyHoldInputs, monthlyRate: RateConversion, i: nat)
    requires Computable(inputs, monthlyRate) && i < Nat(inputs.loan.loanTermMonths)
    ensures var s := SetupOf(inputs, monthlyRate);
            var schedule := LoanSchedule(inputs, monthlyRate);
            var row := Months(inputs, s, schedule, Nat(inputs.loan.loanTermMonths))[i];
            && row.debtService == PaymentAmount(LoanParams(inputs, s))
            && row.loanBalance >= 0.0
  {
    var s := SetupOf(inputs, monthlyRate);
    var p := LoanParams(inputs, s);
    MonthCashFlow(inputs, s, Schedule(p), Nat(inputs.loan.loanTermMonths), i);
    MonthEquity(inputs, s, Schedule(p), Nat(inputs.loan.loanTermMonths), i);
    ScheduleShape(p);
    BalancesNonNegative(p);
  }

  /**
   * An all-cash purchase (a loan of 0): no debt service and no balance, so
   * cash flow equals NOI and equity equals value.
   */
  lemma AllCashPurchase(inputs: BuyHoldInputs, monthlyRate: RateConversion, i: nat)
    requires Computable(inputs, monthlyRate)
    requires DeriveLoanAmount(inputs).loanAmount == 0.0 && i < Nat(inputs.loan.loanTermMonths)
    ensures var s := SetupOf(inputs, monthlyRate);
            var row := Months(inputs, s, LoanSchedule(inputs, monthlyRate), Nat(inputs.loan.loanTermMonths))[i];
            && row.debtService == 0.0 && row.loanBalance == 0.0
            && row.cashFlow == row.noi && row.equity == row.propertyValue
  {
    var s := SetupOf(inputs, monthlyRate);
    var p := LoanParams(inputs, s);
    MonthCashFlow(inputs, s, Schedule(p), Nat(inputs.loan.loanTermMonths), i);
    MonthEquity(inputs, s, Schedule(p), Nat(inputs.loan.loanTermMonths), i);
    ScheduleShape(p);
    ZeroPrincipalSchedule(p);
  }

  /** The cash required is the down payment plus the rehab budget plus points and closing costs. */
  lemma CashRequired(inputs: BuyHoldInputs, monthlyRate: RateConversion, annual: seq<AnnualSummary>)
    ensures var f := DeriveLoanAmount(inputs);
            MetricsOf(SetupOf(inputs, monthlyRate), annual).cashRequired
            == f.downPayment + inputs.base.rehabCost + Or0(inputs.loan.pointsRate) * f.loanAmount
               + Or0(inputs.loan.loanClosingCostRate) * f.loanAmount
               + Or0(inputs.base.purchaseClosingCostRate) * inputs.base.purchasePrice
  {
  }

  /**
   * Cash-on-cash return is year one's cash flow over the cash required (0
   * when nothing is invested); year one's cash flow, DSCR and the total
   * return come from the first and last years, and are 0 without any year.
   */
  lemma ReturnMetrics(s: Setup, annual: seq<AnnualSummary>)
    ensures var m := MetricsOf(s, annual);
            && (m.cashRequired > 0.0 ==> m.cashOnCashReturn * m.cashRequired == m.yearOneCashFlow)
            && (m.cashRequired <= 0.0 ==> m.cashOnCashReturn == 0.0)
    ensures var m := MetricsOf(s, annual);
            |annual| > 0 ==> && m.yearOneCashFlow == annual[0].cashFlow
                             && m.dscr == annual[0].dscr.GetOr(0.0)
                             && m.totalReturn == annual[|annual| - 1].totalReturn
    ensures var m := MetricsOf(s, annual);
            annual == [] ==> m.yearOneCashFlow == 0.0 && m.dscr == 0.0 && m.cashOnCashReturn == 0.0 && m.totalReturn == 0.0
  {
  }
}
