/**
 * The BRRRR projection (buy, rehab, rent, refinance, repeat): an
 * interest-only bridge loan through the rehab months, a refinance at the
 * after-repair value that pays the bridge off, then a long-term amortizing
 * loan while the property is rented. The refinance is an instant between
 * the phases, not a ledger month.
 */
module BrrrrCalculator {
  import opened Optional
  import opened Finance
  import opened Types
  import opened Ledger
  import Growth

  /** The quantities fixed before the month loops, including the refinance. */
  datatype Setup = Setup(
    monthlyRentIncrease: real,
    monthlyAppreciation: real,
    bridgeRateMonthly: real,
    longTermRateMonthly: real,
    startingValue: real,
    bridgePrincipal: real,
    purchaseClosingCosts: real,
    cashInvestedBeforeRefi: real,
    refiLoanAmount: real,
    refiClosingCosts: real,
    refiPoints: real,
    refiCashOut: real,
    cashLeftInDeal: real,
    cashRequired: real)

  /**
   * The bridge loan: `(bridgeLtv ?? 1) * price + (bridgeLtv ?? 0) * rehab`,
   * so an unspecified LTV finances the price but not the rehab budget.
   */
  function BridgePrincipal(inputs: BrrrrInputs): real {
    inputs.bridgeLtv.GetOr(1.0) * inputs.base.purchasePrice + Or0(inputs.bridgeLtv) * inputs.base.rehabCost
  }

  /** A cost charged as a rate (0 when missing) on an amount: closing costs on the price, closing costs and points on the refinance loan. */
  function RateCost(rate: Option<real>, amount: real): real {
    Or0(rate) * amount
  }

  function SetupOf(inputs: BrrrrInputs, monthlyRate: RateConversion): Setup {
    var bridgePrincipal := BridgePrincipal(inputs);
    var purchaseClosing := RateCost(inputs.base.purchaseClosingCostRate, inputs.base.purchasePrice);
    var cashBefore := Max0(inputs.base.purchasePrice + inputs.base.rehabCost - bridgePrincipal) + purchaseClosing;
    var refiLoan := inputs.refiLtv * inputs.base.arv;
    var refiClosing := RateCost(inputs.refiClosingCostRate, refiLoan);
    var refiPoints := RateCost(inputs.refiPointsRate, refiLoan);
    // the bridge is interest-only, so its payoff is its principal
    var cashOut := refiLoan - refiClosing - refiPoints - bridgePrincipal;
    var cashLeft := cashBefore - cashOut;
    Setup(
      Or0(inputs.base.annualRentIncreaseRate),
      monthlyRate(Or0(inputs.base.annualAppreciationRate)),
      monthlyRate(Or0(inputs.bridgeInterestRateAnnual)),
      monthlyRate(inputs.longTermLoan.interestRateAnnual),
      inputs.asIsValue.GetOr(inputs.base.purchasePrice),
      bridgePrincipal,
      purchaseClosing,
      cashBefore,
      refiLoan,
      refiClosing,
      refiPoints,
      cashOut,
      cashLeft,
      Max0(cashLeft))
  }

  /** The long-term loan: the refinance amount at the long-term monthly rate over its term. */
  function LoanParams(inputs: BrrrrInputs, s: Setup): AmortizationParams {
    StandardLoan(s.refiLoanAmount, s.longTermRateMonthly, inputs.longTermLoan.loanTermMonths)
  }

  /** The long-term loan's payment is a finite number (see `Finance.PmtDefined`). */
  predicate Computable(inputs: BrrrrInputs, monthlyRate: RateConversion) {
    PmtDefined(monthlyRate(inputs.longTermLoan.interestRateAnnual), inputs.longTermLoan.loanTermMonths, End)
  }

  function LoanSchedule(inputs: BrrrrInputs, monthlyRate: RateConversion): seq<AmortizationRow>
    requires Computable(inputs, monthlyRate)
  {
    Schedule(LoanParams(inputs, SetupOf(inputs, monthlyRate)))
  }

  /** A month's interest on the interest-only bridge. */
  function BridgeInterestPerMonth(s: Setup): real {
    s.bridgePrincipal * s.bridgeRateMonthly
  }

  /** Rehab month `i + 1`: no income; taxes, insurance and bridge interest; the bridge principal outstanding. */
  function RehabRow(inputs: BrrrrInputs, s: Setup, i: nat, previous: real): MonthlyResult {
    var m := i + 1;
    var value := Growth.PropertyValueForMonth(s.startingValue, s.monthlyAppreciation, m);
    var taxes := MonthlyTax(inputs.base.propertyTaxRate, value);
    var insurance := Or0(inputs.base.insurancePerMonth);
    var interest := BridgeInterestPerMonth(s);
    var expenses := taxes + insurance;
    var cashFlow := -expenses - interest;
    MonthlyResult(m, 0.0, 0.0, 0.0, expenses, -expenses, interest, cashFlow, previous + cashFlow, value,
                  value - s.bridgePrincipal, s.bridgePrincipal, taxes, insurance,
                  Some(if m == 1 then inputs.base.rehabCost else 0.0), Rehab)
  }

  /**
   * Stabilized month `j + 1` of the long-term loan, which is timeline month
   * `rehabMonths + j + 1`: rent escalates by the timeline month, the value
   * compounds afresh from the ARV, debt service comes from schedule row `j`.
   */
  function StabilizedRow(inputs: BrrrrInputs, s: Setup, schedule: seq<AmortizationRow>, j: nat, previous: real): MonthlyResult {
    var globalMonth := inputs.rehabMonths + j + 1;
    var value := Growth.PropertyValueForMonth(inputs.base.arv, s.monthlyAppreciation, j + 1);
    var rent := Growth.RentForMonth(inputs.rent.monthlyRent, s.monthlyRentIncrease, globalMonth);
    var taxes := MonthlyTax(inputs.base.propertyTaxRate, value);
    var insurance := Or0(inputs.base.insurancePerMonth);
    var expenses := RentalOperatingExpenses(inputs.rent, rent, taxes, insurance);
    var debtService := PaymentAt(schedule, j);
    var cashFlow := rent - expenses - debtService;
    var balance := BalanceAt(schedule, j);
    MonthlyResult(globalMonth, rent, rent, Reserve(rent, inputs.rent.vacancyRate), expenses, rent - expenses,
                  debtService, cashFlow, previous + cashFlow, value, value - balance, balance, taxes, insurance,
                  None, Stabilized)
  }

  /** Ledger row `i`: a rehab month inside the rehab window, a stabilized month after it. */
  function Row(inputs: BrrrrInputs, s: Setup, schedule: seq<AmortizationRow>, i: nat, previous: real): MonthlyResult {
    if i < inputs.rehabMonths then RehabRow(inputs, s, i, previous)
    else StabilizedRow(inputs, s, schedule, i - inputs.rehabMonths, previous)
  }

  /** The cumulative cash flow starts at minus the cash invested before the refinance. */
  function Seed(s: Setup): real {
    -s.cashInvestedBeforeRefi
  }

  /** The first `count` ledger rows, each after the one before it. */
  function Months(inputs: BrrrrInputs, s: Setup, schedule: seq<AmortizationRow>, count: nat): (rows: seq<MonthlyResult>)
    ensures |rows| == count
  {
    if count == 0 then []
    else
      var before := Months(inputs, s, schedule, count - 1);
      before + [Row(inputs, s, schedule, count - 1, LastCumulative(before, Seed(s)))]
  }

  /** Interest booked for timeline index `idx`: bridge interest in the rehab window, the schedule's after it. */
  function MonthInterest(bridge: real, schedule: seq<AmortizationRow>, rehabMonths: nat, idx: nat): real {
    if idx < rehabMonths then bridge else InterestAt(schedule, idx - rehabMonths)
  }

  /** Interest booked for the `count` timeline indexes from `from`. */
  function PhaseInterest(bridge: real, schedule: seq<AmortizationRow>, rehabMonths: nat, from: nat, count: nat): real
    decreases count
  {
    if count == 0 then 0.0
    else PhaseInterest(bridge, schedule, rehabMonths, from, count - 1) + MonthInterest(bridge, schedule, rehabMonths, from + count - 1)
  }

  /** Annual summary `k`: equity growth is over the starting value less the bridge; cash invested is the cash required. */
  function YearRow(inputs: BrrrrInputs, s: Setup, schedule: seq<AmortizationRow>, monthly: seq<MonthlyResult>, k: nat): AnnualSummary
    requires 12 * k < |monthly|
  {
    Rollup(monthly, k, s.startingValue - s.bridgePrincipal, s.cashRequired,
           PhaseInterest(BridgeInterestPerMonth(s), schedule, inputs.rehabMonths, 12 * k, |YearSlice(monthly, k)|))
  }

  function Years(inputs: BrrrrInputs, s: Setup, schedule: seq<AmortizationRow>, monthly: seq<MonthlyResult>, y: nat): (rows: seq<AnnualSummary>)
    requires y <= YearCount(|monthly|)
    ensures |rows| == y
  {
    if y == 0 then [] else Years(inputs, s, schedule, monthly, y - 1) + [YearRow(inputs, s, schedule, monthly, y - 1)]
  }

  function MetricsOf(inputs: BrrrrInputs, s: Setup, annual: seq<AnnualSummary>): BrrrrMetrics {
    var yearOne := if |annual| > 0 then annual[0].cashFlow else 0.0;
    BrrrrMetrics(
      s.cashRequired,
      yearOne,
      if |annual| > 0 then annual[0].dscr.GetOr(0.0) else 0.0,
      SafeRatio(yearOne, s.cashRequired),
      if |annual| > 0 then annual[|annual| - 1].totalReturn else 0.0,
      s.cashLeftInDeal,
      s.refiLoanAmount,
      (inputs.rehabMonths as real) * s.bridgeRateMonthly * s.bridgePrincipal)
  }

  /** The number of timeline months the rollup covers: `rehabMonths + loanTermMonths`. */
  function TimelineMonths(inputs: BrrrrInputs): int {
    inputs.rehabMonths + inputs.longTermLoan.loanTermMonths
  }

  /** The ledger's length: the rehab months, then one row per month of the long-term loan. */
  function LedgerLength(inputs: BrrrrInputs): nat {
    inputs.rehabMonths + Nat(inputs.longTermLoan.loanTermMonths)
  }

  /**
   * What `calculateBRRRR` returns. The rollup visits `ceil(timeline / 12)`
   * years, which is every year of the ledger unless the loan term is negative.
   */
  function Brrrr(inputs: BrrrrInputs, monthlyRate: RateConversion): BrrrrResult
    requires Computable(inputs, monthlyRate)
  {
    var s := SetupOf(inputs, monthlyRate);
    var schedule := LoanSchedule(inputs, monthlyRate);
    var monthly := Months(inputs, s, schedule, LedgerLength(inputs));
    YearCountMonotone(TimelineMonths(inputs), |monthly|);
    var annual := Years(inputs, s, schedule, monthly, YearCount(TimelineMonths(inputs)));
    BrrrrResult(monthly, annual, MetricsOf(inputs, s, annual))
  }

  method CalculateBrrrr(inputs: BrrrrInputs, monthlyRate: RateConversion) returns (result: BrrrrResult)
    requires Computable(inputs, monthlyRate)
    ensures result == Brrrr(inputs, monthlyRate)
  {
    var s := SetupOf(inputs, monthlyRate);
    var schedule := BuildAmortizationSchedule(LoanParams(inputs, s));
    var monthly, cumulativeCashFlow := BuildRehabPhase(inputs, s, schedule);
    monthly := BuildStabilizedPhase(inputs, s, schedule, monthly, cumulativeCashFlow);
    var annual := BuildAnnual(inputs, s, schedule, monthly);
    result := BrrrrResult(monthly, annual, MetricsOf(inputs, s, annual));
  }

  /** The rehab loop: months 1 .. rehabMonths, starting the cumulative cash flow at minus the cash invested. */
  method BuildRehabPhase(inputs: BrrrrInputs, s: Setup, schedule: seq<AmortizationRow>)
    returns (monthly: seq<MonthlyResult>, cumulativeCashFlow: real)
    ensures monthly == Months(inputs, s, schedule, inputs.rehabMonths)
    ensures cumulativeCashFlow == LastCumulative(monthly, Seed(s))
  {
    monthly := [];
    cumulativeCashFlow := -s.cashInvestedBeforeRefi;
    var m := 1;
    while m <= inputs.rehabMonths
      invariant 1 <= m <= inputs.rehabMonths + 1
      invariant monthly == Months(inputs, s, schedule, m - 1)
      invariant cumulativeCashFlow == LastCumulative(monthly, Seed(s))
    {
      var row := RehabRow(inputs, s, m - 1, cumulativeCashFlow);
      cumulativeCashFlow := row.cumulativeCashFlow;
      monthly := monthly + [row];
      m := m + 1;
    }
  }

  /** The rental loop: one month per month of the long-term loan, after the rehab months. */
  method BuildStabilizedPhase(inputs: BrrrrInputs, s: Setup, schedule: seq<AmortizationRow>,
                              rehabRows: seq<MonthlyResult>, cumulative: real)
    returns (monthly: seq<MonthlyResult>)
    requires rehabRows == Months(inputs, s, schedule, inputs.rehabMonths)
    requires cumulative == LastCumulative(rehabRows, Seed(s))
    ensures monthly == Months(inputs, s, schedule, LedgerLength(inputs))
  {
    var n := inputs.longTermLoan.loanTermMonths;
    monthly := rehabRows;
    var cumulativeCashFlow := cumulative;
    var j := 1;
    while j <= n
      invariant 1 <= j && (n >= 1 ==> j <= n + 1) && (n < 1 ==> j == 1)
      invariant monthly == Months(inputs, s, schedule, inputs.rehabMonths + j - 1)
      invariant cumulativeCashFlow == LastCumulative(monthly, Seed(s))
    {
      var row := StabilizedRow(inputs, s, schedule, j - 1, cumulativeCashFlow);
      cumulativeCashFlow := row.cumulativeCashFlow;
      monthly := monthly + [row];
      j := j + 1;
    }
  }

  /** The year loop over the timeline's `ceil((rehabMonths + loanTermMonths) / 12)` years. */
  method BuildAnnual(inputs: BrrrrInputs, s: Setup, schedule: seq<AmortizationRow>, monthly: seq<MonthlyResult>)
    returns (annual: seq<AnnualSummary>)
    requires |monthly| == LedgerLength(inputs)
    ensures YearCount(TimelineMonths(inputs)) <= YearCount(|monthly|)
    ensures annual == Years(inputs, s, schedule, monthly, YearCount(TimelineMonths(inputs)))
  {
    YearCountMonotone(TimelineMonths(inputs), |monthly|);
    annual := [];
    var totalYears := YearCount(TimelineMonths(inputs));
    var year := 1;
    while year <= totalYears
      invariant 1 <= year <= totalYears + 1
      invariant annual == Years(inputs, s, schedule, monthly, year - 1)
    {
      annual := annual + [YearRow(inputs, s, schedule, monthly, year - 1)];
      year := year + 1;
    }
  }

  /** Row `i` of the ledger is timeline index `i` computed after the rows before it. */
  lemma {:induction false} MonthAt(inputs: BrrrrInputs, s: Setup, schedule: seq<AmortizationRow>, count: nat, i: nat)
    requires i < count
    ensures Months(inputs, s, schedule, count)[i]
            == Row(inputs, s, schedule, i, LastCumulative(Months(inputs, s, schedule, count)[..i], Seed(s)))
    decreases count
  {
    var before := Months(inputs, s, schedule, count - 1);
    assert Months(inputs, s, schedule, count) == before + [Row(inputs, s, schedule, count - 1, LastCumulative(before, Seed(s)))];
    if i < count - 1 {
      MonthAt(inputs, s, schedule, count - 1, i);
      assert Months(inputs, s, schedule, count)[..i] == before[..i];
    } else {
      assert Months(inputs, s, schedule, count)[..i] == before;
    }
  }

  lemma {:induction false} YearAt(inputs: BrrrrInputs, s: Setup, schedule: seq<AmortizationRow>, monthly: seq<MonthlyResult>, y: nat, k: nat)
    requires y <= YearCount(|monthly|) && k < y
    ensures 12 * k < |monthly| && Years(inputs, s, schedule, monthly, y)[k] == YearRow(inputs, s, schedule, monthly, k)
    decreases y
  {
    if k < y - 1 {
      YearAt(inputs, s, schedule, monthly, y - 1, k);
    }
  }

  /*
   * As for buy-and-hold, the lemmas are stated over the pieces `Brrrr`
   * assembles, for any setup and schedule; the result of `CalculateBrrrr`
   * is their instance at `SetupOf`, `LoanSchedule` and `LedgerLength`.
   */

  /** The refinance: cash left in the deal is the cash invested before it less its cash-out; the cash required never goes negative. */
  lemma RefinanceTerms(inputs: BrrrrInputs, monthlyRate: RateConversion)
    ensures var s := SetupOf(inputs, monthlyRate);
            && s.refiLoanAmount == inputs.refiLtv * inputs.base.arv
            && s.refiClosingCosts == RateCost(inputs.refiClosingCostRate, s.refiLoanAmount)
            && s.refiPoints == RateCost(inputs.refiPointsRate, s.refiLoanAmount)
            && s.bridgePrincipal == BridgePrincipal(inputs)
            && s.refiCashOut == s.refiLoanAmount - s.refiClosingCosts - s.refiPoints - s.bridgePrincipal
            && s.cashLeftInDeal == s.cashInvestedBeforeRefi - s.refiCashOut
            && s.cashRequired >= 0.0
            && (s.cashLeftInDeal >= 0.0 ==> s.cashRequired == s.cashLeftInDeal)
            && (s.cashLeftInDeal < 0.0 ==> s.cashRequired == 0.0)
  {
  }

  /**
   * With a bridge LTV the bridge finances that share of price plus rehab;
   * without one it finances the price alone, so the investor brings the
   * rehab budget (and the closing costs).
   */
  lemma BridgeFinancing(inputs: BrrrrInputs, monthlyRate: RateConversion)
    ensures inputs.bridgeLtv.Some? ==>
              BridgePrincipal(inputs) == inputs.bridgeLtv.value * (inputs.base.purchasePrice + inputs.base.rehabCost)
    ensures inputs.bridgeLtv.None? ==> BridgePrincipal(inputs) == inputs.base.purchasePrice
    ensures var s := SetupOf(inputs, monthlyRate);
            && s.purchaseClosingCosts == RateCost(inputs.base.purchaseClosingCostRate, inputs.base.purchasePrice)
            && s.cashInvestedBeforeRefi
               == Max0(inputs.base.purchasePrice + inputs.base.rehabCost - BridgePrincipal(inputs)) + s.purchaseClosingCosts
    ensures inputs.bridgeLtv.None? ==>
              SetupOf(inputs, monthlyRate).cashInvestedBeforeRefi
              == Max0(inputs.base.rehabCost) + RateCost(inputs.base.purchaseClosingCostRate, inputs.base.purchasePrice)
  {
  }

  /**
   * The cash left in the deal from the inputs alone: with a bridge LTV
   * between 0 and 1 the bridge never exceeds price plus rehab, so the
   * investor's share is not clamped and the cash left is that share plus
   * the purchase closing costs, less the refinance loan net of its closing
   * costs, its points and the bridge payoff.
   */
  lemma CashLeftInDealFromInputs(inputs: BrrrrInputs, monthlyRate: RateConversion)
    requires inputs.bridgeLtv.Some? && 0.0 <= inputs.bridgeLtv.value <= 1.0
    requires inputs.base.purchasePrice + inputs.base.rehabCost >= 0.0
    ensures var price := inputs.base.purchasePrice;
            var bridge := inputs.bridgeLtv.value * (price + inputs.base.rehabCost);
            var refiLoan := inputs.refiLtv * inputs.base.arv;
            SetupOf(inputs, monthlyRate).cashLeftInDeal
            == price + inputs.base.rehabCost - bridge + RateCost(inputs.base.purchaseClosingCostRate, price)
               - (refiLoan - RateCost(inputs.refiClosingCostRate, refiLoan) - RateCost(inputs.refiPointsRate, refiLoan) - bridge)
  {
    var total := inputs.base.purchasePrice + inputs.base.rehabCost;
    var ltv := inputs.bridgeLtv.value;
    assert BridgePrincipal(inputs) == ltv * total;
    assert total - ltv * total == (1.0 - ltv) * total;
    NonNegativeProduct(1.0 - ltv, total);
  }

  lemma NonNegativeProduct(x: real, y: real)
    requires x >= 0.0 && y >= 0.0
    ensures x * y >= 0.0
  {
  }

  /** Rehab month `i + 1`: no income, taxes and insurance as expenses, bridge interest as debt service. */
  lemma RehabMonthCashFlow(inputs: BrrrrInputs, s: Setup, schedule: seq<AmortizationRow>, count: nat, i: nat)
    requires i < count && i < inputs.rehabMonths
    ensures var row := Months(inputs, s, schedule, count)[i];
            && row.month == i + 1 && row.phase == Rehab
            && row.rent == 0.0 && row.grossIncome == 0.0 && row.vacancy == 0.0
            && row.operatingExpenses == row.taxes + row.insurance
            && row.noi == -row.operatingExpenses
            && row.debtService == BridgeInterestPerMonth(s)
            && row.cashFlow == -row.operatingExpenses - row.debtService
            && row.rehabSpend == Some(if i == 0 then inputs.base.rehabCost else 0.0)
  {
    MonthAt(inputs, s, schedule, count, i);
  }

  /** Through the rehab the whole bridge principal is outstanding; the value compounds from the starting value. */
  lemma RehabMonthBalance(inputs: BrrrrInputs, s: Setup, schedule: seq<AmortizationRow>, count: nat, i: nat)
    requires i < count && i < inputs.rehabMonths
    ensures var row := Months(inputs, s, schedule, count)[i];
            && row.loanBalance == s.bridgePrincipal
            && row.equity + s.bridgePrincipal == row.propertyValue
            && row.propertyValue == Growth.PropertyValueForMonth(s.startingValue, s.monthlyAppreciation, i + 1)
            && row.taxes == MonthlyTax(inputs.base.propertyTaxRate, row.propertyValue)
            && row.insurance == Or0(inputs.base.insurancePerMonth)
  {
    MonthAt(inputs, s, schedule, count, i);
  }

  /** Stabilized month `j + 1` is timeline month `rehabMonths + j + 1`, and its rent escalates by that timeline month. */
  lemma StabilizedMonthTimeline(inputs: BrrrrInputs, s: Setup, schedule: seq<AmortizationRow>, count: nat, j: nat)
    requires inputs.rehabMonths + j < count
    ensures var row := Months(inputs, s, schedule, count)[inputs.rehabMonths + j];
            && row.month == inputs.rehabMonths + j + 1 && row.phase == Stabilized && row.rehabSpend.None?
            && row.rent == Growth.RentForMonth(inputs.rent.monthlyRent, s.monthlyRentIncrease, inputs.rehabMonths + j + 1)
            && row.grossIncome == row.rent
            && row.propertyValue == Growth.PropertyValueForMonth(inputs.base.arv, s.monthlyAppreciation, j + 1)
  {
    MonthAt(inputs, s, schedule, count, inputs.rehabMonths + j);
  }

  /** A stabilized month pays schedule row `j` and carries its balance; cash flow is rent less expenses less debt service. */
  lemma StabilizedMonthCashFlow(inputs: BrrrrInputs, s: Setup, schedule: seq<AmortizationRow>, count: nat, j: nat)
    requires inputs.rehabMonths + j < count
    ensures var row := Months(inputs, s, schedule, count)[inputs.rehabMonths + j];
            && row.debtService == PaymentAt(schedule, j)
            && row.loanBalance == BalanceAt(schedule, j)
            && row.equity + row.loanBalance == row.propertyValue
            && row.noi == row.rent - row.operatingExpenses
            && row.cashFlow == row.rent - row.operatingExpenses - row.debtService
            && row.operatingExpenses == RentalOperatingExpenses(inputs.rent, row.rent, row.taxes, row.insurance)
            && row.taxes == MonthlyTax(inputs.base.propertyTaxRate, row.propertyValue)
  {
    MonthAt(inputs, s, schedule, count, inputs.rehabMonths + j);
  }

  /** Every month of the long-term loan pays the same amortizing payment, and no balance goes negative. */
  lemma LoanMonths(inputs: BrrrrInputs, monthlyRate: RateConversion, j: nat)
    requires Computable(inputs, monthlyRate) && j < Nat(inputs.longTermLoan.loanTermMonths)
    ensures var s := SetupOf(inputs, monthlyRate);
            var row := Months(inputs, s, LoanSchedule(inputs, monthlyRate), LedgerLength(inputs))[inputs.rehabMonths + j];
            && row.debtService == PaymentAmount(LoanParams(inputs, s))
            && row.loanBalance >= 0.0
  {
    var s := SetupOf(inputs, monthlyRate);
    var p := LoanParams(inputs, s);
    StabilizedMonthCashFlow(inputs, s, Schedule(p), LedgerLength(inputs), j);
    ScheduleShape(p);
    BalancesNonNegative(p);
  }

  /** The cumulative cash flow starts at minus the cash invested before the refinance and adds each month's cash flow. */
  lemma LedgerRunningSum(inputs: BrrrrInputs, s: Setup, schedule: seq<AmortizationRow>, count: nat)
    ensures RunningSum(Months(inputs, s, schedule, count), -s.cashInvestedBeforeRefi)
  {
    var rows := Months(inputs, s, schedule, count);
    forall i | 0 <= i < |rows|
      ensures rows[i].cumulativeCashFlow == LastCumulative(rows[..i], -s.cashInvestedBeforeRefi) + rows[i].cashFlow
    {
      MonthAt(inputs, s, schedule, count, i);
    }
  }

  /** Each month's cumulative cash flow is the cash flows so far less the cash invested before the refinance. */
  lemma CumulativeIsRunningTotal(inputs: BrrrrInputs, s: Setup, schedule: seq<AmortizationRow>, count: nat, i: nat)
    requires i < count
    ensures var rows := Months(inputs, s, schedule, count);
            rows[i].cumulativeCashFlow == -s.cashInvestedBeforeRefi + Sum(rows[..i + 1], CashFlowColumn)
  {
    LedgerRunningSum(inputs, s, schedule, count);
    RunningSumPrefix(Months(inputs, s, schedule, count), -s.cashInvestedBeforeRefi, i);
  }

  /**
   * With a non-negative loan term the rollup covers the whole ledger: the
   * annual cash flows add up to the ledger's, which is the last cumulative
   * cash flow plus the cash invested before the refinance.
   */
  lemma AnnualCashFlowsAddUp(inputs: BrrrrInputs, s: Setup, schedule: seq<AmortizationRow>)
    requires inputs.longTermLoan.loanTermMonths >= 0 && LedgerLength(inputs) > 0
    ensures var monthly := Months(inputs, s, schedule, LedgerLength(inputs));
            var annual := Years(inputs, s, schedule, monthly, YearCount(TimelineMonths(inputs)));
            && AnnualCashFlowSum(annual) == Sum(monthly, CashFlowColumn)
            && AnnualCashFlowSum(annual) == monthly[|monthly| - 1].cumulativeCashFlow + s.cashInvestedBeforeRefi
  {
    var monthly := Months(inputs, s, schedule, LedgerLength(inputs));
    var annual := Years(inputs, s, schedule, monthly, YearCount(TimelineMonths(inputs)));
    forall k | 0 <= k < |annual|
      ensures 12 * k < |monthly| && annual[k].cashFlow == Sum(YearSlice(monthly, k), CashFlowColumn)
    {
      YearAt(inputs, s, schedule, monthly, YearCount(TimelineMonths(inputs)), k);
    }
    AnnualCashFlowsCover(monthly, annual);
    LedgerRunningSum(inputs, s, schedule, LedgerLength(inputs));
    RunningSumTotal(monthly, -s.cashInvestedBeforeRefi);
  }

  lemma {:induction false} PhaseInterestAppend(bridge: real, schedule: seq<AmortizationRow>, r: nat, from: nat, a: nat, b: nat)
    ensures PhaseInterest(bridge, schedule, r, from, a + b)
            == PhaseInterest(bridge, schedule, r, from, a) + PhaseInterest(bridge, schedule, r, from + a, b)
    decreases b
  {
    if b > 0 {
      PhaseInterestAppend(bridge, schedule, r, from, a, b - 1);
      assert from + (a + b) - 1 == (from + a) + b - 1;
    }
  }

  /** Inside the rehab window every month books the same bridge interest. */
  lemma {:induction false} RehabWindowInterest(bridge: real, schedule: seq<AmortizationRow>, r: nat, from: nat, count: nat)
    requires from + count <= r
    ensures PhaseInterest(bridge, schedule, r, from, count) == OverMonths(count, bridge)
    decreases count
  {
    if count > 0 {
      RehabWindowInterest(bridge, schedule, r, from, count - 1);
    }
  }

  /** After the rehab window the interest is the long-term schedule's, shifted by the rehab months. */
  lemma {:induction false} LoanWindowInterest(bridge: real, schedule: seq<AmortizationRow>, r: nat, from: nat, count: nat)
    requires r <= from
    ensures PhaseInterest(bridge, schedule, r, from, count) == ScheduleInterest(schedule, from - r, count)
    decreases count
  {
    if count > 0 {
      LoanWindowInterest(bridge, schedule, r, from, count - 1);
      assert (from + count - 1) - r == (from - r) + count - 1;
    }
  }

  /**
   * Interest over the first `count` timeline months splits by phase: bridge
   * interest for the rehab months, then the schedule's interest for the rest.
   */
  lemma InterestSplitsByPhase(bridge: real, schedule: seq<AmortizationRow>, r: nat, count: nat)
    requires r <= count
    ensures PhaseInterest(bridge, schedule, r, 0, count)
            == OverMonths(r, bridge) + ScheduleInterest(schedule, 0, count - r)
  {
    PhaseInterestAppend(bridge, schedule, r, 0, r, count - r);
    RehabWindowInterest(bridge, schedule, r, 0, r);
    LoanWindowInterest(bridge, schedule, r, r, count - r);
  }

  /** Year `k + 1` books the phase interest of the timeline months its slice covers. */
  lemma YearInterest(inputs: BrrrrInputs, s: Setup, schedule: seq<AmortizationRow>, monthly: seq<MonthlyResult>, y: nat, k: nat)
    requires y <= YearCount(|monthly|) && k < y
    ensures 12 * k < |monthly|
    ensures Years(inputs, s, schedule, monthly, y)[k].interestPaid
            == PhaseInterest(BridgeInterestPerMonth(s), schedule, inputs.rehabMonths, 12 * k, |YearSlice(monthly, k)|)
  {
    YearAt(inputs, s, schedule, monthly, y, k);
  }

  /** The number of ledger months in the first `y` years of an `n`-month ledger. */
  function MonthsThroughYear(n: nat, y: nat): nat {
    if 12 * y <= n then 12 * y else n
  }

  /** The interest of the first `y` year slices, year by year. */
  function YearsInterest(bridge: real, schedule: seq<AmortizationRow>, r: nat, monthly: seq<MonthlyResult>, y: nat): real
    requires y <= YearCount(|monthly|)
  {
    if y == 0 then 0.0
    else YearsInterest(bridge, schedule, r, monthly, y - 1)
         + PhaseInterest(bridge, schedule, r, 12 * (y - 1), |YearSlice(monthly, y - 1)|)
  }

  /** The year slices partition the timeline, so their interest is the interest of the months they cover. */
  lemma {:induction false} YearsInterestPrefix(bridge: real, schedule: seq<AmortizationRow>, r: nat, monthly: seq<MonthlyResult>, y: nat)
    requires y <= YearCount(|monthly|)
    ensures YearsInterest(bridge, schedule, r, monthly, y) == PhaseInterest(bridge, schedule, r, 0, MonthsThroughYear(|monthly|, y))
  {
    if y > 0 {
      YearsInterestPrefix(bridge, schedule, r, monthly, y - 1);
      YearsInterestStep(bridge, schedule, r, monthly, y);
    }
  }

  /** One more year slice adds the interest of the months it covers. */
  lemma YearsInterestStep(bridge: real, schedule: seq<AmortizationRow>, r: nat, monthly: seq<MonthlyResult>, y: nat)
    requires 0 < y <= YearCount(|monthly|)
    requires YearsInterest(bridge, schedule, r, monthly, y - 1) == PhaseInterest(bridge, schedule, r, 0, MonthsThroughYear(|monthly|, y - 1))
    ensures YearsInterest(bridge, schedule, r, monthly, y) == PhaseInterest(bridge, schedule, r, 0, MonthsThroughYear(|monthly|, y))
  {
    var start := 12 * (y - 1);
    var len := |YearSlice(monthly, y - 1)|;
    assert MonthsThroughYear(|monthly|, y - 1) == start;
    assert start + len == MonthsThroughYear(|monthly|, y);
    PhaseInterestAppend(bridge, schedule, r, 0, start, len);
  }

  /** Annual rows that each carry their slice's interest add up, year by year, to the slices' interest. */
  lemma {:induction false} InterestOverYears(bridge: real, schedule: seq<AmortizationRow>, r: nat,
                                             monthly: seq<MonthlyResult>, annual: seq<AnnualSummary>, y: nat)
    requires y <= |annual| <= YearCount(|monthly|)
    requires forall k :: 0 <= k < |annual| ==>
               12 * k < |monthly| && annual[k].interestPaid == PhaseInterest(bridge, schedule, r, 12 * k, |YearSlice(monthly, k)|)
    ensures AnnualInterestSum(annual[..y]) == YearsInterest(bridge, schedule, r, monthly, y)
  {
    if y > 0 {
      InterestOverYears(bridge, schedule, r, monthly, annual, y - 1);
      assert annual[..y][..y - 1] == annual[..y - 1];
      assert annual[..y][y - 1] == annual[y - 1];
    }
  }

  /** Annual rows that each carry their slice's interest add up to the bridge interest of the rehab months plus the schedule's. */
  lemma InterestOverLedger(bridge: real, schedule: seq<AmortizationRow>, r: nat, monthly: seq<MonthlyResult>, annual: seq<AnnualSummary>)
    requires r <= |monthly| && |annual| == YearCount(|monthly|)
    requires forall k :: 0 <= k < |annual| ==>
               12 * k < |monthly| && annual[k].interestPaid == PhaseInterest(bridge, schedule, r, 12 * k, |YearSlice(monthly, k)|)
    ensures AnnualInterestSum(annual) == OverMonths(r, bridge) + ScheduleInterest(schedule, 0, |monthly| - r)
  {
    InterestOverYears(bridge, schedule, r, monthly, annual, |annual|);
    assert annual[..|annual|] == annual;
    YearsInterestPrefix(bridge, schedule, r, monthly, |annual|);
    assert MonthsThroughYear(|monthly|, |annual|) == |monthly|;
    InterestSplitsByPhase(bridge, schedule, r, |monthly|);
  }

  /** Every year the rollup builds books its slice's interest. */
  lemma YearsCarryInterest(inputs: BrrrrInputs, s: Setup, schedule: seq<AmortizationRow>, monthly: seq<MonthlyResult>)
    ensures var annual := Years(inputs, s, schedule, monthly, YearCount(|monthly|));
            forall k :: 0 <= k < |annual| ==>
              12 * k < |monthly|
              && annual[k].interestPaid == PhaseInterest(BridgeInterestPerMonth(s), schedule, inputs.rehabMonths, 12 * k, |YearSlice(monthly, k)|)
  {
    var annual := Years(inputs, s, schedule, monthly, YearCount(|monthly|));
    forall k | 0 <= k < |annual|
      ensures 12 * k < |monthly|
              && annual[k].interestPaid == PhaseInterest(BridgeInterestPerMonth(s), schedule, inputs.rehabMonths, 12 * k, |YearSlice(monthly, k)|)
    {
      YearInterest(inputs, s, schedule, monthly, YearCount(|monthly|), k);
    }
  }

  /**
   * With a non-negative loan term the annual interest adds up to the bridge
   * interest of the rehab months plus the whole long-term schedule's interest
   * (for the ledger `Brrrr` builds, or any other of its length).
   */
  lemma AnnualInterestAddsUp(inputs: BrrrrInputs, s: Setup, schedule: seq<AmortizationRow>, monthly: seq<MonthlyResult>)
    requires inputs.longTermLoan.loanTermMonths >= 0 && |monthly| == LedgerLength(inputs)
    ensures YearCount(TimelineMonths(inputs)) == YearCount(|monthly|)
    ensures AnnualInterestSum(Years(inputs, s, schedule, monthly, YearCount(|monthly|)))
            == OverMonths(inputs.rehabMonths, BridgeInterestPerMonth(s))
               + ScheduleInterest(schedule, 0, inputs.longTermLoan.loanTermMonths)
  {
    YearsCarryInterest(inputs, s, schedule, monthly);
    InterestOverLedger(BridgeInterestPerMonth(s), schedule, inputs.rehabMonths, monthly,
                       Years(inputs, s, schedule, monthly, YearCount(|monthly|)));
  }

  /**
   * The interest of `count` timeline months from `from`, by where they fall:
   * all in the rehab window, all after it, or straddling the refinance.
   */
  lemma InterestByPhase(bridge: real, schedule: seq<AmortizationRow>, r: nat, from: nat, count: nat, paid: real)
    requires paid == PhaseInterest(bridge, schedule, r, from, count)
    ensures from + count <= r ==> paid == OverMonths(count, bridge)
    ensures r <= from ==> paid == ScheduleInterest(schedule, from - r, count)
    ensures from < r < from + count ==> paid == OverMonths(r - from, bridge) + ScheduleInterest(schedule, 0, from + count - r)
  {
    if from + count <= r {
      RehabWindowInterest(bridge, schedule, r, from, count);
    } else if r <= from {
      LoanWindowInterest(bridge, schedule, r, from, count);
    } else {
      PhaseInterestAppend(bridge, schedule, r, from, r - from, from + count - r);
      RehabWindowInterest(bridge, schedule, r, from, r - from);
      LoanWindowInterest(bridge, schedule, r, r, from + count - r);
    }
  }

  /**
   * Each year books bridge interest for its months in the rehab window and
   * the long-term schedule's interest for its months after the refinance; a
   * year that straddles the refinance books both.
   */
  lemma YearInterestByPhase(inputs: BrrrrInputs, s: Setup, schedule: seq<AmortizationRow>, monthly: seq<MonthlyResult>, k: nat)
    requires k < YearCount(|monthly|)
    ensures 12 * k < |monthly|
    ensures var a := Years(inputs, s, schedule, monthly, YearCount(|monthly|))[k];
            var len := |YearSlice(monthly, k)|;
            var r := inputs.rehabMonths;
            && (12 * k + len <= r ==> a.interestPaid == OverMonths(len, BridgeInterestPerMonth(s)))
            && (r <= 12 * k ==> a.interestPaid == ScheduleInterest(schedule, 12 * k - r, len))
            && (12 * k < r < 12 * k + len ==>
                  a.interestPaid == OverMonths(r - 12 * k, BridgeInterestPerMonth(s)) + ScheduleInterest(schedule, 0, 12 * k + len - r))
  {
    YearInterest(inputs, s, schedule, monthly, YearCount(|monthly|), k);
    InterestByPhase(BridgeInterestPerMonth(s), schedule, inputs.rehabMonths, 12 * k, |YearSlice(monthly, k)|,
                    Years(inputs, s, schedule, monthly, YearCount(|monthly|))[k].interestPaid);
  }

  /** The bridge-interest metric is the interest the rollup books over the rehab months. */
  lemma BridgeInterestMetric(inputs: BrrrrInputs, s: Setup, schedule: seq<AmortizationRow>, annual: seq<AnnualSummary>)
    ensures MetricsOf(inputs, s, annual).bridgeInterest == PhaseInterest(BridgeInterestPerMonth(s), schedule, inputs.rehabMonths, 0, inputs.rehabMonths)
  {
    RehabWindowInterest(BridgeInterestPerMonth(s), schedule, inputs.rehabMonths, 0, inputs.rehabMonths);
    ProductRegroups(inputs.rehabMonths as real, s.bridgeRateMonthly, s.bridgePrincipal);
  }

  lemma ProductRegroups(a: real, b: real, c: real)
    ensures a * b * c == a * (c * b)
  {
  }

  /**
   * Every year the rollup builds over a ledger of that many months:
   * its return is its cash flow plus the equity gained over the
   * starting value less the bridge, against the cash required.
   */
  lemma YearReturn(inputs: BrrrrInputs, s: Setup, schedule: seq<AmortizationRow>, monthly: seq<MonthlyResult>, k: nat)
    requires k < YearCount(|monthly|)
    ensures var a := Years(inputs, s, schedule, monthly, YearCount(|monthly|))[k];
            && a.year == k + 1
            && a.totalReturn == a.cashFlow + a.equity - (s.startingValue - s.bridgePrincipal)
            && a.cashInvested == s.cashRequired
            && a.annualReturnOnInvestedCash == SafeRatio(a.totalReturn, s.cashRequired)
  {
    YearAt(inputs, s, schedule, monthly, YearCount(|monthly|), k);
    RollupReturn(monthly, k, s.startingValue - s.bridgePrincipal, s.cashRequired,
                 PhaseInterest(BridgeInterestPerMonth(s), schedule, inputs.rehabMonths, 12 * k, |YearSlice(monthly, k)|));
  }

  /** Cash-on-cash return is year one's cash flow over the cash required; the refinance figures pass through. */
  lemma ReturnMetrics(inputs: BrrrrInputs, s: Setup, annual: seq<AnnualSummary>)
    ensures var m := MetricsOf(inputs, s, annual);
            && (m.cashRequired > 0.0 ==> m.cashOnCashReturn * m.cashRequired == m.yearOneCashFlow)
            && (m.cashRequired <= 0.0 ==> m.cashOnCashReturn == 0.0)
            && m.cashLeftInDeal == s.cashLeftInDeal && m.refiProceeds == s.refiLoanAmount
    ensures var m := MetricsOf(inputs, s, annual);
            |annual| > 0 ==> && m.yearOneCashFlow == annual[0].cashFlow
                             && m.dscr == annual[0].dscr.GetOr(0.0)
                             && m.totalReturn == annual[|annual| - 1].totalReturn
    ensures var m := MetricsOf(inputs, s, annual);
            annual == [] ==> m.yearOneCashFlow == 0.0 && m.dscr == 0.0 && m.totalReturn == 0.0
  {
  }
}
