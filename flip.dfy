/**
 * The fix-and-flip projection: an interest-only bridge loan carried through
 * the rehab and marketing months, then a sale that pays it off. The ledger
 * has one row per hold month and a final row for the sale.
 */
module FlipCalculator {
  import opened Optional
  import opened Finance
  import opened Types
  import opened Ledger
  import Growth

  /** The quantities `calculateFlip` fixes before its month loop. */
  datatype Setup = Setup(
    monthlyAppreciation: real,
    bridgeRateMonthly: real,
    holdMonths: nat,
    salePrice: real,
    startingValue: real,
    bridgePrincipal: real,
    purchaseClosingCosts: real,
    downPayment: real,
    cashInvestedAtPurchase: real,
    interestTotal: real,
    taxesTotal: real,
    insuranceTotal: real,
    agentFees: real,
    sellerClosingCosts: real,
    saleProceedsAfterCosts: real,
    netAfterPayoff: real,
    totalCashRequired: real,
    profitBeforeTax: real,
    profitAfterTax: real,
    roi: real)

  /** The bridge loan: `(bridgeLtv ?? 1) * (price + rehab)`. */
  function BridgePrincipal(inputs: FlipInputs): real {
    inputs.bridgeLtv.GetOr(1.0) * (inputs.base.purchasePrice + inputs.base.rehabCost)
  }

  /** A cost proportional to the sale price: `salePrice * (rate ?? 0)`. */
  function SaleCost(salePrice: real, rate: Option<real>): real {
    salePrice * Or0(rate)
  }

  /** The property tax of the first `count` hold months, folded month by month over the appreciating value. */
  function HoldTaxes(taxRate: Option<real>, startValue: real, monthlyAppreciation: real, count: nat): real {
    if count == 0 then 0.0
    else HoldTaxes(taxRate, startValue, monthlyAppreciation, count - 1)
         + MonthlyTax(taxRate, Growth.PropertyValueForMonth(startValue, monthlyAppreciation, count))
  }

  /** Income tax applies to a positive profit only: `profit > 0 ? profit * (1 - (rate ?? 0)) : profit`. */
  function ProfitAfterTax(profit: real, marginalTaxRate: Option<real>): (r: real)
    ensures profit <= 0.0 ==> r == profit
    ensures profit > 0.0 ==> r == profit * (1.0 - Or0(marginalTaxRate))
    ensures profit > 0.0 && 0.0 <= Or0(marginalTaxRate) <= 1.0 ==> 0.0 <= r <= profit
    ensures profit > 0.0 && Or0(marginalTaxRate) == 0.0 ==> r == profit
  {
    if profit > 0.0 then profit * (1.0 - Or0(marginalTaxRate)) else profit
  }

  /** Closing costs at purchase: the closing-cost rate (0 when missing) times the price. */
  function PurchaseClosingCosts(rate: Option<real>, price: real): real {
    Or0(rate) * price
  }

  /** Interest over the hold: months times the monthly rate times the bridge principal. */
  function HoldInterestTotal(holdMonths: nat, rateMonthly: real, principal: real): real {
    (holdMonths as real) * rateMonthly * principal
  }

  function SetupOf(inputs: FlipInputs, monthlyRate: RateConversion): Setup {
    var appreciation := monthlyRate(Or0(inputs.base.annualAppreciationRate));
    var bridgeRate := monthlyRate(Or0(inputs.bridgeInterestRateAnnual));
    var hold := inputs.rehabMonths + inputs.monthsOnMarket;
    var salePrice := inputs.salePrice.GetOr(inputs.base.arv);
    var startingValue := inputs.asIsValue.GetOr(inputs.base.purchasePrice);
    var bridgePrincipal := BridgePrincipal(inputs);
    var purchaseClosing := PurchaseClosingCosts(inputs.base.purchaseClosingCostRate, inputs.base.purchasePrice);
    var down := Max0(inputs.base.purchasePrice + inputs.base.rehabCost - bridgePrincipal);
    var cashInvested := down + purchaseClosing;
    var interestTotal := HoldInterestTotal(hold, bridgeRate, bridgePrincipal);
    var taxesTotal := HoldTaxes(inputs.base.propertyTaxRate, startingValue, appreciation, hold);
    var insuranceTotal := OverMonths(hold, Or0(inputs.base.insurancePerMonth));
    var agentFees := SaleCost(salePrice, inputs.agentFeeRate);
    var sellerClosing := SaleCost(salePrice, inputs.sellerClosingCostRate);
    var proceeds := salePrice - agentFees - sellerClosing;
    var net := proceeds - bridgePrincipal;
    var totalCash := cashInvested + interestTotal + taxesTotal + insuranceTotal;
    var profit := net - totalCash;
    Setup(appreciation, bridgeRate, hold, salePrice, startingValue, bridgePrincipal, purchaseClosing, down,
          cashInvested, interestTotal, taxesTotal, insuranceTotal, agentFees, sellerClosing, proceeds, net,
          totalCash, profit, ProfitAfterTax(profit, inputs.marginalTaxRate), SafeRatio(profit, totalCash))
  }

  /** A month's interest on the interest-only bridge. */
  function BridgeInterestPerMonth(s: Setup): real {
    s.bridgePrincipal * s.bridgeRateMonthly
  }

  /** Hold month `i + 1`: taxes, insurance and bridge interest, no income; a rehab month inside the rehab window, a marketing month after it. */
  function HoldRow(inputs: FlipInputs, s: Setup, i: nat, previous: real): MonthlyResult {
    var m := i + 1;
    var value := Growth.PropertyValueForMonth(s.startingValue, s.monthlyAppreciation, m);
    var taxes := MonthlyTax(inputs.base.propertyTaxRate, value);
    var insurance := Or0(inputs.base.insurancePerMonth);
    var interest := BridgeInterestPerMonth(s);
    var expenses := taxes + insurance;
    var cashFlow := -expenses - interest;
    MonthlyResult(m, 0.0, 0.0, 0.0, expenses, -expenses, interest, cashFlow, previous + cashFlow, value,
                  value - s.bridgePrincipal, s.bridgePrincipal, taxes, insurance,
                  Some(if m == 1 then inputs.base.rehabCost else 0.0),
                  if m <= inputs.rehabMonths then Rehab else Marketing)
  }

  /** The sale, booked as the month after the hold: the price comes in, the selling costs and the bridge payoff go out. */
  function SaleRow(s: Setup, previous: real): MonthlyResult {
    MonthlyResult(s.holdMonths + 1, 0.0, s.salePrice, 0.0, s.agentFees + s.sellerClosingCosts,
                  s.salePrice - s.agentFees - s.sellerClosingCosts, s.bridgePrincipal, s.netAfterPayoff,
                  previous + s.netAfterPayoff, s.salePrice, s.salePrice - s.bridgePrincipal, 0.0, 0.0, 0.0,
                  Some(0.0), Marketing)
  }

  /** The cumulative cash flow starts at minus the cash invested at purchase. */
  function Seed(s: Setup): real {
    -s.cashInvestedAtPurchase
  }

  /** The first `count` hold months, each after the one before it. */
  function Months(inputs: FlipInputs, s: Setup, count: nat): (rows: seq<MonthlyResult>)
    ensures |rows| == count
  {
    if count == 0 then []
    else
      var before := Months(inputs, s, count - 1);
      before + [HoldRow(inputs, s, count - 1, LastCumulative(before, Seed(s)))]
  }

  /** The hold months followed by the sale month. */
  function MonthlyLedger(inputs: FlipInputs, s: Setup): (rows: seq<MonthlyResult>)
    ensures |rows| == s.holdMonths + 1
  {
    var hold := Months(inputs, s, s.holdMonths);
    hold + [SaleRow(s, LastCumulative(hold, Seed(s)))]
  }

  function MetricsOf(s: Setup): FlipMetrics {
    FlipMetrics(s.totalCashRequired, s.profitBeforeTax, s.profitAfterTax, s.roi, s.holdMonths)
  }

  /** What `calculateFlip` returns. */
  function Flip(inputs: FlipInputs, monthlyRate: RateConversion): FlipResult {
    var s := SetupOf(inputs, monthlyRate);
    FlipResult(MonthlyLedger(inputs, s), MetricsOf(s))
  }

  method CalculateFlip(inputs: FlipInputs, monthlyRate: RateConversion) returns (result: FlipResult)
    ensures result == Flip(inputs, monthlyRate)
  {
    var s := SetupOf(inputs, monthlyRate);
    var monthly, cumulativeCashFlow := BuildHoldMonths(inputs, s);
    monthly := monthly + [SaleRow(s, cumulativeCashFlow)];
    result := FlipResult(monthly, MetricsOf(s));
  }

  /** The hold loop: months 1 .. holdMonths, from minus the cash invested at purchase. */
  method BuildHoldMonths(inputs: FlipInputs, s: Setup) returns (monthly: seq<MonthlyResult>, cumulativeCashFlow: real)
    ensures monthly == Months(inputs, s, s.holdMonths)
    ensures cumulativeCashFlow == LastCumulative(monthly, Seed(s))
  {
    monthly := [];
    cumulativeCashFlow := -s.cashInvestedAtPurchase;
    var m := 1;
    while m <= s.holdMonths
      invariant 1 <= m <= s.holdMonths + 1
      invariant monthly == Months(inputs, s, m - 1)
      invariant cumulativeCashFlow == LastCumulative(monthly, Seed(s))
    {
      var row := HoldRow(inputs, s, m - 1, cumulativeCashFlow);
      cumulativeCashFlow := row.cumulativeCashFlow;
      monthly := monthly + [row];
      m := m + 1;
    }
  }

  /** Row `i` of the hold is month `i + 1` computed after the rows before it. */
  lemma {:induction false} MonthAt(inputs: FlipInputs, s: Setup, count: nat, i: nat)
    requires i < count
    ensures Months(inputs, s, count)[i] == HoldRow(inputs, s, i, LastCumulative(Months(inputs, s, count)[..i], Seed(s)))
    decreases count
  {
    var before := Months(inputs, s, count - 1);
    assert Months(inputs, s, count) == before + [HoldRow(inputs, s, count - 1, LastCumulative(before, Seed(s)))];
    if i < count - 1 {
      MonthAt(inputs, s, count - 1, i);
      assert Months(inputs, s, count)[..i] == before[..i];
    } else {
      assert Months(inputs, s, count)[..i] == before;
    }
  }

  /*
   * The lemmas are stated over the pieces `Flip` assembles, for any setup;
   * the result of `CalculateFlip` is their instance at `SetupOf`.
   */

  /** Hold month `i + 1`: no income, taxes and insurance as expenses, bridge interest as debt service, the whole bridge outstanding. */
  lemma HoldMonth(inputs: FlipInputs, s: Setup, count: nat, i: nat)
    requires i < count
    ensures var row := Months(inputs, s, count)[i];
            && row.month == i + 1
            && (row.phase == Rehab <==> i < inputs.rehabMonths)
            && (row.phase == Marketing <==> i >= inputs.rehabMonths)
            && row.rent == 0.0 && row.grossIncome == 0.0 && row.vacancy == 0.0
            && row.operatingExpenses == row.taxes + row.insurance
            && row.noi == -row.operatingExpenses
            && row.debtService == BridgeInterestPerMonth(s)
            && row.cashFlow == -row.taxes - row.insurance - row.debtService
            && row.loanBalance == s.bridgePrincipal
            && row.equity + s.bridgePrincipal == row.propertyValue
            && row.rehabSpend == Some(if i == 0 then inputs.base.rehabCost else 0.0)
  {
    MonthAt(inputs, s, count, i);
  }

  /** The value compounds monthly from the starting value; the taxes are a twelfth of the annual rate on it. */
  lemma HoldMonthValue(inputs: FlipInputs, s: Setup, count: nat, i: nat)
    requires i < count
    ensures var row := Months(inputs, s, count)[i];
            && row.propertyValue == Growth.PropertyValueForMonth(s.startingValue, s.monthlyAppreciation, i + 1)
            && row.taxes == MonthlyTax(inputs.base.propertyTaxRate, row.propertyValue)
            && row.insurance == Or0(inputs.base.insurancePerMonth)
  {
    MonthAt(inputs, s, count, i);
  }

  /** The sale month follows the hold; its cash flow is the sale proceeds after costs less the bridge payoff, and it leaves no debt. */
  lemma SaleMonth(inputs: FlipInputs, s: Setup)
    ensures var rows := MonthlyLedger(inputs, s);
            var sale := rows[|rows| - 1];
            && sale.month == s.holdMonths + 1
            && sale.grossIncome == s.salePrice
            && sale.operatingExpenses == s.agentFees + s.sellerClosingCosts
            && sale.debtService == s.bridgePrincipal
            && sale.cashFlow == s.netAfterPayoff
            && sale.cumulativeCashFlow == LastCumulative(Months(inputs, s, s.holdMonths), Seed(s)) + s.netAfterPayoff
            && sale.loanBalance == 0.0 && sale.propertyValue == s.salePrice
            && sale.equity == s.salePrice - s.bridgePrincipal
            && sale.phase == Marketing
  {
  }

  /** The ledger's first rows are the hold months. */
  lemma LedgerStartsWithHold(inputs: FlipInputs, s: Setup, i: nat)
    requires i < s.holdMonths
    ensures MonthlyLedger(inputs, s)[i] == Months(inputs, s, s.holdMonths)[i]
  {
  }

  /** The property tax the hold months book adds up to the fold over the hold. */
  lemma {:induction false} HoldTaxesMatchLedger(inputs: FlipInputs, s: Setup, count: nat)
    ensures Sum(Months(inputs, s, count), TaxColumn)
            == HoldTaxes(inputs.base.propertyTaxRate, s.startingValue, s.monthlyAppreciation, count)
  {
    if count > 0 {
      var rows := Months(inputs, s, count);
      HoldTaxesMatchLedger(inputs, s, count - 1);
      assert rows[..count - 1] == Months(inputs, s, count - 1);
      HoldMonthValue(inputs, s, count, count - 1);
    }
  }

  /** Every hold month books the same insurance. */
  lemma {:induction false} HoldInsurance(inputs: FlipInputs, s: Setup, count: nat)
    ensures Sum(Months(inputs, s, count), InsuranceColumn) == OverMonths(count, Or0(inputs.base.insurancePerMonth))
  {
    if count > 0 {
      var rows := Months(inputs, s, count);
      HoldInsurance(inputs, s, count - 1);
      assert rows[..count - 1] == Months(inputs, s, count - 1);
      HoldMonthValue(inputs, s, count, count - 1);
      OverMonthsStep(count - 1, Or0(inputs.base.insurancePerMonth));
    }
  }

  /** Every hold month books the same bridge interest. */
  lemma {:induction false} HoldInterest(inputs: FlipInputs, s: Setup, count: nat)
    ensures Sum(Months(inputs, s, count), DebtServiceColumn) == OverMonths(count, BridgeInterestPerMonth(s))
  {
    if count > 0 {
      var rows := Months(inputs, s, count);
      HoldInterest(inputs, s, count - 1);
      assert rows[..count - 1] == Months(inputs, s, count - 1);
      HoldMonth(inputs, s, count, count - 1);
      OverMonthsStep(count - 1, BridgeInterestPerMonth(s));
    }
  }

  /** The hold months' cash flows are minus their taxes, insurance and interest. */
  lemma {:induction false} HoldCashFlows(inputs: FlipInputs, s: Setup, count: nat)
    ensures Sum(Months(inputs, s, count), CashFlowColumn)
            == -(Sum(Months(inputs, s, count), TaxColumn) + Sum(Months(inputs, s, count), InsuranceColumn)
                 + Sum(Months(inputs, s, count), DebtServiceColumn))
  {
    if count > 0 {
      var rows := Months(inputs, s, count);
      HoldCashFlows(inputs, s, count - 1);
      assert rows[..count - 1] == Months(inputs, s, count - 1);
      HoldMonth(inputs, s, count, count - 1);
    }
  }

  /** The totals `calculateFlip` charges are what the hold months of its ledger book. */
  lemma HoldTotalsMatchLedger(inputs: FlipInputs, monthlyRate: RateConversion)
    ensures var s := SetupOf(inputs, monthlyRate);
            var hold := Months(inputs, s, s.holdMonths);
            && s.taxesTotal == Sum(hold, TaxColumn)
            && s.insuranceTotal == Sum(hold, InsuranceColumn)
            && s.interestTotal == Sum(hold, DebtServiceColumn)
  {
    var s := SetupOf(inputs, monthlyRate);
    HoldTaxesMatchLedger(inputs, s, s.holdMonths);
    HoldInsurance(inputs, s, s.holdMonths);
    HoldInterest(inputs, s, s.holdMonths);
    InterestRegroups(s.holdMonths, s.bridgeRateMonthly, s.bridgePrincipal);
  }

  lemma InterestRegroups(n: nat, rate: real, principal: real)
    ensures HoldInterestTotal(n, rate, principal) == OverMonths(n, principal * rate)
  {
  }

  /** The cumulative cash flow starts at minus the cash invested at purchase and adds each month's cash flow. */
  lemma LedgerRunningSum(inputs: FlipInputs, s: Setup)
    ensures RunningSum(MonthlyLedger(inputs, s), Seed(s))
  {
    var hold := Months(inputs, s, s.holdMonths);
    forall i | 0 <= i < |hold|
      ensures hold[i].cumulativeCashFlow == LastCumulative(hold[..i], Seed(s)) + hold[i].cashFlow
    {
      MonthAt(inputs, s, s.holdMonths, i);
    }
    RunningSumAppend(hold, Seed(s), SaleRow(s, LastCumulative(hold, Seed(s))));
  }

  /**
   * The ledger closes on the profit: the last cumulative cash flow, after the
   * sale, is the profit before tax `calculateFlip` reports.
   */
  lemma FinalCumulativeIsProfit(inputs: FlipInputs, monthlyRate: RateConversion)
    ensures var r := Flip(inputs, monthlyRate);
            r.monthly[|r.monthly| - 1].cumulativeCashFlow == r.metrics.profitBeforeTax
  {
    var s := SetupOf(inputs, monthlyRate);
    var hold := Months(inputs, s, s.holdMonths);
    LedgerRunningSum(inputs, s);
    assert RunningSum(hold, Seed(s)) by {
      forall i | 0 <= i < |hold|
        ensures hold[i].cumulativeCashFlow == LastCumulative(hold[..i], Seed(s)) + hold[i].cashFlow
      {
        MonthAt(inputs, s, s.holdMonths, i);
      }
    }
    RunningSumTotal(hold, Seed(s));
    HoldCashFlows(inputs, s, s.holdMonths);
    HoldTotalsMatchLedger(inputs, monthlyRate);
  }

  /** Each cumulative cash flow is the cash flows so far less the cash invested at purchase. */
  lemma CumulativeIsRunningTotal(inputs: FlipInputs, s: Setup, i: nat)
    requires i <= s.holdMonths
    ensures var rows := MonthlyLedger(inputs, s);
            rows[i].cumulativeCashFlow == -s.cashInvestedAtPurchase + Sum(rows[..i + 1], CashFlowColumn)
  {
    LedgerRunningSum(inputs, s);
    RunningSumPrefix(MonthlyLedger(inputs, s), Seed(s), i);
  }

  /**
   * The financing: with a bridge LTV it finances that share of price plus
   * rehab; without one it finances all of it, so the investor brings only
   * the purchase closing costs.
   */
  lemma BridgeFinancing(inputs: FlipInputs, monthlyRate: RateConversion)
    ensures var s := SetupOf(inputs, monthlyRate);
            && s.purchaseClosingCosts == PurchaseClosingCosts(inputs.base.purchaseClosingCostRate, inputs.base.purchasePrice)
            && s.downPayment == Max0(inputs.base.purchasePrice + inputs.base.rehabCost - s.bridgePrincipal)
            && s.cashInvestedAtPurchase == s.downPayment + s.purchaseClosingCosts
            && (inputs.bridgeLtv.Some? ==>
                  s.bridgePrincipal == inputs.bridgeLtv.value * (inputs.base.purchasePrice + inputs.base.rehabCost))
            && (inputs.bridgeLtv.None? ==>
                  s.bridgePrincipal == inputs.base.purchasePrice + inputs.base.rehabCost
                  && s.cashInvestedAtPurchase == s.purchaseClosingCosts)
  {
  }

  /**
   * The sale side: the sale price defaults to the ARV; the profit is what the
   * sale nets after its costs and the bridge payoff, less the cash required.
   */
  lemma SaleSide(inputs: FlipInputs, monthlyRate: RateConversion)
    ensures var s := SetupOf(inputs, monthlyRate);
            && s.salePrice == (if inputs.salePrice.Some? then inputs.salePrice.value else inputs.base.arv)
            && s.agentFees == SaleCost(s.salePrice, inputs.agentFeeRate)
            && s.sellerClosingCosts == SaleCost(s.salePrice, inputs.sellerClosingCostRate)
            && s.saleProceedsAfterCosts == s.salePrice - s.agentFees - s.sellerClosingCosts
            && s.netAfterPayoff == s.saleProceedsAfterCosts - s.bridgePrincipal
            && s.profitBeforeTax == s.netAfterPayoff - s.totalCashRequired
            && s.totalCashRequired == s.cashInvestedAtPurchase + s.interestTotal + s.taxesTotal + s.insuranceTotal
  {
  }

  /**
   * The returns: ROI is the profit before tax over the cash required (0
   * without cash required), and tax only ever reduces a positive profit.
   */
  lemma FlipReturns(inputs: FlipInputs, monthlyRate: RateConversion)
    ensures var m := MetricsOf(SetupOf(inputs, monthlyRate));
            && (m.totalCashRequired > 0.0 ==> m.roi * m.totalCashRequired == m.profitBeforeTax)
            && (m.totalCashRequired <= 0.0 ==> m.roi == 0.0)
            && (m.profitBeforeTax <= 0.0 ==> m.profitAfterTax == m.profitBeforeTax)
            && (m.profitBeforeTax > 0.0 ==>
                  m.profitAfterTax == m.profitBeforeTax * (1.0 - Or0(inputs.marginalTaxRate)))
            && (m.profitBeforeTax > 0.0 && 0.0 <= Or0(inputs.marginalTaxRate) <= 1.0 ==>
                  0.0 <= m.profitAfterTax <= m.profitBeforeTax)
            && m.holdMonths == inputs.rehabMonths + inputs.monthsOnMarket
  {
  }

  /** The cash a flip requires does not depend on how it sells: sale price, selling costs and tax rate leave it unchanged. */
  lemma CashRequiredIgnoresSale(inputs: FlipInputs, monthlyRate: RateConversion,
                                salePrice: Option<real>, agentFeeRate: Option<real>,
                                sellerClosingCostRate: Option<real>, marginalTaxRate: Option<real>)
    ensures var other := inputs.(salePrice := salePrice, agentFeeRate := agentFeeRate,
                                 sellerClosingCostRate := sellerClosingCostRate, marginalTaxRate := marginalTaxRate);
            SetupOf(other, monthlyRate).totalCashRequired == SetupOf(inputs, monthlyRate).totalCashRequired
  {
    var other := inputs.(salePrice := salePrice, agentFeeRate := agentFeeRate,
                         sellerClosingCostRate := sellerClosingCostRate, marginalTaxRate := marginalTaxRate);
    assert other.base == inputs.base && other.rehabMonths == inputs.rehabMonths
        && other.monthsOnMarket == inputs.monthsOnMarket && other.bridgeLtv == inputs.bridgeLtv
        && other.bridgeInterestRateAnnual == inputs.bridgeInterestRateAnnual && other.asIsValue == inputs.asIsValue;
    assert BridgePrincipal(other) == BridgePrincipal(inputs);
  }
}
