/**
 * The records the projection engine consumes and produces. Optional
 * TypeScript fields (`field?: number`) are `Option<real>`; the `strategy`
 * tag of the inputs is the choice of record (see `Analyzer.Strategy`).
 */
module Types {
  import opened Optional

  /** The fields every strategy shares. */
  datatype BaseInputs = BaseInputs(
    purchasePrice: real,
    rehabCost: real,
    arv: real,
    purchaseClosingCostRate: Option<real>,
    annualAppreciationRate: Option<real>,
    annualRentIncreaseRate: Option<real>,
    propertyTaxRate: Option<real>,
    insurancePerMonth: Option<real>)

  /** Rent and the rent-proportional reserves of the rental strategies. */
  datatype RentExpenseInputs = RentExpenseInputs(
    monthlyRent: real,
    vacancyRate: Option<real>,
    repairsRate: Option<real>,
    capexRate: Option<real>,
    managementRate: Option<real>,
    leaseUpFee: Option<real>)

  /** A long-term loan: its term, its rate and one of three ways to size it. */
  datatype LoanInputs = LoanInputs(
    loanTermMonths: int,
    interestRateAnnual: real,
    ltv: Option<real>,
    downPayment: Option<real>,
    loanAmount: Option<real>,
    pointsRate: Option<real>,
    loanClosingCostRate: Option<real>)

  datatype BuyHoldInputs = BuyHoldInputs(
    base: BaseInputs,
    rent: RentExpenseInputs,
    loan: LoanInputs)

  datatype BrrrrInputs = BrrrrInputs(
    base: BaseInputs,
    rent: RentExpenseInputs,
    bridgeLtv: Option<real>,
    bridgeInterestRateAnnual: Option<real>,
    rehabMonths: nat,
    refiLtv: real,
    refiPointsRate: Option<real>,
    refiClosingCostRate: Option<real>,
    longTermLoan: LoanInputs,
    asIsValue: Option<real>)

  datatype FlipInputs = FlipInputs(
    base: BaseInputs,
    rehabMonths: nat,
    monthsOnMarket: nat,
    salePrice: Option<real>,
    agentFeeRate: Option<real>,
    sellerClosingCostRate: Option<real>,
    marginalTaxRate: Option<real>,
    bridgeInterestRateAnnual: Option<real>,
    bridgeLtv: Option<real>,
    asIsValue: Option<real>)

  /** The descriptive phase of a ledger month. */
  datatype PhaseTag = Current | Rehab | Stabilized | Marketing

  /** One month of a deal's ledger. */
  datatype MonthlyResult = MonthlyResult(
    month: int,
    rent: real,
    grossIncome: real,
    vacancy: real,
    operatingExpenses: real,
    noi: real,
    debtService: real,
    cashFlow: real,
    cumulativeCashFlow: real,
    propertyValue: real,
    equity: real,
    loanBalance: real,
    taxes: real,
    insurance: real,
    rehabSpend: Option<real>,
    phase: PhaseTag)

  /** One year, rolled up from up to twelve consecutive months. */
  datatype AnnualSummary = AnnualSummary(
    year: int,
    value: real,
    debt: real,
    equity: real,
    cashInvested: real,
    totalCashInvested: real,
    interestPaid: real,
    rent: real,
    expenses: real,
    cashFlow: real,
    equityGrowth: real,
    totalReturn: real,
    annualReturnOnInvestedCash: real,
    dscr: Option<real>)

  datatype BuyHoldMetrics = BuyHoldMetrics(
    cashRequired: real,
    yearOneCashFlow: real,
    dscr: real,
    cashOnCashReturn: real,
    totalReturn: real)

  datatype BrrrrMetrics = BrrrrMetrics(
    cashRequired: real,
    yearOneCashFlow: real,
    dscr: real,
    cashOnCashReturn: real,
    totalReturn: real,
    cashLeftInDeal: real,
    refiProceeds: real,
    bridgeInterest: real)

  datatype FlipMetrics = FlipMetrics(
    totalCashRequired: real,
    profitBeforeTax: real,
    profitAfterTax: real,
    roi: real,
    holdMonths: int)

  datatype BuyHoldResult = BuyHoldResult(monthly: seq<MonthlyResult>, annual: seq<AnnualSummary>, metrics: BuyHoldMetrics)

  datatype BrrrrResult = BrrrrResult(monthly: seq<MonthlyResult>, annual: seq<AnnualSummary>, metrics: BrrrrMetrics)

  datatype FlipResult = FlipResult(monthly: seq<MonthlyResult>, metrics: FlipMetrics)
}
