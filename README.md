# Deal calculator engines, modelled in Dafny

The system analyses residential real-estate deals under three strategies:

- **Buy and hold**: a financed rental property.
- **BRRRR** (buy, rehab, rent, refinance, repeat): a bridge loan during the rehab, then a refinance into a long-term loan.
- **Flip**: an interest-only bridge during the rehab and while the property is on the market, then a sale.

Each calculator turns the deal's inputs into three things:

- a month-by-month ledger (rent, expenses, debt service, cash flow, cumulative cash flow, value, equity, balance, phase tag);
- yearly rollups, for buy-and-hold and BRRRR;
- headline metrics (cash required, year-one cash flow, DSCR, cash-on-cash return, total return; for the flip, profit before and after tax and ROI).

Other parts of the system feed these calculators:

- the loan primitives: Excel-style PMT, IPMT and PPMT, and an amortization schedule;
- the rehab budget: tiered unit prices A/B/C with an optional per-line override;
- the analyzer page's pure helpers: the strategy dispatcher, the per-tier price bands and the input validator.

The project has these modules, one per file:

| file | module | models |
|---|---|---|
| `optional.dfy` | `Optional` | optional inputs: `x ?? d` as `GetOr`, `x ?? 0` as `Or0` |
| `finance.dfy` | `Finance` | `pmt`, `ipmt`, `ppmt`, `buildAmortizationSchedule` |
| `types.dfy` | `Types` | the inputs, ledger rows, summaries, metrics and results |
| `growth.dfy` | `Growth` | `rentForMonth` and `propertyValueForMonth`; `buyHold.ts` and `brrrr.ts` each have their own identical copy of both, `flip.ts` of `propertyValueForMonth` only |
| `ledger.dfy` | `Ledger` | column sums, running totals, 12-month year slices and the yearly rollup shared by the calculators |
| `rehab.dfy` | `Rehab` | `calculateRehabTotal`, `resolveUnitPrice` |
| `buyhold.dfy` | `BuyHoldCalculator` | `calculateBuyHold`, `deriveLoanAmount` |
| `brrrr.dfy` | `BrrrrCalculator` | `calculateBRRRR` |
| `flip.dfy` | `FlipCalculator` | `calculateFlip` |
| `analyzer.dfy` | `Analyzer` | `computeResult`, `deriveUnitPriceForQuality`, `resolveItemUnitPrice`, `getPriceBands`, `getValidationWarnings` |

Money and rates are `real`, so arithmetic is exact (see Left out).

The calculators run loops that push rows and update a running `cumulativeCashFlow`. In the model they are methods with the same loops:

- `CalculateBuyHold`, `CalculateBrrrr` and `CalculateFlip`, with one helper method per loop;
- `BuildAmortizationSchedule`.

Each method is proved equal to a recursive specification function, for example `result == BrrrrCalculator.Brrrr(inputs, monthlyRate)`. The lemmas then state the properties of that specification:
- the shape of each row;
- running totals;
- the yearly rollups adding up to the ledger;
- interest split between the bridge and the long-term loan;
- the return metrics.

Most lemmas are stated over an arbitrary setup and schedule, so they hold for every input. The annual-to-monthly rate conversion `(1 + r)^(1/12) - 1` has no exact form over the reals, so every calculator takes it as a parameter `monthlyRate`.

Behaviour of the code worth knowing, all of which the model follows:

- **Buy-and-hold financing default.** With no loan amount, LTV or down payment, the whole price is borrowed and nothing is put down (`src/calculator/buyHold.ts:37`). `BuyHoldCalculator.DeriveLoanAmount` states this case.
- **BRRRR bridge default.** With no bridge LTV, the BRRRR bridge covers the whole purchase price and none of the rehab (`?? 1` on the price, `?? 0` on the rehab, `src/calculator/brrrr.ts:44-46`). The flip bridge covers both (`src/calculator/flip.ts:29-30`). `BrrrrCalculator.BridgeFinancing` and `FlipCalculator.BridgeFinancing` state both behaviours.
- **BRRRR rollup length.** The BRRRR rollup covers `ceil((rehabMonths + loanTermMonths) / 12)` years (`src/calculator/brrrr.ts:155-157`). The ledger keeps all `rehabMonths` rows even when the term is negative, so with a negative term the rollup can have fewer years than the ledger needs. For example, `rehabMonths = 13` and `loanTermMonths = -1` give 1 year for 13 rows, and month 13 is left out of the rollup. When the two year counts agree, as for `rehabMonths = 6` and `loanTermMonths = -1`, nothing is lost. `BrrrrCalculator.BuildAnnual` states the count as written. `BrrrrCalculator.AnnualCashFlowsAddUp` and `BrrrrCalculator.AnnualInterestAddsUp` need a non-negative term.
- **Cumulative cash flow seeds.** Buy-and-hold starts the cumulative cash flow at 0. BRRRR starts it at minus the cash invested before the refinance, and the flip at minus the cash invested at purchase.
- **Validation key checks.** The validator checks whether a key exists in the inputs object (`"loanTermMonths" in base` and similar). The model reads these checks off each strategy's input type:
  - only buy-and-hold has a top-level loan term (BRRRR's is inside `longTermLoan`);
  - only the rental strategies have a monthly rent.

## Model

| member | source | states |
|---|---|---|
| Finance.Pmt | src/calculator/finance.ts:14-31 | 0 for a non-positive term; with a zero rate, payment × n = PV + FV; otherwise payment × (1 + rate·type)((1+rate)^n − 1) = rate(PV(1+rate)^n + FV) |
| Finance.BuildAmortizationSchedule | src/calculator/finance.ts:106-150 | the loop's rows are exactly the schedule specification `Schedule(p)` |
| Finance.ScheduleShape | src/calculator/finance.ts:118-147 | empty for a non-positive term; otherwise exactly `totalPayments` rows, numbered 1..n, all carrying the same payment |
| Finance.ScheduleRow | src/calculator/finance.ts:127-147 | row i is one period stepped from the balance left by row i−1 (the principal for the first) |
| Finance.SchedulePayment | src/calculator/finance.ts:120-122 | every row's payment is the override when given, else PMT over the schedule's terms |
| Finance.EndTimingRow | src/calculator/finance.ts:128-138 | end timing: interest on the previous balance, interest + principal = payment, new balance = max(0, previous − principal) |
| Finance.BeginTimingRow | src/calculator/finance.ts:131-135 | begin timing: the principal portion is the whole payment, balance = max(0, previous − payment), interest on the reduced balance |
| Finance.BalancesNonNegative | src/calculator/finance.ts:134-138 | no balance in the schedule is negative |
| Finance.ZeroPrincipalSchedule | src/calculator/finance.ts:118-147 | a loan of 0 with no override and FV 0 pays, charges and owes 0 in every row |
| Finance.BalanceNonIncreasing | src/calculator/finance.ts:127-147 | end timing, non-negative rate, payment covering the first period's interest: no row's balance exceeds the one before |
| Finance.StandardLoanCoversInterest | src/calculator/finance.ts:14-31 | for the calculators' loans (no override, FV 0, end timing) with a non-negative rate and principal and a positive term, PMT is defined and at least rate × principal |
| Finance.StandardLoanBalanceNonIncreasing | src/calculator/finance.ts:106-150 | the calculators' loan schedules at a non-negative rate and principal never raise the balance from one row to the next |
| Finance.ZeroRateFinalBalance | src/calculator/finance.ts:120-147 | zero rate, no override, non-negative principal and FV: the last balance is exactly 0 |
| Finance.Ipmt | src/calculator/finance.ts:37-54 | 0 outside periods 1..n (inside them it reads the schedule row; `IpmtPlusPpmt` states its meaning) |
| Finance.Ppmt | src/calculator/finance.ts:59-75 | 0 outside periods 1..n whatever the rate (inside them it reads the schedule row; `IpmtPlusPpmt` states its meaning) |
| Finance.IpmtPlusPpmt | src/calculator/finance.ts:37-75 | for an in-range period with end timing, IPMT + PPMT = PMT |
| Growth.RentForMonth | src/calculator/buyHold.ts:40-47 | the base rent unchanged through the first 12 months |
| Growth.PropertyValueForMonth | src/calculator/buyHold.ts:49-55 | month 1 is worth the starting value |
| Growth.RentConstantWithinYear | src/calculator/buyHold.ts:40-47 | two months of the same lease year have the same rent |
| Growth.RentEscalatesYearly | src/calculator/buyHold.ts:40-47 | rent 12 months later is this month's rent × (1 + annual increase) |
| Growth.RentAfterYears | src/calculator/buyHold.ts:40-47 | rent k years later is this month's rent × (1 + increase)^k |
| Growth.ValueCompoundsMonthly | src/calculator/buyHold.ts:49-55 | next month's value is this month's value × (1 + monthly appreciation) |
| Growth.ZeroGrowthIsFlat | src/calculator/buyHold.ts:40-55 | with zero rates, rent and value never change |
| Ledger.SafeRatio | src/calculator/buyHold.ts:169-170 | with a positive denominator, ratio × denominator = numerator; otherwise 0 |
| Ledger.Dscr | src/calculator/buyHold.ts:171 | absent exactly when the slice's debt service sum is ≤ 0; otherwise DSCR × debt service = rent − expenses |
| Ledger.RunningSumTotal | src/calculator/buyHold.ts:83-106 | a ledger whose cumulative column keeps a running total ends at seed + sum of its cash flows |
| Ledger.RunningSumPrefix | src/calculator/buyHold.ts:83-106 | each row's cumulative cash flow is the seed plus the cash flows up to and including it |
| Ledger.RunningSumUnique | src/calculator/buyHold.ts:83-106 | two running-total ledgers with the same seed and cash flows have the same cumulative column |
| Ledger.YearCount | src/calculator/buyHold.ts:132 | `ceil(n / 12)`: 0 for n ≤ 0, else the r with 12(r−1) < n ≤ 12r |
| Ledger.YearSlice | src/calculator/buyHold.ts:134-135 | a year's slice has 1 to 12 rows, and fewer than 12 only at the end of the ledger |
| Ledger.YearSliceLength | src/calculator/buyHold.ts:132-136 | every year but the last is a full 12 months; the last has the remaining months; no slice is empty, so with whole month counts the `continue` never fires |
| Ledger.YearsSumTotal | src/calculator/buyHold.ts:132-141 | summing a column year slice by year slice over all years gives the column's ledger total |
| Ledger.AnnualCashFlowsCover | src/calculator/buyHold.ts:141 | yearly cash flows, each the sum of its slice, add up to the ledger's total cash flow |
| Ledger.RollupReturn | src/calculator/buyHold.ts:152-170 | a year's total return is its cash flow plus equity growth over the base equity; cash invested is carried; the return on invested cash is total return / cash invested when > 0, else 0 |
| Ledger.YearCountMonotone | src/calculator/brrrr.ts:155-161 | fewer months never give more years, so the year loop never runs past the ledger |
| Rehab.NonZeroC | src/calculator/rehab.ts:53 | `qualityMultipliers.C \|\| 1` is never 0 |
| Rehab.ResolveUnitPrice | src/calculator/rehab.ts:37-63 | the override if given; else the tier's base price when the tier rules find one; else the flat unit price (0 when missing) × the quality multiplier |
| Rehab.CalculateRehabTotal | src/calculator/rehab.ts:21-35 | every item adds its contribution exactly once, wherever it stands in the catalogue; with nothing selected the total is 0 |
| Rehab.TotalCountsEachItem | src/calculator/rehab.ts:27-34 | the reduce over the items, split at each item, is the reduce before it + its contribution + the reduce after it; with nothing selected it is 0 |
| Rehab.SelectionMap | src/calculator/rehab.ts:26 | no contract of its own: `SelectionMapKeys` and `SelectionMapLastWins` state which ids it holds and which selection wins |
| Rehab.QuantityOf | src/calculator/rehab.ts:31 | no contract of its own: `sel.quantity ?? item.defaultQuantity ?? 1`, used by `SelectedContribution` |
| Rehab.Contribution | src/calculator/rehab.ts:28-32 | no contract of its own: `UnselectedContributesNothing` and `SelectedContribution` state both cases |
| Rehab.TotalOver | src/calculator/rehab.ts:27-34 | no contract of its own: `TotalOverAppend`, `TotalWithItem` and `TotalCountsEachItem` state what the fold adds up |
| Rehab.UnselectedContributesNothing | src/calculator/rehab.ts:29-30 | an item with no selection, or an unselected one, adds nothing |
| Rehab.SelectedContribution | src/calculator/rehab.ts:31-33 | a selected item adds its resolved unit price × its quantity (selection, else the item's default, else 1) |
| Rehab.TotalOverAppend | src/calculator/rehab.ts:28-34 | the total over two item lists is the sum of their totals |
| Rehab.TotalWithItem | src/calculator/rehab.ts:28-34 | an item's place in the list adds exactly its contribution to the total |
| Rehab.NothingSelectedTotalsZero | src/calculator/rehab.ts:28-34 | when no item is selected the total is 0 |
| Rehab.SelectionMapKeys | src/calculator/rehab.ts:27 | an id is in the selection map exactly when some selection carries it |
| Rehab.SelectionMapLastWins | src/calculator/rehab.ts:27 | for duplicate ids the map keeps the last selection |
| Rehab.OverrideWins | src/calculator/rehab.ts:43 | an override is the price whatever the item, tier and multipliers |
| Rehab.TierAFromB | src/calculator/rehab.ts:47-48 | tier A with a B base price is B × 1.3, independent of the multipliers |
| Rehab.TierOwnBasePrice | src/calculator/rehab.ts:51-56 | tiers B and C use their own base price when present |
| Rehab.CrossTierFallbacks | src/calculator/rehab.ts:47-57 | only C present: B = C / (mult.C or 1), A = C × mult.A; only B present: C = B × mult.C |
| Rehab.FlatPricing | src/calculator/rehab.ts:61-62 | with no base prices, the price is the unit price (0 when missing) × the tier's multiplier |
| Rehab.TotalWithQuantities | src/calculator/rehab.ts:21-35 | one paint at 3000 and two floors at 5000, default quality: 13000 |
| Rehab.TotalWithOverrideAndUnselected | src/calculator/rehab.ts:21-35 | an unselected line is skipped and an override replaces the unit price |
| Rehab.TotalAtTierA | src/calculator/rehab.ts:21-63 | at tier A an item with B base 8000 costs 8000 × 1.3 |
| BuyHoldCalculator.DeriveLoanAmount | src/calculator/buyHold.ts:14-38 | the loan amount when given, else price × LTV, each with down payment = max(0, price − loan) ≥ 0; else the down payment as given with loan = max(0, price − down) ≥ 0; else a full-price loan with nothing down |
| BuyHoldCalculator.FinancingCoversPrice | src/calculator/buyHold.ts:14-38 | loan + down payment ≥ price, and = price when neither exceeds the price |
| BuyHoldCalculator.CalculateBuyHold | src/calculator/buyHold.ts:57-190 | the method's result is the specification `BuyHold(inputs, monthlyRate)` |
| BuyHoldCalculator.BuildMonthly | src/calculator/buyHold.ts:82-127 | the month loop builds the specified ledger of `max(0, loanTermMonths)` rows |
| BuyHoldCalculator.BuildAnnual | src/calculator/buyHold.ts:129-173 | the year loop builds the specified `ceil(n / 12)` summaries |
| BuyHoldCalculator.LedgerShape | src/calculator/buyHold.ts:108-124 | row i is month i+1, tagged stabilized; rehab spend is the rehab cost in month 1 and 0 after |
| BuyHoldCalculator.MonthCashFlow | src/calculator/buyHold.ts:92-105 | NOI = rent − expenses; cash flow = rent − expenses − debt service; debt service is the schedule's payment (0 past its end) |
| BuyHoldCalculator.MonthEquity | src/calculator/buyHold.ts:119-120 | the balance is the schedule's (0 past its end) and equity + balance = value |
| BuyHoldCalculator.MonthExpenses | src/calculator/buyHold.ts:94-103 | taxes = rate × value / 12, insurance as given, expenses = the rent reserves + taxes + insurance + lease-up; vacancy = rent × rate |
| BuyHoldCalculator.MonthRent | src/calculator/buyHold.ts:86 | month m's rent is the base rent escalated once per completed year |
| BuyHoldCalculator.RentInFirstYear | src/calculator/buyHold.ts:86 | every month of year one charges the base rent |
| BuyHoldCalculator.MonthValue | src/calculator/buyHold.ts:87-91 | month m's value compounds the starting value (ARV, or the price when ARV is 0) |
| BuyHoldCalculator.LedgerRunningSum | src/calculator/buyHold.ts:83-106 | the cumulative column is a running total of the cash flows from 0 |
| BuyHoldCalculator.CumulativeIsRunningTotal | src/calculator/buyHold.ts:83-106 | each row's cumulative cash flow is the sum of the cash flows so far |
| BuyHoldCalculator.AnnualCashFlowsAddUp | src/calculator/buyHold.ts:132-141 | the yearly cash flows add up to the ledger's total cash flow, which is the final cumulative cash flow |
| BuyHoldCalculator.YearsPartitionTheTerm | src/calculator/buyHold.ts:132-159 | year k is numbered k+1, full unless it is the last of a term that is not a whole number of years, and takes its value and debt from its last month |
| BuyHoldCalculator.YearReturn | src/calculator/buyHold.ts:152-170 | a year's total return is its cash flow plus its equity less (starting value − loan); the return on invested cash is that over the initial cash |
| BuyHoldCalculator.YearOneIsFirstTwelveMonths | src/calculator/buyHold.ts:175 | with a term of at least a year, year-one cash flow is the cumulative cash flow after month 12 |
| BuyHoldCalculator.LoanMonths | src/calculator/buyHold.ts:76-93 | during the term every month pays the loan's fixed payment and owes a non-negative balance |
| BuyHoldCalculator.AllCashPurchase | src/calculator/buyHold.ts:76-120 | with no loan: no debt service, no balance, cash flow = NOI, equity = value |
| BuyHoldCalculator.CashRequired | src/calculator/buyHold.ts:67-73 | cash required = down payment + rehab + points + loan closing + purchase closing |
| BuyHoldCalculator.ReturnMetrics | src/calculator/buyHold.ts:175-183 | cash-on-cash = year-one cash flow / cash required when > 0, else 0; year one's cash flow and DSCR, the last year's total return, all 0 without years |
| BrrrrCalculator.CalculateBrrrr | src/calculator/brrrr.ts:31-223 | the method's result is the specification `Brrrr(inputs, monthlyRate)` |
| BrrrrCalculator.BuildRehabPhase | src/calculator/brrrr.ts:68-103 | the rehab loop builds the first `rehabMonths` specified rows and its running total from minus the cash invested before the refinance |
| BrrrrCalculator.BuildStabilizedPhase | src/calculator/brrrr.ts:105-151 | the rental loop extends them to `rehabMonths + max(0, loanTermMonths)` specified rows |
| BrrrrCalculator.BuildAnnual | src/calculator/brrrr.ts:153-202 | the year loop builds `ceil((rehabMonths + loanTermMonths) / 12)` specified summaries, never more than the ledger has |
| BrrrrCalculator.RefinanceTerms | src/calculator/brrrr.ts:54-60 | refi loan = refi LTV × ARV; refi closing costs = (closing rate ?? 0) × refi loan; points = (points rate ?? 0) × refi loan; cash out = loan − closing − points − bridge payoff; cash left = cash before refi − cash out; cash required = max(0, cash left) |
| BrrrrCalculator.BridgeFinancing | src/calculator/brrrr.ts:44-52 | bridge = LTV × (price + rehab) with an LTV; the whole price and none of the rehab without one; for every LTV, cash before refi = max(0, price + rehab − bridge) + (closing rate ?? 0) × price, which is the rehab (floored at 0) plus closing costs without an LTV |
| BrrrrCalculator.CashLeftInDealFromInputs | src/calculator/brrrr.ts:44-59 | with a bridge LTV in [0, 1] and a non-negative price + rehab, cash left in the deal is price + rehab − bridge + purchase closing costs − (refi loan − refi closing costs − points − bridge), all from the inputs |
| BrrrrCalculator.RehabMonthCashFlow | src/calculator/brrrr.ts:78-101 | a rehab month has no income, expenses = taxes + insurance, debt service = the bridge interest, cash flow = −expenses − interest, rehab spend in month 1 only |
| BrrrrCalculator.RehabMonthBalance | src/calculator/brrrr.ts:73-99 | during rehab the balance is the bridge principal, equity = value − bridge, value compounds from the as-is value, taxes and insurance as for rentals |
| BrrrrCalculator.StabilizedMonthTimeline | src/calculator/brrrr.ts:106-149 | rental month j is global month rehabMonths + j, tagged stabilized with no rehab spend; its rent escalates on the global month; its value compounds from the ARV on j |
| BrrrrCalculator.StabilizedMonthCashFlow | src/calculator/brrrr.ts:119-146 | debt service and balance from the long-term schedule row j; equity + balance = value; NOI and cash flow as for buy-and-hold |
| BrrrrCalculator.LoanMonths | src/calculator/brrrr.ts:129-146 | during the long-term term every rental month pays the loan's fixed payment and owes a non-negative balance |
| BrrrrCalculator.LedgerRunningSum | src/calculator/brrrr.ts:69-132 | the cumulative column is a running total from minus the cash invested before the refinance |
| BrrrrCalculator.CumulativeIsRunningTotal | src/calculator/brrrr.ts:69-132 | each row's cumulative cash flow is −(cash before refi) plus the cash flows so far |
| BrrrrCalculator.AnnualCashFlowsAddUp | src/calculator/brrrr.ts:155-166 | for a non-negative term the yearly cash flows add up to the ledger's, i.e. the final cumulative cash flow plus the cash invested before the refinance |
| BrrrrCalculator.RehabWindowInterest | src/calculator/brrrr.ts:169-171 | months inside the rehab window each count one month of bridge interest |
| BrrrrCalculator.LoanWindowInterest | src/calculator/brrrr.ts:172-174 | months after it count the long-term schedule's interest, offset by the rehab months |
| BrrrrCalculator.InterestSplitsByPhase | src/calculator/brrrr.ts:167-175 | over the first n ≥ rehabMonths months: rehabMonths of bridge interest plus the schedule's first n − rehabMonths interest charges |
| BrrrrCalculator.YearInterest | src/calculator/brrrr.ts:167-175 | a year's interest paid folds the phase rule over that year's months |
| BrrrrCalculator.AnnualInterestAddsUp | src/calculator/brrrr.ts:153-175 | for a non-negative term the yearly interest adds up to rehabMonths of bridge interest plus all of the long-term schedule's interest |
| BrrrrCalculator.InterestByPhase | src/calculator/brrrr.ts:167-175 | a window of months entirely in rehab, entirely after it, or straddling the refinance pays bridge interest, schedule interest, or each for its part |
| BrrrrCalculator.YearInterestByPhase | src/calculator/brrrr.ts:167-175 | the same three cases for each year of the rollup |
| BrrrrCalculator.BridgeInterestMetric | src/calculator/brrrr.ts:214-215 | the bridge-interest metric equals the interest the rehab months book |
| BrrrrCalculator.YearReturn | src/calculator/brrrr.ts:181-199 | year k is numbered k+1; total return = cash flow + equity − (starting value − bridge); cash invested = cash required; return on invested cash = total return / cash required when > 0, else 0 |
| BrrrrCalculator.ReturnMetrics | src/calculator/brrrr.ts:204-216 | cash-on-cash as for buy-and-hold; cash left in deal and refi proceeds pass through; year one and last year as for buy-and-hold, 0 without years |
| FlipCalculator.ProfitAfterTax | src/calculator/flip.ts:63-66 | a loss or break-even is untaxed; a positive profit becomes profit × (1 − (rate ?? 0)), which for a rate in [0, 1] stays between 0 and the profit and for a zero rate is unchanged |
| FlipCalculator.MonthlyLedger | src/calculator/flip.ts:70-125 | the ledger has holdMonths + 1 rows |
| FlipCalculator.CalculateFlip | src/calculator/flip.ts:18-181 | the method's result is the specification `Flip(inputs, monthlyRate)` |
| FlipCalculator.BuildHoldMonths | src/calculator/flip.ts:70-103 | the hold loop builds the specified hold rows and its running total from minus the cash invested at purchase |
| FlipCalculator.HoldMonth | src/calculator/flip.ts:78-101 | hold month i+1 is tagged rehab exactly when i < rehabMonths and marketing otherwise; no income; cash flow = −taxes − insurance − bridge interest; balance = bridge; rehab spend in month 1 only |
| FlipCalculator.HoldMonthValue | src/calculator/flip.ts:73-79 | the value compounds from the starting value; taxes = rate × value / 12; insurance as given |
| FlipCalculator.SaleMonth | src/calculator/flip.ts:105-125 | the sale row is month holdMonths + 1: sale price in, agent and closing costs out, the bridge paid off, cash flow = net after payoff, balance 0, tagged marketing |
| FlipCalculator.LedgerStartsWithHold | src/calculator/flip.ts:70-108 | the ledger's first holdMonths rows are the hold rows |
| FlipCalculator.HoldTaxesMatchLedger | src/calculator/flip.ts:41-51 | the taxes total folded up front equals the hold rows' taxes |
| FlipCalculator.HoldInsurance | src/calculator/flip.ts:52 | the hold rows' insurance is holdMonths × monthly insurance |
| FlipCalculator.HoldInterest | src/calculator/flip.ts:40 | the hold rows' debt service is holdMonths × monthly bridge interest |
| FlipCalculator.HoldCashFlows | src/calculator/flip.ts:78-83 | the hold rows' cash flows total −(taxes + insurance + interest) |
| FlipCalculator.HoldTotalsMatchLedger | src/calculator/flip.ts:40-52 | the taxes, insurance and interest the metrics charge are exactly what the hold rows book |
| FlipCalculator.LedgerRunningSum | src/calculator/flip.ts:71-107 | the cumulative column, sale row included, is a running total from minus the cash invested at purchase |
| FlipCalculator.FinalCumulativeIsProfit | src/calculator/flip.ts:60-62 | the final cumulative cash flow equals the profit before tax |
| FlipCalculator.CumulativeIsRunningTotal | src/calculator/flip.ts:71-107 | each row's cumulative cash flow is −(cash invested at purchase) plus the cash flows so far |
| FlipCalculator.BridgeFinancing | src/calculator/flip.ts:29-37 | bridge = LTV × (price + rehab), the whole of both without an LTV; closing costs = (closing rate ?? 0) × price; down payment = max(0, price + rehab − bridge); cash in = down payment + closing costs |
| FlipCalculator.SaleSide | src/calculator/flip.ts:26-61 | sale price defaults to ARV; agent fees = sale price × (fee rate ?? 0) and seller closing costs = sale price × (closing rate ?? 0); proceeds = sale price − fees − closing; net = proceeds − bridge payoff; profit = net − cash required; cash required = cash in + interest + taxes + insurance |
| FlipCalculator.FlipReturns | src/calculator/flip.ts:60-68 | ROI = profit / cash required when > 0, else 0; profit after tax = profit × (1 − (rate ?? 0)) for a positive profit, else the profit, and within [0, profit] for a rate in [0, 1]; hold = rehab + marketing months |
| FlipCalculator.CashRequiredIgnoresSale | src/calculator/flip.ts:60-61 | changing the sale price, fees or tax rate does not change the cash required |
| Analyzer.ComputeResult | src/pages/AnalyzerPage.tsx:1635-1648 | BRRRR runs the BRRRR calculator, FLIP the flip calculator, every other strategy buy-and-hold, and the result is that calculator's |
| Analyzer.DeriveUnitPriceForQuality | src/pages/AnalyzerPage.tsx:1652-1674 | no contract of its own: `DeriveMatchesRehab` states that it is the rehab calculator's pricing without an override |
| Analyzer.DeriveMatchesRehab | src/pages/AnalyzerPage.tsx:1652-1674 | the page's tier pricing equals the rehab calculator's pricing without an override, for every item, tier and multipliers |
| Analyzer.ResolveItemUnitPrice | src/pages/AnalyzerPage.tsx:1676-1684 | the selection's override when present, else the derived tier price |
| Analyzer.ResolveItemMatchesRehab | src/pages/AnalyzerPage.tsx:1676-1684 | the page's item price is the rehab calculator's price for that selection's override |
| Analyzer.GetPriceBands | src/pages/AnalyzerPage.tsx:1686-1698 | each band is the derived price of its tier; the active price is the override, else the chosen tier's band |
| Analyzer.BandsIgnoreSelection | src/pages/AnalyzerPage.tsx:1692-1694 | the three bands depend on neither the selection nor the chosen quality |
| Analyzer.ActiveBandIsChargedPrice | src/pages/AnalyzerPage.tsx:1695-1696 | the active band is the price the rehab total charges for that line |
| Analyzer.GetValidationWarnings | src/pages/AnalyzerPage.tsx:1700-1724 | the pushed messages are those of the specified warning list, in order |
| Analyzer.Messages | src/pages/AnalyzerPage.tsx:1715-1722 | one message per warning, the i-th being the exact text pushed for the i-th warning |
| Analyzer.WarningsFor | src/pages/AnalyzerPage.tsx:1708-1723 | no contract of its own: the specified warning list, whose meaning `WarnsExactlyWhenDue`, `WarningsInOrder` and `ValidInputsGiveNoWarnings` state |
| Analyzer.Report | src/pages/AnalyzerPage.tsx:1715-1722 | one `if (…) warnings.push(…)`: the messages stay the messages of the warnings found so far, with this warning appended exactly when its check fails |
| Analyzer.WarnsExactlyWhenDue | src/pages/AnalyzerPage.tsx:1715-1722 | each warning appears if and only if its condition holds for the selected strategy's inputs |
| Analyzer.WarningsInOrder | src/pages/AnalyzerPage.tsx:1708-1723 | warnings come out in the checks' order, none twice |
| Analyzer.ValidInputsGiveNoWarnings | src/pages/AnalyzerPage.tsx:1708-1723 | the list is empty exactly when no warning's condition holds |
| Analyzer.LoanTermWarningIsBuyHoldOnly | src/pages/AnalyzerPage.tsx:1717-1718 | BRRRR and flip inputs never get the loan-term warning |
| Analyzer.MessagesAreDistinct | src/pages/AnalyzerPage.tsx:1715-1722 | different warnings have different messages |

## Left out

- `monthlyRateFromAnnual` (`(1 + r)^(1/12) − 1`): there is no exact real twelfth root. It is the parameter `monthlyRate` of every calculator, and nothing is assumed about it.
- Floating point: amounts are exact reals. NaN, Infinity and rounding are not modelled, nor is the order in which JavaScript adds up a column.
- Finance.Pmt: requires its denominator to be non-zero (`PmtDefined`). The source returns ±Infinity or NaN there. The calculators carry this as `Computable`, and `Analyzer.ComputeResult` requires it only for the strategy it runs. `Finance.Ipmt` and `Finance.Ppmt` require it only for periods inside 1..n.
- The "Interest rate looks missing." warning: it fires only for a non-finite rate, and reals are always finite.
- Analyzer.GetValidationWarnings: decides which key checks apply from each strategy's input type, not from the keys a runtime object happens to carry.
- Phase lengths (`rehabMonths`, `monthsOnMarket`) are natural numbers, so negative lengths are not modelled. Loan terms stay `int`, and non-positive terms give empty schedules as in the source. What the source does with negative lengths:
  - BRRRR: a negative `rehabMonths` makes the rental loop's global month `rehabMonths + j` drop below 1, so `rentForMonth` raises the escalation factor to a negative year index (`src/calculator/brrrr.ts:106-118`).
  - Flip: `rehabMonths` and `monthsOnMarket` only enter through `holdMonths` (`src/calculator/flip.ts:25`), and growth is never raised to a negative power. With `rehabMonths = -2` and `monthsOnMarket = 5` there are 3 hold rows, all tagged marketing. A negative `holdMonths` gives no hold rows, a sale row at a month ≤ 0, and negative interest and insurance totals (`src/calculator/flip.ts:40`, `:52`).
- The `?? 1` fallbacks on quality multipliers: the multiplier record is total, so they never apply. `|| 1` on the C multiplier is modelled (`Rehab.NonZeroC`).
- The `if (slice.length === 0) continue;` branches of the year loops: month counts are `int`/`nat` here, and with whole counts no year slice is empty (`Ledger.YearSliceLength`, `Ledger.YearCountMonotone`), so the loops have no such branch. Fractional terms are not modelled. In the source a term like `loanTermMonths = 12.5` builds 12 rows but 2 years, so the second buy-and-hold slice is empty and the branch fires. A fractional `rehabMonths` does the same in BRRRR.
- The flip's internal yearly rollup (`src/calculator/flip.ts:127-167`): it is computed but never returned.
- Inputs the calculators never read:
  - buy-and-hold's `rehabMonths` and `asIsValue`;
  - BRRRR's `bridgeTermMonths`, and the nested long-term loan's `ltv`, `downPayment`, `loanAmount`, `pointsRate` and `loanClosingCostRate` (only its term and rate are read);
  - the flip's `annualRentIncreaseRate`;
  - the `strategy` field of the inputs.
- The page's React components, state store, persistence, CSV export and formatting are not part of this model.
- Growth.RentForMonth, Growth.PropertyValueForMonth: require a month index ≥ 1. The calculators only pass such indices.
