/**
 * Loan primitives: the Excel-style fixed payment (PMT), the period-by-period
 * amortization schedule, and the interest / principal lookups (IPMT, PPMT).
 *
 * Money and rates are `real`. The annual-to-monthly conversion
 * `(1 + r)^(1/12) - 1` has no exact counterpart over the reals, so the
 * calculators receive it as a parameter of type `RateConversion`.
 */
module Finance {
  import opened Optional

  /** Stands for `monthlyRateFromAnnual`: an annual rate to the effective monthly rate. */
  type RateConversion = real -> real

  /** When in the period a payment is made. */
  datatype Timing = End | Begin

  datatype AmortizationRow = AmortizationRow(
    period: int,
    payment: real,
    interest: real,
    principal: real,
    balance: real)

  /** The schedule's parameters; `payment` is the optional override of the computed payment. */
  datatype AmortizationParams = AmortizationParams(
    principal: real,
    ratePerPeriod: real,
    totalPayments: int,
    payment: Option<real>,
    futureValue: real,
    timing: Timing)

  /** The parameters the calculators pass: no override, future value 0, end timing. */
  function StandardLoan(principal: real, ratePerPeriod: real, totalPayments: int): AmortizationParams {
    AmortizationParams(principal, ratePerPeriod, totalPayments, None, 0.0, End)
  }

  /** `x` raised to a natural power: the integer-exponent uses of `Math.pow`. */
  function Pow(x: real, k: nat): real {
    if k == 0 then 1.0 else x * Pow(x, k - 1)
  }

  lemma {:induction false} PowAdd(x: real, a: nat, b: nat)
    ensures Pow(x, a + b) == Pow(x, a) * Pow(x, b)
  {
    if a > 0 {
      PowAdd(x, a - 1, b);
      assert Pow(x, a + b) == x * Pow(x, a - 1 + b);
    }
  }

  /** `Math.max(0, x)`. */
  function Max0(x: real): real {
    if x < 0.0 then 0.0 else x
  }

  /** A natural count from a possibly negative one: how often `for (k = 1; k <= n; k++)` runs. */
  function Nat(n: int): nat {
    if n < 0 then 0 else n
  }

  function TypeFlag(timing: Timing): real {
    if timing == Begin then 1.0 else 0.0
  }

  function PmtDenominator(rate: real, n: nat, timing: Timing): real {
    (1.0 + rate * TypeFlag(timing)) * (Pow(1.0 + rate, n) - 1.0)
  }

  /**
   * The inputs on which PMT yields a finite number: the formula's denominator
   * vanishes only for rate -1 with begin timing or rate -2 with an even term.
   */
  predicate PmtDefined(rate: real, n: int, timing: Timing) {
    n <= 0 || rate == 0.0 || PmtDenominator(rate, n, timing) != 0.0
  }

  /** The fixed periodic payment that amortizes `presentValue` to `-futureValue` over `n` periods. */
  function Pmt(rate: real, n: int, presentValue: real, futureValue: real, timing: Timing): (r: real)
    requires PmtDefined(rate, n, timing)
    ensures n <= 0 ==> r == 0.0
    ensures n > 0 && rate == 0.0 ==> r * (n as real) == presentValue + futureValue
    ensures n > 0 && rate != 0.0 ==>
              r * PmtDenominator(rate, n, timing) == rate * (presentValue * Pow(1.0 + rate, n) + futureValue)
  {
    if n <= 0 then 0.0
    else if rate == 0.0 then (presentValue + futureValue) / (n as real)
    else
      var pow := Pow(1.0 + rate, n);
      var numerator := rate * (presentValue * pow + futureValue);
      var denominator := (1.0 + rate * TypeFlag(timing)) * (pow - 1.0);
      numerator / denominator
  }

  /** The schedule can be built: the payment formula is needed only when there is no override and a positive term. */
  predicate ScheduleDefined(p: AmortizationParams) {
    p.payment.None? && p.totalPayments > 0 ==> PmtDefined(p.ratePerPeriod, p.totalPayments, p.timing)
  }

  /** The payment every row of the schedule carries: the override, else PMT. */
  function PaymentAmount(p: AmortizationParams): real
    requires ScheduleDefined(p) && p.totalPayments > 0
  {
    match p.payment
    case Some(amount) => amount
    case None => Pmt(p.ratePerPeriod, p.totalPayments, p.principal, p.futureValue, p.timing)
  }

  /**
   * One period, from the balance before it. End timing: interest on the old
   * balance, principal is the rest of the payment. Begin timing: the whole
   * payment goes to principal and interest is charged on the reduced balance.
   */
  function StepRow(rate: real, payment: real, timing: Timing, balance: real, period: int): AmortizationRow {
    match timing
    case End =>
      var interest := rate * balance;
      var principal := payment - interest;
      AmortizationRow(period, payment, interest, principal, Max0(balance - principal))
    case Begin =>
      var reduced := Max0(balance - payment);
      AmortizationRow(period, payment, rate * reduced, payment, reduced)
  }

  /** `count` consecutive rows starting at `period` from `balance`. */
  function Rows(rate: real, payment: real, timing: Timing, balance: real, period: int, count: nat): seq<AmortizationRow>
    decreases count
  {
    if count == 0 then []
    else
      var row := StepRow(rate, payment, timing, balance, period);
      [row] + Rows(rate, payment, timing, row.balance, period + 1, count - 1)
  }

  /** The schedule `buildAmortizationSchedule` returns for `p`. */
  function Schedule(p: AmortizationParams): seq<AmortizationRow>
    requires ScheduleDefined(p)
  {
    if p.totalPayments <= 0 then []
    else Rows(p.ratePerPeriod, PaymentAmount(p), p.timing, p.principal, 1, p.totalPayments)
  }

  /** Walks the balance period by period, as `buildAmortizationSchedule` does. */
  method BuildAmortizationSchedule(p: AmortizationParams) returns (rows: seq<AmortizationRow>)
    requires ScheduleDefined(p)
    ensures rows == Schedule(p)
  {
    if p.totalPayments <= 0 {
      return [];
    }
    var paymentAmount := PaymentAmount(p);
    ghost var full := Schedule(p);
    rows := [];
    var balance := p.principal;
    var period := 1;
    while period <= p.totalPayments
      invariant 1 <= period <= p.totalPayments + 1
      invariant full == rows + Rows(p.ratePerPeriod, paymentAmount, p.timing, balance, period, p.totalPayments - period + 1)
    {
      ghost var before := balance;
      var interest := p.ratePerPeriod * balance;
      var principalPortion := paymentAmount - interest;
      if p.timing == Begin {
        principalPortion := paymentAmount;
        balance := Max0(balance - principalPortion);
        interest := p.ratePerPeriod * balance;
      } else {
        balance := Max0(balance - principalPortion);
      }
      var row := AmortizationRow(period, paymentAmount, interest, principalPortion, balance);
      assert row == StepRow(p.ratePerPeriod, paymentAmount, p.timing, before, period);
      ghost var rest := Rows(p.ratePerPeriod, paymentAmount, p.timing, balance, period + 1, p.totalPayments - period);
      assert Rows(p.ratePerPeriod, paymentAmount, p.timing, before, period, p.totalPayments - period + 1) == [row] + rest;
      assert rows + ([row] + rest) == (rows + [row]) + rest;
      rows := rows + [row];
      period := period + 1;
    }
    assert rows + [] == rows;
  }

  /** The balance a row of `rows` starts from. */
  function BalanceBefore(start: real, rows: seq<AmortizationRow>, i: nat): real
    requires i <= |rows|
  {
    if i == 0 then start else rows[i - 1].balance
  }

  lemma {:induction false} RowsLength(rate: real, payment: real, timing: Timing, balance: real, period: int, count: nat)
    ensures |Rows(rate, payment, timing, balance, period, count)| == count
    decreases count
  {
    if count > 0 {
      var row := StepRow(rate, payment, timing, balance, period);
      RowsLength(rate, payment, timing, row.balance, period + 1, count - 1);
    }
  }

  lemma {:induction false} RowsAt(rate: real, payment: real, timing: Timing, balance: real, period: int, count: nat, i: nat)
    requires i < count
    ensures |Rows(rate, payment, timing, balance, period, count)| == count
    ensures var rows := Rows(rate, payment, timing, balance, period, count);
            rows[i] == StepRow(rate, payment, timing, BalanceBefore(balance, rows, i), period + i)
    decreases count
  {
    var rows := Rows(rate, payment, timing, balance, period, count);
    var row := StepRow(rate, payment, timing, balance, period);
    var rest := Rows(rate, payment, timing, row.balance, period + 1, count - 1);
    if i == 0 {
      if count > 1 {
        RowsAt(rate, payment, timing, row.balance, period + 1, count - 1, 0);
      }
    } else {
      RowsAt(rate, payment, timing, row.balance, period + 1, count - 1, i - 1);
      assert rows[i] == rest[i - 1];
      assert BalanceBefore(row.balance, rest, i - 1) == BalanceBefore(balance, rows, i);
    }
  }

  /** Every row of a schedule, by position: the step from the balance before it. */
  lemma ScheduleRow(p: AmortizationParams, i: nat)
    requires ScheduleDefined(p) && i < |Schedule(p)|
    ensures p.totalPayments > 0
    ensures Schedule(p)[i] == StepRow(p.ratePerPeriod, PaymentAmount(p), p.timing,
                                      BalanceBefore(p.principal, Schedule(p), i), i + 1)
  {
    RowsLength(p.ratePerPeriod, PaymentAmount(p), p.timing, p.principal, 1, p.totalPayments);
    RowsAt(p.ratePerPeriod, PaymentAmount(p), p.timing, p.principal, 1, p.totalPayments, i);
  }

  /** Empty for a non-positive term, otherwise exactly `totalPayments` rows numbered 1..n, all with the same payment. */
  lemma ScheduleShape(p: AmortizationParams)
    requires ScheduleDefined(p)
    ensures |Schedule(p)| == Nat(p.totalPayments)
    ensures p.totalPayments <= 0 ==> Schedule(p) == []
    ensures forall i :: 0 <= i < |Schedule(p)| ==>
              Schedule(p)[i].period == i + 1 && Schedule(p)[i].payment == PaymentAmount(p)
  {
    if p.totalPayments > 0 {
      RowsLength(p.ratePerPeriod, PaymentAmount(p), p.timing, p.principal, 1, p.totalPayments);
      forall i | 0 <= i < |Schedule(p)|
        ensures Schedule(p)[i].period == i + 1 && Schedule(p)[i].payment == PaymentAmount(p)
      {
        ScheduleRow(p, i);
      }
    }
  }

  /** The payment itself: the override when one is given, PMT otherwise. */
  lemma SchedulePayment(p: AmortizationParams, i: nat)
    requires ScheduleDefined(p) && i < |Schedule(p)|
    ensures p.payment.Some? ==> Schedule(p)[i].payment == p.payment.value
    ensures p.payment.None? ==>
              Schedule(p)[i].payment == Pmt(p.ratePerPeriod, p.totalPayments, p.principal, p.futureValue, p.timing)
  {
    ScheduleRow(p, i);
  }

  /** End timing: interest on the previous balance, interest + principal = payment, balance floored at 0. */
  lemma EndTimingRow(p: AmortizationParams, i: nat)
    requires ScheduleDefined(p) && p.timing == End && i < |Schedule(p)|
    ensures var row := Schedule(p)[i];
            var previous := BalanceBefore(p.principal, Schedule(p), i);
            && row.interest == p.ratePerPeriod * previous
            && row.interest + row.principal == row.payment
            && row.balance == Max0(previous - row.principal)
  {
    ScheduleRow(p, i);
  }

  /** Begin timing: the principal portion is the whole payment; interest is charged on the reduced balance. */
  lemma BeginTimingRow(p: AmortizationParams, i: nat)
    requires ScheduleDefined(p) && p.timing == Begin && i < |Schedule(p)|
    ensures var row := Schedule(p)[i];
            var previous := BalanceBefore(p.principal, Schedule(p), i);
            && row.principal == row.payment
            && row.balance == Max0(previous - row.payment)
            && row.interest == p.ratePerPeriod * row.balance
  {
    ScheduleRow(p, i);
  }

  /** No row's balance is negative. */
  lemma BalancesNonNegative(p: AmortizationParams)
    requires ScheduleDefined(p)
    ensures forall i :: 0 <= i < |Schedule(p)| ==> Schedule(p)[i].balance >= 0.0
  {
    forall i | 0 <= i < |Schedule(p)| ensures Schedule(p)[i].balance >= 0.0 {
      ScheduleRow(p, i);
    }
  }

  /** Rows paying nothing on a zero balance stay at zero. */
  lemma {:induction false} ZeroRows(rate: real, timing: Timing, period: int, count: nat)
    ensures forall i :: 0 <= i < |Rows(rate, 0.0, timing, 0.0, period, count)| ==>
              var row := Rows(rate, 0.0, timing, 0.0, period, count)[i];
              row.payment == 0.0 && row.interest == 0.0 && row.principal == 0.0 && row.balance == 0.0
    decreases count
  {
    if count > 0 {
      ZeroRows(rate, timing, period + 1, count - 1);
    }
  }

  /** A loan of nothing: every payment, interest charge and balance is 0. */
  lemma ZeroPrincipalSchedule(p: AmortizationParams)
    requires ScheduleDefined(p) && p.principal == 0.0 && p.futureValue == 0.0 && p.payment.None?
    ensures forall i :: 0 <= i < |Schedule(p)| ==>
              Schedule(p)[i].payment == 0.0 && Schedule(p)[i].interest == 0.0 && Schedule(p)[i].balance == 0.0
  {
    if p.totalPayments > 0 {
      var pay := PaymentAmount(p);
      if p.ratePerPeriod == 0.0 {
        assert pay * (p.totalPayments as real) == 0.0;
      } else {
        assert pay * PmtDenominator(p.ratePerPeriod, p.totalPayments, p.timing) == 0.0;
      }
      assert pay == 0.0;
      ZeroRows(p.ratePerPeriod, p.timing, 1, p.totalPayments);
    }
  }

  /** One end-timing period from a balance in [0, cap] with a payment covering the interest on `cap`. */
  lemma EndStepNonIncreasing(rate: real, payment: real, balance: real, cap: real, period: int)
    requires rate >= 0.0 && 0.0 <= balance <= cap && payment >= rate * cap
    ensures 0.0 <= StepRow(rate, payment, End, balance, period).balance <= balance
  {
    assert rate * (cap - balance) >= 0.0;
  }

  lemma EndRowNonIncreasing(p: AmortizationParams, i: nat)
    requires ScheduleDefined(p) && p.timing == End && p.ratePerPeriod >= 0.0 && i < |Schedule(p)|
    requires 0.0 <= BalanceBefore(p.principal, Schedule(p), i) <= p.principal
    requires p.totalPayments > 0 ==> PaymentAmount(p) >= p.ratePerPeriod * p.principal
    ensures 0.0 <= Schedule(p)[i].balance <= BalanceBefore(p.principal, Schedule(p), i)
  {
    ScheduleRow(p, i);
    EndStepNonIncreasing(p.ratePerPeriod, PaymentAmount(p), BalanceBefore(p.principal, Schedule(p), i), p.principal, i + 1);
  }

  /**
   * With end timing and a non-negative rate, a payment that covers the first
   * period's interest keeps the balance from ever rising.
   */
  lemma BalanceNonIncreasing(p: AmortizationParams)
    requires ScheduleDefined(p) && p.timing == End && p.ratePerPeriod >= 0.0 && p.principal >= 0.0
    requires p.totalPayments > 0 ==> PaymentAmount(p) >= p.ratePerPeriod * p.principal
    ensures forall i :: 0 <= i < |Schedule(p)| ==>
              Schedule(p)[i].balance <= BalanceBefore(p.principal, Schedule(p), i)
  {
    var s := Schedule(p);
    ScheduleShape(p);
    if s == [] {
      return;
    }
    var k := 0;
    while k < |s|
      invariant 0 <= k <= |s|
      invariant forall i :: 0 <= i < k ==> s[i].balance <= BalanceBefore(p.principal, s, i)
      invariant 0.0 <= BalanceBefore(p.principal, s, k) <= p.principal
    {
      EndRowNonIncreasing(p, k);
      assert BalanceBefore(p.principal, s, k + 1) == s[k].balance;
      k := k + 1;
    }
  }

  lemma {:induction false} PowAboveOne(x: real, k: nat)
    requires x > 1.0 && k >= 1
    ensures Pow(x, k) > 1.0
  {
    if k > 1 {
      PowAboveOne(x, k - 1);
      assert x * Pow(x, k - 1) > 1.0 * Pow(x, k - 1);
    }
  }

  /**
   * The calculators' loans (no override, future value 0, end timing) at a
   * non-negative rate: PMT is defined and pays at least the first period's
   * interest, so their balances never rise.
   */
  lemma StandardLoanCoversInterest(principal: real, rate: real, n: int)
    requires principal >= 0.0 && rate >= 0.0 && n > 0
    ensures ScheduleDefined(StandardLoan(principal, rate, n))
    ensures PaymentAmount(StandardLoan(principal, rate, n)) >= rate * principal
  {
    if rate > 0.0 {
      PowAboveOne(1.0 + rate, n);
      var pw := Pow(1.0 + rate, n);
      assert PmtDenominator(rate, n, End) == pw - 1.0;
      var pay := Pmt(rate, n, principal, 0.0, End);
      assert pay * (pw - 1.0) == rate * principal * pw;
      assert rate * principal >= 0.0;
      assert (pay - rate * principal) * (pw - 1.0) == rate * principal;
    } else {
      var pay := Pmt(rate, n, principal, 0.0, End);
      assert pay * (n as real) == principal;
    }
  }

  /** The balance of a calculator's loan schedule never rises at a non-negative rate. */
  lemma StandardLoanBalanceNonIncreasing(principal: real, rate: real, n: int)
    requires principal >= 0.0 && rate >= 0.0
    ensures ScheduleDefined(StandardLoan(principal, rate, n))
    ensures var p := StandardLoan(principal, rate, n);
            forall i :: 0 <= i < |Schedule(p)| ==> Schedule(p)[i].balance <= BalanceBefore(principal, Schedule(p), i)
  {
    if n > 0 {
      StandardLoanCoversInterest(principal, rate, n);
    }
    BalanceNonIncreasing(StandardLoan(principal, rate, n));
  }

  /** With a zero rate and a non-negative principal and future value, the last balance is exactly 0. */
  lemma ZeroRateFinalBalance(p: AmortizationParams)
    requires p.ratePerPeriod == 0.0 && p.payment.None? && p.totalPayments > 0
    requires p.principal >= 0.0 && p.futureValue >= 0.0
    ensures ScheduleDefined(p)
    ensures Schedule(p)[|Schedule(p)| - 1].balance == 0.0
  {
    var s := Schedule(p);
    var n := p.totalPayments;
    var pay := PaymentAmount(p);
    assert pay * (n as real) == p.principal + p.futureValue;
    assert pay >= 0.0;
    ScheduleShape(p);
    var k := 0;
    while k < n
      invariant 0 <= k <= n
      invariant BalanceBefore(p.principal, s, k) == Max0(p.principal - (k as real) * pay)
    {
      ScheduleRow(p, k);
      k := k + 1;
    }
    assert p.principal - (n as real) * pay <= 0.0;
  }

  /** The interest part of period `k` (1-based); 0 outside 1..n. */
  function Ipmt(rate: real, k: int, n: int, presentValue: real, futureValue: real, timing: Timing): (r: real)
    requires 1 <= k <= n ==> PmtDefined(rate, n, timing)
    ensures (k < 1 || k > n) ==> r == 0.0
  {
    if k < 1 || k > n then 0.0
    else
      var schedule := Schedule(AmortizationParams(presentValue, rate, n, None, futureValue, timing));
      if k - 1 < |schedule| then schedule[k - 1].interest else 0.0
  }

  /** The principal part of period `k` (1-based); 0 when the schedule has no such row. */
  function Ppmt(rate: real, k: int, n: int, presentValue: real, futureValue: real, timing: Timing): (r: real)
    requires 1 <= k <= n ==> PmtDefined(rate, n, timing)
    ensures (k < 1 || k > n) ==> r == 0.0
  {
    if k < 1 || k > n then 0.0
    else
      var schedule := Schedule(AmortizationParams(presentValue, rate, n, None, futureValue, timing));
      ScheduleShape(AmortizationParams(presentValue, rate, n, None, futureValue, timing));
      if k <= |schedule| then schedule[k - 1].principal else 0.0
  }

  /** For an in-range period with end timing, the two portions add up to the payment. */
  lemma IpmtPlusPpmt(rate: real, k: int, n: int, presentValue: real, futureValue: real)
    requires PmtDefined(rate, n, End) && 1 <= k <= n
    ensures Ipmt(rate, k, n, presentValue, futureValue, End) + Ppmt(rate, k, n, presentValue, futureValue, End)
            == Pmt(rate, n, presentValue, futureValue, End)
  {
    var p := AmortizationParams(presentValue, rate, n, None, futureValue, End);
    ScheduleShape(p);
    EndTimingRow(p, k - 1);
  }
}
