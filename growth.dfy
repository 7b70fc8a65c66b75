/**
 * Rent escalation and property appreciation by month. The buy-hold and
 * BRRRR calculators each carry identical copies of `rentForMonth` and
 * `propertyValueForMonth`, and the flip calculator one of
 * `propertyValueForMonth` only; this module defines each once.
 */
module Growth {
  import opened Finance

  /** The 0-based year that month `monthIndex` (1-based) falls in: `Math.floor((m - 1) / 12)`. */
  function YearIndex(monthIndex: int): nat
    requires monthIndex >= 1
  {
    (monthIndex - 1) / 12
  }

  /** Rent in annual steps: the base rent grown by the annual rate once per completed year. */
  function RentForMonth(baseRent: real, annualIncreaseRate: real, monthIndex: int): (r: real)
    requires monthIndex >= 1
    ensures monthIndex <= 12 ==> r == baseRent
  {
    baseRent * Pow(1.0 + annualIncreaseRate, YearIndex(monthIndex))
  }

  /** Value compounded monthly from the starting value; month 1 carries the starting value itself. */
  function PropertyValueForMonth(startValue: real, monthlyAppreciationRate: real, monthIndex: int): (r: real)
    requires monthIndex >= 1
    ensures monthIndex == 1 ==> r == startValue
  {
    startValue * Pow(1.0 + monthlyAppreciationRate, monthIndex - 1)
  }

  /** Rent is a step function: months of the same 12-month block pay the same rent. */
  lemma RentConstantWithinYear(baseRent: real, rate: real, m1: int, m2: int)
    requires m1 >= 1 && m2 >= 1 && YearIndex(m1) == YearIndex(m2)
    ensures RentForMonth(baseRent, rate, m1) == RentForMonth(baseRent, rate, m2)
  {
  }

  /** Twelve months later the rent has grown by exactly one annual step. */
  lemma RentEscalatesYearly(baseRent: real, rate: real, m: int)
    requires m >= 1
    ensures RentForMonth(baseRent, rate, m + 12) == RentForMonth(baseRent, rate, m) * (1.0 + rate)
  {
    var k := YearIndex(m);
    assert YearIndex(m + 12) == k + 1;
    PowAdd(1.0 + rate, k, 1);
  }

  /** `k` years later the rent has grown by `k` annual steps. */
  lemma RentAfterYears(baseRent: real, rate: real, m: int, k: nat)
    requires m >= 1
    ensures RentForMonth(baseRent, rate, m + 12 * k) == RentForMonth(baseRent, rate, m) * Pow(1.0 + rate, k)
  {
    assert YearIndex(m + 12 * k) == YearIndex(m) + k;
    PowAdd(1.0 + rate, YearIndex(m), k);
  }

  /** One month later the value has grown by one monthly factor. */
  lemma ValueCompoundsMonthly(startValue: real, rate: real, m: int)
    requires m >= 1
    ensures PropertyValueForMonth(startValue, rate, m + 1) == PropertyValueForMonth(startValue, rate, m) * (1.0 + rate)
  {
    PowAdd(1.0 + rate, m - 1, 1);
  }

  lemma {:induction false} PowOne(k: nat)
    ensures Pow(1.0, k) == 1.0
  {
    if k > 0 {
      PowOne(k - 1);
    }
  }

  /** With no growth, rent and value stay at their starting amounts. */
  lemma ZeroGrowthIsFlat(baseRent: real, startValue: real, m: int)
    requires m >= 1
    ensures RentForMonth(baseRent, 0.0, m) == baseRent
    ensures PropertyValueForMonth(startValue, 0.0, m) == startValue
  {
    PowOne(YearIndex(m));
    PowOne(m - 1);
  }
}
