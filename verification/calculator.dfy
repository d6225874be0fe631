/**
  The savings calculator: a principal compounded once a year at a flat rate,
  with a fixed deposit added each month, projected for the three risk tiers.
  Arithmetic is over `real`; the page computes in doubles, so its figures
  agree with these only up to floating-point rounding.
 */
module Calculator {

  import opened Options
  import opened Js

  const ConservativeRate: real := 0.04
  const ModerateRate: real := 0.065
  const AggressiveRate: real := 0.085
  const MonthsPerYear: nat := 12

  /** The three projected end balances, one per risk tier. */
  datatype Projection = Projection(conservative: int, moderate: int, aggressive: int)

  function Pow(b: real, n: nat): real {
    if n == 0 then 1.0 else Pow(b, n - 1) * b
  }

  /** 1 + b + b^2 + ... + b^(n-1). */
  function PowSum(b: real, n: nat): real {
    if n == 0 then 0.0 else PowSum(b, n - 1) * b + 1.0
  }

  /**
    Balance after `n` whole years: each year the balance is multiplied by
    `1 + rate` and then a year's worth of monthly deposits is added.
   */
  function Grow(principal: real, rate: real, n: nat, monthly: real): real {
    if n == 0 then principal
    else Grow(principal, rate, n - 1, monthly) * (1.0 + rate) + (MonthsPerYear as real) * monthly
  }

  /**
    How often `for (year = 0; year < years; year++)` runs for a real `years`:
    the least natural number that is not below `years`.
   */
  function LoopYears(years: real): (n: nat)
    ensures years <= n as real
    ensures n > 0 ==> ((n - 1) as real) < years
  {
    if years <= 0.0 then 0 else -((-years).Floor)
  }

  /** `Math.round`: the nearest integer, halves rounded upwards. */
  function Round(x: real): (r: int)
    ensures x - 0.5 < r as real <= x + 0.5
  {
    (x + 0.5).Floor
  }

  /** The rounded balance `calculateFinal` reports. */
  function Projected(principal: real, rate: real, years: real, monthly: real): int {
    Round(Grow(principal, rate, LoopYears(years), monthly))
  }

  /** Any count of loop iterations that stops exactly when `year < years` first fails is `LoopYears(years)`. */
  lemma LoopYearsUnique(years: real, n: nat)
    requires years <= n as real
    requires n > 0 ==> ((n - 1) as real) < years
    ensures n == LoopYears(years)
  {
  }

  /** The nested loop of `calculateFinal`: yearly growth, then twelve monthly deposits. */
  method CalculateFinal(principal: real, rate: real, years: real, monthly: real) returns (r: int)
    ensures r == Projected(principal, rate, years, monthly)
  {
    var result := principal;
    var year: nat := 0;
    while (year as real) < years
      invariant year <= LoopYears(years)
      invariant year > 0 ==> ((year - 1) as real) < years
      invariant result == Grow(principal, rate, year, monthly)
      decreases LoopYears(years) - year
    {
      result := result * (1.0 + rate);
      ghost var grown := result;
      var month := 0;
      while month < MonthsPerYear
        invariant 0 <= month <= MonthsPerYear
        invariant result == grown + (month as real) * monthly
      {
        result := result + monthly;
        month := month + 1;
      }
      year := year + 1;
    }
    LoopYearsUnique(years, year);
    r := Round(result);
  }

  /**
    The calculate button. Empty or unparsable fields fall back to amount 0,
    one year and no monthly deposit; a non-positive amount is refused.
   */
  method CalculateStrategies(amountField: Float, yearsField: Float, monthlyField: Float)
    returns (r: Option<Projection>)
    ensures r.None? <==> FloatOr(amountField, 0.0) <= 0.0
    ensures r.Some? ==>
      var amount, years, monthly := FloatOr(amountField, 0.0), FloatOr(yearsField, 1.0), FloatOr(monthlyField, 0.0);
      r.value == Projection(
        Projected(amount, ConservativeRate, years, monthly),
        Projected(amount, ModerateRate, years, monthly),
        Projected(amount, AggressiveRate, years, monthly))
    ensures r.Some? && FloatOr(monthlyField, 0.0) >= 0.0 ==>
      r.value.conservative <= r.value.moderate <= r.value.aggressive
  {
    var amount := FloatOr(amountField, 0.0);
    var years := FloatOr(yearsField, 1.0);
    var monthly := FloatOr(monthlyField, 0.0);
    if amount <= 0.0 {
      return None;
    }
    var conservative := CalculateFinal(amount, ConservativeRate, years, monthly);
    var moderate := CalculateFinal(amount, ModerateRate, years, monthly);
    var aggressive := CalculateFinal(amount, AggressiveRate, years, monthly);
    if monthly >= 0.0 {
      ProjectedMonotoneInRate(amount, ConservativeRate, ModerateRate, years, monthly);
      ProjectedMonotoneInRate(amount, ModerateRate, AggressiveRate, years, monthly);
    }
    r := Some(Projection(conservative, moderate, aggressive));
  }

  /** With a non-negative start and deposits and a rate above -100%, the balance never goes negative. */
  lemma {:induction false} GrowNonNegative(principal: real, rate: real, n: nat, monthly: real)
    requires principal >= 0.0 && monthly >= 0.0 && rate >= -1.0
    ensures Grow(principal, rate, n, monthly) >= 0.0
  {
    if n > 0 {
      GrowNonNegative(principal, rate, n - 1, monthly);
      ScaleMonotone(0.0, Grow(principal, rate, n - 1, monthly), 1.0 + rate);
    }
  }

  /** Multiplying by a non-negative factor preserves order. */
  lemma ScaleMonotone(x: real, y: real, c: real)
    requires x <= y && c >= 0.0
    ensures x * c <= y * c && c * x <= c * y
  {
    assert (y - x) * c >= 0.0;
  }

  /** A higher rate never yields a lower balance. */
  lemma {:induction false} GrowMonotoneInRate(principal: real, low: real, high: real, n: nat, monthly: real)
    requires principal >= 0.0 && monthly >= 0.0
    requires -1.0 <= low <= high
    ensures Grow(principal, low, n, monthly) <= Grow(principal, high, n, monthly)
  {
    if n > 0 {
      GrowMonotoneInRate(principal, low, high, n - 1, monthly);
      GrowNonNegative(principal, low, n - 1, monthly);
      var a := Grow(principal, low, n - 1, monthly);
      var b := Grow(principal, high, n - 1, monthly);
      ScaleMonotone(1.0 + low, 1.0 + high, a);
      ScaleMonotone(a, b, 1.0 + high);
    }
  }

  /** Rounding preserves order. */
  lemma RoundMonotone(x: real, y: real)
    requires x <= y
    ensures Round(x) <= Round(y)
  {
  }

  /** The projections are ordered by rate whenever the deposit is not a withdrawal. */
  lemma ProjectedMonotoneInRate(principal: real, low: real, high: real, years: real, monthly: real)
    requires principal >= 0.0 && monthly >= 0.0
    requires -1.0 <= low <= high
    ensures Projected(principal, low, years, monthly) <= Projected(principal, high, years, monthly)
  {
    GrowMonotoneInRate(principal, low, high, LoopYears(years), monthly);
    RoundMonotone(Grow(principal, low, LoopYears(years), monthly), Grow(principal, high, LoopYears(years), monthly));
  }

  /** Closed form of the yearly recurrence: compounded principal plus compounded deposits. */
  lemma {:induction false} GrowClosedForm(principal: real, rate: real, n: nat, monthly: real)
    ensures Grow(principal, rate, n, monthly)
      == principal * Pow(1.0 + rate, n) + (MonthsPerYear as real) * monthly * PowSum(1.0 + rate, n)
  {
    if n > 0 {
      GrowClosedForm(principal, rate, n - 1, monthly);
      var b := 1.0 + rate;
      var d := (MonthsPerYear as real) * monthly;
      var p := Pow(b, n - 1);
      var q := PowSum(b, n - 1);
      assert Grow(principal, rate, n, monthly) == (principal * p + d * q) * b + d;
      ExpandStep(principal, p, d, q, b);
    }
  }

  /** The algebra of one step of the closed form. */
  lemma ExpandStep(principal: real, p: real, d: real, q: real, b: real)
    ensures (principal * p + d * q) * b + d == principal * (p * b) + d * (q * b + 1.0)
  {
    assert (principal * p + d * q) * b == (principal * p) * b + (d * q) * b;
    assert (principal * p) * b == principal * (p * b);
    assert (d * q) * b == d * (q * b);
  }

  /** Without deposits and with a whole number of years, the result is the rounded compound interest. */
  lemma NoDepositsIsCompoundInterest(principal: real, rate: real, n: nat)
    ensures Projected(principal, rate, n as real, 0.0) == Round(principal * Pow(1.0 + rate, n))
  {
    LoopYearsUnique(n as real, n);
    GrowClosedForm(principal, rate, n, 0.0);
  }

  /** One year of 1000 at 6.5% without deposits gives 1065. */
  lemma OneYearModerateExample()
    ensures Projected(1000.0, ModerateRate, 1.0, 0.0) == 1065
  {
    assert LoopYears(1.0) == 1;
  }

}
