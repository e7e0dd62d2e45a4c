/** The escalation projection engine: a monthly amount that grows at the
    monthly equivalent of an annual rate, summed over a horizon of whole
    years (`sumSeries`) or read off at the last month of a year
    (`monthAtEndOfYear`). */
module Projection {
  import opened Inputs

  /** Upper clamp on the starting monthly amount (1e12). */
  const MaxMonthly: real := 1_000_000_000_000.0

  /** x^n for a natural exponent. */
  function Pow(x: real, n: nat): real
  {
    if n == 0 then 1.0 else x * Pow(x, n - 1)
  }

  lemma {:induction false} PowAdd(x: real, a: nat, b: nat)
    ensures Pow(x, a + b) == Pow(x, a) * Pow(x, b)
  {
    if a > 0 {
      PowAdd(x, a - 1, b);
      calc {
        Pow(x, a + b);
        x * Pow(x, (a - 1) + b);
        x * (Pow(x, a - 1) * Pow(x, b));
        (x * Pow(x, a - 1)) * Pow(x, b);
      }
    }
  }

  lemma {:induction false} PowMul(x: real, a: nat, b: nat)
    ensures Pow(x, a * b) == Pow(Pow(x, a), b)
  {
    if b > 0 {
      PowMul(x, a, b - 1);
      PowAdd(x, a, a * (b - 1));
      assert a * b == a + a * (b - 1);
    }
  }

  lemma {:induction false} PowOne(n: nat)
    ensures Pow(1.0, n) == 1.0
  {
    if n > 0 { PowOne(n - 1); }
  }

  lemma {:induction false} PowPositive(x: real, n: nat)
    requires x >= 0.0
    ensures Pow(x, n) >= 0.0
    ensures x > 0.0 ==> Pow(x, n) > 0.0
  {
    if n > 0 {
      PowPositive(x, n - 1);
      if x > 0.0 {
        assert x * Pow(x, n - 1) > 0.0;
      }
    }
  }

  /** Raising to a positive power keeps a base on the same side of 1. */
  lemma {:induction false} PowVersusOne(x: real, n: nat)
    requires x >= 0.0 && n >= 1
    ensures x > 1.0 ==> Pow(x, n) > 1.0
    ensures x < 1.0 ==> Pow(x, n) < 1.0
  {
    if n > 1 {
      PowVersusOne(x, n - 1);
      PowPositive(x, n - 1);
      if x > 1.0 {
        assert x * Pow(x, n - 1) > 1.0 * Pow(x, n - 1);
      } else if x < 1.0 {
        assert x * Pow(x, n - 1) <= 1.0 * Pow(x, n - 1);
      }
    }
  }

  /** `root` is a non-negative twelfth root of `base`: the value that
      `Math.pow(base, 1/12)` approximates. */
  ghost predicate IsTwelfthRoot(root: real, base: real)
  {
    0.0 <= root && Pow(root, 12) == base
  }

  /** `annualToMonthlyRate(rAnnual)`: 0 when the coerced rate is 0 (a
      non-finite rate is coerced to 0), otherwise `(1 + r)^(1/12) - 1`, where
      the caller supplies `root` for `Math.pow(1 + r, 1/12)`. With an exact
      root, compounding the monthly rate for twelve months reproduces the
      annual rate. */
  function AnnualToMonthlyRate(rAnnual: NumberInput, root: real): (rm: real)
    ensures rAnnual.None? || rAnnual.value == 0.0 ==> rm == 0.0
    ensures rAnnual.Some? && IsTwelfthRoot(root, 1.0 + rAnnual.value) ==>
              Pow(1.0 + rm, 12) == 1.0 + rAnnual.value
  {
    var r := ToNum(rAnnual, 0.0);
    if r == 0.0 then
      PowOne(12);
      0.0
    else
      root - 1.0
  }

  /** With an exact twelfth root, the monthly rate has the sign of the annual
      rate, stays above -1 when the annual rate does, and the zero-rate
      shortcut agrees with the general formula. */
  lemma {:induction false} MonthlyRateSign(r: real, root: real)
    requires IsTwelfthRoot(root, 1.0 + r)
    ensures AnnualToMonthlyRate(Some(r), root) >= 0.0 <==> r >= 0.0
    ensures AnnualToMonthlyRate(Some(r), root) == 0.0 <==> r == 0.0
    ensures r > -1.0 ==> AnnualToMonthlyRate(Some(r), root) > -1.0
    ensures r == 0.0 ==> root == 1.0
  {
    PowVersusOne(root, 12);
    PowPositive(root, 12);
    PowOne(12);
  }

  /** The starting amount: `clamp(toNum(month0, 0), 0, 1e12)`. */
  function MonthBase(month0: NumberInput): (m0: real)
    ensures 0.0 <= m0 <= MaxMonthly
    ensures month0.None? ==> m0 == 0.0
    ensures month0.Some? && 0.0 <= month0.value <= MaxMonthly ==> m0 == month0.value
  {
    Clamp(ToNum(month0, 0.0), 0.0, MaxMonthly)
  }

  /** The horizon: `clamp(parseInt(years, 10) || 1, 1, 30)`; NaN and 0 both
      become 1. */
  function Horizon(years: Option<int>): (y: int)
    ensures 1 <= y <= 30
    ensures years.None? || years.value == 0 ==> y == 1
    ensures years.Some? && 1 <= years.value <= 30 ==> y == years.value
  {
    var n := if years.None? || years.value == 0 then Some(1) else years;
    ClampInt(n, 1, 30).value
  }

  /** The amount of month j (counting from 0): m0 * (1 + rm)^j. */
  function MonthTerm(m0: real, rm: real, j: nat): real
  {
    m0 * Pow(1.0 + rm, j)
  }

  /** The sum of the first n monthly terms. */
  function SeriesSum(m0: real, rm: real, n: nat): real
  {
    if n == 0 then 0.0 else SeriesSum(m0, rm, n - 1) + MonthTerm(m0, rm, n - 1)
  }

  /** What `sumSeries(month0, rAnnual, years)` returns: the sum of the first
      12 * Y monthly terms. */
  function SumSeriesSpec(month0: NumberInput, rAnnual: NumberInput, years: Option<int>, root: real): real
  {
    SeriesSum(MonthBase(month0), AnnualToMonthlyRate(rAnnual, root), 12 * Horizon(years))
  }

  /** `sumSeries`: accumulate Y * 12 monthly terms, each one (1 + rm) times
      the one before. */
  method SumSeries(month0: NumberInput, rAnnual: NumberInput, years: Option<int>, root: real)
    returns (total: real)
    ensures total == SumSeriesSpec(month0, rAnnual, years, root)
  {
    var m0 := MonthBase(month0);
    var y := Horizon(years);
    var rm := AnnualToMonthlyRate(rAnnual, root);

    total := 0.0;
    var m := m0;
    for i := 0 to y * 12
      invariant total == SeriesSum(m0, rm, i)
      invariant m == MonthTerm(m0, rm, i)
    {
      total := total + m;
      MonthTermStep(m0, rm, i);
      m := m * (1.0 + rm);
    }
  }

  /** `monthAtEndOfYear`: the amount of month Y * 12, after Y * 12 - 1
      escalations. It is never negative when the growth factor is not, and
      with a positive growth factor it is zero only for a zero starting
      amount. */
  function MonthAtEndOfYear(month0: NumberInput, rAnnual: NumberInput, year: Option<int>, root: real): (r: real)
    ensures root >= 0.0 ==> r >= 0.0
    ensures root > 0.0 ==> (r == 0.0 <==> MonthBase(month0) == 0.0)
  {
    var m0 := MonthBase(month0);
    var y := Horizon(year);
    var rm := AnnualToMonthlyRate(rAnnual, root);
    var months := y * 12 - 1;
    var p := Pow(1.0 + rm, months);
    assert root >= 0.0 ==> p >= 0.0 by {
      if root >= 0.0 { PowPositive(1.0 + rm, months); }
    }
    assert root > 0.0 ==> p > 0.0 by {
      if root > 0.0 { PowPositive(1.0 + rm, months); }
    }
    m0 * p
  }

  /** The snapshot is exactly the last term `sumSeries` adds for the same
      inputs: the total of Y * 12 months minus the total of the months before. */
  lemma {:induction false} SnapshotIsLastTerm(month0: NumberInput, rAnnual: NumberInput, year: Option<int>, root: real)
    ensures MonthAtEndOfYear(month0, rAnnual, year, root)
            == SumSeriesSpec(month0, rAnnual, year, root)
               - SeriesSum(MonthBase(month0), AnnualToMonthlyRate(rAnnual, root), 12 * Horizon(year) - 1)
  {
  }

  /** The snapshot of an amount within the clamp is that amount times the
      escalation factor of month Y * 12. */
  lemma {:induction false} SnapshotScales(m: real, rAnnual: NumberInput, year: Option<int>, root: real)
    requires 0.0 <= m <= MaxMonthly
    ensures MonthAtEndOfYear(Some(m), rAnnual, year, root)
            == m * Pow(1.0 + AnnualToMonthlyRate(rAnnual, root), 12 * Horizon(year) - 1)
  {
  }

  lemma {:induction false} MonthTermStep(m0: real, rm: real, i: nat)
    ensures MonthTerm(m0, rm, i) * (1.0 + rm) == MonthTerm(m0, rm, i + 1)
  {
    assert MonthTerm(m0, rm, i + 1) == m0 * ((1.0 + rm) * Pow(1.0 + rm, i));
  }

  /** With a zero rate the series degenerates to m0 * n. */
  lemma {:induction false} SeriesSumZeroRate(m0: real, n: nat)
    ensures SeriesSum(m0, 0.0, n) == m0 * (n as real)
  {
    if n > 0 {
      SeriesSumZeroRate(m0, n - 1);
      PowOne(n - 1);
    }
  }

  /** The finite geometric series: S * rm == m0 * ((1 + rm)^n - 1). */
  lemma {:induction false} SeriesSumClosedForm(m0: real, rm: real, n: nat)
    ensures SeriesSum(m0, rm, n) * rm == m0 * (Pow(1.0 + rm, n) - 1.0)
  {
    if n > 0 {
      SeriesSumClosedForm(m0, rm, n - 1);
      var p := Pow(1.0 + rm, n - 1);
      calc {
        SeriesSum(m0, rm, n) * rm;
        SeriesSum(m0, rm, n - 1) * rm + m0 * p * rm;
        m0 * (p - 1.0) + m0 * p * rm;
        m0 * ((1.0 + rm) * p - 1.0);
      }
    }
  }

  /** The series is linear in its starting amount. */
  lemma {:induction false} SeriesSumScales(m0: real, rm: real, n: nat)
    ensures SeriesSum(m0, rm, n) == m0 * SeriesSum(1.0, rm, n)
  {
    if n > 0 {
      SeriesSumScales(m0, rm, n - 1);
    }
  }

  /** With non-negative terms, adding months never lowers the total, and with
      positive terms it raises it. */
  lemma {:induction false} SeriesSumGrows(m0: real, rm: real, n: nat, k: nat)
    requires m0 >= 0.0 && rm >= -1.0
    ensures SeriesSum(m0, rm, n) <= SeriesSum(m0, rm, n + k)
    ensures m0 > 0.0 && rm > -1.0 && k > 0 ==> SeriesSum(m0, rm, n) < SeriesSum(m0, rm, n + k)
  {
    if k > 0 {
      SeriesSumGrows(m0, rm, n, k - 1);
      PowPositive(1.0 + rm, n + k - 1);
      if m0 > 0.0 && rm > -1.0 {
        assert MonthTerm(m0, rm, n + k - 1) > 0.0;
      } else {
        assert MonthTerm(m0, rm, n + k - 1) >= 0.0;
      }
    }
  }

  /** The series of a positive amount with 1 + rm >= 0 is at least its first term. */
  lemma {:induction false} SeriesSumAtLeastFirst(m0: real, rm: real, n: nat)
    requires m0 >= 0.0 && rm >= -1.0 && n >= 1
    ensures SeriesSum(m0, rm, n) >= m0
  {
    SeriesSumGrows(m0, rm, 1, n - 1);
  }

  /** `sumSeries(m, 0, Y) == m * 12 * Y`; a missing rate behaves the same. */
  lemma {:induction false} SumSeriesZeroRate(month0: NumberInput, rAnnual: NumberInput, years: Option<int>, root: real)
    requires rAnnual.None? || rAnnual.value == 0.0
    ensures SumSeriesSpec(month0, rAnnual, years, root) == MonthBase(month0) * 12.0 * (Horizon(years) as real)
  {
    SeriesSumZeroRate(MonthBase(month0), 12 * Horizon(years));
  }

  /** The monthly-compounded total equals the annual geometric series:
      total * rm == m0 * ((1 + r)^Y - 1). */
  lemma {:induction false} SumSeriesAnnualClosedForm(month0: NumberInput, r: real, years: Option<int>, root: real)
    requires IsTwelfthRoot(root, 1.0 + r)
    ensures SumSeriesSpec(month0, Some(r), years, root) * AnnualToMonthlyRate(Some(r), root)
            == MonthBase(month0) * (Pow(1.0 + r, Horizon(years)) - 1.0)
  {
    var rm := AnnualToMonthlyRate(Some(r), root);
    var y := Horizon(years);
    var m0 := MonthBase(month0);
    SeriesSumClosedForm(m0, rm, 12 * y);
    assert Pow(1.0 + rm, 12) == 1.0 + r;
    assert Pow(1.0 + rm, 12 * y) == Pow(1.0 + r, y) by {
      PowMul(1.0 + rm, 12, y);
    }
  }

  /** `sumSeries` is non-negative and non-decreasing in the horizon whenever
      `Math.pow` gave a non-negative root, and strictly increasing for a
      positive starting amount and a positive root. */
  lemma {:induction false} SumSeriesMonotoneInYears(month0: NumberInput, rAnnual: NumberInput, root: real, y1: int, y2: int)
    requires root >= 0.0
    requires 1 <= y1 <= y2 <= 30
    ensures 0.0 <= SumSeriesSpec(month0, rAnnual, Some(y1), root) <= SumSeriesSpec(month0, rAnnual, Some(y2), root)
    ensures root > 0.0 && MonthBase(month0) > 0.0 && y1 < y2 ==>
              SumSeriesSpec(month0, rAnnual, Some(y1), root) < SumSeriesSpec(month0, rAnnual, Some(y2), root)
  {
    var m0 := MonthBase(month0);
    var rm := AnnualToMonthlyRate(rAnnual, root);
    SeriesSumGrows(m0, rm, 0, 12 * y1);
    SeriesSumGrows(m0, rm, 12 * y1, 12 * (y2 - y1));
  }

  /** For the first year the snapshot is month 12, eleven escalations in. */
  lemma {:induction false} SnapshotFirstYear(month0: NumberInput, rAnnual: NumberInput, root: real)
    ensures MonthAtEndOfYear(month0, rAnnual, Some(1), root)
            == MonthBase(month0) * Pow(1.0 + AnnualToMonthlyRate(rAnnual, root), 11)
  {
  }

  /** With no escalation the snapshot is the starting amount in every year. */
  lemma {:induction false} SnapshotZeroRate(month0: NumberInput, rAnnual: NumberInput, year: Option<int>, root: real)
    requires rAnnual.None? || rAnnual.value == 0.0
    ensures MonthAtEndOfYear(month0, rAnnual, year, root) == MonthBase(month0)
  {
    PowOne(12 * Horizon(year) - 1);
  }

  /** From one year's snapshot to the next the amount grows by exactly the
      annual rate. */
  lemma {:induction false} SnapshotAnnualGrowth(month0: NumberInput, r: real, y: int, root: real)
    requires IsTwelfthRoot(root, 1.0 + r)
    requires 1 <= y < 30
    ensures MonthAtEndOfYear(month0, Some(r), Some(y + 1), root)
            == MonthAtEndOfYear(month0, Some(r), Some(y), root) * (1.0 + r)
  {
    var rm := AnnualToMonthlyRate(Some(r), root);
    PowAdd(1.0 + rm, 12 * y - 1, 12);
    assert 12 * (y + 1) - 1 == (12 * y - 1) + 12;
  }

  /** A zero-escalation solar payment of 150 over 25 years totals 45000. */
  lemma {:induction false} SolarTotalScenario(root: real)
    ensures SumSeriesSpec(Some(150.0), Some(0.0), Some(25), root) == 45000.0
  {
    SumSeriesZeroRate(Some(150.0), Some(0.0), Some(25), root);
  }
}
