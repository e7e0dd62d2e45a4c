/** The main solar-savings calculator (`recalcMain`): two projections, one
    for the utility bill and one for the solar payment, differenced into a
    cumulative saving and a snapshot saving. The snapshot is not floored at
    zero, so an unfavourable outcome shows as a negative saving. */
module Savings {
  import opened Inputs
  import opened Projection

  /** Upper clamp on the bill and the solar payment (1e9). */
  const MaxAmount: real := 1_000_000_000.0

  /** Default annual escalation of the utility bill when its field is absent. */
  const DefaultUtilityEscalation: real := 0.09

  /** The figures `recalcMain` displays. `years` is `None` when the horizon
      field holds text `parseInt` rejects: the clamp lets that NaN through. */
  datatype MainResult = MainResult(
    years: Option<int>,
    utilTotal: real,
    solarTotal: real,
    savings: real,
    monthlyUtility: real,
    monthlySolar: real,
    monthlySavings: real,
    annualSavings: real)

  /** A bill or payment field: `clamp(toNum(v, 0), 0, 1e9)`. */
  function Amount(field: NumberInput): (a: real)
    ensures 0.0 <= a <= MaxAmount
    ensures field.None? ==> a == 0.0
    ensures field.Some? && 0.0 <= field.value <= MaxAmount ==> a == field.value
  {
    Clamp(ToNum(field, 0.0), 0.0, MaxAmount)
  }

  /** The horizon field: `clamp(parseInt(value || "25", 10), 1, 30)`. */
  function Years(field: IntField): (y: Option<int>)
    ensures y.Some? <==> !field.NotANumber?
    ensures y.Some? ==> 1 <= y.value <= 30
    ensures field.Blank? ==> y == Some(25)
    ensures field.Digits? && 1 <= field.n <= 30 ==> y == Some(field.n)
    ensures field.Digits? && field.n < 1 ==> y == Some(1)
    ensures field.Digits? && field.n > 30 ==> y == Some(30)
  {
    ClampInt(ParseIntOr(field, 25), 1, 30)
  }

  /** With the same escalation on both sides, the cumulative saving has the
      sign of bill minus payment: negative exactly when the payment is higher,
      zero exactly when the two are equal. */
  lemma {:induction false} TotalSavingsSign(bill: real, solar: real, rAnnual: NumberInput, years: Option<int>, root: real)
    requires 0.0 <= bill <= MaxMonthly && 0.0 <= solar <= MaxMonthly
    requires root >= 0.0
    ensures SumSeriesSpec(Some(bill), rAnnual, years, root) - SumSeriesSpec(Some(solar), rAnnual, years, root) < 0.0
            <==> bill < solar
    ensures SumSeriesSpec(Some(bill), rAnnual, years, root) == SumSeriesSpec(Some(solar), rAnnual, years, root)
            <==> bill == solar
  {
    var rm := AnnualToMonthlyRate(rAnnual, root);
    var n := 12 * Horizon(years);
    var s1 := SeriesSum(1.0, rm, n);
    assert s1 > 0.0 by {
      SeriesSumAtLeastFirst(1.0, rm, n);
    }
    var x := SumSeriesSpec(Some(bill), rAnnual, years, root);
    var y := SumSeriesSpec(Some(solar), rAnnual, years, root);
    assert x == bill * s1 by {
      SeriesSumScales(bill, rm, n);
    }
    assert y == solar * s1 by {
      SeriesSumScales(solar, rm, n);
    }
    ScaledDifference(x, y, bill, solar, s1);
  }

  /** With the same escalation on both sides and a positive monthly growth
      factor, the snapshot saving has the sign of bill minus payment. */
  lemma {:induction false} SnapshotSavingsSign(bill: real, solar: real, rAnnual: NumberInput, years: Option<int>, root: real)
    requires 0.0 <= bill <= MaxMonthly && 0.0 <= solar <= MaxMonthly
    requires root > 0.0
    ensures MonthAtEndOfYear(Some(bill), rAnnual, years, root) - MonthAtEndOfYear(Some(solar), rAnnual, years, root) < 0.0
            <==> bill < solar
  {
    var rm := AnnualToMonthlyRate(rAnnual, root);
    var p := Pow(1.0 + rm, 12 * Horizon(years) - 1);
    assert p > 0.0 by {
      PowPositive(1.0 + rm, 12 * Horizon(years) - 1);
    }
    var x := MonthAtEndOfYear(Some(bill), rAnnual, years, root);
    var y := MonthAtEndOfYear(Some(solar), rAnnual, years, root);
    assert x == bill * p by {
      SnapshotScales(bill, rAnnual, years, root);
    }
    assert y == solar * p by {
      SnapshotScales(solar, rAnnual, years, root);
    }
    ScaledDifference(x, y, bill, solar, p);
  }

  /** Two amounts scaled by the same positive factor keep their order. */
  lemma {:induction false} ScaledDifference(x: real, y: real, b: real, c: real, s: real)
    requires s > 0.0 && x == b * s && y == c * s
    ensures x - y < 0.0 <==> b < c
    ensures x == y <==> b == c
  {
    assert x - y == (b - c) * s;
  }

  /** Without escalation the cumulative saving is 12 * Y * (bill - payment)
      and the annual snapshot saving is 12 * (bill - payment): a payment above
      the bill gives a negative saving, which is not floored at zero. */
  lemma {:induction false} ZeroRateSavings(bill: real, solar: real, years: Option<int>, root: real)
    requires 0.0 <= bill <= MaxMonthly && 0.0 <= solar <= MaxMonthly
    ensures SumSeriesSpec(Some(bill), Some(0.0), years, root) - SumSeriesSpec(Some(solar), Some(0.0), years, root)
            == 12.0 * (Horizon(years) as real) * (bill - solar)
    ensures 12.0 * (MonthAtEndOfYear(Some(bill), Some(0.0), years, root)
                    - MonthAtEndOfYear(Some(solar), Some(0.0), years, root)) == 12.0 * (bill - solar)
  {
    SumSeriesZeroRate(Some(bill), Some(0.0), years, root);
    SumSeriesZeroRate(Some(solar), Some(0.0), years, root);
    SnapshotZeroRate(Some(bill), Some(0.0), years, root);
    SnapshotZeroRate(Some(solar), Some(0.0), years, root);
  }

  /** `recalcMain`'s arithmetic. `utilRoot` and `solarRoot` stand for
      `Math.pow(1 + r, 1/12)` of the two escalation rates. */
  method RecalcMain(billField: NumberInput, solarField: NumberInput, yearsField: IntField,
                    utilEscField: NumberInput, solarEscField: NumberInput,
                    utilRoot: real, solarRoot: real)
    returns (out: MainResult)
    ensures out.years == Years(yearsField)
    ensures out.utilTotal == SumSeriesSpec(Some(Amount(billField)), Some(ToNum(utilEscField, DefaultUtilityEscalation)), out.years, utilRoot)
    ensures out.solarTotal == SumSeriesSpec(Some(Amount(solarField)), Some(ToNum(solarEscField, 0.0)), out.years, solarRoot)
    ensures out.monthlyUtility == MonthAtEndOfYear(Some(Amount(billField)), Some(ToNum(utilEscField, DefaultUtilityEscalation)), out.years, utilRoot)
    ensures out.monthlySolar == MonthAtEndOfYear(Some(Amount(solarField)), Some(ToNum(solarEscField, 0.0)), out.years, solarRoot)
    ensures out.savings == out.utilTotal - out.solarTotal
    ensures out.annualSavings == 12.0 * out.monthlySavings
    ensures out.monthlySavings == out.monthlyUtility - out.monthlySolar
    ensures ToNum(utilEscField, DefaultUtilityEscalation) == ToNum(solarEscField, 0.0) && utilRoot == solarRoot && utilRoot > 0.0 ==>
              (out.savings < 0.0 <==> Amount(billField) < Amount(solarField)) &&
              (out.annualSavings < 0.0 <==> Amount(billField) < Amount(solarField))
  {
    var bill := Amount(billField);
    var solar := Amount(solarField);
    var years := Years(yearsField);

    var utilEsc := ToNum(utilEscField, DefaultUtilityEscalation);
    var solarEsc := ToNum(solarEscField, 0.0);

    var utilTotal := SumSeries(Some(bill), Some(utilEsc), years, utilRoot);
    var solarTotal := SumSeries(Some(solar), Some(solarEsc), years, solarRoot);
    var savings := utilTotal - solarTotal;

    var uM := MonthAtEndOfYear(Some(bill), Some(utilEsc), years, utilRoot);
    var sM := MonthAtEndOfYear(Some(solar), Some(solarEsc), years, solarRoot);
    var mS := uM - sM;
    var aS := mS * 12.0;

    if utilEsc == solarEsc && utilRoot == solarRoot && utilRoot > 0.0 {
      TotalSavingsSign(bill, solar, Some(utilEsc), years, utilRoot);
      SnapshotSavingsSign(bill, solar, Some(utilEsc), years, utilRoot);
    }
    out := MainResult(years, utilTotal, solarTotal, savings, uM, sM, mS, aS);
  }
}
