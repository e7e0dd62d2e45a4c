/** The arbitrage estimator (`calcArbitrage`): the monthly value of shifting a
    daily amount of energy into the peak, at a per-season $/kWh delta, after
    round-trip losses. */
module Arbitrage {
  import opened Inputs

  /** $/kWh value of shifting into the peak, by season. */
  const ArbDelta: map<string, real> := map["SUMMER" := 0.18, "SUMMER_PEAK" := 0.24, "WINTER" := 0.12]

  const DefaultSeason: string := "SUMMER"
  const MaxKwhPerDay: real := 300.0
  const DaysPerMonth: real := 30.0

  /** The inputs after clamping, the delta used, and the monthly estimate. */
  datatype Estimate = Estimate(kwhPerDay: real, rte: real, delta: real, monthly: real)

  /** `ARB_DELTA[season || "SUMMER"] ?? ARB_DELTA.SUMMER`. */
  function SeasonDelta(season: string): (d: real)
    ensures season in ArbDelta ==> d == ArbDelta[season]
    ensures season !in ArbDelta ==> d == ArbDelta[DefaultSeason]
    ensures 0.12 <= d <= 0.24
  {
    var key := if season == "" then DefaultSeason else season;
    if key in ArbDelta then ArbDelta[key] else ArbDelta[DefaultSeason]
  }

  /** `calcArbitrage()`: `kwhPerDay * 30 * delta * rte` with the daily energy
      clamped to [0, 300] (default 10) and the round-trip efficiency to
      [0, 1] (default 0.9). The estimate is never negative and never above
      300 * 30 * 0.24 = 2160. */
  function CalcArbitrage(season: string, kwhField: NumberInput, rteField: NumberInput): (e: Estimate)
    ensures 0.0 <= e.kwhPerDay <= MaxKwhPerDay && 0.0 <= e.rte <= 1.0
    ensures kwhField.None? ==> e.kwhPerDay == 10.0
    ensures kwhField.Some? && 0.0 <= kwhField.value <= MaxKwhPerDay ==> e.kwhPerDay == kwhField.value
    ensures rteField.None? ==> e.rte == 0.9
    ensures rteField.Some? && 0.0 <= rteField.value <= 1.0 ==> e.rte == rteField.value
    ensures e.delta == SeasonDelta(season)
    ensures e.monthly == e.kwhPerDay * DaysPerMonth * e.delta * e.rte
    ensures 0.0 <= e.monthly <= 2160.0
  {
    var kwhPerDay := Clamp(ToNum(kwhField, 10.0), 0.0, MaxKwhPerDay);
    var rte := Clamp(ToNum(rteField, 0.9), 0.0, 1.0);
    var delta := SeasonDelta(season);
    MonthlyBound(kwhPerDay, delta, rte);
    Estimate(kwhPerDay, rte, delta, kwhPerDay * DaysPerMonth * delta * rte)
  }

  /** The product of the clamped factors stays within [0, 2160]. */
  lemma {:induction false} MonthlyBound(kwh: real, delta: real, rte: real)
    requires 0.0 <= kwh <= MaxKwhPerDay && 0.12 <= delta <= 0.24 && 0.0 <= rte <= 1.0
    ensures 0.0 <= kwh * DaysPerMonth * delta * rte <= 2160.0
  {
    var a := kwh * DaysPerMonth;
    ProductMonotone(a, MaxKwhPerDay * DaysPerMonth, kwh, MaxKwhPerDay, DaysPerMonth, DaysPerMonth);
    ProductMonotone(a * delta, 9000.0 * 0.24, a, 9000.0, delta, 0.24);
    ProductMonotone(a * delta * rte, 2160.0 * 1.0, a * delta, 2160.0, rte, 1.0);
  }

  /** More energy shifted, or a better efficiency, never lowers the estimate. */
  lemma {:induction false} ArbitrageMonotone(season: string, k1: real, k2: real, r1: real, r2: real)
    requires k1 <= k2 && r1 <= r2
    ensures CalcArbitrage(season, Some(k1), Some(r1)).monthly <= CalcArbitrage(season, Some(k2), Some(r2)).monthly
  {
    var e1 := CalcArbitrage(season, Some(k1), Some(r1));
    var e2 := CalcArbitrage(season, Some(k2), Some(r2));
    assert e1.kwhPerDay <= e2.kwhPerDay by {
      ClampMonotone(k1, k2, 0.0, MaxKwhPerDay);
    }
    assert e1.rte <= e2.rte by {
      ClampMonotone(r1, r2, 0.0, 1.0);
    }
    FormulaMonotone(e1.monthly, e2.monthly, e1.kwhPerDay, e2.kwhPerDay, e1.delta, e1.rte, e2.rte);
  }

  /** The formula kwh * 30 * delta * rte grows with kwh and with rte. */
  lemma {:induction false} FormulaMonotone(x1: real, x2: real, k1: real, k2: real, d: real, r1: real, r2: real)
    requires 0.0 <= k1 <= k2 && 0.0 <= d && 0.0 <= r1 <= r2
    requires x1 == k1 * DaysPerMonth * d * r1 && x2 == k2 * DaysPerMonth * d * r2
    ensures x1 <= x2
  {
    var p1, p2 := k1 * DaysPerMonth, k2 * DaysPerMonth;
    ProductMonotone(p1, p2, k1, k2, DaysPerMonth, DaysPerMonth);
    var q1, q2 := p1 * d, p2 * d;
    ProductMonotone(q1, q2, p1, p2, d, d);
    ProductMonotone(x1, x2, q1, q2, r1, r2);
  }

  /** x1 = a1 * b1 <= a2 * b2 = x2 for ordered non-negative factors. */
  lemma {:induction false} ProductMonotone(x1: real, x2: real, a1: real, a2: real, b1: real, b2: real)
    requires 0.0 <= a1 <= a2 && 0.0 <= b1 <= b2
    requires x1 == a1 * b1 && x2 == a2 * b2
    ensures 0.0 <= x1 <= x2
  {
    assert a1 * b1 <= a2 * b1;
  }

  /** The bound is reached: 300 kWh a day in the summer peak at full efficiency. */
  lemma {:induction false} ArbitrageMaximum()
    ensures CalcArbitrage("SUMMER_PEAK", Some(300.0), Some(1.0)).monthly == 2160.0
  {
  }

  /** An unknown or empty season is priced like summer. */
  lemma {:induction false} UnknownSeasonIsSummer(season: string, kwhField: NumberInput, rteField: NumberInput)
    requires season !in ArbDelta
    ensures CalcArbitrage(season, kwhField, rteField) == CalcArbitrage(DefaultSeason, kwhField, rteField)
  {
  }
}
