# BRZY solar estimator: calculation core in Dafny

This project models the calculation core of the BRZY marketing site's single
script, `script.js`. The script has three parts:

- **Main solar-savings calculator.** It projects a monthly utility bill and
  a monthly solar payment over 1 to 30 years, with monthly compounding at the
  monthly equivalent of each annual escalation rate. It shows both totals,
  their difference, and a snapshot of the last month of the horizon year. The
  snapshot is not floored at zero, so a negative saving is shown as negative.
- **Battery credit and arbitrage estimators.** A catalog battery (Tesla
  Powerwall 3 or FranklinWH aPower) is scaled by quantity and performance
  factor. A committed "additional kW" is capped by the fleet's discharge
  capability and paid per kW per season by a program (SRP Battery Partner or
  APS Tesla VPP). The result is shown as an annualized monthly average. Load
  shifting is valued at a per-season $/kWh delta after round-trip losses.
- **FAQ accordion.** At most one answer is open at a time.

Modules, one per component:

- `Inputs` (inputs.dfy): `clamp`, `toNum`, and the `parseInt(text || default)` idiom.
  - A form value is abstracted to what JavaScript's parser makes of it.
  - `Number(v)` becomes `Option<real>`. `None` stands for a non-finite result.
  - `parseInt` text becomes `IntField`: blank, digits or NaN.
- `Projection` (projection.dfy): `annualToMonthlyRate`, `sumSeries` (a method
  with a loop), `monthAtEndOfYear`, and the geometric-series facts about them.
- `Savings` (savings.dfy): the arithmetic of `recalcMain`.
- `Battery` (battery.dfy): the catalogs, `getBattery`, `updateBatteryDerived`,
  `estimateAdditionalKw` and `calcProgramCredit`.
- `Arbitrage` (arbitrage.dfy): `calcArbitrage`.
- `Faq` (faq.dfy): the click handler of `wireFAQ`, as a class over flag
  sequences, with pure functions that specify the state after a click.

Quantities are `real`. `Math.pow(1 + r, 1/12)` is not computable over the
reals here, so the caller passes it as a parameter `root`. The ghost predicate
`IsTwelfthRoot(root, 1 + r)` says that `root` is exact. Under it, the model
proves what the fractional power is for: twelve monthly compoundings give
back the annual rate.

Where a NaN from `parseInt` passes through `clamp` (lines 101, 267 and 281),
the model carries `None`. `updateBatteryDerived`, `estimateAdditionalKw` and
`calcProgramCredit` then return `None`, as the source's values are NaN.

Two clamps apply to the amounts:

- `sumSeries` and `monthAtEndOfYear` clamp the starting amount to [0, 1e12].
- `recalcMain` first clamps bill and payment to [0, 1e9] (`Savings.Amount`).

Unparsable text in the horizon or quantity field is not replaced by a
default: `parseInt` yields NaN, and `clamp` passes it through.

Arbitrage multiplies by the round-trip efficiency. The efficiency is clamped
to [0, 1], so 0 is allowed.

## Model

| member | source | states |
|---|---|---|
| `Inputs.Clamp` | script.js:23 | the result lies in [lo, hi] when lo <= hi; an in-range number is unchanged; below lo gives lo; above hi gives hi |
| `Inputs.ClampInt` | script.js:23 | the same for a `parseInt` result; NaN passes through as NaN |
| `Inputs.ClampIdempotent` | script.js:23 | clamping a clamped value changes nothing |
| `Inputs.ClampMonotone` | script.js:23 | clamping preserves order |
| `Inputs.ToNum` | script.js:25-28 | a finite number is returned as is; a non-finite one gives the fallback |
| `Inputs.ParseIntOr` | script.js:267 | `parseInt(text \|\| dflt)`: blank gives the default, digits their value, other text NaN |
| `Projection.AnnualToMonthlyRate` | script.js:66-70 | 0 for a zero or non-finite rate; with an exact twelfth root, (1 + rm)^12 == 1 + r |
| `Projection.MonthlyRateSign` | script.js:66-70 | with an exact root, rm >= 0 iff r >= 0, rm == 0 iff r == 0, r > -1 implies rm > -1, and for r == 0 the exact root is 1, so the zero shortcut agrees with `root - 1` |
| `Projection.MonthBase` | script.js:74 | the starting amount is in [0, 1e12]; missing input gives 0; an in-range amount is kept |
| `Projection.Horizon` | script.js:75 | the horizon is in [1, 30]; NaN and 0 give 1; an in-range year is kept |
| `Projection.SumSeries` | script.js:73-85 | the loop returns the sum of exactly 12 * Y monthly terms m0 * (1 + rm)^j, j < 12 * Y |
| `Projection.MonthAtEndOfYear` | script.js:88-94 | the amount of month 12y, m0 * (1 + rm)^(12y - 1), with m0 and y clamped as in `sumSeries`; never negative for a non-negative root; for a positive root zero exactly when the clamped amount is zero |
| `Projection.SnapshotIsLastTerm` | script.js:88-94 | `monthAtEndOfYear` equals the last term `sumSeries` adds for the same inputs |
| `Projection.SnapshotScales` | script.js:88-94 | the snapshot of an in-range amount m is m * (1 + rm)^(12Y - 1) |
| `Projection.SeriesSumZeroRate` | script.js:78-83 | with rm = 0 the loop total is m0 * n |
| `Projection.SeriesSumClosedForm` | script.js:78-83 | the loop total S satisfies S * rm == m0 * ((1 + rm)^n - 1) |
| `Projection.SeriesSumScales` | script.js:78-83 | the loop total is linear in m0 |
| `Projection.SeriesSumGrows` | script.js:78-83 | with m0 >= 0 and rm >= -1 more months never lower the total, and with m0 > 0 and rm > -1 they raise it |
| `Projection.SumSeriesZeroRate` | script.js:73-85 | `sumSeries(m, 0, Y) == m * 12 * Y`, also for a missing rate |
| `Projection.SumSeriesAnnualClosedForm` | script.js:66-85 | with an exact root, total * rm == m0 * ((1 + r)^Y - 1) |
| `Projection.SumSeriesMonotoneInYears` | script.js:73-85 | for a non-negative root the total is non-negative and non-decreasing in Y; for a positive root and amount it is strictly increasing |
| `Projection.SnapshotFirstYear` | script.js:88-94 | for year 1 the snapshot is m0 * (1 + rm)^11 |
| `Projection.SnapshotZeroRate` | script.js:88-94 | with no escalation the snapshot is the starting amount in every year |
| `Projection.SnapshotAnnualGrowth` | script.js:88-94 | with an exact root, each year's snapshot is the previous year's times (1 + r) |
| `Projection.SolarTotalScenario` | script.js:107 | a 150 payment with 0 escalation over 25 years totals 45000 |
| `Savings.Amount` | script.js:99-100 | bill and payment are clamped to [0, 1e9]; missing gives 0 |
| `Savings.Years` | script.js:101 | blank gives 25; digits in [1, 30] are kept, smaller give 1, larger give 30; other text stays NaN |
| `Savings.TotalSavingsSign` | script.js:106-108 | with equal escalation, the total saving is negative iff bill < payment, and zero iff they are equal |
| `Savings.SnapshotSavingsSign` | script.js:117-119 | with equal escalation and a positive root, the snapshot saving is negative iff bill < payment |
| `Savings.ScaledDifference` | script.js:108 | two amounts scaled by one positive factor keep their order and equality |
| `Savings.ZeroRateSavings` | script.js:106-120 | without escalation the total saving is 12 * Y * (bill - payment) and the annual snapshot saving 12 * (bill - payment), negative when the payment is higher |
| `Savings.RecalcMain` | script.js:96-126 | totals and snapshots come from the projection of the clamped inputs (utility escalation defaults to 0.09, solar to 0); savings = utility - solar, annual = 12 * monthly, unclamped; with equal escalation its sign follows bill - payment |
| `Battery.FindIndex` | script.js:260 | the index of the first catalog entry with the id, or none when no entry has it |
| `Battery.GetBattery` | script.js:258-261 | a catalog entry; the one with the selected id if any, else the first; blank selects the first |
| `Battery.GetProgram` | script.js:294-295 | the program under the key, else SRP Battery Partner; every program pays 110 per kW-year |
| `Battery.Quantity` | script.js:267 | quantity in [0, 99]: a count in range is kept, a smaller one gives 0, a larger one 99; blank gives 1; other text stays NaN |
| `Battery.Performance` | script.js:268 | factor in [0, 1]; non-finite gives 0.85 |
| `Battery.Scale` | script.js:270-271 | per-unit x quantity x factor is in [0, 99 x per-unit], and 0 for no units or zero factor |
| `Battery.UpdateBatteryDerived` | script.js:263-275 | usable and power are within [0, 99 x spec], share one scale factor, and are NaN exactly when the quantity is |
| `Battery.DischargeCap` | script.js:283 | the cap is in [0, 1e6]; missing gives 0 |
| `Battery.RawAdditionalKw` | script.js:285 | the uncapped estimate is in [0, 99 x default kW] |
| `Battery.EstimateAdditionalKw` | script.js:279-287 | the result is in [0, cap]; an estimate that fits is returned unchanged; one that does not gives the cap |
| `Battery.ProgramCredit` | script.js:299-300 | the annual credit is 12 times the monthly average |
| `Battery.CreditLinear` | script.js:299-300 | the monthly credit scales with, and adds over, the committed kW |
| `Battery.CreditZero` | script.js:299-300 | zero committed kW gives zero credit |
| `Battery.CreditBound` | script.js:299-300 | at 110 per kW-year, the monthly credit is at most cap x 110 / 12 |
| `Battery.CalcProgramCredit` | script.js:289-300 | the program's credit for the capped estimate; in [0, cap x 110 / 12], at most 1815 |
| `Battery.CapNeverBindsForCatalog` | script.js:270-286 | with the cap equal to the derived power, every catalog battery gets its uncapped estimate |
| `Battery.ScaleMonotone` | script.js:271-285 | a larger per-unit figure gives a larger fleet figure |
| `Battery.PowerwallScenario` | script.js:263-300 | two PW3 at 0.85: 22.95 kWh, 19.55 kW, 3.4 kW committed, SRP 374 per year |
| `Arbitrage.SeasonDelta` | script.js:314-318 | the season's delta, unknown or blank seasons use SUMMER's; always in [0.12, 0.24] |
| `Arbitrage.CalcArbitrage` | script.js:310-320 | kWh/day in [0, 300] (default 10), RTE in [0, 1] (default 0.9), monthly = kWh x 30 x delta x RTE in [0, 2160] |
| `Arbitrage.MonthlyBound` | script.js:320 | the product of clamped factors is in [0, 2160] |
| `Arbitrage.ArbitrageMonotone` | script.js:315-320 | more kWh or better RTE never lowers the estimate |
| `Arbitrage.FormulaMonotone` | script.js:320 | the formula grows with kWh and with RTE |
| `Arbitrage.ProductMonotone` | script.js:320 | products of ordered non-negative factors are ordered |
| `Arbitrage.ArbitrageMaximum` | script.js:315-320 | 300 kWh/day at SUMMER_PEAK and RTE 1 reaches 2160 |
| `Arbitrage.UnknownSeasonIsSummer` | script.js:318 | an unknown season gives the same estimate as SUMMER |
| `Faq.ExpandedAfterClick` | script.js:156-169 | the click keeps one flag per toggle |
| `Faq.HiddenAfterClick` | script.js:160-173 | the click keeps one hidden flag per panel |
| `Faq.ClickLeavesAtMostOneOpen` | script.js:155-169 | after any click at most one toggle is expanded |
| `Faq.ClickTogglesOnlyTheClicked` | script.js:153-169 | clicking a closed toggle makes it the only open one; clicking an open one leaves none open |
| `Faq.ClickSyncsTouchedPanels` | script.js:156-173 | for the clicked toggle and every toggle that was open, the panel is hidden iff the toggle is not expanded; other panels are untouched |
| `Faq.ClickPreservesConsistency` | script.js:150-174 | panels that matched their toggles still match after a click |
| `Faq.Accordion.Click` | script.js:150-174 | the in-place update yields exactly the specified flags, and at most one toggle is open |
| `Faq.Accordion.constructor` | script.js:149 | the accordion starts from the page's flags |

## Left out

- DOM lookups, the early returns when an element is missing, and event wiring (`wireMain`, `wireBattery`, `addEventListener`). These are page plumbing. A missing element is modelled only where its value is read (`undefined` becomes `None`).
- `fillBatteryModels` builds `<option>` HTML. This is presentation.
- `fmtMoney0`/`fmtMoney2` (locale currency formatting), `toFixed`, `Math.round`, and the note and detail strings. These are locale and string-formatting library calls. So the model does not show that a NaN result is displayed as $0.
- IEEE-754 behaviour (rounding, overflow to Infinity, NaN from `Math.pow` of a negative base) is not modelled. Quantities are exact reals.
- `Math.pow(1 + r, 1/12)` is not computed. It is the parameter `root`.
- `Projection.AnnualToMonthlyRate`: promises (1 + rm)^12 == 1 + r only when `root` is an exact twelfth root, because the real power is not computable here.
- `Battery.EstimateAdditionalKw`: reads the discharge cap as a parameter. The model does not capture that the cap is the `toFixed(1)` text that `updateBatteryDerived` wrote (lines 274 and 283).
- `Battery.GetProgram` and `Arbitrage.SeasonDelta`: model the catalogs as maps. So keys inherited from `Object.prototype` (such as `"toString"`) are not modelled. On a plain object they would return a function instead of falling back.
- `parseInt` and `Number` string parsing are abstracted. Their results are the inputs (`IntField`, `Option<real>`).
- Each FAQ toggle controls its own panel or none. Two toggles sharing one panel id are not modelled.
