/** The battery credit estimator: a catalog battery scaled by quantity and
    performance factor, a committed "additional event capacity" capped by the
    fleet's discharge capability, and a program that pays per kW per season,
    shown as an annualized monthly average. */
module Battery {
  import opened Inputs

  datatype BatterySpec = BatterySpec(id: string, name: string, usableKwh: real, powerKw: real, defaultAddlKw: real)

  /** The selectable battery models; the first is the fallback. */
  const Batteries: seq<BatterySpec> := [
    BatterySpec("PW3", "Tesla Powerwall 3", 13.5, 11.5, 2.0),
    BatterySpec("FRANKLIN", "FranklinWH (aPower)", 13.6, 5.0, 2.0)
  ]

  datatype Program = Program(name: string, ratePerKwSeason: real, seasonsPerYear: real)

  const DefaultProgramKey: string := "SRP_BATTERY_PARTNER"

  /** The compensation programs, keyed by the program selector's value. */
  const Programs: map<string, Program> := map[
    "APS_TESLA_VPP" := Program("APS Tesla VPP (Powerwall)", 110.0, 1.0),
    DefaultProgramKey := Program("SRP Battery Partner", 55.0, 2.0)
  ]

  /** Upper clamp on the discharge capability read back from the form (1e6 kW). */
  const MaxDischargeKw: real := 1_000_000.0

  /** The derived figures `updateBatteryDerived` writes to the form. */
  datatype Derived = Derived(usableKwh: real, powerKw: real)

  /** A program credit: `annual` dollars, shown as the monthly average. */
  datatype Credit = Credit(annual: real, monthlyAvg: real)

  /** `Array.prototype.find` by id: the position of the first entry with that id. */
  function FindIndex(catalog: seq<BatterySpec>, id: string): (r: Option<nat>)
    ensures r.Some? ==> r.value < |catalog| && catalog[r.value].id == id
    ensures r.Some? ==> forall j :: 0 <= j < r.value ==> catalog[j].id != id
    ensures r.None? <==> forall j :: 0 <= j < |catalog| ==> catalog[j].id != id
  {
    if catalog == [] then None
    else if catalog[0].id == id then Some(0)
    else
      match FindIndex(catalog[1..], id)
      case None => None
      case Some(i) => Some(i + 1)
  }

  /** `getBattery()`: the catalog entry whose id is the selected model (an
      empty selection means the first entry's id), or the first entry. */
  function GetBattery(selected: string): (b: BatterySpec)
    ensures b in Batteries
    ensures (exists i :: 0 <= i < |Batteries| && Batteries[i].id == selected) ==> b.id == selected
    ensures (forall i :: 0 <= i < |Batteries| ==> Batteries[i].id != selected) ==> b == Batteries[0]
    ensures 0.0 < b.usableKwh && 0.0 < b.powerKw && 0.0 < b.defaultAddlKw
  {
    var id := if selected == "" then Batteries[0].id else selected;
    match FindIndex(Batteries, id)
    case Some(i) => Batteries[i]
    case None => Batteries[0]
  }

  /** `PROGRAMS[programSel.value || "SRP_BATTERY_PARTNER"] || PROGRAMS.SRP_BATTERY_PARTNER`. */
  function GetProgram(key: string): (p: Program)
    ensures key in Programs ==> p == Programs[key]
    ensures key !in Programs ==> p == Programs[DefaultProgramKey]
    ensures p.ratePerKwSeason * p.seasonsPerYear == 110.0
  {
    var k := if key == "" then DefaultProgramKey else key;
    if k in Programs then Programs[k] else Programs[DefaultProgramKey]
  }

  /** The battery count: `clamp(parseInt(value || "1", 10), 0, 99)`; a NaN
      from unparsable text passes through the clamp as `None`. */
  function Quantity(field: IntField): (q: Option<int>)
    ensures q.Some? <==> !field.NotANumber?
    ensures q.Some? ==> 0 <= q.value <= 99
    ensures field.Blank? ==> q == Some(1)
    ensures field.Digits? && 0 <= field.n <= 99 ==> q == Some(field.n)
    ensures field.Digits? && field.n < 0 ==> q == Some(0)
    ensures field.Digits? && field.n > 99 ==> q == Some(99)
  {
    ClampInt(ParseIntOr(field, 1), 0, 99)
  }

  /** The performance factor: `clamp(toNum(value, 0.85), 0, 1)`. */
  function Performance(field: NumberInput): (f: real)
    ensures 0.0 <= f <= 1.0
    ensures field.None? ==> f == 0.85
    ensures field.Some? && 0.0 <= field.value <= 1.0 ==> f == field.value
  {
    Clamp(ToNum(field, 0.85), 0.0, 1.0)
  }

  /** A per-unit figure times quantity times performance factor: between 0 and
      99 units' worth. */
  function Scale(perUnit: real, qty: int, perf: real): (r: real)
    requires 0.0 <= perUnit && 0 <= qty <= 99 && 0.0 <= perf <= 1.0
    ensures 0.0 <= r <= 99.0 * perUnit
    ensures qty == 0 || perf == 0.0 ==> r == 0.0
  {
    var q := qty as real;
    assert 0.0 <= perUnit * q <= perUnit * 99.0;
    assert perUnit * q * perf <= perUnit * q * 1.0;
    perUnit * q * perf
  }

  /** `updateBatteryDerived()`: usable energy and power of the whole fleet.
      Both are scaled by the same factor, stay within 99 units' worth, and
      are NaN (`None`) when the quantity text is unparsable. */
  function UpdateBatteryDerived(model: string, qtyField: IntField, perfField: NumberInput): (d: Option<Derived>)
    ensures d.Some? <==> !qtyField.NotANumber?
    ensures d.Some? ==> 0.0 <= d.value.usableKwh <= 99.0 * GetBattery(model).usableKwh
    ensures d.Some? ==> 0.0 <= d.value.powerKw <= 99.0 * GetBattery(model).powerKw
    ensures d.Some? ==> d.value.usableKwh * GetBattery(model).powerKw == d.value.powerKw * GetBattery(model).usableKwh
    ensures d.Some? ==> d.value.powerKw == Scale(GetBattery(model).powerKw, Quantity(qtyField).value, Performance(perfField))
  {
    var b := GetBattery(model);
    match Quantity(qtyField)
    case None => None
    case Some(qty) =>
      var perf := Performance(perfField);
      ScaleRatio(b.usableKwh, b.powerKw, qty, perf);
      Some(Derived(Scale(b.usableKwh, qty, perf), Scale(b.powerKw, qty, perf)))
  }

  lemma {:induction false} ScaleRatio(u: real, p: real, qty: int, perf: real)
    requires 0.0 <= u && 0.0 <= p && 0 <= qty <= 99 && 0.0 <= perf <= 1.0
    ensures Scale(u, qty, perf) * p == Scale(p, qty, perf) * u
  {
    var f := (qty as real) * perf;
    assert Scale(u, qty, perf) == u * f;
    assert Scale(p, qty, perf) == p * f;
  }

  /** The discharge capability read back from the form: `clamp(toNum(v, 0), 0, 1e6)`. */
  function DischargeCap(field: NumberInput): (c: real)
    ensures 0.0 <= c <= MaxDischargeKw
    ensures field.None? ==> c == 0.0
    ensures field.Some? && 0.0 <= field.value <= MaxDischargeKw ==> c == field.value
  {
    Clamp(ToNum(field, 0.0), 0.0, MaxDischargeKw)
  }

  /** The uncapped estimate `defaultAddlKw * qty * perf`. */
  function RawAdditionalKw(model: string, qtyField: IntField, perfField: NumberInput): (r: Option<real>)
    ensures r.Some? <==> !qtyField.NotANumber?
    ensures r.Some? ==> 0.0 <= r.value <= 99.0 * GetBattery(model).defaultAddlKw
  {
    match Quantity(qtyField)
    case None => None
    case Some(qty) => Some(Scale(GetBattery(model).defaultAddlKw, qty, Performance(perfField)))
  }

  /** `estimateAdditionalKw()`: the uncapped estimate clamped to the discharge
      capability. It never exceeds the cap, and an estimate that fits is
      returned unchanged. */
  function EstimateAdditionalKw(model: string, qtyField: IntField, perfField: NumberInput, powerField: NumberInput): (k: Option<real>)
    ensures k.Some? <==> !qtyField.NotANumber?
    ensures k.Some? ==> 0.0 <= k.value <= DischargeCap(powerField)
    ensures k.Some? && RawAdditionalKw(model, qtyField, perfField).value <= DischargeCap(powerField) ==>
              k.value == RawAdditionalKw(model, qtyField, perfField).value
    ensures k.Some? && RawAdditionalKw(model, qtyField, perfField).value > DischargeCap(powerField) ==>
              k.value == DischargeCap(powerField)
  {
    var dischargeCap := DischargeCap(powerField);
    match RawAdditionalKw(model, qtyField, perfField)
    case None => None
    case Some(raw) => Some(Clamp(raw, 0.0, dischargeCap))
  }

  /** The credit formula: `annual = kW * rate * seasons`, `monthly = annual / 12`. */
  function ProgramCredit(p: Program, addlKw: real): (c: Credit)
    ensures c.annual == 12.0 * c.monthlyAvg
  {
    var annual := addlKw * p.ratePerKwSeason * p.seasonsPerYear;
    Credit(annual, annual / 12.0)
  }

  /** The credit is linear in the committed kW: it scales and adds. */
  lemma {:induction false} CreditLinear(p: Program, a: real, b: real, t: real)
    ensures ProgramCredit(p, t * a).monthlyAvg == t * ProgramCredit(p, a).monthlyAvg
    ensures ProgramCredit(p, a + b).monthlyAvg == ProgramCredit(p, a).monthlyAvg + ProgramCredit(p, b).monthlyAvg
  {
    var rs := p.ratePerKwSeason * p.seasonsPerYear;
    assert t * a * p.ratePerKwSeason * p.seasonsPerYear == t * (a * rs);
    assert (a + b) * p.ratePerKwSeason * p.seasonsPerYear == a * rs + b * rs;
    assert a * p.ratePerKwSeason * p.seasonsPerYear == a * rs;
    assert b * p.ratePerKwSeason * p.seasonsPerYear == b * rs;
  }

  /** No committed capacity, no credit. */
  lemma {:induction false} CreditZero(p: Program)
    ensures ProgramCredit(p, 0.0) == Credit(0.0, 0.0)
  {
  }

  /** `calcProgramCredit()`: the program's credit for the capped estimate.
      Every catalog program pays 110 dollars per kW-year, so the monthly
      average is at most the cap times 110 / 12, and at most 1815 overall. */
  function CalcProgramCredit(programKey: string, model: string, qtyField: IntField, perfField: NumberInput, powerField: NumberInput): (c: Option<Credit>)
    ensures c.Some? <==> !qtyField.NotANumber?
    ensures c.Some? ==> c.value == ProgramCredit(GetProgram(programKey), EstimateAdditionalKw(model, qtyField, perfField, powerField).value)
    ensures c.Some? ==> 0.0 <= c.value.monthlyAvg <= DischargeCap(powerField) * 110.0 / 12.0
    ensures c.Some? ==> c.value.monthlyAvg <= 1815.0
  {
    var p := GetProgram(programKey);
    match EstimateAdditionalKw(model, qtyField, perfField, powerField)
    case None => None
    case Some(addlKw) =>
      CreditBound(p, addlKw, DischargeCap(powerField), 99.0 * GetBattery(model).defaultAddlKw);
      Some(ProgramCredit(p, addlKw))
  }

  lemma {:induction false} CreditBound(p: Program, addlKw: real, cap: real, raw: real)
    requires p.ratePerKwSeason * p.seasonsPerYear == 110.0
    requires 0.0 <= addlKw <= cap && addlKw <= raw
    ensures 0.0 <= ProgramCredit(p, addlKw).monthlyAvg <= cap * 110.0 / 12.0
    ensures ProgramCredit(p, addlKw).monthlyAvg <= raw * 110.0 / 12.0
  {
    assert addlKw * p.ratePerKwSeason * p.seasonsPerYear == addlKw * 110.0;
  }

  /** With the cap equal to the unrounded derived power of the fleet, the cap
      never binds for a catalog battery: each one's power rating is above its
      default committed kW, so the estimate is the uncapped one. */
  lemma {:induction false} CapNeverBindsForCatalog(model: string, qtyField: IntField, perfField: NumberInput)
    requires !qtyField.NotANumber?
    ensures EstimateAdditionalKw(model, qtyField, perfField, Some(UpdateBatteryDerived(model, qtyField, perfField).value.powerKw))
            == RawAdditionalKw(model, qtyField, perfField)
  {
    var b := GetBattery(model);
    ScaleMonotone(b.defaultAddlKw, b.powerKw, Quantity(qtyField).value, Performance(perfField));
  }

  /** A larger per-unit figure gives a larger fleet figure. */
  lemma {:induction false} ScaleMonotone(a: real, b: real, qty: int, perf: real)
    requires 0.0 <= a <= b && 0 <= qty <= 99 && 0.0 <= perf <= 1.0
    ensures Scale(a, qty, perf) <= Scale(b, qty, perf)
  {
    var q := qty as real;
    var x, y := a * q, b * q;
    assert 0.0 <= q;
    assert y - x == (b - a) * q;
    assert Scale(a, qty, perf) == x * perf;
    assert Scale(b, qty, perf) == y * perf;
    assert x * perf <= y * perf;
  }

  /** Two Powerwall 3 units at performance 0.85: 19.55 kW of power, an
      uncapped estimate of 3.4 kW that fits under any cap of at least 3.4 kW,
      and under the SRP program 374 dollars a year. */
  lemma {:induction false} PowerwallScenario(cap: real)
    requires 3.4 <= cap <= MaxDischargeKw
    ensures UpdateBatteryDerived("PW3", Digits(2), Some(0.85)) == Some(Derived(22.95, 19.55))
    ensures EstimateAdditionalKw("PW3", Digits(2), Some(0.85), Some(cap)) == Some(3.4)
    ensures CalcProgramCredit(DefaultProgramKey, "PW3", Digits(2), Some(0.85), Some(cap)) == Some(Credit(374.0, 374.0 / 12.0))
  {
    assert FindIndex(Batteries, "PW3") == Some(0);
    assert GetBattery("PW3") == Batteries[0];
  }
}
