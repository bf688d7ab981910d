/**
 * The arithmetic of the `calculateSizing` action: from a kit's monthly consumption, the
 * monthly solar irradiance at the kit's location and the solar-module catalog, the number
 * of panels of each catalog module that covers the kit's daily demand, with capacity and
 * price. Numbers are exact reals; `Round2` stands for `parseFloat(x.toFixed(2))` and
 * `Ceil` for `Math.ceil`. The irradiance fetch is replaced by its twelve monthly values.
 */
module Sizing {
  import opened Wrappers
  import opened Schema

  /** Days per month used to turn monthly consumption into daily consumption. */
  const DaysPerMonth: real := 30.0
  /** The 25 % safety margin applied to the daily consumption. */
  const SafetyMargin: real := 1.25
  /** System efficiency factor applied to a panel's nameplate output. */
  const PerformanceRatio: real := 0.85

  datatype SizingError =
    | KitNotFound                   // "Kit no encontrado."
    | MissingConsumptionOrLocation  // "El kit no tiene datos de consumo o ubicación ..."
    | NoModules                     // "No hay módulos solares en la base de datos ..."
    | DegenerateProduction          // a panel would produce 0 kWh a day: JavaScript yields Infinity panels

  /** The module fields an option repeats. */
  datatype ModuleSummary = ModuleSummary(brand: string, model: string, pmax: real, price: real)

  datatype SizingOption = SizingOption(
    panel: ModuleSummary,
    panelsNeeded: int,
    totalCapacityKw: real,
    totalPrice: real)

  datatype SizingResult = SizingResult(
    peakSunHours: real,
    dailyDemandKwh: real,
    sizingOptions: seq<SizingOption>)

  // ---------------------------------------------------------------- averaging

  /** `s.reduce((a, b) => a + b, 0)`: the left fold of addition from 0. */
  function Sum(s: seq<real>): real {
    if s == [] then 0.0 else Sum(s[..|s| - 1]) + s[|s| - 1]
  }

  /** The arithmetic mean: the sum divided by the number of values. */
  function Mean(s: seq<real>): real
    requires |s| > 0
  {
    Sum(s) / |s| as real
  }

  /** Taking one element out of the fold subtracts exactly that element. */
  lemma {:induction false} SumRemove(s: seq<real>, k: nat)
    requires k < |s|
    ensures Sum(s) == Sum(s[..k] + s[k + 1..]) + s[k]
    decreases |s|
  {
    var n := |s|;
    if k == n - 1 {
      assert s[..k] + s[k + 1..] == s[..n - 1];
    } else {
      var init := s[..n - 1];
      SumRemove(init, k);
      var rest := s[..k] + s[k + 1..];
      assert rest[..|rest| - 1] == init[..k] + init[k + 1..];
      assert rest[|rest| - 1] == s[n - 1];
    }
  }

  /** Taking the element at `k` out of a sequence takes one copy of it out of its multiset. */
  lemma MultisetRemove(s: seq<real>, k: nat)
    requires k < |s|
    ensures multiset(s[..k] + s[k + 1..]) == multiset(s) - multiset{s[k]}
  {
    assert s == s[..k] + [s[k]] + s[k + 1..];
  }

  /**
   * In a permutation `b` of `a`, some position `k` holds the last value of `a`, and
   * taking it out of `b` leaves a permutation of the rest of `a`.
   */
  lemma MatchLast(a: seq<real>, b: seq<real>) returns (k: nat)
    requires |a| > 0 && multiset(a) == multiset(b)
    ensures k < |b| && b[k] == a[|a| - 1]
    ensures multiset(a[..|a| - 1]) == multiset(b[..k] + b[k + 1..])
  {
    var n := |a|;
    assert a[n - 1] in multiset(b);
    k :| 0 <= k < |b| && b[k] == a[n - 1];
    MultisetRemove(b, k);
    MultisetRemove(a, n - 1);
    assert a[..n - 1] + a[n..] == a[..n - 1];
  }

  /** The sum, and so the mean, does not depend on the order of the values. */
  lemma {:induction false} SumPermutation(a: seq<real>, b: seq<real>)
    requires multiset(a) == multiset(b)
    ensures Sum(a) == Sum(b)
    decreases |a|
  {
    if a == [] {
      assert |b| == |multiset(b)| == 0;
    } else {
      var k := MatchLast(a, b);
      SumPermutation(a[..|a| - 1], b[..k] + b[k + 1..]);
      SumRemove(b, k);
    }
  }

  lemma MeanPermutation(a: seq<real>, b: seq<real>)
    requires |a| > 0 && multiset(a) == multiset(b)
    ensures |b| == |a| && Mean(a) == Mean(b)
  {
    assert |a| == |multiset(a)| == |multiset(b)| == |b|;
    SumPermutation(a, b);
  }

  // ---------------------------------------------------------------- rounding

  /** `Math.ceil`: the least integer not below `x`. */
  function Ceil(x: real): (n: int)
    ensures x <= n as real < x + 1.0
  {
    -((-x).Floor)
  }

  /** `x.toFixed(2)` in cents: the nearest whole number of cents, halves away from zero. */
  function Cents(x: real): int {
    if x >= 0.0 then (x * 100.0 + 0.5).Floor else -((-x * 100.0 + 0.5).Floor)
  }

  /**
   * `parseFloat(x.toFixed(2))`: the whole number of cents closest to `x`; of two equally
   * close ones, the one farther from zero.
   */
  function Round2(x: real): (r: real)
    ensures (r * 100.0).Floor as real == r * 100.0
    ensures x >= 0.0 ==> x - 0.005 < r <= x + 0.005
    ensures x < 0.0 ==> x - 0.005 <= r < x + 0.005
  {
    Cents(x) as real / 100.0
  }

  lemma Round2Symmetric(x: real)
    ensures Round2(-x) == -Round2(x)
  {
  }

  /** Rounding an amount that is already in whole cents leaves it alone. */
  lemma Round2Idempotent(x: real)
    ensures Round2(Round2(x)) == Round2(x)
  {
    var r := Round2(x);
    var c := (r * 100.0).Floor;
    assert r * 100.0 == c as real;
    if r >= 0.0 {
      assert (r * 100.0 + 0.5).Floor == c;
    } else {
      assert (-r * 100.0 + 0.5).Floor == -c;
    }
  }

  // ---------------------------------------------------------------- sizing

  /** JavaScript falsiness of a number (0; NaN is not modelled). */
  predicate Falsy(x: real) {
    x == 0.0
  }

  /** The guard of convex/sizing.ts: no consumption, or a latitude or longitude of 0. */
  predicate MissingInputs(kit: Kit) {
    kit.monthlyConsumptionKwh.None? || Falsy(kit.monthlyConsumptionKwh.value)
    || Falsy(kit.latitude) || Falsy(kit.longitude)
  }

  /** Daily demand with the safety margin, in kWh. */
  function DailyDemand(monthlyConsumptionKwh: real): real {
    monthlyConsumptionKwh / DaysPerMonth * SafetyMargin
  }

  /** Energy one panel of `pmax` watts yields per day at `psh` peak sun hours, in kWh. */
  function PanelDailyProduction(pmax: real, psh: real): real {
    (pmax / 1000.0) * psh * PerformanceRatio
  }

  lemma ProductionZero(pmax: real, psh: real)
    ensures PanelDailyProduction(pmax, psh) == 0.0 <==> pmax == 0.0 || psh == 0.0
  {
    if pmax != 0.0 && psh != 0.0 {
      assert pmax / 1000.0 != 0.0;
      assert (pmax / 1000.0) * psh != 0.0;
    }
  }

  /** `Math.ceil(demand / production)`. */
  function PanelsNeeded(demand: real, production: real): int
    requires production != 0.0
  {
    Ceil(demand / production)
  }

  lemma MulLess(a: real, b: real, p: real)
    requires a < b && p > 0.0
    ensures a * p < b * p
  {
  }

  lemma MulAtMost(a: real, b: real, p: real)
    requires a <= b && p > 0.0
    ensures a * p <= b * p
  {
  }

  /**
   * With positive production, the panel count is the least number of panels whose total
   * production covers the demand; with positive demand it is at least one panel.
   */
  lemma PanelsNeededIsLeast(demand: real, production: real)
    requires production > 0.0
    ensures PanelsNeeded(demand, production) as real * production >= demand
    ensures (PanelsNeeded(demand, production) - 1) as real * production < demand
    ensures demand > 0.0 ==> PanelsNeeded(demand, production) >= 1
  {
    var n := PanelsNeeded(demand, production);
    var q := demand / production;
    assert q * production == demand;
    MulAtMost(q, n as real, production);
    MulLess((n - 1) as real, q, production);
    assert (n - 1) as real * production < q * production;
    assert (n - 1) as real * production < demand;
  }

  /**
   * For a fixed positive demand and positive peak sun hours, a module with a larger pmax
   * never needs more panels than one with a smaller pmax.
   */
  lemma PanelsNeededAntitone(demand: real, psh: real, pmaxSmall: real, pmaxLarge: real)
    requires demand > 0.0 && psh > 0.0 && 0.0 < pmaxSmall <= pmaxLarge
    ensures PanelDailyProduction(pmaxSmall, psh) > 0.0
    ensures PanelsNeeded(demand, PanelDailyProduction(pmaxLarge, psh))
         <= PanelsNeeded(demand, PanelDailyProduction(pmaxSmall, psh))
  {
    var pSmall := PanelDailyProduction(pmaxSmall, psh);
    var pLarge := PanelDailyProduction(pmaxLarge, psh);
    MulAtMost(pmaxSmall / 1000.0, pmaxLarge / 1000.0, psh);
    MulAtMost((pmaxSmall / 1000.0) * psh, (pmaxLarge / 1000.0) * psh, PerformanceRatio);
    assert 0.0 < pSmall <= pLarge;
    PanelsNeededIsLeast(demand, pSmall);
    PanelsNeededIsLeast(demand, pLarge);
    var nSmall := PanelsNeeded(demand, pSmall);
    var nLarge := PanelsNeeded(demand, pLarge);
    MulAtMost(pSmall, pLarge, nSmall as real);
    assert nSmall as real * pLarge >= demand;
    if nLarge > nSmall {
      MulAtMost(nSmall as real, (nLarge - 1) as real, pLarge);
      assert false;
    }
  }

  /**
   * `option` reports `option.panelsNeeded` panels of module `m`: it repeats the module's
   * brand, model, pmax and price, and its capacity and price are that many panels',
   * rounded to cents.
   */
  ghost predicate Reports(option: SizingOption, m: SolarModule) {
    && option.panel == ModuleSummary(m.brand, m.model, m.pmax, m.price)
    && option.totalCapacityKw == Round2(Times(option.panelsNeeded, m.pmax) / 1000.0)
    && option.totalPrice == Round2(Times(option.panelsNeeded, m.price))
  }

  /** The total of `n` units of `unit` each. */
  function Times(n: int, unit: real): real {
    n as real * unit
  }

  /** The option object built for `panels` panels of module `m`. */
  function OptionFor(m: SolarModule, panels: int): SizingOption {
    SizingOption(
      ModuleSummary(m.brand, m.model, m.pmax, m.price),
      panels,
      Round2(Times(panels, m.pmax) / 1000.0),
      Round2(Times(panels, m.price)))
  }

  /** The option for one catalog module. */
  function SizeModule(m: SolarModule, psh: real, demand: real): SizingOption
    requires PanelDailyProduction(m.pmax, psh) != 0.0
  {
    OptionFor(m, PanelsNeeded(demand, PanelDailyProduction(m.pmax, psh)))
  }

  /**
   * `option` is the sizing of module `m` against `demand`: its panel count is the ceiling
   * of the demand over one panel's daily production, and it reports that many panels.
   */
  ghost predicate Sizes(option: SizingOption, m: SolarModule, psh: real, demand: real)
    requires PanelDailyProduction(m.pmax, psh) != 0.0
  {
    var x := demand / PanelDailyProduction(m.pmax, psh);
    && x <= option.panelsNeeded as real < x + 1.0
    && Reports(option, m)
  }

  lemma SizeModuleSizes(m: SolarModule, psh: real, demand: real)
    requires PanelDailyProduction(m.pmax, psh) != 0.0
    ensures Sizes(SizeModule(m, psh, demand), m, psh, demand)
  {
    var n := PanelsNeeded(demand, PanelDailyProduction(m.pmax, psh));
    assert SizeModule(m, psh, demand) == OptionFor(m, n);
  }

  /** Some module of the catalog would produce nothing: zero peak sun hours or a zero pmax. */
  predicate Degenerate(modules: seq<SolarModule>, psh: real) {
    psh == 0.0 || exists i :: 0 <= i < |modules| && modules[i].pmax == 0.0
  }

  /**
   * The `calculateSizing` handler after its reads: `kit` is what `getKitById` returned,
   * `modules` the whole `solar_modules` table, `irradiance` PVWatts' monthly values.
   */
  function CalculateSizing(kit: Option<Kit>, modules: seq<SolarModule>, irradiance: seq<real>)
    : (r: Result<SizingResult, SizingError>)
    requires |irradiance| > 0
    ensures kit.None? ==> r == Failure(KitNotFound)
    ensures kit.Some? && MissingInputs(kit.value) ==> r == Failure(MissingConsumptionOrLocation)
    ensures kit.Some? && !MissingInputs(kit.value) && |modules| == 0 ==> r == Failure(NoModules)
    ensures (kit.Some? && !MissingInputs(kit.value) && |modules| > 0 && Degenerate(modules, Mean(irradiance)))
            ==> r == Failure(DegenerateProduction)
    ensures r.Success? <==>
            kit.Some? && !MissingInputs(kit.value) && |modules| > 0 && !Degenerate(modules, Mean(irradiance))
    ensures r.Success? ==>
            var psh := Mean(irradiance);
            var demand := DailyDemand(kit.value.monthlyConsumptionKwh.value);
            && r.value.peakSunHours == Round2(psh)
            && r.value.dailyDemandKwh == Round2(demand)
            && |r.value.sizingOptions| == |modules|
            && forall i :: 0 <= i < |modules| ==>
                 PanelDailyProduction(modules[i].pmax, psh) != 0.0
                 && Sizes(r.value.sizingOptions[i], modules[i], psh, demand)
  {
    if kit.None? then Failure(KitNotFound)
    else if MissingInputs(kit.value) then Failure(MissingConsumptionOrLocation)
    else if |modules| == 0 then Failure(NoModules)
    else
      var psh := Mean(irradiance);
      var demand := DailyDemand(kit.value.monthlyConsumptionKwh.value);
      if Degenerate(modules, psh) then Failure(DegenerateProduction)
      else
        assert forall i :: 0 <= i < |modules| ==> PanelDailyProduction(modules[i].pmax, psh) != 0.0 by {
          forall i | 0 <= i < |modules| ensures PanelDailyProduction(modules[i].pmax, psh) != 0.0 {
            ProductionZero(modules[i].pmax, psh);
          }
        }
        var options := seq(|modules|, i requires 0 <= i < |modules| => SizeModule(modules[i], psh, demand));
        assert forall i :: 0 <= i < |modules| ==> Sizes(options[i], modules[i], psh, demand) by {
          forall i | 0 <= i < |modules| ensures Sizes(options[i], modules[i], psh, demand) {
            SizeModuleSizes(modules[i], psh, demand);
          }
        }
        Success(SizingResult(Round2(psh), Round2(demand), options))
  }

  /** The order of the monthly irradiance values does not matter to the result. */
  lemma CalculateSizingIrradianceOrder(kit: Option<Kit>, modules: seq<SolarModule>, a: seq<real>, b: seq<real>)
    requires |a| > 0 && multiset(a) == multiset(b)
    ensures |b| > 0 && CalculateSizing(kit, modules, a) == CalculateSizing(kit, modules, b)
  {
    MeanPermutation(a, b);
  }

  /** Only one integer lies in [x, x + 1). */
  lemma CeilUnique(x: real, n: int)
    requires x <= n as real < x + 1.0
    ensures n == Ceil(x)
  {
  }

  /**
   * In a successful sizing with positive demand and positive peak sun hours, a module
   * with a larger pmax is offered with no more panels than one with a smaller pmax.
   */
  lemma CalculateSizingAntitone(kit: Option<Kit>, modules: seq<SolarModule>, irradiance: seq<real>, i: nat, j: nat)
    requires |irradiance| > 0 && CalculateSizing(kit, modules, irradiance).Success?
    requires i < |modules| && j < |modules| && 0.0 < modules[i].pmax <= modules[j].pmax
    requires Mean(irradiance) > 0.0 && kit.Some? && kit.value.monthlyConsumptionKwh.Some?
    requires kit.value.monthlyConsumptionKwh.value > 0.0
    ensures var options := CalculateSizing(kit, modules, irradiance).value.sizingOptions;
      options[j].panelsNeeded <= options[i].panelsNeeded
  {
    var options := CalculateSizing(kit, modules, irradiance).value.sizingOptions;
    var psh := Mean(irradiance);
    var demand := DailyDemand(kit.value.monthlyConsumptionKwh.value);
    assert demand > 0.0;
    var pi, pj := PanelDailyProduction(modules[i].pmax, psh), PanelDailyProduction(modules[j].pmax, psh);
    assert Sizes(options[i], modules[i], psh, demand) && Sizes(options[j], modules[j], psh, demand);
    CeilUnique(demand / pi, options[i].panelsNeeded);
    CeilUnique(demand / pj, options[j].panelsNeeded);
    PanelsNeededAntitone(demand, psh, modules[i].pmax, modules[j].pmax);
  }
}
