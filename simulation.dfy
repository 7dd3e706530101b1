/**
 * The time-stepped loop of `runSimulation` (simulation.service.ts): after
 * validation it registers every asset, then at each step resolves every
 * asset's power under the step's weather, sums it per household and for
 * the neighbourhood, and accumulates energy per household, per asset and
 * for the neighbourhood.
 *
 * The functions below say what each piece computes; the methods keep the
 * service's loops and in-place updates and are proved equal to them.
 */
module Simulation {
  import opened JsBuiltins
  import opened Assets
  import opened Weather
  import opened PowerResolver
  import opened SimulationTypes
  import opened InputValidation
  import opened AssetLedger

  /** `includePv === (asset.type === PV)`: PV arrays count in the PV pass, every other asset in the load pass. */
  predicate InPass(asset: Asset, includePv: bool)
  {
    (asset.assetType == Pv) == includePv
  }

  /** The total `sumAssetPower` returns: the resolved power of the assets in the pass, added left to right. */
  function PassPower(assets: seq<Asset>, stepIndex: int, includePv: bool, weather: Option<Snapshot>): real
  {
    if assets == [] then 0.0
    else
      var last := assets[|assets| - 1];
      var before := PassPower(assets[..|assets| - 1], stepIndex, includePv, weather);
      if InPass(last, includePv) then before + ResolveAssetKw(last, stepIndex, weather) else before
  }

  /** The accumulators after `sumAssetPower` credits each asset in the pass with `kw * stepHours`. */
  function PassCredit(
    entries: map<string, AssetEnergy>, assets: seq<Asset>, stepIndex: int, includePv: bool,
    hours: real, weather: Option<Snapshot>): (r: map<string, AssetEnergy>)
    ensures r.Keys == entries.Keys
  {
    if assets == [] then entries
    else
      var last := assets[|assets| - 1];
      var before := PassCredit(entries, assets[..|assets| - 1], stepIndex, includePv, hours, weather);
      if InPass(last, includePv) then Credited(before, last.id, Energy(ResolveAssetKw(last, stepIndex, weather), hours))
      else before
  }

  /** `sumAssetPower`: a reduce over the assets that also credits each asset's accumulator. */
  method SumAssetPower(
    assets: seq<Asset>, stepIndex: int, includePv: bool, ledger: Accumulators,
    hours: real, weather: Option<Snapshot>) returns (total: real)
    modifies ledger
    ensures total == PassPower(assets, stepIndex, includePv, weather)
    ensures ledger.entries == PassCredit(old(ledger.entries), assets, stepIndex, includePv, hours, weather)
    ensures ledger.order == old(ledger.order)
  {
    ghost var initial := ledger.entries;
    total := 0.0;
    for k := 0 to |assets|
      invariant total == PassPower(assets[..k], stepIndex, includePv, weather)
      invariant ledger.entries == PassCredit(initial, assets[..k], stepIndex, includePv, hours, weather)
      invariant ledger.order == old(ledger.order)
    {
      var asset := assets[k];
      assert assets[..k + 1][..k] == assets[..k];
      if InPass(asset, includePv) {
        var kw := ResolveAssetKw(asset, stepIndex, weather);
        ledger.Credit(asset.id, Energy(kw, hours));
        total := total + kw;
      }
    }
    assert assets[..|assets|] == assets;
  }

  /**
   * One household at one step: its load (every asset but PV) and its PV
   * production, and from them the net grid draw and the export.
   */
  function HouseholdStepAt(household: Household, stepIndex: int, weather: Snapshot): (r: HouseholdStep)
    ensures r.householdId == household.id && r.householdName == household.name
    ensures r.netLoadKw >= 0.0 && r.exportKw >= 0.0
    ensures r.netLoadKw == 0.0 || r.exportKw == 0.0
    ensures r.netLoadKw - r.exportKw == r.loadKw - r.pvKw
  {
    var load := PassPower(household.assets, stepIndex, false, Some(weather));
    var pv := PassPower(household.assets, stepIndex, true, Some(weather));
    HouseholdStep(household.id, household.name, load, pv, PositivePart(load - pv), PositivePart(pv - load))
  }

  /** `households.map(...)`: every household's record for a step. */
  function HouseholdSteps(households: seq<Household>, stepIndex: int, weather: Snapshot): (r: seq<HouseholdStep>)
    ensures |r| == |households|
  {
    if households == [] then []
    else
      var before := HouseholdSteps(households[..|households| - 1], stepIndex, weather);
      before + [HouseholdStepAt(households[|households| - 1], stepIndex, weather)]
  }

  /** The accumulators after the household passes of a step: each household's load pass, then its PV pass. */
  function HouseholdsCredit(
    entries: map<string, AssetEnergy>, households: seq<Household>, stepIndex: int,
    hours: real, weather: Snapshot): (r: map<string, AssetEnergy>)
    ensures r.Keys == entries.Keys
  {
    if households == [] then entries
    else
      var before := HouseholdsCredit(entries, households[..|households| - 1], stepIndex, hours, weather);
      var assets := households[|households| - 1].assets;
      PassCredit(PassCredit(before, assets, stepIndex, false, hours, Some(weather)), assets, stepIndex, true, hours, Some(weather))
  }

  /** The accumulators after a whole step: the households, then the public chargers' load pass. */
  function StepCredit(
    entries: map<string, AssetEnergy>, input: SimulationInput, stepIndex: int,
    hours: real, weather: Snapshot): (r: map<string, AssetEnergy>)
    ensures r.Keys == entries.Keys
  {
    PassCredit(HouseholdsCredit(entries, input.households, stepIndex, hours, weather),
      input.publicChargers, stepIndex, false, hours, Some(weather))
  }

  /** The four per-household quantities the step sums. */
  datatype Quantity = Load | Production | NetLoad | Export

  function Of(r: HouseholdStep, q: Quantity): real
  {
    match q
    case Load => r.loadKw
    case Production => r.pvKw
    case NetLoad => r.netLoadKw
    case Export => r.exportKw
  }

  /** A running sum over the households in order, as the `+=` in the map callback builds it. */
  function Total(results: seq<HouseholdStep>, q: Quantity): real
  {
    if results == [] then 0.0
    else Total(results[..|results| - 1], q) + Of(results[|results| - 1], q)
  }

  /**
   * Step `stepIndex`: the weather at its time, every household's record,
   * and the neighbourhood sums, where the public chargers add to both the
   * load and the grid import.
   */
  function StepAt(calendar: Calendar, start: int, input: SimulationInput, stepIndex: nat): StepResult
  {
    var time := StepTime(start, input.clock, stepIndex);
    var weather := SnapshotAt(calendar, time);
    var results := HouseholdSteps(input.households, stepIndex, weather);
    var publicLoad := PassPower(input.publicChargers, stepIndex, false, Some(weather));
    StepResult(
      stepIndex, calendar.iso(time),
      Total(results, Load) + publicLoad,
      Total(results, Production),
      Total(results, NetLoad) + publicLoad,
      Total(results, Export),
      weather.season, weather.temperatureC, weather.irradianceFactor,
      results)
  }

  /** The records of the first n steps. */
  function Steps(calendar: Calendar, start: int, input: SimulationInput, n: nat): seq<StepResult>
  {
    if n == 0 then [] else Steps(calendar, start, input, n - 1) + [StepAt(calendar, start, input, n - 1)]
  }

  /** The neighbourhood totals after the given steps. */
  function TotalsOf(steps: seq<StepResult>, hours: real): Totals
  {
    if steps == [] then Totals(0.0, 0.0, 0.0, 0.0)
    else
      var before := TotalsOf(steps[..|steps| - 1], hours);
      var s := steps[|steps| - 1];
      Totals(
        before.importKwh + Energy(s.gridImportKw, hours),
        before.exportKwh + Energy(s.gridExportKw, hours),
        before.consumptionKwh + Energy(s.neighborhoodLoadKw, hours),
        before.pvKwh + Energy(s.neighborhoodPvKw, hours))
  }

  /** A household's accumulator before the first step. */
  function Zero(household: Household): HouseholdEnergy
  {
    HouseholdEnergy(household.id, household.name, 0.0, 0.0, 0.0, 0.0)
  }

  /** One step's energy added to a household accumulator. */
  function Accrue(e: HouseholdEnergy, r: HouseholdStep, hours: real): HouseholdEnergy
  {
    e.(loadKwh := e.loadKwh + Energy(r.loadKw, hours),
       pvKwh := e.pvKwh + Energy(r.pvKw, hours),
       netLoadKwh := e.netLoadKwh + Energy(r.netLoadKw, hours),
       exportKwh := e.exportKwh + Energy(r.exportKw, hours))
  }

  /** The household accumulators after the callback has run for the first |results| households. */
  function AccrueStep(acc: seq<HouseholdEnergy>, results: seq<HouseholdStep>, hours: real): (r: seq<HouseholdEnergy>)
    ensures |r| == |acc|
  {
    if results == [] then acc
    else
      var k := |results| - 1;
      var before := AccrueStep(acc, results[..k], hours);
      if k < |before| then before[k := Accrue(before[k], results[k], hours)] else before
  }

  /** The household accumulators after the given steps. */
  function HouseholdTotals(households: seq<Household>, steps: seq<StepResult>, hours: real): (r: seq<HouseholdEnergy>)
    ensures |r| == |households|
  {
    if steps == [] then seq(|households|, k requires 0 <= k < |households| => Zero(households[k]))
    else AccrueStep(HouseholdTotals(households, steps[..|steps| - 1], hours), steps[|steps| - 1].householdResults, hours)
  }

  /** The accumulators registered before the first step. */
  function Registered(input: SimulationInput): Registry
  {
    WithAssets(Empty, AllAssets(input.households, input.publicChargers))
  }

  /** The accumulator entries after the first n steps. */
  function LedgerAfter(calendar: Calendar, start: int, input: SimulationInput, n: nat): (r: map<string, AssetEnergy>)
    ensures r.Keys == Registered(input).entries.Keys
  {
    if n == 0 then Registered(input).entries
    else
      var weather := SnapshotAt(calendar, StepTime(start, input.clock, n - 1));
      StepCredit(LedgerAfter(calendar, start, input, n - 1), input, n - 1, StepHours(input.clock), weather)
  }

  /** The asset totals: every accumulator after the last step, in registration order. */
  function AssetTotals(calendar: Calendar, start: int, input: SimulationInput, n: nat): seq<AssetEnergy>
  {
    var registry := Registered(input);
    RegisteredIds(AllAssets(input.households, input.publicChargers));
    Values(registry.order, LedgerAfter(calendar, start, input, n))
  }

  /**
   * Why `runSimulation` throws: validation rejected the input, or the time of
   * a step lies outside the time range and its `toISOString` throws a
   * RangeError.
   */
  datatype RunError = Rejected(reason: InputError) | InvalidTimeValue(stepIndex: nat)

  /** The first of the first n steps whose time lies outside the time range, if any. */
  function FirstInvalidStep(start: int, clock: Clock, n: nat): (r: Option<nat>)
    ensures r.Some? ==> r.value < n && !ValidTime(StepTime(start, clock, r.value))
    ensures r.Some? ==> forall k :: 0 <= k < r.value ==> ValidTime(StepTime(start, clock, k))
    ensures r.None? <==> forall k :: 0 <= k < n ==> ValidTime(StepTime(start, clock, k))
  {
    if n == 0 then None
    else
      match FirstInvalidStep(start, clock, n - 1)
      case Some(k) => Some(k)
      case None => if ValidTime(StepTime(start, clock, n - 1)) then None else Some(n - 1)
  }

  /** Every step of the run has a time in range, so `toISOString` renders each of them. */
  predicate StepTimesValid(calendar: Calendar, input: SimulationInput)
  {
    match calendar.parse(input.clock.startDateTimeIso)
    case None => false
    case Some(start) => forall k :: 0 <= k < input.clock.steps ==> ValidTime(StepTime(start, input.clock, k))
  }

  /** Once every step before i is in range and step i is not, the run stops at step i. */
  lemma FirstInvalidStepIs(start: int, clock: Clock, i: nat, n: nat)
    requires i < n && FirstInvalidStep(start, clock, i).None?
    requires !ValidTime(StepTime(start, clock, i))
    ensures FirstInvalidStep(start, clock, n) == Some(i)
  {
    var r := FirstInvalidStep(start, clock, n);
    assert r.Some? ==> r.value >= i;
  }

  /** One more step in range keeps every step so far in range. */
  lemma FirstInvalidStepSnoc(start: int, clock: Clock, i: nat)
    requires FirstInvalidStep(start, clock, i).None? && ValidTime(StepTime(start, clock, i))
    ensures FirstInvalidStep(start, clock, i + 1).None?
  {
  }

  /**
   * `runSimulation`: the validation error, the RangeError of the first step
   * whose time is out of range, or the result of simulating `clock.steps`
   * steps.
   */
  function Simulate(calendar: Calendar, input: SimulationInput): Result<SimulationResult, RunError>
  {
    match FirstError(calendar, input)
    case Some(e) => Failure(Rejected(e))
    case None =>
      var start := calendar.parse(input.clock.startDateTimeIso).value;
      match FirstInvalidStep(start, input.clock, input.clock.steps)
      case Some(k) => Failure(InvalidTimeValue(k))
      case None =>
        var hours := StepHours(input.clock);
        var steps := Steps(calendar, start, input, input.clock.steps);
        Success(SimulationResult(
          input.clock,
          steps,
          HouseholdTotals(input.households, steps, hours),
          AssetTotals(calendar, start, input, input.clock.steps),
          TotalsOf(steps, hours)))
  }

  /** Registration appends: registering `a + b` is registering `a`, then `b`. */
  lemma {:induction false} WithAssetsAppend(r: Registry, a: seq<Asset>, b: seq<Asset>)
    ensures WithAssets(r, a + b) == WithAssets(WithAssets(r, a), b)
  {
    if b == [] {
      assert a + b == a;
    } else {
      var n := |b| - 1;
      WithAssetsAppend(r, a, b[..n]);
      assert (a + b)[..|a + b| - 1] == a + b[..n];
    }
  }

  /** `households.forEach(h => h.assets.forEach(registerAsset)); publicChargers.forEach(registerAsset)`. */
  method RegisterAssets(input: SimulationInput) returns (ledger: Accumulators)
    ensures fresh(ledger)
    ensures ledger.State() == Registered(input)
  {
    ledger := new Accumulators();
    for k := 0 to |input.households|
      invariant ledger.State() == WithAssets(Empty, HouseholdAssets(input.households[..k]))
    {
      ledger.RegisterAll(input.households[k].assets);
      assert input.households[..k + 1][..k] == input.households[..k];
      WithAssetsAppend(Empty, HouseholdAssets(input.households[..k]), input.households[k].assets);
    }
    assert input.households[..|input.households|] == input.households;
    ledger.RegisterAll(input.publicChargers);
    WithAssetsAppend(Empty, HouseholdAssets(input.households), input.publicChargers);
  }

  /**
   * The `households.map` callback for one household: its load pass and its
   * PV pass, the net load and export, and its accumulator's update.
   */
  method HouseholdCallback(
    household: Household, householdIndex: nat, stepIndex: int, weather: Snapshot, hours: real,
    ledger: Accumulators, householdAccumulators: array<HouseholdEnergy>) returns (result: HouseholdStep)
    requires householdIndex < householdAccumulators.Length
    modifies ledger, householdAccumulators
    ensures result == HouseholdStepAt(household, stepIndex, weather)
    ensures ledger.order == old(ledger.order)
    ensures ledger.entries == PassCredit(
      PassCredit(old(ledger.entries), household.assets, stepIndex, false, hours, Some(weather)),
      household.assets, stepIndex, true, hours, Some(weather))
    ensures householdAccumulators[..] == old(householdAccumulators[..])[householdIndex := Accrue(old(householdAccumulators[householdIndex]), result, hours)]
  {
    var loadKw := SumAssetPower(household.assets, stepIndex, false, ledger, hours, Some(weather));
    var pvKw := SumAssetPower(household.assets, stepIndex, true, ledger, hours, Some(weather));
    var netLoadKw := MaxReal(loadKw - pvKw, 0.0);
    var exportKw := MaxReal(pvKw - loadKw, 0.0);
    result := HouseholdStep(household.id, household.name, loadKw, pvKw, netLoadKw, exportKw);
    var accumulator := householdAccumulators[householdIndex];
    householdAccumulators[householdIndex] := Accrue(accumulator, result, hours);
  }

  /**
   * `households.map(...)` with its callback's side effects: the records of
   * every household, the four neighbourhood sums the callback adds to, the
   * credited assets and the updated household accumulators.
   */
  method MapHouseholds(
    households: seq<Household>, stepIndex: int, weather: Snapshot, hours: real,
    ledger: Accumulators, householdAccumulators: array<HouseholdEnergy>)
    returns (householdResults: seq<HouseholdStep>, neighborhoodLoadKw: real, neighborhoodPvKw: real,
      gridImportKw: real, gridExportKw: real)
    requires householdAccumulators.Length == |households|
    modifies ledger, householdAccumulators
    ensures householdResults == HouseholdSteps(households, stepIndex, weather)
    ensures neighborhoodLoadKw == Total(householdResults, Load)
    ensures neighborhoodPvKw == Total(householdResults, Production)
    ensures gridImportKw == Total(householdResults, NetLoad)
    ensures gridExportKw == Total(householdResults, Export)
    ensures ledger.order == old(ledger.order)
    ensures ledger.entries == HouseholdsCredit(old(ledger.entries), households, stepIndex, hours, weather)
    ensures householdAccumulators[..] == AccrueStep(old(householdAccumulators[..]), householdResults, hours)
  {
    neighborhoodLoadKw := 0.0;
    neighborhoodPvKw := 0.0;
    gridImportKw := 0.0;
    gridExportKw := 0.0;
    householdResults := [];

    for h := 0 to |households|
      invariant householdResults == HouseholdSteps(households[..h], stepIndex, weather)
      invariant neighborhoodLoadKw == Total(householdResults, Load)
      invariant neighborhoodPvKw == Total(householdResults, Production)
      invariant gridImportKw == Total(householdResults, NetLoad)
      invariant gridExportKw == Total(householdResults, Export)
      invariant ledger.order == old(ledger.order)
      invariant ledger.entries == HouseholdsCredit(old(ledger.entries), households[..h], stepIndex, hours, weather)
      invariant householdAccumulators[..] == AccrueStep(old(householdAccumulators[..]), householdResults, hours)
    {
      MapHouseholdsSnoc(households, h, stepIndex, weather, hours, old(ledger.entries), old(householdAccumulators[..]));
      var result := HouseholdCallback(households[h], h, stepIndex, weather, hours, ledger, householdAccumulators);

      neighborhoodLoadKw := neighborhoodLoadKw + result.loadKw;
      neighborhoodPvKw := neighborhoodPvKw + result.pvKw;
      gridImportKw := gridImportKw + result.netLoadKw;
      gridExportKw := gridExportKw + result.exportKw;
      householdResults := householdResults + [result];
    }
    assert households[..|households|] == households;
  }

  /** One more household: its record, its two passes and its accumulator's update come last. */
  lemma MapHouseholdsSnoc(
    households: seq<Household>, h: nat, stepIndex: int, weather: Snapshot, hours: real,
    entries: map<string, AssetEnergy>, acc: seq<HouseholdEnergy>)
    requires h < |households| == |acc|
    ensures var results := HouseholdSteps(households[..h], stepIndex, weather);
      var result := HouseholdStepAt(households[h], stepIndex, weather);
      var before := AccrueStep(acc, results, hours);
      && HouseholdSteps(households[..h + 1], stepIndex, weather) == results + [result]
      && HouseholdsCredit(entries, households[..h + 1], stepIndex, hours, weather)
        == PassCredit(
          PassCredit(HouseholdsCredit(entries, households[..h], stepIndex, hours, weather),
            households[h].assets, stepIndex, false, hours, Some(weather)),
          households[h].assets, stepIndex, true, hours, Some(weather))
      && AccrueStep(acc, results + [result], hours) == before[h := Accrue(before[h], result, hours)]
      && (forall q :: Total(results + [result], q) == Total(results, q) + Of(result, q))
  {
    var results := HouseholdSteps(households[..h], stepIndex, weather);
    var result := HouseholdStepAt(households[h], stepIndex, weather);
    assert households[..h + 1][..h] == households[..h];
    assert (results + [result])[..h] == results;
  }

  /**
   * The body of the step loop: resolves the weather, runs the household
   * callback for every household (two passes each, crediting the assets and
   * the household's accumulator), then the public chargers' load pass.
   */
  method SimulateStep(
    calendar: Calendar, start: int, input: SimulationInput, stepIndex: nat,
    ledger: Accumulators, householdAccumulators: array<HouseholdEnergy>) returns (step: Option<StepResult>)
    requires householdAccumulators.Length == |input.households|
    modifies ledger, householdAccumulators
    ensures step.None? <==> !ValidTime(StepTime(start, input.clock, stepIndex))
    ensures step.None? ==> ledger.entries == old(ledger.entries) && householdAccumulators[..] == old(householdAccumulators[..])
    ensures step.Some? ==> step.value == StepAt(calendar, start, input, stepIndex)
    ensures ledger.order == old(ledger.order)
    ensures step.Some? ==> ledger.entries == StepCredit(old(ledger.entries), input, stepIndex, StepHours(input.clock), SnapshotAt(calendar, StepTime(start, input.clock, stepIndex)))
    ensures step.Some? ==> householdAccumulators[..] == AccrueStep(old(householdAccumulators[..]), step.value.householdResults, StepHours(input.clock))
  {
    var households := input.households;
    var hours := StepHours(input.clock);
    var time := StepTime(start, input.clock, stepIndex);
    var timestampIso := ToIsoString(calendar, time);
    if timestampIso.None? {
      return None;
    }
    var weather := SnapshotAt(calendar, time);

    var householdResults, neighborhoodLoadKw, neighborhoodPvKw, gridImportKw, gridExportKw :=
      MapHouseholds(households, stepIndex, weather, hours, ledger, householdAccumulators);

    var publicLoadKw := SumAssetPower(input.publicChargers, stepIndex, false, ledger, hours, Some(weather));
    neighborhoodLoadKw := neighborhoodLoadKw + publicLoadKw;
    gridImportKw := gridImportKw + publicLoadKw;

    step := Some(StepResult(
      stepIndex, timestampIso.value, neighborhoodLoadKw, neighborhoodPvKw, gridImportKw, gridExportKw,
      weather.season, weather.temperatureC, weather.irradianceFactor, householdResults));
  }

  /** One more step adds its energies to the totals and to the household accumulators. */
  lemma TotalsOfAppend(households: seq<Household>, steps: seq<StepResult>, step: StepResult, hours: real)
    ensures var before := TotalsOf(steps, hours);
      TotalsOf(steps + [step], hours) == Totals(
        before.importKwh + Energy(step.gridImportKw, hours),
        before.exportKwh + Energy(step.gridExportKw, hours),
        before.consumptionKwh + Energy(step.neighborhoodLoadKw, hours),
        before.pvKwh + Energy(step.neighborhoodPvKw, hours))
    ensures HouseholdTotals(households, steps + [step], hours) == AccrueStep(HouseholdTotals(households, steps, hours), step.householdResults, hours)
  {
    assert (steps + [step])[..|steps|] == steps;
  }

  /**
   * The `for (stepIndex ...)` loop: every step, accumulating the neighbourhood
   * totals as it goes, until a step whose time `toISOString` rejects
   * (`failedAt`).
   */
  method StepLoop(
    calendar: Calendar, start: int, input: SimulationInput,
    ledger: Accumulators, householdAccumulators: array<HouseholdEnergy>)
    returns (steps: seq<StepResult>, totals: Totals, failedAt: Option<nat>)
    requires input.clock.steps >= 0
    requires householdAccumulators.Length == |input.households|
    requires ledger.entries == Registered(input).entries
    requires householdAccumulators[..] == HouseholdTotals(input.households, [], StepHours(input.clock))
    modifies ledger, householdAccumulators
    ensures failedAt == FirstInvalidStep(start, input.clock, input.clock.steps)
    ensures failedAt.None? ==> steps == Steps(calendar, start, input, input.clock.steps)
    ensures failedAt.None? ==> totals == TotalsOf(steps, StepHours(input.clock))
    ensures failedAt.None? ==> householdAccumulators[..] == HouseholdTotals(input.households, steps, StepHours(input.clock))
    ensures ledger.order == old(ledger.order)
    ensures failedAt.None? ==> ledger.entries == LedgerAfter(calendar, start, input, input.clock.steps)
  {
    var hours := StepHours(input.clock);
    failedAt := None;
    steps := [];
    totals := Totals(0.0, 0.0, 0.0, 0.0);
    var neighborhoodImportKwh := 0.0;
    var neighborhoodExportKwh := 0.0;
    var neighborhoodConsumptionKwh := 0.0;
    var neighborhoodPvKwh := 0.0;

    for stepIndex := 0 to input.clock.steps
      invariant steps == Steps(calendar, start, input, stepIndex)
      invariant neighborhoodImportKwh == TotalsOf(steps, hours).importKwh
      invariant neighborhoodExportKwh == TotalsOf(steps, hours).exportKwh
      invariant neighborhoodConsumptionKwh == TotalsOf(steps, hours).consumptionKwh
      invariant neighborhoodPvKwh == TotalsOf(steps, hours).pvKwh
      invariant householdAccumulators[..] == HouseholdTotals(input.households, steps, hours)
      invariant ledger.order == old(ledger.order)
      invariant ledger.entries == LedgerAfter(calendar, start, input, stepIndex)
      invariant FirstInvalidStep(start, input.clock, stepIndex).None?
    {
      var next := SimulateStep(calendar, start, input, stepIndex, ledger, householdAccumulators);
      if next.None? {
        FirstInvalidStepIs(start, input.clock, stepIndex, input.clock.steps);
        failedAt := Some(stepIndex);
        return;
      }
      var step := next.value;
      FirstInvalidStepSnoc(start, input.clock, stepIndex);
      neighborhoodImportKwh := neighborhoodImportKwh + Energy(step.gridImportKw, hours);
      neighborhoodExportKwh := neighborhoodExportKwh + Energy(step.gridExportKw, hours);
      neighborhoodConsumptionKwh := neighborhoodConsumptionKwh + Energy(step.neighborhoodLoadKw, hours);
      neighborhoodPvKwh := neighborhoodPvKwh + Energy(step.neighborhoodPvKw, hours);
      TotalsOfAppend(input.households, steps, step, hours);
      steps := steps + [step];
    }
    totals := Totals(neighborhoodImportKwh, neighborhoodExportKwh, neighborhoodConsumptionKwh, neighborhoodPvKwh);
  }

  /** `runSimulation`: validation, registration, the step loop, then the results in the service's shape. */
  method RunSimulation(calendar: Calendar, input: SimulationInput) returns (r: Result<SimulationResult, RunError>)
    ensures r == Simulate(calendar, input)
  {
    var error := ValidateInput(calendar, input);
    if error.Some? {
      return Failure(Rejected(error.value));
    }
    var households := input.households;
    var start := calendar.parse(input.clock.startDateTimeIso).value;

    var ledger := RegisterAssets(input);
    var householdAccumulators := new HouseholdEnergy[|households|](k requires 0 <= k < |households| => Zero(households[k]));
    var steps, totals, failedAt := StepLoop(calendar, start, input, ledger, householdAccumulators);
    if failedAt.Some? {
      return Failure(InvalidTimeValue(failedAt.value));
    }

    RegisteredIds(AllAssets(households, input.publicChargers));
    var assetTotals := ledger.ToArray();
    return Success(SimulationResult(input.clock, steps, householdAccumulators[..], assetTotals, totals));
  }
}
