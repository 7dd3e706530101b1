/**
 * What a simulation run promises: the shape of its step records, the
 * balance between import, export, load and production at every step and in
 * the totals, which assets each neighbourhood sum counts, and what every
 * household and asset accumulator holds at the end.
 */
module SimulationProperties {
  import opened JsBuiltins
  import opened Assets
  import opened Weather
  import opened PowerResolver
  import opened SimulationTypes
  import opened InputValidation
  import opened AssetLedger
  import opened Simulation

  // ---------------------------------------------------------------------
  // Step records

  /** The first n step records are the records of steps 0 to n-1, in order. */
  lemma {:induction false} StepsAreIndexed(calendar: Calendar, start: int, input: SimulationInput, n: nat)
    ensures |Steps(calendar, start, input, n)| == n
    ensures forall i :: 0 <= i < n ==> Steps(calendar, start, input, n)[i] == StepAt(calendar, start, input, i)
  {
    if n > 0 {
      StepsAreIndexed(calendar, start, input, n - 1);
    }
  }

  /** What a successful run returns, piece by piece. */
  lemma SuccessfulRun(calendar: Calendar, input: SimulationInput)
    requires Simulate(calendar, input).Success?
    ensures Acceptable(calendar, input)
    ensures StepTimesValid(calendar, input)
    ensures var start := calendar.parse(input.clock.startDateTimeIso).value;
      var hours := StepHours(input.clock);
      var r := Simulate(calendar, input).value;
      && r.clock == input.clock
      && r.steps == Steps(calendar, start, input, input.clock.steps)
      && r.householdTotals == HouseholdTotals(input.households, r.steps, hours)
      && r.assetTotals == AssetTotals(calendar, start, input, input.clock.steps)
      && r.totals == TotalsOf(r.steps, hours)
  {
    NoErrorIffAcceptable(calendar, input);
  }

  /** Consecutive steps are `stepMinutes` minutes apart, and step 0 is at the start. */
  lemma StepTimesAreEvenlySpaced(start: int, clock: Clock, i: int)
    ensures StepTime(start, clock, 0) == start
    ensures StepTime(start, clock, i + 1) - StepTime(start, clock, i) == clock.stepMinutes * 60000
  {
    assert (i + 1) * clock.stepMinutes == i * clock.stepMinutes + clock.stepMinutes;
  }

  /**
   * A successful run emits exactly `clock.steps` records; record i carries
   * index i, the time `StepTime(start, clock, i)` (that is
   * `start + i * stepMinutes * 60000` milliseconds) and the weather of that
   * time.
   */
  lemma StepRecords(calendar: Calendar, input: SimulationInput)
    requires Simulate(calendar, input).Success?
    ensures var r := Simulate(calendar, input).value;
      var start := calendar.parse(input.clock.startDateTimeIso).value;
      && |r.steps| == input.clock.steps
      && forall i :: 0 <= i < |r.steps| ==>
        var time := StepTime(start, input.clock, i);
        && ValidTime(time)
        && r.steps[i].stepIndex == i
        && r.steps[i].timestampIso == calendar.iso(time)
        && r.steps[i].season == SnapshotAt(calendar, time).season
        && r.steps[i].temperatureC == SnapshotAt(calendar, time).temperatureC
        && r.steps[i].irradianceFactor == SnapshotAt(calendar, time).irradianceFactor
  {
    var start := calendar.parse(input.clock.startDateTimeIso).value;
    SuccessfulRun(calendar, input);
    assert forall k :: 0 <= k < input.clock.steps ==> ValidTime(StepTime(start, input.clock, k));
    var steps := Steps(calendar, start, input, input.clock.steps);
    StepsAreIndexed(calendar, start, input, input.clock.steps);
    forall i | 0 <= i < |steps|
      ensures var time := StepTime(start, input.clock, i);
        && steps[i].stepIndex == i
        && steps[i].timestampIso == calendar.iso(time)
        && steps[i].season == SnapshotAt(calendar, time).season
        && steps[i].temperatureC == SnapshotAt(calendar, time).temperatureC
        && steps[i].irradianceFactor == SnapshotAt(calendar, time).irradianceFactor
    {
      assert steps[i] == StepAt(calendar, start, input, i);
    }
  }

  /**
   * A run succeeds exactly when the input is acceptable and every step time
   * is in range. Otherwise it fails with the first validation error, or, for
   * an acceptable input, with the RangeError of the first step out of range.
   */
  lemma RunFailsExactlyOnInvalidInput(calendar: Calendar, input: SimulationInput)
    ensures Simulate(calendar, input).Success? <==> Acceptable(calendar, input) && StepTimesValid(calendar, input)
    ensures FirstError(calendar, input).Some? ==> Simulate(calendar, input) == Failure(Rejected(FirstError(calendar, input).value))
    ensures Acceptable(calendar, input) && !StepTimesValid(calendar, input) ==>
      var start := calendar.parse(input.clock.startDateTimeIso).value;
      exists k: nat ::
        && Simulate(calendar, input) == Failure(InvalidTimeValue(k))
        && 0 <= k < input.clock.steps
        && !ValidTime(StepTime(start, input.clock, k))
        && forall j :: 0 <= j < k ==> ValidTime(StepTime(start, input.clock, j))
  {
    NoErrorIffAcceptable(calendar, input);
    if Acceptable(calendar, input) && !StepTimesValid(calendar, input) {
      var start := calendar.parse(input.clock.startDateTimeIso).value;
      var k := FirstInvalidStep(start, input.clock, input.clock.steps).value;
      assert Simulate(calendar, input) == Failure(InvalidTimeValue(k));
    }
  }

  /** With positive step minutes, later steps are later in time. */
  lemma StepTimeIncreases(start: int, clock: Clock, i: int, j: int)
    requires clock.stepMinutes > 0 && i <= j
    ensures StepTime(start, clock, i) <= StepTime(start, clock, j)
  {
    var d := j - i;
    assert d * clock.stepMinutes >= 0;
    assert j * clock.stepMinutes == i * clock.stepMinutes + d * clock.stepMinutes;
  }

  /**
   * For an acceptable input the step times rise from a start in range, so
   * the run stays in range exactly when its last step does.
   */
  lemma LastStepDecidesRange(calendar: Calendar, input: SimulationInput)
    requires WellFormed(calendar) && Acceptable(calendar, input)
    ensures var start := calendar.parse(input.clock.startDateTimeIso).value;
      StepTimesValid(calendar, input) <==> StepTime(start, input.clock, input.clock.steps - 1) <= MaxTimeValue
  {
    var start := calendar.parse(input.clock.startDateTimeIso).value;
    var last := input.clock.steps - 1;
    assert ValidTime(start);
    forall k | 0 <= k <= last
      ensures start <= StepTime(start, input.clock, k) <= StepTime(start, input.clock, last)
    {
      StepTimeIncreases(start, input.clock, 0, k);
      StepTimeIncreases(start, input.clock, k, last);
    }
  }

  /**
   * A run of 100 steps of 2147483647 minutes from 2024-01-01T00:00:00Z
   * (1704067200000 ms) leaves the time range at step 68: the run fails there.
   */
  lemma LongRunLeavesTimeRange(calendar: Calendar, input: SimulationInput)
    requires Acceptable(calendar, input)
    requires calendar.parse(input.clock.startDateTimeIso) == Some(1_704_067_200_000)
    requires input.clock.stepMinutes == 2147483647 && input.clock.steps == 100
    ensures Simulate(calendar, input) == Failure(InvalidTimeValue(68))
  {
    NoErrorIffAcceptable(calendar, input);
    var start := 1_704_067_200_000;
    var clock := input.clock;
    assert StepTime(start, clock, 67) == 8_634_588_328_140_000;
    assert StepTime(start, clock, 68) == 8_763_437_346_960_000;
    forall k | 0 <= k < 68 ensures ValidTime(StepTime(start, clock, k)) {
      StepTimeIncreases(start, clock, 0, k);
      StepTimeIncreases(start, clock, k, 67);
    }
    FirstInvalidStepIs(start, clock, 68, 100);
  }

  // ---------------------------------------------------------------------
  // Household records and the neighbourhood balance

  /** Household record k of a step is household k's record. */
  lemma {:induction false} HouseholdStepsAreIndexed(households: seq<Household>, stepIndex: int, weather: Snapshot)
    ensures forall k :: 0 <= k < |households| ==>
      HouseholdSteps(households, stepIndex, weather)[k] == HouseholdStepAt(households[k], stepIndex, weather)
  {
    if households != [] {
      var n := |households| - 1;
      HouseholdStepsAreIndexed(households[..n], stepIndex, weather);
    }
  }

  /** Records that each balance (net load minus export is load minus PV) balance in sum. */
  lemma {:induction false} TotalsBalance(results: seq<HouseholdStep>)
    requires forall k :: 0 <= k < |results| ==> results[k].netLoadKw - results[k].exportKw == results[k].loadKw - results[k].pvKw
    ensures Total(results, NetLoad) - Total(results, Export) == Total(results, Load) - Total(results, Production)
  {
    if results != [] {
      TotalsBalance(results[..|results| - 1]);
    }
  }

  /** Sums of non-negative quantities are non-negative. */
  lemma {:induction false} TotalNonNegative(results: seq<HouseholdStep>, q: Quantity)
    requires forall k :: 0 <= k < |results| ==> Of(results[k], q) >= 0.0
    ensures Total(results, q) >= 0.0
  {
    if results != [] {
      TotalNonNegative(results[..|results| - 1], q);
    }
  }

  /**
   * At every step the grid balances the neighbourhood: import minus export
   * equals load minus PV production, and the export is never negative.
   */
  lemma StepBalance(calendar: Calendar, start: int, input: SimulationInput, stepIndex: nat)
    ensures var s := StepAt(calendar, start, input, stepIndex);
      && s.gridImportKw - s.gridExportKw == s.neighborhoodLoadKw - s.neighborhoodPvKw
      && s.gridExportKw >= 0.0
  {
    var weather := SnapshotAt(calendar, StepTime(start, input.clock, stepIndex));
    var results := HouseholdSteps(input.households, stepIndex, weather);
    HouseholdStepsAreIndexed(input.households, stepIndex, weather);
    TotalsBalance(results);
    TotalNonNegative(results, Export);
  }

  // ---------------------------------------------------------------------
  // Which assets the neighbourhood sums count

  /** A pass over two runs of assets is the sum of the passes over each. */
  lemma {:induction false} PassPowerAppend(a: seq<Asset>, b: seq<Asset>, stepIndex: int, includePv: bool, weather: Option<Snapshot>)
    ensures PassPower(a + b, stepIndex, includePv, weather) == PassPower(a, stepIndex, includePv, weather) + PassPower(b, stepIndex, includePv, weather)
  {
    if b == [] {
      assert a + b == a;
    } else {
      var n := |b| - 1;
      PassPowerAppend(a, b[..n], stepIndex, includePv, weather);
      assert (a + b)[..|a + b| - 1] == a + b[..n];
    }
  }

  /**
   * The households' load sum is the load pass over every household asset,
   * and their PV sum the PV pass over them.
   */
  lemma {:induction false} HouseholdSumsArePasses(households: seq<Household>, stepIndex: int, weather: Snapshot)
    ensures Total(HouseholdSteps(households, stepIndex, weather), Load) == PassPower(HouseholdAssets(households), stepIndex, false, Some(weather))
    ensures Total(HouseholdSteps(households, stepIndex, weather), Production) == PassPower(HouseholdAssets(households), stepIndex, true, Some(weather))
  {
    if households != [] {
      var n := |households| - 1;
      HouseholdSumsArePasses(households[..n], stepIndex, weather);
      var before := HouseholdAssets(households[..n]);
      PassPowerAppend(before, households[n].assets, stepIndex, false, Some(weather));
      PassPowerAppend(before, households[n].assets, stepIndex, true, Some(weather));
      var results := HouseholdSteps(households, stepIndex, weather);
      assert results[..n] == HouseholdSteps(households[..n], stepIndex, weather);
    }
  }

  /** A pass that excludes every asset of a sequence sums to zero. */
  lemma {:induction false} PassPowerOfNone(assets: seq<Asset>, stepIndex: int, includePv: bool, weather: Option<Snapshot>)
    requires forall k :: 0 <= k < |assets| ==> !InPass(assets[k], includePv)
    ensures PassPower(assets, stepIndex, includePv, weather) == 0.0
  {
    if assets != [] {
      PassPowerOfNone(assets[..|assets| - 1], stepIndex, includePv, weather);
    }
  }

  /**
   * With only EV chargers in the public list (as validation demands), a
   * step's neighbourhood load is the resolved power of every non-PV asset
   * registered for the run, and its PV production that of every PV asset:
   * each asset is counted once, in its own pass.
   */
  lemma NeighbourhoodSumsCoverEveryAsset(calendar: Calendar, start: int, input: SimulationInput, stepIndex: nat)
    requires AllPublicChargers(input.publicChargers)
    ensures var s := StepAt(calendar, start, input, stepIndex);
      var weather := Some(SnapshotAt(calendar, StepTime(start, input.clock, stepIndex)));
      var assets := AllAssets(input.households, input.publicChargers);
      && s.neighborhoodLoadKw == PassPower(assets, stepIndex, false, weather)
      && s.neighborhoodPvKw == PassPower(assets, stepIndex, true, weather)
      && s.gridImportKw - s.neighborhoodLoadKw == Total(s.householdResults, NetLoad) - Total(s.householdResults, Load)
  {
    var w := SnapshotAt(calendar, StepTime(start, input.clock, stepIndex));
    HouseholdSumsArePasses(input.households, stepIndex, w);
    PassPowerAppend(HouseholdAssets(input.households), input.publicChargers, stepIndex, false, Some(w));
    PassPowerAppend(HouseholdAssets(input.households), input.publicChargers, stepIndex, true, Some(w));
    PassPowerOfNone(input.publicChargers, stepIndex, true, Some(w));
  }

  // ---------------------------------------------------------------------
  // Neighbourhood totals

  lemma EnergyDifference(a: real, b: real, hours: real)
    ensures Energy(a, hours) - Energy(b, hours) == Energy(a - b, hours)
  {
  }

  /** Energy totals whose steps each balance also balance: imported minus exported is consumed minus produced. */
  lemma {:induction false} TotalsBalanceOverSteps(steps: seq<StepResult>, hours: real)
    requires forall i :: 0 <= i < |steps| ==> steps[i].gridImportKw - steps[i].gridExportKw == steps[i].neighborhoodLoadKw - steps[i].neighborhoodPvKw
    ensures var t := TotalsOf(steps, hours);
      t.importKwh - t.exportKwh == t.consumptionKwh - t.pvKwh
  {
    if steps != [] {
      var n := |steps| - 1;
      TotalsBalanceOverSteps(steps[..n], hours);
      var s := steps[n];
      EnergyDifference(s.gridImportKw, s.gridExportKw, hours);
      EnergyDifference(s.neighborhoodLoadKw, s.neighborhoodPvKw, hours);
    }
  }

  /** A run's totals balance: imported minus exported energy equals consumed minus produced energy. */
  lemma RunTotalsBalance(calendar: Calendar, input: SimulationInput)
    requires Simulate(calendar, input).Success?
    ensures var t := Simulate(calendar, input).value.totals;
      t.importKwh - t.exportKwh == t.consumptionKwh - t.pvKwh
  {
    var start := calendar.parse(input.clock.startDateTimeIso).value;
    var steps := Steps(calendar, start, input, input.clock.steps);
    SuccessfulRun(calendar, input);
    StepsAreIndexed(calendar, start, input, input.clock.steps);
    forall i | 0 <= i < |steps|
      ensures steps[i].gridImportKw - steps[i].gridExportKw == steps[i].neighborhoodLoadKw - steps[i].neighborhoodPvKw
    {
      StepBalance(calendar, start, input, i);
    }
    TotalsBalanceOverSteps(steps, StepHours(input.clock));
  }

  // ---------------------------------------------------------------------
  // Household accumulators

  /** The field of a household accumulator that sums a quantity. */
  function EnergyOf(e: HouseholdEnergy, q: Quantity): real
  {
    match q
    case Load => e.loadKwh
    case Production => e.pvKwh
    case NetLoad => e.netLoadKwh
    case Export => e.exportKwh
  }

  /** Household k's energy of a quantity over the given steps: the sum of its per-step power times the step length. */
  function ColumnEnergy(steps: seq<StepResult>, k: nat, q: Quantity, hours: real): real
  {
    if steps == [] then 0.0
    else
      var results := steps[|steps| - 1].householdResults;
      ColumnEnergy(steps[..|steps| - 1], k, q, hours) + (if k < |results| then Energy(Of(results[k], q), hours) else 0.0)
  }

  /** One step's callback updates only the accumulators of the households it visits, each once. */
  lemma {:induction false} AccrueStepAt(acc: seq<HouseholdEnergy>, results: seq<HouseholdStep>, hours: real, k: nat)
    requires k < |acc|
    ensures AccrueStep(acc, results, hours)[k] == if k < |results| then Accrue(acc[k], results[k], hours) else acc[k]
  {
    if results != [] {
      var n := |results| - 1;
      AccrueStepAt(acc, results[..n], hours, k);
    }
  }

  /**
   * After any number of steps, household k's accumulator keeps its id and
   * name and holds, for each quantity, the sum over the steps of its power
   * times the step length.
   */
  lemma {:induction false} HouseholdTotalsAreSums(households: seq<Household>, steps: seq<StepResult>, hours: real, k: nat)
    requires k < |households|
    ensures var e := HouseholdTotals(households, steps, hours)[k];
      && e.householdId == households[k].id
      && e.householdName == households[k].name
      && forall q :: EnergyOf(e, q) == ColumnEnergy(steps, k, q, hours)
  {
    if steps != [] {
      var n := |steps| - 1;
      HouseholdTotalsAreSums(households, steps[..n], hours, k);
      AccrueStepAt(HouseholdTotals(households, steps[..n], hours), steps[n].householdResults, hours, k);
    }
  }

  /** Column sums of records that each balance also balance. */
  lemma {:induction false} ColumnsBalance(steps: seq<StepResult>, k: nat, hours: real)
    requires forall i :: 0 <= i < |steps| && k < |steps[i].householdResults| ==>
      var r := steps[i].householdResults[k];
      r.netLoadKw - r.exportKw == r.loadKw - r.pvKw
    ensures ColumnEnergy(steps, k, NetLoad, hours) - ColumnEnergy(steps, k, Export, hours)
      == ColumnEnergy(steps, k, Load, hours) - ColumnEnergy(steps, k, Production, hours)
  {
    if steps != [] {
      var n := |steps| - 1;
      ColumnsBalance(steps[..n], k, hours);
      var results := steps[n].householdResults;
      if k < |results| {
        EnergyDifference(results[k].netLoadKw, results[k].exportKw, hours);
        EnergyDifference(results[k].loadKw, results[k].pvKw, hours);
      }
    }
  }

  /** Every household record of every step balances: net load minus export is load minus PV. */
  ghost predicate RecordsBalance(steps: seq<StepResult>)
  {
    forall i, k :: 0 <= i < |steps| && 0 <= k < |steps[i].householdResults| ==>
      steps[i].householdResults[k].netLoadKw - steps[i].householdResults[k].exportKw
        == steps[i].householdResults[k].loadKw - steps[i].householdResults[k].pvKw
  }

  lemma StepsRecordsBalance(calendar: Calendar, start: int, input: SimulationInput, n: nat)
    ensures RecordsBalance(Steps(calendar, start, input, n))
  {
    var steps := Steps(calendar, start, input, n);
    StepsAreIndexed(calendar, start, input, n);
    forall i, k | 0 <= i < |steps| && 0 <= k < |steps[i].householdResults|
      ensures steps[i].householdResults[k].netLoadKw - steps[i].householdResults[k].exportKw
        == steps[i].householdResults[k].loadKw - steps[i].householdResults[k].pvKw
    {
      var weather := SnapshotAt(calendar, StepTime(start, input.clock, i));
      HouseholdStepsAreIndexed(input.households, i, weather);
    }
  }

  /** Household k's accumulator after steps whose records balance. */
  lemma HouseholdTotalAt(households: seq<Household>, steps: seq<StepResult>, hours: real, k: nat)
    requires k < |households|
    requires RecordsBalance(steps)
    ensures var e := HouseholdTotals(households, steps, hours)[k];
      && e.householdId == households[k].id
      && e.householdName == households[k].name
      && (forall q :: EnergyOf(e, q) == ColumnEnergy(steps, k, q, hours))
      && e.netLoadKwh - e.exportKwh == e.loadKwh - e.pvKwh
  {
    HouseholdTotalsAreSums(households, steps, hours, k);
    ColumnsBalance(steps, k, hours);
    var e := HouseholdTotals(households, steps, hours)[k];
    assert EnergyOf(e, NetLoad) == ColumnEnergy(steps, k, NetLoad, hours);
    assert EnergyOf(e, Export) == ColumnEnergy(steps, k, Export, hours);
    assert EnergyOf(e, Load) == ColumnEnergy(steps, k, Load, hours);
    assert EnergyOf(e, Production) == ColumnEnergy(steps, k, Production, hours);
  }

  /**
   * A run returns one accumulator per household, in input order, each with
   * the household's id and name, energies that sum the household's step
   * records, and net energy minus export equal to load minus PV.
   */
  lemma RunHouseholdTotals(calendar: Calendar, input: SimulationInput)
    requires Simulate(calendar, input).Success?
    ensures var r := Simulate(calendar, input).value;
      && |r.householdTotals| == |input.households|
      && forall k :: 0 <= k < |input.households| ==>
        var e := r.householdTotals[k];
        && e.householdId == input.households[k].id
        && e.householdName == input.households[k].name
        && (forall q :: EnergyOf(e, q) == ColumnEnergy(r.steps, k, q, StepHours(input.clock)))
        && e.netLoadKwh - e.exportKwh == e.loadKwh - e.pvKwh
  {
    var start := calendar.parse(input.clock.startDateTimeIso).value;
    var steps := Steps(calendar, start, input, input.clock.steps);
    SuccessfulRun(calendar, input);
    StepsRecordsBalance(calendar, start, input, input.clock.steps);
    forall k | 0 <= k < |input.households|
      ensures var e := HouseholdTotals(input.households, steps, StepHours(input.clock))[k];
        && e.householdId == input.households[k].id
        && e.householdName == input.households[k].name
        && (forall q :: EnergyOf(e, q) == ColumnEnergy(steps, k, q, StepHours(input.clock)))
        && e.netLoadKwh - e.exportKwh == e.loadKwh - e.pvKwh
    {
      HouseholdTotalAt(input.households, steps, StepHours(input.clock), k);
    }
  }
}
