/**
 * The input and result records of `runSimulation` (simulation-input.dto.ts,
 * simulation.models.ts, household.models.ts). Times are milliseconds since
 * the epoch; powers are kW and energies kWh.
 */
module SimulationTypes {
  import opened JsBuiltins
  import opened Assets
  import opened Weather

  datatype Clock = Clock(startDateTimeIso: string, stepMinutes: int, steps: int)

  datatype SimulationInput = SimulationInput(clock: Clock, households: seq<Household>, publicChargers: seq<Asset>)

  /** One household at one step. */
  datatype HouseholdStep = HouseholdStep(
    householdId: string,
    householdName: string,
    loadKw: real,
    pvKw: real,
    netLoadKw: real,
    exportKw: real)

  datatype StepResult = StepResult(
    stepIndex: nat,
    timestampIso: string,
    neighborhoodLoadKw: real,
    neighborhoodPvKw: real,
    gridImportKw: real,
    gridExportKw: real,
    season: Season,
    temperatureC: real,
    irradianceFactor: real,
    householdResults: seq<HouseholdStep>)

  /** A household's running energy totals. */
  datatype HouseholdEnergy = HouseholdEnergy(
    householdId: string,
    householdName: string,
    loadKwh: real,
    pvKwh: real,
    netLoadKwh: real,
    exportKwh: real)

  /** An asset's running energy total. */
  datatype AssetEnergy = AssetEnergy(assetId: string, assetType: AssetType, name: Option<string>, cumulativeKwh: real)

  datatype Totals = Totals(importKwh: real, exportKwh: real, consumptionKwh: real, pvKwh: real)

  datatype SimulationResult = SimulationResult(
    clock: Clock,
    steps: seq<StepResult>,
    householdTotals: seq<HouseholdEnergy>,
    assetTotals: seq<AssetEnergy>,
    totals: Totals)

  /** `stepMinutes / 60`. */
  function StepHours(clock: Clock): real
  {
    clock.stepMinutes as real / 60.0
  }

  /** The energy of a power held for a duration: `kw * stepHours`. */
  function Energy(kw: real, hours: real): real
  {
    kw * hours
  }

  /** The time of step i: `start + stepIndex * stepMinutes * 60 * 1000`. */
  function StepTime(start: int, clock: Clock, stepIndex: int): int
  {
    start + stepIndex * clock.stepMinutes * 60 * 1000
  }

  /** `Math.max(a - b, 0)`. */
  function PositivePart(x: real): (r: real)
    ensures r >= 0.0 && r >= x
    ensures r == 0.0 || r == x
  {
    MaxReal(x, 0.0)
  }
}
