/**
 * The input checks `runSimulation` performs before simulating
 * (simulation.service.ts, `validateInput`). The service throws a
 * `BadRequestException` for the first check that fails; here the first
 * failure is returned as a value.
 */
module InputValidation {
  import opened JsBuiltins
  import opened Assets
  import opened Weather
  import opened SimulationTypes

  const RequiredHouseholds: int := 30
  const RequiredPublicChargers: int := 6

  datatype InputError =
    | StepMinutesNotPositive
    | StepsNotPositive
    | InvalidStart
    | MissingBaseLoad(householdId: string)
    | WrongHouseholdCount
    | WrongPublicChargerCount
    | WrongPublicChargerType

  /** The first household without a base load, if any. */
  function FirstWithoutBaseLoad(households: seq<Household>): (r: Option<nat>)
    ensures r.Some? ==> r.value < |households| && !HasAssetOfType(households[r.value].assets, BaseLoad)
    ensures r.Some? ==> forall k :: 0 <= k < r.value ==> HasAssetOfType(households[k].assets, BaseLoad)
    ensures r.None? <==> forall k :: 0 <= k < |households| ==> HasAssetOfType(households[k].assets, BaseLoad)
  {
    if households == [] then None
    else if !HasAssetOfType(households[0].assets, BaseLoad) then Some(0)
    else
      var rest := FirstWithoutBaseLoad(households[1..]);
      assert forall k :: 1 <= k < |households| ==> households[k] == households[1..][k - 1];
      if rest.Some? then Some(rest.value + 1) else None
  }

  predicate AllPublicChargers(chargers: seq<Asset>)
  {
    forall k :: 0 <= k < |chargers| ==> chargers[k].assetType == PublicEvCharger
  }

  /** The error `validateInput` throws, checking in its order; None when it returns normally. */
  function FirstError(calendar: Calendar, input: SimulationInput): Option<InputError>
  {
    if input.clock.stepMinutes <= 0 then Some(StepMinutesNotPositive)
    else if input.clock.steps <= 0 then Some(StepsNotPositive)
    else if calendar.parse(input.clock.startDateTimeIso).None? then Some(InvalidStart)
    else
      match FirstWithoutBaseLoad(input.households)
      case Some(k) => Some(MissingBaseLoad(input.households[k].id))
      case None =>
        if |input.households| != RequiredHouseholds then Some(WrongHouseholdCount)
        else if |input.publicChargers| != RequiredPublicChargers then Some(WrongPublicChargerCount)
        else if !AllPublicChargers(input.publicChargers) then Some(WrongPublicChargerType)
        else None
  }

  /** What an input must satisfy to be simulated. */
  predicate Acceptable(calendar: Calendar, input: SimulationInput)
  {
    && input.clock.stepMinutes > 0
    && input.clock.steps > 0
    && calendar.parse(input.clock.startDateTimeIso).Some?
    && (forall k :: 0 <= k < |input.households| ==> HasAssetOfType(input.households[k].assets, BaseLoad))
    && |input.households| == RequiredHouseholds
    && |input.publicChargers| == RequiredPublicChargers
    && AllPublicChargers(input.publicChargers)
  }

  /** Validation passes exactly on acceptable inputs. */
  lemma NoErrorIffAcceptable(calendar: Calendar, input: SimulationInput)
    ensures FirstError(calendar, input).None? <==> Acceptable(calendar, input)
  {
  }

  /**
   * A missing base load is reported for the first household lacking one,
   * and only once the clock checks have passed.
   */
  lemma MissingBaseLoadIsFirst(calendar: Calendar, input: SimulationInput, id: string)
    requires FirstError(calendar, input) == Some(MissingBaseLoad(id))
    ensures input.clock.stepMinutes > 0 && input.clock.steps > 0
    ensures calendar.parse(input.clock.startDateTimeIso).Some?
    ensures exists k ::
      && 0 <= k < |input.households|
      && input.households[k].id == id
      && !HasAssetOfType(input.households[k].assets, BaseLoad)
      && forall j :: 0 <= j < k ==> HasAssetOfType(input.households[j].assets, BaseLoad)
  {
    var k := FirstWithoutBaseLoad(input.households).value;
    assert input.households[k].id == id;
  }

  /** `validateInput`: the checks in order, each `forEach` as a loop that stops at the first failure. */
  method ValidateInput(calendar: Calendar, input: SimulationInput) returns (error: Option<InputError>)
    ensures error == FirstError(calendar, input)
  {
    if input.clock.stepMinutes <= 0 {
      return Some(StepMinutesNotPositive);
    }
    if input.clock.steps <= 0 {
      return Some(StepsNotPositive);
    }
    if calendar.parse(input.clock.startDateTimeIso).None? {
      return Some(InvalidStart);
    }
    var k := 0;
    while k < |input.households|
      invariant 0 <= k <= |input.households|
      invariant forall j :: 0 <= j < k ==> HasAssetOfType(input.households[j].assets, BaseLoad)
    {
      if !HasAssetOfType(input.households[k].assets, BaseLoad) {
        assert FirstWithoutBaseLoad(input.households) == Some(k);
        return Some(MissingBaseLoad(input.households[k].id));
      }
      k := k + 1;
    }
    if |input.households| != RequiredHouseholds {
      return Some(WrongHouseholdCount);
    }
    if |input.publicChargers| != RequiredPublicChargers {
      return Some(WrongPublicChargerCount);
    }
    var c := 0;
    while c < |input.publicChargers|
      invariant 0 <= c <= |input.publicChargers|
      invariant forall j :: 0 <= j < c ==> input.publicChargers[j].assetType == PublicEvCharger
    {
      if input.publicChargers[c].assetType != PublicEvCharger {
        return Some(WrongPublicChargerType);
      }
      c := c + 1;
    }
    return None;
  }
}
