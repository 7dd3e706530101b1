/**
 * What the per-asset accumulators hold at the end of a run
 * (simulation.service.ts, `registerAsset`, `sumAssetPower` and
 * `Array.from(assetAccumulators.values())`): one entry per distinct id, in
 * first-occurrence order, whose energy is the energy of every asset
 * carrying that id at every step — each asset credited once per step, in
 * the pass its type selects.
 */
module AssetEnergyProperties {
  import opened JsBuiltins
  import opened Assets
  import opened Weather
  import opened PowerResolver
  import opened SimulationTypes
  import opened InputValidation
  import opened AssetLedger
  import opened Simulation
  import SimulationProperties

  /** An accumulator with more energy. */
  function AddKwh(e: AssetEnergy, kwh: real): AssetEnergy
  {
    e.(cumulativeKwh := e.cumulativeKwh + kwh)
  }

  /** The energy one pass credits to `id`: that of each asset in the pass carrying the id. */
  function PassEnergy(assets: seq<Asset>, id: string, stepIndex: int, includePv: bool, hours: real, weather: Option<Snapshot>): real
  {
    if assets == [] then 0.0
    else
      var last := assets[|assets| - 1];
      var before := PassEnergy(assets[..|assets| - 1], id, stepIndex, includePv, hours, weather);
      if InPass(last, includePv) && last.id == id then before + Energy(ResolveAssetKw(last, stepIndex, weather), hours) else before
  }

  /** The energy at one step of every asset carrying `id`, whatever its type. */
  function IdEnergy(assets: seq<Asset>, id: string, stepIndex: int, hours: real, weather: Option<Snapshot>): real
  {
    if assets == [] then 0.0
    else
      var last := assets[|assets| - 1];
      var before := IdEnergy(assets[..|assets| - 1], id, stepIndex, hours, weather);
      if last.id == id then before + Energy(ResolveAssetKw(last, stepIndex, weather), hours) else before
  }

  /** A pass adds to an existing accumulator exactly the energy of the pass's assets carrying its id. */
  lemma {:induction false} PassCreditAdds(
    entries: map<string, AssetEnergy>, assets: seq<Asset>, stepIndex: int, includePv: bool,
    hours: real, weather: Option<Snapshot>, id: string)
    requires id in entries
    ensures PassCredit(entries, assets, stepIndex, includePv, hours, weather)[id]
      == AddKwh(entries[id], PassEnergy(assets, id, stepIndex, includePv, hours, weather))
  {
    if assets != [] {
      PassCreditAdds(entries, assets[..|assets| - 1], stepIndex, includePv, hours, weather, id);
    }
  }

  /** The load pass and the PV pass together credit every asset with the id once. */
  lemma {:induction false} PassesCoverEachAssetOnce(assets: seq<Asset>, id: string, stepIndex: int, hours: real, weather: Option<Snapshot>)
    ensures PassEnergy(assets, id, stepIndex, false, hours, weather) + PassEnergy(assets, id, stepIndex, true, hours, weather)
      == IdEnergy(assets, id, stepIndex, hours, weather)
  {
    if assets != [] {
      PassesCoverEachAssetOnce(assets[..|assets| - 1], id, stepIndex, hours, weather);
    }
  }

  /** Without PV assets, the load pass alone credits every asset with the id. */
  lemma {:induction false} LoadPassCoversAll(assets: seq<Asset>, id: string, stepIndex: int, hours: real, weather: Option<Snapshot>)
    requires forall k :: 0 <= k < |assets| ==> assets[k].assetType != Pv
    ensures PassEnergy(assets, id, stepIndex, false, hours, weather) == IdEnergy(assets, id, stepIndex, hours, weather)
  {
    if assets != [] {
      LoadPassCoversAll(assets[..|assets| - 1], id, stepIndex, hours, weather);
    }
  }

  lemma {:induction false} IdEnergyAppend(a: seq<Asset>, b: seq<Asset>, id: string, stepIndex: int, hours: real, weather: Option<Snapshot>)
    ensures IdEnergy(a + b, id, stepIndex, hours, weather) == IdEnergy(a, id, stepIndex, hours, weather) + IdEnergy(b, id, stepIndex, hours, weather)
  {
    if b == [] {
      assert a + b == a;
    } else {
      var n := |b| - 1;
      IdEnergyAppend(a, b[..n], id, stepIndex, hours, weather);
      assert (a + b)[..|a + b| - 1] == a + b[..n];
    }
  }

  /** The household callbacks of a step add the energy of every household asset carrying the id. */
  lemma {:induction false} HouseholdsCreditAdds(
    entries: map<string, AssetEnergy>, households: seq<Household>, stepIndex: int,
    hours: real, weather: Snapshot, id: string)
    requires id in entries
    ensures HouseholdsCredit(entries, households, stepIndex, hours, weather)[id]
      == AddKwh(entries[id], IdEnergy(HouseholdAssets(households), id, stepIndex, hours, Some(weather)))
  {
    if households != [] {
      var n := |households| - 1;
      var assets := households[n].assets;
      var before := HouseholdsCredit(entries, households[..n], stepIndex, hours, weather);
      HouseholdsCreditAdds(entries, households[..n], stepIndex, hours, weather, id);
      var loadPass := PassCredit(before, assets, stepIndex, false, hours, Some(weather));
      PassCreditAdds(before, assets, stepIndex, false, hours, Some(weather), id);
      PassCreditAdds(loadPass, assets, stepIndex, true, hours, Some(weather), id);
      PassesCoverEachAssetOnce(assets, id, stepIndex, hours, Some(weather));
      IdEnergyAppend(HouseholdAssets(households[..n]), assets, id, stepIndex, hours, Some(weather));
    }
  }

  /**
   * With only EV chargers in the public list, a whole step adds to each
   * accumulator the energy of every registered asset carrying its id.
   */
  lemma StepCreditAdds(entries: map<string, AssetEnergy>, input: SimulationInput, stepIndex: int, hours: real, weather: Snapshot, id: string)
    requires AllPublicChargers(input.publicChargers)
    requires id in entries
    ensures StepCredit(entries, input, stepIndex, hours, weather)[id]
      == AddKwh(entries[id], IdEnergy(AllAssets(input.households, input.publicChargers), id, stepIndex, hours, Some(weather)))
  {
    var afterHouseholds := HouseholdsCredit(entries, input.households, stepIndex, hours, weather);
    HouseholdsCreditAdds(entries, input.households, stepIndex, hours, weather, id);
    PassCreditAdds(afterHouseholds, input.publicChargers, stepIndex, false, hours, Some(weather), id);
    LoadPassCoversAll(input.publicChargers, id, stepIndex, hours, Some(weather));
    IdEnergyAppend(HouseholdAssets(input.households), input.publicChargers, id, stepIndex, hours, Some(weather));
  }

  /** The energy over the first n steps of every asset carrying `id`. */
  function CumulativeEnergy(calendar: Calendar, start: int, input: SimulationInput, id: string, n: nat): real
  {
    if n == 0 then 0.0
    else
      var weather := SnapshotAt(calendar, StepTime(start, input.clock, n - 1));
      CumulativeEnergy(calendar, start, input, id, n - 1)
        + IdEnergy(AllAssets(input.households, input.publicChargers), id, n - 1, StepHours(input.clock), Some(weather))
  }

  /** Crediting twice is crediting the sum. */
  lemma AddKwhTwice(e: AssetEnergy, a: real, b: real)
    ensures AddKwh(AddKwh(e, a), b) == AddKwh(e, a + b)
  {
  }

  /** Step n-1 adds to each registered accumulator the energy of its assets at that step. */
  lemma LedgerStep(calendar: Calendar, start: int, input: SimulationInput, n: nat, id: string)
    requires AllPublicChargers(input.publicChargers)
    requires n > 0
    requires id in Registered(input).entries
    ensures LedgerAfter(calendar, start, input, n)[id]
      == AddKwh(LedgerAfter(calendar, start, input, n - 1)[id], CumulativeEnergy(calendar, start, input, id, n) - CumulativeEnergy(calendar, start, input, id, n - 1))
  {
    var weather := SnapshotAt(calendar, StepTime(start, input.clock, n - 1));
    StepCreditAdds(LedgerAfter(calendar, start, input, n - 1), input, n - 1, StepHours(input.clock), weather, id);
  }

  /** After n steps every registered accumulator holds the energy of its assets over those steps. */
  lemma {:induction false} LedgerAfterHolds(calendar: Calendar, start: int, input: SimulationInput, n: nat, id: string)
    requires AllPublicChargers(input.publicChargers)
    requires id in Registered(input).entries
    ensures LedgerAfter(calendar, start, input, n)[id]
      == AddKwh(Registered(input).entries[id], CumulativeEnergy(calendar, start, input, id, n))
  {
    if n > 0 {
      LedgerAfterHolds(calendar, start, input, n - 1, id);
      LedgerStep(calendar, start, input, n, id);
      var previous := CumulativeEnergy(calendar, start, input, id, n - 1);
      AddKwhTwice(Registered(input).entries[id], previous, CumulativeEnergy(calendar, start, input, id, n) - previous);
    }
  }

  /** `Array.from(values())` lists the entry of each key in key order. */
  lemma {:induction false} ValuesAreIndexed(order: seq<string>, entries: map<string, AssetEnergy>)
    requires forall id :: id in order ==> id in entries
    ensures forall j :: 0 <= j < |order| ==> Values(order, entries)[j] == entries[order[j]]
  {
    if order != [] {
      ValuesAreIndexed(order[..|order| - 1], entries);
    }
  }

  /** Every registered asset's id is listed. */
  lemma EveryAssetListed(assets: seq<Asset>)
    ensures forall k :: 0 <= k < |assets| ==> assets[k].id in WithAssets(Empty, assets).order
  {
    RegisteredIds(assets);
    forall k | 0 <= k < |assets|
      ensures assets[k].id in WithAssets(Empty, assets).order
    {
      assert FirstIndex(assets, assets[k].id) <= k;
    }
  }

  /** The asset totals after n steps: each listed id's first asset, with the energy of its assets over those steps. */
  lemma AssetTotalsAfter(calendar: Calendar, start: int, input: SimulationInput, n: nat)
    requires AllPublicChargers(input.publicChargers)
    ensures var assets := AllAssets(input.households, input.publicChargers);
      var order := Registered(input).order;
      var totals := AssetTotals(calendar, start, input, n);
      && |totals| == |order|
      && forall j :: 0 <= j < |order| ==>
        && FirstIndex(assets, order[j]) < |assets|
        && totals[j] == AddKwh(Fresh(assets[FirstIndex(assets, order[j])]), CumulativeEnergy(calendar, start, input, order[j], n))
  {
    var assets := AllAssets(input.households, input.publicChargers);
    var registry := Registered(input);
    RegisteredIds(assets);
    FirstRegistrationWins(assets);
    var ledger := LedgerAfter(calendar, start, input, n);
    ValuesAreIndexed(registry.order, ledger);
    forall j | 0 <= j < |registry.order|
      ensures ledger[registry.order[j]] == AddKwh(Fresh(assets[FirstIndex(assets, registry.order[j])]), CumulativeEnergy(calendar, start, input, registry.order[j], n))
    {
      assert registry.order[j] in registry.entries;
      LedgerAfterHolds(calendar, start, input, n, registry.order[j]);
    }
  }

  /**
   * A run's asset totals: one per distinct asset id, listed in the order
   * the ids first occur among the household assets and then the public
   * chargers, each carrying the id, type and name of the first asset with
   * that id and the energy of every asset with that id over every step.
   */
  lemma RunAssetTotals(calendar: Calendar, input: SimulationInput)
    requires Simulate(calendar, input).Success?
    ensures var r := Simulate(calendar, input).value;
      var start := calendar.parse(input.clock.startDateTimeIso).value;
      var assets := AllAssets(input.households, input.publicChargers);
      var order := Registered(input).order;
      && |r.assetTotals| == |order|
      && (forall k :: 0 <= k < |assets| ==> assets[k].id in order)
      && (forall i, j :: 0 <= i < j < |order| ==> FirstIndex(assets, order[i]) < FirstIndex(assets, order[j]) < |assets|)
      && forall j :: 0 <= j < |order| ==>
        && FirstIndex(assets, order[j]) < |assets|
        && r.assetTotals[j] == AddKwh(Fresh(assets[FirstIndex(assets, order[j])]), CumulativeEnergy(calendar, start, input, order[j], input.clock.steps))
  {
    var start := calendar.parse(input.clock.startDateTimeIso).value;
    SimulationProperties.SuccessfulRun(calendar, input);
    RegistrationOrder(input);
    AssetTotalsAfter(calendar, start, input, input.clock.steps);
  }

  /** Every asset's id is registered, and the ids are listed in order of first occurrence. */
  lemma RegistrationOrder(input: SimulationInput)
    ensures var assets := AllAssets(input.households, input.publicChargers);
      var order := Registered(input).order;
      && (forall k :: 0 <= k < |assets| ==> assets[k].id in order)
      && (forall i, j :: 0 <= i < j < |order| ==> FirstIndex(assets, order[i]) < FirstIndex(assets, order[j]) < |assets|)
  {
    var assets := AllAssets(input.households, input.publicChargers);
    var order := Registered(input).order;
    assert order == WithAssets(Empty, assets).order;
    EveryAssetListed(assets);
    FirstOccurrenceOrder(assets);
    forall i, j | 0 <= i < j < |order|
      ensures FirstIndex(assets, order[i]) < FirstIndex(assets, order[j]) < |assets|
    {
    }
  }
}
