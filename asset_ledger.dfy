/**
 * The per-asset energy accumulators of `runSimulation`
 * (simulation.service.ts): a `Map` from asset id to a running total,
 * filled by `registerAsset` over every household asset and then every
 * public charger, credited by `sumAssetPower`, and read back in insertion
 * order by `Array.from(map.values())`.
 *
 * `Registry` is the map as a value (its keys in insertion order and its
 * entries); `Accumulators` is the object the service mutates.
 */
module AssetLedger {
  import opened Assets
  import opened SimulationTypes

  datatype Registry = Registry(order: seq<string>, entries: map<string, AssetEnergy>)

  const Empty: Registry := Registry([], map[])

  /** A new accumulator: the asset's id, type and name, and no energy yet. */
  function Fresh(asset: Asset): AssetEnergy
  {
    AssetEnergy(asset.id, asset.assetType, asset.name, 0.0)
  }

  /** `registerAsset`: the first asset with an id creates its accumulator, later ones leave the map alone. */
  function WithAsset(r: Registry, asset: Asset): Registry
  {
    if asset.id in r.entries then r
    else Registry(r.order + [asset.id], r.entries[asset.id := Fresh(asset)])
  }

  /** Registering assets one after the other. */
  function WithAssets(r: Registry, assets: seq<Asset>): Registry
  {
    if assets == [] then r
    else WithAsset(WithAssets(r, assets[..|assets| - 1]), assets[|assets| - 1])
  }

  /** Every household's assets, household by household, as the nested `forEach` visits them. */
  function HouseholdAssets(households: seq<Household>): seq<Asset>
  {
    if households == [] then []
    else HouseholdAssets(households[..|households| - 1]) + households[|households| - 1].assets
  }

  /** The registration order: household assets, then public chargers. */
  function AllAssets(households: seq<Household>, chargers: seq<Asset>): seq<Asset>
  {
    HouseholdAssets(households) + chargers
  }

  /** `accumulator.cumulativeKwh += kwh` on the accumulator of `id`, when there is one. */
  function Credited(entries: map<string, AssetEnergy>, id: string, kwh: real): (r: map<string, AssetEnergy>)
    ensures r.Keys == entries.Keys
  {
    if id in entries then entries[id := entries[id].(cumulativeKwh := entries[id].cumulativeKwh + kwh)]
    else entries
  }

  /** `Array.from(map.values())`: the entries in insertion order. */
  function Values(order: seq<string>, entries: map<string, AssetEnergy>): (values: seq<AssetEnergy>)
    requires forall id :: id in order ==> id in entries
    ensures |values| == |order|
  {
    if order == [] then []
    else Values(order[..|order| - 1], entries) + [entries[order[|order| - 1]]]
  }

  /** The keys are listed once each, and exactly the keys are listed. */
  ghost predicate Consistent(r: Registry)
  {
    && (forall i, j :: 0 <= i < j < |r.order| ==> r.order[i] != r.order[j])
    && (forall id :: id in r.entries <==> id in r.order)
    && (forall id :: id in r.entries ==> r.entries[id].assetId == id)
  }

  /** The index of the first asset with this id, or `|assets|` when there is none. */
  function FirstIndex(assets: seq<Asset>, id: string): (k: nat)
    ensures k <= |assets|
    ensures k < |assets| ==> assets[k].id == id
    ensures forall j :: 0 <= j < k ==> assets[j].id != id
  {
    if assets == [] then 0
    else if assets[0].id == id then 0
    else 1 + FirstIndex(assets[1..], id)
  }

  /** The first occurrence of an id in a prefix is its first occurrence in the whole sequence. */
  lemma FirstIndexOfPrefix(assets: seq<Asset>, m: nat, id: string)
    requires m <= |assets|
    ensures FirstIndex(assets[..m], id) < m ==> FirstIndex(assets, id) == FirstIndex(assets[..m], id)
    ensures FirstIndex(assets[..m], id) == m ==> FirstIndex(assets, id) >= m
  {
    var p := FirstIndex(assets[..m], id);
    forall j | 0 <= j < p
      ensures assets[j].id != id
    {
      assert assets[j] == assets[..m][j];
    }
    if p < m {
      assert assets[p] == assets[..m][p];
    }
  }

  /** How registering one more asset moves the first occurrences. */
  lemma FirstIndexOfLast(assets: seq<Asset>, id: string)
    requires assets != []
    ensures var n := |assets| - 1;
      && (FirstIndex(assets[..n], id) < n ==> FirstIndex(assets, id) == FirstIndex(assets[..n], id))
      && (FirstIndex(assets[..n], id) == n ==> FirstIndex(assets, id) == if assets[n].id == id then n else n + 1)
  {
    FirstIndexOfPrefix(assets, |assets| - 1, id);
  }

  /**
   * Registering a sequence of assets from the empty map lists each
   * distinct id once and no other, and keys each accumulator by its own id.
   */
  lemma {:induction false} RegisteredIds(assets: seq<Asset>)
    ensures var r := WithAssets(Empty, assets);
      && Consistent(r)
      && (forall id :: id in r.entries <==> FirstIndex(assets, id) < |assets|)
  {
    if assets != [] {
      var n := |assets| - 1;
      RegisteredIds(assets[..n]);
      forall id
        ensures FirstIndex(assets, id) < |assets| <==> FirstIndex(assets[..n], id) < n || assets[n].id == id
      {
        FirstIndexOfLast(assets, id);
      }
    }
  }

  /** Each accumulator is the fresh one of the first asset carrying its id: later duplicates are ignored. */
  lemma {:induction false} FirstRegistrationWins(assets: seq<Asset>)
    ensures var r := WithAssets(Empty, assets);
      forall id :: id in r.entries ==> FirstIndex(assets, id) < |assets| && r.entries[id] == Fresh(assets[FirstIndex(assets, id)])
  {
    RegisteredIds(assets);
    if assets != [] {
      var n := |assets| - 1;
      FirstRegistrationWins(assets[..n]);
      RegisteredIds(assets[..n]);
      var r0 := WithAssets(Empty, assets[..n]);
      var r := WithAssets(Empty, assets);
      forall id | id in r.entries
        ensures r.entries[id] == Fresh(assets[FirstIndex(assets, id)])
      {
        FirstIndexOfLast(assets, id);
        if id in r0.entries {
          assert assets[FirstIndex(assets, id)] == assets[..n][FirstIndex(assets[..n], id)];
        }
      }
    }
  }

  /** The accumulators are listed in the order in which their ids first occur. */
  lemma {:induction false} FirstOccurrenceOrder(assets: seq<Asset>)
    ensures var r := WithAssets(Empty, assets);
      forall i, j :: 0 <= i < j < |r.order| ==> FirstIndex(assets, r.order[i]) < FirstIndex(assets, r.order[j]) < |assets|
  {
    if assets != [] {
      var n := |assets| - 1;
      FirstOccurrenceOrder(assets[..n]);
      RegisteredIds(assets[..n]);
      var r0 := WithAssets(Empty, assets[..n]);
      var r := WithAssets(Empty, assets);
      forall i | 0 <= i < |r0.order|
        ensures FirstIndex(assets, r0.order[i]) == FirstIndex(assets[..n], r0.order[i]) < n
      {
        assert r0.order[i] in r0.entries;
        FirstIndexOfLast(assets, r0.order[i]);
      }
      if assets[n].id in r0.entries {
        assert r == r0;
      } else {
        FirstIndexOfLast(assets, assets[n].id);
        assert r.order == r0.order + [assets[n].id];
        forall i, j | 0 <= i < j < |r.order|
          ensures FirstIndex(assets, r.order[i]) < FirstIndex(assets, r.order[j]) < |assets|
        {
          assert r.order[i] == r0.order[i];
          if j < |r0.order| {
            assert r.order[j] == r0.order[j];
          }
        }
      }
    }
  }

  /** The accumulator map the service mutates in place. */
  class Accumulators {
    var order: seq<string>
    var entries: map<string, AssetEnergy>

    function State(): Registry
      reads this
    {
      Registry(order, entries)
    }

    /** `new Map()`. */
    constructor ()
      ensures State() == Empty
    {
      order := [];
      entries := map[];
    }

    /** `registerAsset`. */
    method Register(asset: Asset)
      modifies this
      ensures State() == WithAsset(old(State()), asset)
    {
      if asset.id !in entries {
        entries := entries[asset.id := Fresh(asset)];
        order := order + [asset.id];
      }
    }

    /** `forEach(registerAsset)` over a sequence of assets. */
    method RegisterAll(assets: seq<Asset>)
      modifies this
      ensures State() == WithAssets(old(State()), assets)
    {
      for k := 0 to |assets|
        invariant State() == WithAssets(old(State()), assets[..k])
      {
        Register(assets[k]);
        assert assets[..k + 1][..k] == assets[..k];
      }
      assert assets[..|assets|] == assets;
    }

    /** `accumulators.get(id)`, and when present `cumulativeKwh += kwh`. */
    method Credit(id: string, kwh: real)
      modifies this
      ensures order == old(order)
      ensures entries == Credited(old(entries), id, kwh)
    {
      if id in entries {
        var accumulator := entries[id];
        entries := entries[id := accumulator.(cumulativeKwh := accumulator.cumulativeKwh + kwh)];
      }
    }

    /** `Array.from(assetAccumulators.values())`. */
    method ToArray() returns (values: seq<AssetEnergy>)
      requires forall id :: id in order ==> id in entries
      ensures values == Values(order, entries)
    {
      values := [];
      for k := 0 to |order|
        invariant values == Values(order[..k], entries)
      {
        values := values + [entries[order[k]]];
        assert order[..k + 1][..k] == order[..k];
      }
      assert order[..|order|] == order;
    }
  }
}
