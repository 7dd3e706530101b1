/**
 * The seeded neighbourhood layout (neighborhood.generator.ts,
 * `generateNeighborhoodConfig`): apportion the optional asset kinds to
 * houses, shuffle the house indices, hand each kind a consecutive block of
 * the shuffled indices, then build the households (a base load plus the
 * assigned optional assets) and the public chargers.
 *
 * The configuration file is read by the source; here it is a parameter.
 */
module NeighborhoodGenerator {
  import opened JsBuiltins
  import opened Assets
  import opened Mulberry
  import opened FisherYates
  import opened Apportionment

  /** The rated powers the generated assets get. */
  datatype Defaults = Defaults(
    baseLoadKw: real,
    pvKw: real,
    heatPumpKw: real,
    homeEvKw: real,
    publicEvKw: real)

  /** The parsed configuration file; `assetDistribution` lists its entries in key order. */
  datatype RawConfig = RawConfig(
    seed: int,
    houseCount: int,
    publicChargerCount: int,
    assetDistribution: seq<ShareEntry>,
    defaults: Defaults)

  datatype NeighborhoodConfig = NeighborhoodConfig(
    seed: int,
    houseCount: int,
    publicChargerCount: int,
    assetDistribution: seq<AssetDistribution>,
    households: seq<Household>,
    publicChargers: seq<Asset>)

  // ---------------------------------------------------------------------
  // Blocks of shuffled house indices

  /** Where the block of entry e starts: the counts of the entries before it. */
  function BlockStart(distribution: seq<AssetDistribution>, e: nat): int
    requires e <= |distribution|
  {
    SumDistribution(distribution[..e])
  }

  /** The house indices entry e selects: `houseIndices.slice(start, start + count)`. */
  function Block(distribution: seq<AssetDistribution>, e: nat, houseIndices: seq<int>): seq<int>
    requires e < |distribution|
  {
    var start := BlockStart(distribution, e);
    JsSlice(houseIndices, start, start + distribution[e].count)
  }

  function Repeat(t: AssetType, n: nat): (r: seq<AssetType>)
    ensures |r| == n
  {
    if n == 0 then [] else Repeat(t, n - 1) + [t]
  }

  /**
   * The kinds pushed onto `assignment[index]` by the blocks of `distribution`,
   * in order: one push per occurrence of `index` in a block.
   */
  function AssignedTypes(distribution: seq<AssetDistribution>, houseIndices: seq<int>, index: int): seq<AssetType>
  {
    if distribution == [] then []
    else
      var n := |distribution| - 1;
      AssignedTypes(distribution[..n], houseIndices, index)
        + Repeat(distribution[n].assetType, multiset(Block(distribution, n, houseIndices))[index])
  }

  /** `assignment[index] ?? []`. */
  function Lookup(assignment: map<int, seq<AssetType>>, index: int): seq<AssetType>
  {
    if index in assignment then assignment[index] else []
  }

  lemma BlockOfPrefix(distribution: seq<AssetDistribution>, m: nat, e: nat, houseIndices: seq<int>)
    requires e < m <= |distribution|
    ensures Block(distribution[..m], e, houseIndices) == Block(distribution, e, houseIndices)
  {
    assert distribution[..m][..e] == distribution[..e];
  }

  /** `distribution.slice(0, e).reduce((sum, item) => sum + item.count, 0)`. */
  method PrefixCount(distribution: seq<AssetDistribution>, e: nat) returns (sum: int)
    requires e <= |distribution|
    ensures sum == BlockStart(distribution, e)
  {
    var prefix := JsSlice(distribution, 0, e);
    sum := 0;
    var k := 0;
    while k < |prefix|
      invariant 0 <= k <= |prefix|
      invariant sum == SumDistribution(prefix[..k])
    {
      SumDistributionAppend(prefix[..k], prefix[k]);
      assert prefix[..k + 1] == prefix[..k] + [prefix[k]];
      sum := sum + prefix[k].count;
      k := k + 1;
    }
    assert prefix[..k] == distribution[..e];
  }

  lemma {:induction false} SumDistributionAppend(a: seq<AssetDistribution>, d: AssetDistribution)
    ensures SumDistribution(a + [d]) == SumDistribution(a) + d.count
  {
    if a != [] {
      assert (a + [d])[1..] == a[1..] + [d];
      SumDistributionAppend(a[1..], d);
    }
  }

  /** `assignment[index].push(t)`, creating the list on first use. */
  function Push(assignment: map<int, seq<AssetType>>, index: int, t: AssetType): map<int, seq<AssetType>>
  {
    assignment[index := Lookup(assignment, index) + [t]]
  }

  /** `selected.forEach(...)`: one push of `t` per element of `selected`, in order. */
  function PushEach(assignment: map<int, seq<AssetType>>, selected: seq<int>, t: AssetType): map<int, seq<AssetType>>
  {
    if selected == [] then assignment
    else
      var n := |selected| - 1;
      Push(PushEach(assignment, selected[..n], t), selected[n], t)
  }

  /** The `assignment` record after the blocks of the whole distribution. */
  function Assignment(distribution: seq<AssetDistribution>, houseIndices: seq<int>): map<int, seq<AssetType>>
  {
    if distribution == [] then map[]
    else
      var n := |distribution| - 1;
      PushEach(Assignment(distribution[..n], houseIndices), Block(distribution, n, houseIndices), distribution[n].assetType)
  }

  /** One push appends `t` to the list of the index pushed to and leaves the other lists alone. */
  lemma PushLookup(assignment: map<int, seq<AssetType>>, pushed: int, t: AssetType, index: int)
    ensures Lookup(Push(assignment, pushed, t), index)
      == if pushed == index then Lookup(assignment, index) + [t] else Lookup(assignment, index)
  {
  }

  /** The last push of `PushEach` on one index. */
  lemma PushEachLast(assignment: map<int, seq<AssetType>>, selected: seq<int>, t: AssetType, index: int)
    requires selected != []
    ensures var n := |selected| - 1;
      Lookup(PushEach(assignment, selected, t), index)
        == Lookup(PushEach(assignment, selected[..n], t), index) + (if selected[n] == index then [t] else [])
  {
    var n := |selected| - 1;
    PushLookup(PushEach(assignment, selected[..n], t), selected[n], t, index);
  }

  /** The repetitions one more occurrence adds. */
  lemma RepeatLast(selected: seq<int>, t: AssetType, index: int)
    requires selected != []
    ensures var n := |selected| - 1;
      Repeat(t, multiset(selected)[index])
        == Repeat(t, multiset(selected[..n])[index]) + (if selected[n] == index then [t] else [])
  {
    var n := |selected| - 1;
    assert selected == selected[..n] + [selected[n]];
    assert multiset(selected) == multiset(selected[..n]) + multiset{selected[n]};
  }

  /** Pushing `t` for every element of `selected` appends `t` to each list once per occurrence. */
  lemma {:induction false} PushEachLookup(assignment: map<int, seq<AssetType>>, selected: seq<int>, t: AssetType, index: int)
    ensures Lookup(PushEach(assignment, selected, t), index)
      == Lookup(assignment, index) + Repeat(t, multiset(selected)[index])
  {
    if selected != [] {
      var n := |selected| - 1;
      var extra := if selected[n] == index then [t] else [];
      PushEachLookup(assignment, selected[..n], t, index);
      PushEachLast(assignment, selected, t, index);
      RepeatLast(selected, t, index);
      assert Lookup(assignment, index) + Repeat(t, multiset(selected[..n])[index]) + extra
        == Lookup(assignment, index) + (Repeat(t, multiset(selected[..n])[index]) + extra);
    }
  }

  /**
   * The list a house index ends up with: the kind of every entry whose
   * block holds it, once per occurrence, in distribution order.
   */
  lemma {:induction false} AssignmentLookup(distribution: seq<AssetDistribution>, houseIndices: seq<int>, index: int)
    ensures Lookup(Assignment(distribution, houseIndices), index) == AssignedTypes(distribution, houseIndices, index)
  {
    if distribution != [] {
      var n := |distribution| - 1;
      AssignmentLookup(distribution[..n], houseIndices, index);
      PushEachLookup(Assignment(distribution[..n], houseIndices), Block(distribution, n, houseIndices),
        distribution[n].assetType, index);
    }
  }

  /** `selected.forEach(...)` of one entry, pushing its kind. */
  method PushAll(assignment: map<int, seq<AssetType>>, selected: seq<int>, t: AssetType)
    returns (result: map<int, seq<AssetType>>)
    ensures result == PushEach(assignment, selected, t)
  {
    result := assignment;
    var s := 0;
    while s < |selected|
      invariant 0 <= s <= |selected|
      invariant result == PushEach(assignment, selected[..s], t)
    {
      var index := selected[s];
      ghost var before := result;
      if index !in result {
        result := result[index := []];
      }
      result := result[index := result[index] + [t]];
      assert result == Push(before, index, t);
      assert selected[..s + 1][..s] == selected[..s];
      s := s + 1;
    }
    assert selected[..s] == selected;
  }

  /** `distribution.forEach(...)`: the `assignment` record the generator builds. */
  method AssignOptionalAssets(distribution: seq<AssetDistribution>, houseIndices: seq<int>)
    returns (assignment: map<int, seq<AssetType>>)
    ensures assignment == Assignment(distribution, houseIndices)
  {
    assignment := map[];
    var e := 0;
    while e < |distribution|
      invariant 0 <= e <= |distribution|
      invariant assignment == Assignment(distribution[..e], houseIndices)
    {
      var start := PrefixCount(distribution, e);
      var end := start + distribution[e].count;
      var selected := JsSlice(houseIndices, start, end);
      assignment := PushAll(assignment, selected, distribution[e].assetType);
      assert distribution[..e + 1][..e] == distribution[..e];
      BlockOfPrefix(distribution, e + 1, e, houseIndices);
      e := e + 1;
    }
    assert distribution[..e] == distribution;
  }

  // ---------------------------------------------------------------------
  // Households and chargers

  function HouseId(index: nat): string
  {
    "house-" + Decimal(index + 1)
  }

  /** The asset pushed for an assigned kind; kinds other than PV, heat pump and home charger push none. */
  function OptionalAsset(houseId: string, t: AssetType, defaults: Defaults): (a: Option<Asset>)
    ensures a.Some? <==> t in {Pv, HeatPump, HomeEvCharger}
    ensures a.Some? ==> a.value.assetType == t && a.value.profileKw == None
  {
    match t
    case Pv => Some(Asset(houseId + "-pv", Some("PV Array"), Pv, defaults.pvKw, None))
    case HeatPump => Some(Asset(houseId + "-heat", Some("Heat Pump"), HeatPump, defaults.heatPumpKw, None))
    case HomeEvCharger => Some(Asset(houseId + "-ev", Some("Home EV Charger"), HomeEvCharger, defaults.homeEvKw, None))
    case _ => None
  }

  /** The assets the `forEach` over the assigned kinds pushes, in order. */
  function OptionalAssets(houseId: string, types: seq<AssetType>, defaults: Defaults): (r: seq<Asset>)
    ensures |r| <= |types|
  {
    if types == [] then []
    else
      var n := |types| - 1;
      var a := OptionalAsset(houseId, types[n], defaults);
      OptionalAssets(houseId, types[..n], defaults) + (if a.Some? then [a.value] else [])
  }

  function BaseAsset(houseId: string, defaults: Defaults): Asset
  {
    Asset(houseId + "-base", Some("Base Load"), BaseLoad, defaults.baseLoadKw, None)
  }

  /** Household number index + 1 with the kinds assigned to it. */
  function HouseholdAt(index: nat, types: seq<AssetType>, defaults: Defaults): Household
  {
    var houseId := HouseId(index);
    Household(houseId, "House " + Decimal(index + 1), [BaseAsset(houseId, defaults)] + OptionalAssets(houseId, types, defaults))
  }

  function PublicCharger(index: nat, defaults: Defaults): Asset
  {
    var number := Decimal(index + 1);
    Asset("public-ev-" + number, Some("Public Charger " + number), PublicEvCharger, defaults.publicEvKw, None)
  }

  function PublicChargers(count: int, defaults: Defaults): (r: seq<Asset>)
    ensures |r| == ArrayLength(count)
  {
    seq(ArrayLength(count), k requires 0 <= k => PublicCharger(k, defaults))
  }

  function Households(count: int, assignment: map<int, seq<AssetType>>, defaults: Defaults): (r: seq<Household>)
    ensures |r| == ArrayLength(count)
  {
    seq(ArrayLength(count), k requires 0 <= k => HouseholdAt(k, Lookup(assignment, k), defaults))
  }

  // ---------------------------------------------------------------------
  // The whole layout

  /** The shuffled house indices when the generator returns `draws`. */
  function HouseOrder(houseCount: int, draws: seq<real>): seq<int>
    requires |draws| == DrawsFor(ArrayLength(houseCount)) && UnitDraws(draws)
  {
    Shuffled(Range(ArrayLength(houseCount)), draws)
  }

  /** The layout built from `raw` when the shuffle is driven by `draws`. */
  function LayoutFrom(raw: RawConfig, draws: seq<real>): NeighborhoodConfig
    requires |draws| == DrawsFor(ArrayLength(raw.houseCount)) && UnitDraws(draws)
  {
    var distribution := Apportion(raw.houseCount, raw.assetDistribution);
    var order := HouseOrder(raw.houseCount, draws);
    var assignment := Assignment(distribution, order);
    NeighborhoodConfig(
      raw.seed, raw.houseCount, raw.publicChargerCount, distribution,
      Households(raw.houseCount, assignment, raw.defaults),
      PublicChargers(raw.publicChargerCount, raw.defaults))
  }

  /** The layout `generateNeighborhoodConfig` returns for `raw`: fixed by the configuration alone. */
  function Layout(raw: RawConfig): NeighborhoodConfig
  {
    var n := ArrayLength(raw.houseCount);
    LayoutFrom(raw, Draws(raw.seed, DrawsFor(n)))
  }

  /** `Array.from({ length: n }, (_, index) => index)`. */
  method Indices(n: int) returns (a: array<int>)
    ensures fresh(a) && a[..] == Range(ArrayLength(n))
  {
    a := new int[ArrayLength(n)](k => k);
  }

  method GenerateNeighborhoodConfig(raw: RawConfig) returns (config: NeighborhoodConfig)
    ensures config == Layout(raw)
  {
    var rand := new Rng(raw.seed);
    var distribution := ComputeDistribution(raw.houseCount, raw.assetDistribution);
    var indices := Indices(raw.houseCount);
    var houseIndices := Shuffle(indices, rand);
    HistoryFromSeed(rand);
    var assignment := AssignOptionalAssets(distribution, houseIndices[..]);
    var households := Households(raw.houseCount, assignment, raw.defaults);
    var publicChargers := PublicChargers(raw.publicChargerCount, raw.defaults);
    config := NeighborhoodConfig(
      raw.seed, raw.houseCount, raw.publicChargerCount, distribution, households, publicChargers);
    assert rand.history[0..] == rand.history;
    assert houseIndices[..] == HouseOrder(raw.houseCount, rand.history);
  }
}
