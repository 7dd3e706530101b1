/**
 * What the generated layout guarantees: the shape of every household and
 * public charger, unique ids, one base load per house, at most one optional
 * asset per house, and as many houses carrying each optional kind as the
 * apportionment gave that kind.
 */
module LayoutProperties {
  import opened JsBuiltins
  import opened Assets
  import opened FisherYates
  import opened Apportionment
  import opened NeighborhoodGenerator

  // ---------------------------------------------------------------------
  // The blocks of a distribution

  predicate NonNegativeCounts(distribution: seq<AssetDistribution>)
  {
    forall e :: 0 <= e < |distribution| ==> distribution[e].count >= 0
  }

  /** The blocks of all entries, one after the other. */
  function Blocks(distribution: seq<AssetDistribution>, houseIndices: seq<int>): seq<int>
  {
    if distribution == [] then []
    else
      var n := |distribution| - 1;
      Blocks(distribution[..n], houseIndices) + Block(distribution, n, houseIndices)
  }

  /**
   * With no negative count the blocks are consecutive and disjoint: together
   * they are the first `Σ counts` shuffled indices (all of them if fewer).
   */
  lemma {:induction false} BlocksArePrefix(distribution: seq<AssetDistribution>, houseIndices: seq<int>)
    requires NonNegativeCounts(distribution)
    ensures SumDistribution(distribution) >= 0
    ensures Blocks(distribution, houseIndices) == houseIndices[..Min(SumDistribution(distribution), |houseIndices|)]
  {
    if distribution != [] {
      var n := |distribution| - 1;
      BlocksArePrefix(distribution[..n], houseIndices);
      SumDistributionAppend(distribution[..n], distribution[n]);
      assert distribution[..n] + [distribution[n]] == distribution;
    }
  }

  /** A house index is pushed to once per occurrence in the blocks. */
  lemma {:induction false} AssignedCountIsOccurrences(distribution: seq<AssetDistribution>, houseIndices: seq<int>, index: int)
    ensures |AssignedTypes(distribution, houseIndices, index)| == multiset(Blocks(distribution, houseIndices))[index]
  {
    if distribution != [] {
      AssignedCountIsOccurrences(distribution[..|distribution| - 1], houseIndices, index);
    }
  }

  /** A house index that occurs once among the shuffled indices receives at most one kind. */
  lemma AtMostOneAssigned(distribution: seq<AssetDistribution>, houseIndices: seq<int>, index: int)
    requires NonNegativeCounts(distribution)
    requires multiset(houseIndices)[index] <= 1
    ensures |AssignedTypes(distribution, houseIndices, index)| <= 1
  {
    AssignedCountIsOccurrences(distribution, houseIndices, index);
    BlocksArePrefix(distribution, houseIndices);
    var m := Min(SumDistribution(distribution), |houseIndices|);
    assert houseIndices == houseIndices[..m] + houseIndices[m..];
  }

  // ---------------------------------------------------------------------
  // Counting kinds over the houses

  /** How many elements of s equal x. */
  function Count<T(==)>(s: seq<T>, x: T): (c: nat)
    ensures c <= |s|
  {
    if s == [] then 0 else Count(s[..|s| - 1], x) + (if s[|s| - 1] == x then 1 else 0)
  }

  lemma {:induction false} CountAppend<T>(a: seq<T>, b: seq<T>, x: T)
    ensures Count(a + b, x) == Count(a, x) + Count(b, x)
  {
    if b == [] {
      assert a + b == a;
    } else {
      var n := |b| - 1;
      CountAppend(a, b[..n], x);
      assert (a + b)[..|a + b| - 1] == a + b[..n];
    }
  }

  lemma {:induction false} CountRepeat(t: AssetType, n: nat, u: AssetType)
    ensures Count(Repeat(t, n), u) == if t == u then n else 0
  {
    if n > 0 {
      var shorter := Repeat(t, n - 1);
      CountRepeat(t, n - 1, u);
      assert Repeat(t, n) == shorter + [t];
      assert (shorter + [t])[..n - 1] == shorter;
    }
  }

  /** f(0) + ... + f(n - 1). */
  function SumBelow(f: int -> nat, n: nat): nat
  {
    if n == 0 then 0 else SumBelow(f, n - 1) + f(n - 1)
  }

  lemma {:induction false} SumBelowAdd(f: int -> nat, g: int -> nat, h: int -> nat, n: nat)
    requires forall k :: 0 <= k < n ==> f(k) == g(k) + h(k)
    ensures SumBelow(f, n) == SumBelow(g, n) + SumBelow(h, n)
  {
    if n > 0 {
      SumBelowAdd(f, g, h, n - 1);
    }
  }

  lemma {:induction false} SumBelowZero(f: int -> nat, n: nat)
    requires forall k :: 0 <= k < n ==> f(k) == 0
    ensures SumBelow(f, n) == 0
  {
    if n > 0 {
      SumBelowZero(f, n - 1);
    }
  }

  lemma {:induction false} SumBelowOne(x: int, n: nat)
    ensures SumBelow(k => if k == x then 1 else 0, n) == if 0 <= x < n then 1 else 0
  {
    if n > 0 {
      SumBelowOne(x, n - 1);
    }
  }

  /** How often kind t is pushed to the lists of houses 0 .. houseCount-1. */
  function KindTally(distribution: seq<AssetDistribution>, houseIndices: seq<int>, houseCount: nat, t: AssetType): nat
  {
    SumBelow(k => Count(AssignedTypes(distribution, houseIndices, k), t), houseCount)
  }

  /** How many elements of `block` lie in 0 .. houseCount-1. */
  function Occurrences(block: seq<int>, houseCount: nat): nat
  {
    SumBelow(k => Count(block, k), houseCount)
  }

  lemma OccurrencesAppend(block: seq<int>, x: int, houseCount: nat)
    ensures Occurrences(block + [x], houseCount) == Occurrences(block, houseCount) + (if 0 <= x < houseCount then 1 else 0)
  {
    assert (block + [x])[..|block|] == block;
    SumBelowAdd(k => Count(block + [x], k), k => Count(block, k), k => if k == x then 1 else 0, houseCount);
    SumBelowOne(x, houseCount);
  }

  lemma {:induction false} OccurrencesOfInRange(block: seq<int>, houseCount: nat)
    requires forall p :: 0 <= p < |block| ==> 0 <= block[p] < houseCount
    ensures Occurrences(block, houseCount) == |block|
  {
    if block == [] {
      SumBelowZero(k => Count(block, k), houseCount);
    } else {
      var n := |block| - 1;
      OccurrencesOfInRange(block[..n], houseCount);
      OccurrencesAppend(block[..n], block[n], houseCount);
      assert block[..n] + [block[n]] == block;
    }
  }

  /** Total size of the blocks of the entries of kind t. */
  function BlockSizeOfKind(distribution: seq<AssetDistribution>, houseIndices: seq<int>, t: AssetType): nat
  {
    if distribution == [] then 0
    else
      var n := |distribution| - 1;
      BlockSizeOfKind(distribution[..n], houseIndices, t)
        + (if distribution[n].assetType == t then |Block(distribution, n, houseIndices)| else 0)
  }

  /** Total count of the entries of kind t. */
  function CountOfKind(distribution: seq<AssetDistribution>, t: AssetType): int
  {
    if distribution == [] then 0
    else
      var n := |distribution| - 1;
      CountOfKind(distribution[..n], t) + (if distribution[n].assetType == t then distribution[n].count else 0)
  }

  /** The kinds entry n adds to house index k: its own, once per occurrence of k in its block. */
  lemma AssignedTypesCount(distribution: seq<AssetDistribution>, houseIndices: seq<int>, k: int, t: AssetType)
    requires distribution != []
    ensures var n := |distribution| - 1;
      Count(AssignedTypes(distribution, houseIndices, k), t)
        == Count(AssignedTypes(distribution[..n], houseIndices, k), t)
          + (if distribution[n].assetType == t then Count(Block(distribution, n, houseIndices), k) else 0)
  {
    var n := |distribution| - 1;
    var block := Block(distribution, n, houseIndices);
    var occurrences := multiset(block)[k];
    CountAppend(AssignedTypes(distribution[..n], houseIndices, k), Repeat(distribution[n].assetType, occurrences), t);
    CountRepeat(distribution[n].assetType, occurrences, t);
    CountIsMultiplicity(block, k);
  }

  lemma {:induction false} CountIsMultiplicity<T>(s: seq<T>, x: T)
    ensures Count(s, x) == multiset(s)[x]
  {
    if s != [] {
      var n := |s| - 1;
      CountIsMultiplicity(s[..n], x);
      assert s == s[..n] + [s[n]];
    }
  }

  lemma KindTallyStep(distribution: seq<AssetDistribution>, houseIndices: seq<int>, houseCount: nat, t: AssetType)
    requires distribution != []
    ensures var n := |distribution| - 1;
      KindTally(distribution, houseIndices, houseCount, t)
        == KindTally(distribution[..n], houseIndices, houseCount, t)
          + (if distribution[n].assetType == t then Occurrences(Block(distribution, n, houseIndices), houseCount) else 0)
  {
    var n := |distribution| - 1;
    var block := Block(distribution, n, houseIndices);
    var now := k => Count(AssignedTypes(distribution, houseIndices, k), t);
    var before := k => Count(AssignedTypes(distribution[..n], houseIndices, k), t);
    var hits := k => Count(block, k);
    forall k | 0 <= k < houseCount ensures now(k) == before(k) + (if distribution[n].assetType == t then hits(k) else 0) {
      AssignedTypesCount(distribution, houseIndices, k, t);
    }
    if distribution[n].assetType == t {
      SumBelowAdd(now, before, hits, houseCount);
    } else {
      SumBelowAdd(now, before, k => 0, houseCount);
      SumBelowZero(k => 0, houseCount);
    }
  }

  lemma BlockWithinIndices(distribution: seq<AssetDistribution>, e: nat, houseIndices: seq<int>, p: nat)
    requires e < |distribution| && p < |Block(distribution, e, houseIndices)|
    ensures Block(distribution, e, houseIndices)[p] in houseIndices
  {
    var start := BlockStart(distribution, e);
    var from := SliceBound(|houseIndices|, start);
    var to := SliceBound(|houseIndices|, start + distribution[e].count);
    assert Block(distribution, e, houseIndices) == houseIndices[from..to];
    assert houseIndices[from..to][p] == houseIndices[from + p];
  }

  /** Over houses whose indices cover the shuffled ones, kind t is pushed once per element of its blocks. */
  lemma {:induction false} KindTallyIsBlockSize(distribution: seq<AssetDistribution>, houseIndices: seq<int>, houseCount: nat, t: AssetType)
    requires forall p :: 0 <= p < |houseIndices| ==> 0 <= houseIndices[p] < houseCount
    ensures KindTally(distribution, houseIndices, houseCount, t) == BlockSizeOfKind(distribution, houseIndices, t)
  {
    if distribution == [] {
      EmptyTally(houseIndices, houseCount, t);
    } else {
      var n := |distribution| - 1;
      KindTallyIsBlockSize(distribution[..n], houseIndices, houseCount, t);
      KindTallyStep(distribution, houseIndices, houseCount, t);
      var block := Block(distribution, n, houseIndices);
      forall p | 0 <= p < |block| ensures 0 <= block[p] < houseCount {
        BlockWithinIndices(distribution, n, houseIndices, p);
      }
      OccurrencesOfInRange(block, houseCount);
    }
  }

  lemma EmptyTally(houseIndices: seq<int>, houseCount: nat, t: AssetType)
    ensures KindTally([], houseIndices, houseCount, t) == 0
  {
    SumBelowZero(k => Count(AssignedTypes([], houseIndices, k), t), houseCount);
  }

  /** With no negative count and no more houses apportioned than exist, every block is full. */
  lemma {:induction false} FullBlocks(distribution: seq<AssetDistribution>, houseIndices: seq<int>, t: AssetType)
    requires NonNegativeCounts(distribution)
    requires SumDistribution(distribution) <= |houseIndices|
    ensures BlockSizeOfKind(distribution, houseIndices, t) == CountOfKind(distribution, t)
  {
    if distribution != [] {
      var n := |distribution| - 1;
      SumDistributionAppend(distribution[..n], distribution[n]);
      assert distribution[..n] + [distribution[n]] == distribution;
      BlocksArePrefix(distribution[..n], houseIndices);
      FullBlocks(distribution[..n], houseIndices, t);
    }
  }

  /** When one entry alone has kind t, the entries of kind t count that entry's houses. */
  lemma {:induction false} CountOfOnlyKind(distribution: seq<AssetDistribution>, e: nat)
    requires e < |distribution|
    requires forall f :: 0 <= f < |distribution| && f != e ==> distribution[f].assetType != distribution[e].assetType
    ensures CountOfKind(distribution, distribution[e].assetType) == distribution[e].count
  {
    var n := |distribution| - 1;
    var t := distribution[e].assetType;
    if e == n {
      NoneOfKind(distribution[..n], t);
    } else {
      CountOfOnlyKind(distribution[..n], e);
    }
  }

  lemma {:induction false} NoneOfKind(distribution: seq<AssetDistribution>, t: AssetType)
    requires forall f :: 0 <= f < |distribution| ==> distribution[f].assetType != t
    ensures CountOfKind(distribution, t) == 0
  {
    if distribution != [] {
      NoneOfKind(distribution[..|distribution| - 1], t);
    }
  }

  // ---------------------------------------------------------------------
  // Households and chargers

  /** The kinds a house may be assigned beyond its base load. */
  predicate Optional(t: AssetType)
  {
    t == Pv || t == HeatPump || t == HomeEvCharger
  }

  lemma {:induction false} CountOfTypeAppend(a: seq<Asset>, b: seq<Asset>, t: AssetType)
    ensures CountOfType(a + b, t) == CountOfType(a, t) + CountOfType(b, t)
  {
    if a == [] {
      assert a + b == b;
    } else {
      CountOfTypeAppend(a[1..], b, t);
      assert (a + b)[1..] == a[1..] + b;
    }
  }

  lemma {:induction false} OptionalAssetsCount(houseId: string, types: seq<AssetType>, defaults: Defaults, t: AssetType)
    ensures CountOfType(OptionalAssets(houseId, types, defaults), t) == if Optional(t) then Count(types, t) else 0
  {
    if types != [] {
      var n := |types| - 1;
      OptionalAssetsCount(houseId, types[..n], defaults, t);
      var a := OptionalAsset(houseId, types[n], defaults);
      CountOfTypeAppend(OptionalAssets(houseId, types[..n], defaults), if a.Some? then [a.value] else [], t);
    }
  }

  /**
   * A household holds exactly one base load, each optional kind once per
   * time it was assigned, and no public charger.
   */
  lemma HouseKinds(index: nat, types: seq<AssetType>, defaults: Defaults, t: AssetType)
    ensures CountOfType(HouseholdAt(index, types, defaults).assets, t)
      == if t == BaseLoad then 1 else if Optional(t) then Count(types, t) else 0
  {
    var houseId := HouseId(index);
    CountOfTypeAppend([BaseAsset(houseId, defaults)], OptionalAssets(houseId, types, defaults), t);
    OptionalAssetsCount(houseId, types, defaults, t);
  }

  /** The draws a layout may be built from: one per shuffle pass, each in [0, 1). */
  predicate ShuffleDraws(raw: RawConfig, draws: seq<real>)
  {
    |draws| == DrawsFor(ArrayLength(raw.houseCount)) && UnitDraws(draws)
  }

  /** Household k is built from the kinds the blocks pushed for house index k. */
  lemma LayoutHousehold(raw: RawConfig, draws: seq<real>, k: nat)
    requires ShuffleDraws(raw, draws)
    requires k < |LayoutFrom(raw, draws).households|
    ensures LayoutFrom(raw, draws).households[k]
      == HouseholdAt(k, AssignedTypes(Apportion(raw.houseCount, raw.assetDistribution), HouseOrder(raw.houseCount, draws), k), raw.defaults)
  {
    AssignmentLookup(Apportion(raw.houseCount, raw.assetDistribution), HouseOrder(raw.houseCount, draws), k);
  }

  /**
   * There are `houseCount` households (none when it is negative); household k
   * is `house-(k+1)`, named `House (k+1)`, its first asset is its base load,
   * it has no other base load and no public charger, and no two households
   * share an id.
   */
  lemma HouseholdShape(raw: RawConfig, draws: seq<real>)
    requires ShuffleDraws(raw, draws)
    ensures var households := LayoutFrom(raw, draws).households;
      && |households| == ArrayLength(raw.houseCount)
      && (forall k :: 0 <= k < |households| ==>
        && households[k].id == "house-" + Decimal(k + 1)
        && households[k].name == "House " + Decimal(k + 1)
        && households[k].assets[0] == Asset(households[k].id + "-base", Some("Base Load"), BaseLoad, raw.defaults.baseLoadKw, None)
        && CountOfType(households[k].assets, BaseLoad) == 1
        && CountOfType(households[k].assets, PublicEvCharger) == 0)
      && (forall p, q :: 0 <= p < q < |households| ==> households[p].id != households[q].id)
  {
    var households := LayoutFrom(raw, draws).households;
    forall k | 0 <= k < |households|
      ensures CountOfType(households[k].assets, BaseLoad) == 1
      ensures CountOfType(households[k].assets, PublicEvCharger) == 0
    {
      LayoutHousehold(raw, draws, k);
      var types := AssignedTypes(Apportion(raw.houseCount, raw.assetDistribution), HouseOrder(raw.houseCount, draws), k);
      HouseKinds(k, types, raw.defaults, BaseLoad);
      HouseKinds(k, types, raw.defaults, PublicEvCharger);
    }
    forall p, q | 0 <= p < q < |households| ensures households[p].id != households[q].id {
      if households[p].id == households[q].id {
        assert "house-" + Decimal(p + 1) + "" == "house-" + Decimal(q + 1) + "";
        LabelInjective("house-", p + 1, q + 1, "");
      }
    }
  }

  /**
   * There are `publicChargerCount` public chargers (none when it is
   * negative); charger k is `public-ev-(k+1)`, a public charger rated at the
   * configured power, and no two share an id.
   */
  lemma ChargerShape(raw: RawConfig, draws: seq<real>)
    requires ShuffleDraws(raw, draws)
    ensures var chargers := LayoutFrom(raw, draws).publicChargers;
      && |chargers| == ArrayLength(raw.publicChargerCount)
      && (forall k :: 0 <= k < |chargers| ==>
        && chargers[k].id == "public-ev-" + Decimal(k + 1)
        && chargers[k].assetType == PublicEvCharger
        && chargers[k].ratedKw == raw.defaults.publicEvKw
        && chargers[k].profileKw == None)
      && (forall p, q :: 0 <= p < q < |chargers| ==> chargers[p].id != chargers[q].id)
  {
    var chargers := LayoutFrom(raw, draws).publicChargers;
    forall p, q | 0 <= p < q < |chargers| ensures chargers[p].id != chargers[q].id {
      if chargers[p].id == chargers[q].id {
        assert "public-ev-" + Decimal(p + 1) + "" == "public-ev-" + Decimal(q + 1) + "";
        LabelInjective("public-ev-", p + 1, q + 1, "");
      }
    }
  }

  /** The shuffled house indices hold every index of 0 .. houseCount-1 exactly once. */
  lemma HouseOrderOnce(raw: RawConfig, draws: seq<real>, index: int)
    requires ShuffleDraws(raw, draws)
    ensures multiset(HouseOrder(raw.houseCount, draws))[index] <= 1
  {
    var n := ArrayLength(raw.houseCount);
    var order := HouseOrder(raw.houseCount, draws);
    var top := n as int - 1;
    assert order == Passes(Range(n), top, draws);
    PassesPermute(Range(n), top, draws);
    assert multiset(order) == multiset(Range(n));
    RangeMultiplicity(n, index);
  }

  /**
   * With no negative share and no negative house count, every household
   * carries at most one optional asset besides its base load.
   */
  lemma AtMostOneOptionalAsset(raw: RawConfig, draws: seq<real>, k: nat)
    requires ShuffleDraws(raw, draws)
    requires raw.houseCount >= 0
    requires forall e :: 0 <= e < |raw.assetDistribution| ==> raw.assetDistribution[e].share >= 0.0
    requires k < |LayoutFrom(raw, draws).households|
    ensures |LayoutFrom(raw, draws).households[k].assets| <= 2
  {
    var distribution := Apportion(raw.houseCount, raw.assetDistribution);
    var order := HouseOrder(raw.houseCount, draws);
    ApportionNonNegative(raw.houseCount, raw.assetDistribution);
    HouseOrderOnce(raw, draws, k);
    AtMostOneAssigned(distribution, order, k);
    LayoutHousehold(raw, draws, k);
  }

  /** How many of `households` own an asset of kind t. */
  function HousesWith(households: seq<Household>, t: AssetType): nat
  {
    if households == [] then 0
    else
      var n := |households| - 1;
      HousesWith(households[..n], t) + (if HasAssetOfType(households[n].assets, t) then 1 else 0)
  }

  /** When no house is assigned more than one kind, the houses owning kind t are its tally. */
  lemma {:induction false} HousesWithIsTally(households: seq<Household>, distribution: seq<AssetDistribution>,
                                             houseIndices: seq<int>, defaults: Defaults, t: AssetType, m: nat)
    requires Optional(t) && m <= |households|
    requires forall k :: 0 <= k < |households| ==>
      households[k] == HouseholdAt(k, AssignedTypes(distribution, houseIndices, k), defaults)
    requires forall k :: 0 <= k < |households| ==> |AssignedTypes(distribution, houseIndices, k)| <= 1
    ensures HousesWith(households[..m], t) == KindTally(distribution, houseIndices, m, t)
  {
    if m > 0 {
      var k := m - 1;
      var types := AssignedTypes(distribution, houseIndices, k);
      HousesWithIsTally(households, distribution, houseIndices, defaults, t, k);
      assert households[..m][..k] == households[..k];
      HouseKinds(k, types, defaults, t);
      assert HasAssetOfType(households[k].assets, t) <==> Count(types, t) == 1;
      assert KindTally(distribution, houseIndices, m, t) == KindTally(distribution, houseIndices, k, t) + Count(types, t);
    }
  }

  /**
   * With no negative share, a non-negative house count and published counts
   * adding up to at most the house count (as they do whenever the shares
   * add up to at most one, `ApportionAtMostHouses`), the number of
   * households owning an optional kind that only one entry of the
   * distribution names is that entry's count.
   */
  lemma HousesPerKind(raw: RawConfig, draws: seq<real>, e: nat)
    requires ShuffleDraws(raw, draws)
    requires raw.houseCount >= 0
    requires forall f :: 0 <= f < |raw.assetDistribution| ==> raw.assetDistribution[f].share >= 0.0
    requires SumDistribution(Apportion(raw.houseCount, raw.assetDistribution)) <= raw.houseCount
    requires e < |raw.assetDistribution|
    requires Optional(LayoutFrom(raw, draws).assetDistribution[e].assetType)
    requires forall f :: 0 <= f < |raw.assetDistribution| && f != e ==>
      LayoutFrom(raw, draws).assetDistribution[f].assetType != LayoutFrom(raw, draws).assetDistribution[e].assetType
    ensures HousesWith(LayoutFrom(raw, draws).households, LayoutFrom(raw, draws).assetDistribution[e].assetType)
      == LayoutFrom(raw, draws).assetDistribution[e].count
  {
    var houseCount := raw.houseCount;
    var distribution := Apportion(houseCount, raw.assetDistribution);
    var order := HouseOrder(houseCount, draws);
    var households := LayoutFrom(raw, draws).households;
    var t := distribution[e].assetType;
    ApportionNonNegative(houseCount, raw.assetDistribution);
    ShuffledRangeIsPermutation(houseCount, draws);
    forall k | 0 <= k < |households|
      ensures households[k] == HouseholdAt(k, AssignedTypes(distribution, order, k), raw.defaults)
      ensures |AssignedTypes(distribution, order, k)| <= 1
    {
      LayoutHousehold(raw, draws, k);
      HouseOrderOnce(raw, draws, k);
      AtMostOneAssigned(distribution, order, k);
    }
    HousesWithIsTally(households, distribution, order, raw.defaults, t, houseCount);
    assert households[..houseCount] == households;
    KindTallyIsBlockSize(distribution, order, houseCount, t);
    FullBlocks(distribution, order, t);
    CountOfOnlyKind(distribution, e);
  }
}
