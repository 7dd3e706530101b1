/**
 * The largest-remainder apportionment of houses to optional asset kinds
 * (neighborhood.generator.ts, `computeDistribution`): every kind gets the
 * floor of its share of the houses; the houses left over go, one each, to
 * the kinds with the largest fractional remainders. The working list is
 * sorted in place by descending remainder (a stable sort), and the result
 * keeps that order.
 */
module Apportionment {
  import opened JsBuiltins
  import opened Assets

  /** One `[type, share]` pair of the configured distribution, in key order. */
  datatype ShareEntry = ShareEntry(assetType: AssetType, share: real)

  /** The working record: the exact quota `raw`, its floor `count`, and the fractional part. */
  datatype RankedEntry = RankedEntry(
    assetType: AssetType,
    share: real,
    raw: real,
    count: int,
    remainder: real)

  /** One entry of the published distribution. */
  datatype AssetDistribution = AssetDistribution(assetType: AssetType, share: real, count: int)

  /** The exact quota of houses a share asks for, split into whole houses and a fraction. */
  function Rank(e: ShareEntry, houseCount: int): (r: RankedEntry)
    ensures r.assetType == e.assetType && r.share == e.share
    ensures r.raw == e.share * houseCount as real
    ensures r.count as real <= r.raw < r.count as real + 1.0
    ensures 0.0 <= r.remainder < 1.0 && r.count as real + r.remainder == r.raw
  {
    var raw := e.share * houseCount as real;
    RankedEntry(e.assetType, e.share, raw, raw.Floor, raw - raw.Floor as real)
  }

  /** The entry as `Rank` would have produced it from its own share. */
  predicate WellRanked(r: RankedEntry, houseCount: int)
  {
    r == Rank(ShareEntry(r.assetType, r.share), houseCount)
  }

  function RankAll(entries: seq<ShareEntry>, houseCount: int): (r: seq<RankedEntry>)
    ensures |r| == |entries|
    ensures forall k :: 0 <= k < |r| ==> r[k] == Rank(entries[k], houseCount)
  {
    seq(|entries|, k requires 0 <= k < |entries| => Rank(entries[k], houseCount))
  }

  /** The type and share of an entry, what the caller configured. */
  function Strip(r: RankedEntry): ShareEntry
  {
    ShareEntry(r.assetType, r.share)
  }

  function StripAll(s: seq<RankedEntry>): (r: seq<ShareEntry>)
    ensures |r| == |s|
    ensures forall k :: 0 <= k < |s| ==> r[k] == Strip(s[k])
  {
    if s == [] then [] else [Strip(s[0])] + StripAll(s[1..])
  }

  lemma StripRankAll(entries: seq<ShareEntry>, houseCount: int)
    ensures StripAll(RankAll(entries, houseCount)) == entries
  {
  }

  /** The `reduce` of the floors. */
  function SumCounts(s: seq<RankedEntry>): int
  {
    if s == [] then 0 else s[0].count + SumCounts(s[1..])
  }

  function SumRaw(s: seq<RankedEntry>): real
  {
    if s == [] then 0.0 else s[0].raw + SumRaw(s[1..])
  }

  function SumRemainders(s: seq<RankedEntry>): real
  {
    if s == [] then 0.0 else s[0].remainder + SumRemainders(s[1..])
  }

  function SumShares(s: seq<ShareEntry>): real
  {
    if s == [] then 0.0 else s[0].share + SumShares(s[1..])
  }

  lemma {:induction false} SumCountsAppend(a: seq<RankedEntry>, e: RankedEntry)
    ensures SumCounts(a + [e]) == SumCounts(a) + e.count
  {
    if a != [] {
      assert (a + [e])[1..] == a[1..] + [e];
      SumCountsAppend(a[1..], e);
    }
  }

  /** The remainders of ranked entries add up to what the floors leave of the quotas. */
  lemma {:induction false} RemaindersBetween(s: seq<RankedEntry>, houseCount: int)
    requires forall k :: 0 <= k < |s| ==> WellRanked(s[k], houseCount)
    ensures SumRaw(s) == SumCounts(s) as real + SumRemainders(s)
    ensures 0.0 <= SumRemainders(s) <= |s| as real
    ensures s != [] ==> SumRemainders(s) < |s| as real
  {
    if s != [] {
      RemaindersBetween(s[1..], houseCount);
    }
  }

  /** The quotas of the ranked entries add up to the houses times the shares. */
  lemma {:induction false} SumRawOfRankAll(entries: seq<ShareEntry>, houseCount: int)
    ensures SumRaw(RankAll(entries, houseCount)) == SumShares(entries) * houseCount as real
  {
    if entries != [] {
      assert RankAll(entries, houseCount)[1..] == RankAll(entries[1..], houseCount);
      SumRawOfRankAll(entries[1..], houseCount);
    }
  }

  // ---------------------------------------------------------------------
  // The stable sort by descending remainder

  /** Non-increasing remainders, the order `(a, b) => b.remainder - a.remainder` sorts into. */
  predicate ByRemainder(s: seq<RankedEntry>)
  {
    forall p, q :: 0 <= p < q < |s| ==> s[p].remainder >= s[q].remainder
  }

  /** Place `e` after every entry whose remainder is at least its own. */
  function Insert(e: RankedEntry, s: seq<RankedEntry>): (r: seq<RankedEntry>)
    ensures |r| == |s| + 1
  {
    if s == [] then [e]
    else if s[0].remainder < e.remainder then [e] + s
    else [s[0]] + Insert(e, s[1..])
  }

  /** The list a stable sort by descending remainder produces. */
  function SortByRemainder(s: seq<RankedEntry>): (r: seq<RankedEntry>)
    ensures |r| == |s|
  {
    if s == [] then [] else Insert(s[|s| - 1], SortByRemainder(s[..|s| - 1]))
  }

  lemma {:induction false} InsertPermutes(e: RankedEntry, s: seq<RankedEntry>)
    ensures multiset(Insert(e, s)) == multiset(s) + multiset{e}
  {
    if s != [] && s[0].remainder >= e.remainder {
      InsertPermutes(e, s[1..]);
      assert s == [s[0]] + s[1..];
    }
  }

  lemma {:induction false} SortPermutes(s: seq<RankedEntry>)
    ensures multiset(SortByRemainder(s)) == multiset(s)
  {
    if s != [] {
      var n := |s| - 1;
      SortPermutes(s[..n]);
      InsertPermutes(s[n], SortByRemainder(s[..n]));
      assert s == s[..n] + [s[n]];
    }
  }

  lemma {:induction false} InsertSorted(e: RankedEntry, s: seq<RankedEntry>)
    requires ByRemainder(s)
    ensures ByRemainder(Insert(e, s))
    ensures Insert(e, s)[0] == e || Insert(e, s)[0] == s[0]
  {
    if s != [] && s[0].remainder >= e.remainder {
      InsertSorted(e, s[1..]);
      var t := Insert(e, s[1..]);
      assert t[0].remainder <= s[0].remainder by {
        if s[1..] == [] {
          assert t[0] == e;
        }
      }
      forall q | 0 < q < |t| + 1 ensures s[0].remainder >= ([s[0]] + t)[q].remainder {
        assert ([s[0]] + t)[q] == t[q - 1];
      }
    }
  }

  lemma {:induction false} SortSorted(s: seq<RankedEntry>)
    ensures ByRemainder(SortByRemainder(s))
  {
    if s != [] {
      var n := |s| - 1;
      SortSorted(s[..n]);
      InsertSorted(s[n], SortByRemainder(s[..n]));
    }
  }

  /** The entries whose remainder is exactly x, in list order. */
  function WithRemainder(s: seq<RankedEntry>, x: real): seq<RankedEntry>
  {
    if s == [] then []
    else (if s[0].remainder == x then [s[0]] else []) + WithRemainder(s[1..], x)
  }

  lemma {:induction false} WithRemainderAppend(a: seq<RankedEntry>, e: RankedEntry, x: real)
    ensures WithRemainder(a + [e], x) == WithRemainder(a, x) + (if e.remainder == x then [e] else [])
  {
    if a != [] {
      assert (a + [e])[1..] == a[1..] + [e];
      WithRemainderAppend(a[1..], e, x);
    }
  }

  lemma {:induction false} WithRemainderNone(s: seq<RankedEntry>, x: real)
    requires forall k :: 0 <= k < |s| ==> s[k].remainder < x
    ensures WithRemainder(s, x) == []
  {
    if s != [] {
      WithRemainderNone(s[1..], x);
    }
  }

  lemma {:induction false} InsertStable(e: RankedEntry, s: seq<RankedEntry>, x: real)
    requires ByRemainder(s)
    ensures WithRemainder(Insert(e, s), x) == WithRemainder(s, x) + (if e.remainder == x then [e] else [])
  {
    if s == [] {
    } else if s[0].remainder < e.remainder {
      if e.remainder == x {
        WithRemainderNone(s, x);
      }
    } else {
      InsertStable(e, s[1..], x);
    }
  }

  /**
   * The sort is stable: the entries of any one remainder keep the order
   * they had before it.
   */
  lemma {:induction false} SortStable(s: seq<RankedEntry>, x: real)
    ensures WithRemainder(SortByRemainder(s), x) == WithRemainder(s, x)
  {
    if s != [] {
      var n := |s| - 1;
      SortStable(s[..n], x);
      SortSorted(s[..n]);
      InsertStable(s[n], SortByRemainder(s[..n]), x);
      assert s == s[..n] + [s[n]];
      WithRemainderAppend(s[..n], s[n], x);
    }
  }

  lemma {:induction false} InsertStrip(e: RankedEntry, s: seq<RankedEntry>)
    ensures multiset(StripAll(Insert(e, s))) == multiset(StripAll(s)) + multiset{Strip(e)}
  {
    if s != [] && s[0].remainder >= e.remainder {
      InsertStrip(e, s[1..]);
      assert StripAll(s) == [Strip(s[0])] + StripAll(s[1..]);
    }
  }

  lemma {:induction false} SortStrip(s: seq<RankedEntry>)
    ensures multiset(StripAll(SortByRemainder(s))) == multiset(StripAll(s))
  {
    if s != [] {
      var n := |s| - 1;
      var init, last := s[..n], s[n];
      assert s == init + [last];
      SortStrip(init);
      InsertStrip(last, SortByRemainder(init));
      StripAppend(init, last);
      calc {
        multiset(StripAll(SortByRemainder(s)));
        multiset(StripAll(Insert(last, SortByRemainder(init))));
        multiset(StripAll(SortByRemainder(init))) + multiset{Strip(last)};
        multiset(StripAll(init)) + multiset{Strip(last)};
        multiset(StripAll(init) + [Strip(last)]);
      }
    }
  }

  lemma {:induction false} StripAppend(a: seq<RankedEntry>, e: RankedEntry)
    ensures StripAll(a + [e]) == StripAll(a) + [Strip(e)]
  {
  }

  lemma {:induction false} InsertSumCounts(e: RankedEntry, s: seq<RankedEntry>)
    ensures SumCounts(Insert(e, s)) == SumCounts(s) + e.count
  {
    if s != [] && s[0].remainder >= e.remainder {
      InsertSumCounts(e, s[1..]);
    }
  }

  lemma {:induction false} SortSumCounts(s: seq<RankedEntry>)
    ensures SumCounts(SortByRemainder(s)) == SumCounts(s)
  {
    if s != [] {
      var n := |s| - 1;
      SortSumCounts(s[..n]);
      InsertSumCounts(s[n], SortByRemainder(s[..n]));
      SumCountsAppend(s[..n], s[n]);
      assert s == s[..n] + [s[n]];
    }
  }

  /** What the in-place library sort leaves in the array. */
  method SortInPlace(a: array<RankedEntry>)
    modifies a
    ensures a[..] == SortByRemainder(old(a[..]))
  {
    var sorted := SortByRemainder(a[..]);
    var k := 0;
    while k < a.Length
      invariant 0 <= k <= a.Length
      invariant a[..k] == sorted[..k]
    {
      a[k] := sorted[k];
      k := k + 1;
    }
    assert a[..] == a[..a.Length];
  }

  // ---------------------------------------------------------------------
  // The apportionment

  /** How many entries the leftover houses reach: `slice(0, Math.max(0, remaining))`. */
  function Bonus(houseCount: int, ranked: seq<RankedEntry>): (b: nat)
    ensures b <= |ranked|
  {
    Min(Max(0, houseCount - SumCounts(ranked)), |ranked|)
  }

  /** The sorted entries once the first `bonus` of them got one more house each. */
  function Bumped(sorted: seq<RankedEntry>, bonus: nat): (r: seq<RankedEntry>)
    ensures |r| == |sorted|
  {
    seq(|sorted|, k requires 0 <= k < |sorted| =>
      sorted[k].(count := sorted[k].count + (if k < bonus then 1 else 0)))
  }

  lemma BumpOne(sorted: seq<RankedEntry>, k: nat)
    requires k < |sorted|
    ensures Bumped(sorted, k + 1)
      == Bumped(sorted, k)[k := Bumped(sorted, k)[k].(count := Bumped(sorted, k)[k].count + 1)]
  {
  }

  /** The `map` to the published fields. */
  function Publish(s: seq<RankedEntry>): (r: seq<AssetDistribution>)
    ensures |r| == |s|
  {
    seq(|s|, k requires 0 <= k < |s| => AssetDistribution(s[k].assetType, s[k].share, s[k].count))
  }

  /** The result of `computeDistribution(houseCount, entries)`. */
  function Apportion(houseCount: int, entries: seq<ShareEntry>): (r: seq<AssetDistribution>)
    ensures |r| == |entries|
  {
    var ranked := RankAll(entries, houseCount);
    Publish(Bumped(SortByRemainder(ranked), Bonus(houseCount, ranked)))
  }

  /** The fractional part of the quota an entry of the result was apportioned by. */
  function RemainderOf(d: AssetDistribution, houseCount: int): (x: real)
    ensures 0.0 <= x < 1.0
  {
    Rank(ShareEntry(d.assetType, d.share), houseCount).remainder
  }

  /** The whole houses of the quota `share * houseCount` of an entry of the result. */
  function Floor(d: AssetDistribution, houseCount: int): int
  {
    Rank(ShareEntry(d.assetType, d.share), houseCount).count
  }

  function SumDistribution(s: seq<AssetDistribution>): int
  {
    if s == [] then 0 else s[0].count + SumDistribution(s[1..])
  }

  function StripDistribution(s: seq<AssetDistribution>): (r: seq<ShareEntry>)
    ensures |r| == |s|
    ensures forall k :: 0 <= k < |s| ==> r[k] == ShareEntry(s[k].assetType, s[k].share)
  {
    seq(|s|, k requires 0 <= k < |s| => ShareEntry(s[k].assetType, s[k].share))
  }

  lemma SortedWellRanked(entries: seq<ShareEntry>, houseCount: int)
    ensures forall k :: 0 <= k < |entries| ==>
      WellRanked(SortByRemainder(RankAll(entries, houseCount))[k], houseCount)
  {
    var ranked := RankAll(entries, houseCount);
    var sorted := SortByRemainder(ranked);
    SortPermutes(ranked);
    forall k | 0 <= k < |sorted| ensures WellRanked(sorted[k], houseCount) {
      assert sorted[k] in multiset(ranked);
    }
  }

  /**
   * The result lists every configured `[type, share]` exactly once, and each
   * count is the floor of the quota, plus one for the first `Bonus` entries.
   */
  lemma ApportionCounts(houseCount: int, entries: seq<ShareEntry>)
    ensures multiset(StripDistribution(Apportion(houseCount, entries))) == multiset(entries)
    ensures forall k :: 0 <= k < |entries| ==>
      var d := Apportion(houseCount, entries)[k];
      d.count == Floor(d, houseCount) + (if k < Bonus(houseCount, RankAll(entries, houseCount)) then 1 else 0)
  {
    var ranked := RankAll(entries, houseCount);
    var sorted := SortByRemainder(ranked);
    var r := Apportion(houseCount, entries);
    SortStrip(ranked);
    StripRankAll(entries, houseCount);
    assert StripDistribution(r) == StripAll(sorted);
    SortedWellRanked(entries, houseCount);
    forall k | 0 <= k < |entries|
      ensures r[k].count == Floor(r[k], houseCount) + (if k < Bonus(houseCount, ranked) then 1 else 0)
    {
      assert WellRanked(sorted[k], houseCount);
    }
  }

  /**
   * The result is in non-increasing order of remainder, so the entries that
   * receive a leftover house have the largest remainders: wherever they sit,
   * an entry given its floor plus one has a remainder at least that of any
   * entry left at its floor.
   */
  lemma ApportionOrder(houseCount: int, entries: seq<ShareEntry>)
    ensures forall p, q :: 0 <= p < q < |entries| ==>
      RemainderOf(Apportion(houseCount, entries)[p], houseCount)
        >= RemainderOf(Apportion(houseCount, entries)[q], houseCount)
    ensures var r := Apportion(houseCount, entries);
      forall p, q ::
        && 0 <= p < |entries| && 0 <= q < |entries|
        && r[p].count == Floor(r[p], houseCount) + 1
        && r[q].count == Floor(r[q], houseCount)
        ==> RemainderOf(r[p], houseCount) >= RemainderOf(r[q], houseCount)
  {
    var ranked := RankAll(entries, houseCount);
    var sorted := SortByRemainder(ranked);
    SortSorted(ranked);
    SortedWellRanked(entries, houseCount);
    var r := Apportion(houseCount, entries);
    forall k | 0 <= k < |entries| ensures RemainderOf(r[k], houseCount) == sorted[k].remainder {
    }
    ApportionCounts(houseCount, entries);
    var b := Bonus(houseCount, ranked);
    forall p, q |
        && 0 <= p < |entries| && 0 <= q < |entries|
        && r[p].count == Floor(r[p], houseCount) + 1
        && r[q].count == Floor(r[q], houseCount)
      ensures RemainderOf(r[p], houseCount) >= RemainderOf(r[q], houseCount)
    {
      assert p < b <= q;
    }
  }

  /** The counts add up to the floors plus the houses handed out as leftovers. */
  lemma ApportionTotal(houseCount: int, entries: seq<ShareEntry>)
    ensures SumDistribution(Apportion(houseCount, entries))
      == SumCounts(RankAll(entries, houseCount)) + Bonus(houseCount, RankAll(entries, houseCount))
  {
    var ranked := RankAll(entries, houseCount);
    var sorted := SortByRemainder(ranked);
    SortSumCounts(ranked);
    PublishSum(sorted, Bonus(houseCount, ranked));
  }

  lemma {:induction false} PublishSum(sorted: seq<RankedEntry>, bonus: nat)
    requires bonus <= |sorted|
    ensures SumDistribution(Publish(Bumped(sorted, bonus))) == SumCounts(sorted) + bonus
    decreases |sorted|
  {
    if sorted != [] {
      var b := if bonus > 0 then bonus - 1 else 0;
      assert Publish(Bumped(sorted, bonus))[1..] == Publish(Bumped(sorted[1..], b));
      PublishSum(sorted[1..], b);
    }
  }

  /** When the shares add up to one, every house is apportioned exactly once. */
  lemma SharesOfOneApportionAllHouses(houseCount: int, entries: seq<ShareEntry>)
    requires SumShares(entries) == 1.0
    ensures SumDistribution(Apportion(houseCount, entries)) == houseCount
    ensures Bonus(houseCount, RankAll(entries, houseCount))
      == houseCount - SumCounts(RankAll(entries, houseCount))
  {
    var ranked := RankAll(entries, houseCount);
    SumRawOfRankAll(entries, houseCount);
    RemaindersBetween(ranked, houseCount);
    assert entries != [];
    var left := houseCount - SumCounts(ranked);
    assert left as real == SumRemainders(ranked);
    ApportionTotal(houseCount, entries);
  }

  /** With no negative share and no negative house count, no kind gets a negative count. */
  lemma ApportionNonNegative(houseCount: int, entries: seq<ShareEntry>)
    requires houseCount >= 0
    requires forall k :: 0 <= k < |entries| ==> entries[k].share >= 0.0
    ensures forall k :: 0 <= k < |entries| ==> Apportion(houseCount, entries)[k].count >= 0
  {
    var r := Apportion(houseCount, entries);
    var stripped := StripDistribution(r);
    ApportionCounts(houseCount, entries);
    forall k | 0 <= k < |entries| ensures r[k].count >= 0 {
      assert stripped[k] in multiset(entries);
      ShareOfMember(stripped[k], entries);
      FloorNonNegative(r[k], houseCount);
    }
  }

  lemma ShareOfMember(x: ShareEntry, entries: seq<ShareEntry>)
    requires x in multiset(entries)
    requires forall k :: 0 <= k < |entries| ==> entries[k].share >= 0.0
    ensures x.share >= 0.0
  {
    assert x in entries;
  }

  lemma FloorNonNegative(d: AssetDistribution, houseCount: int)
    requires d.share >= 0.0 && houseCount >= 0
    ensures Floor(d, houseCount) >= 0
  {
    assert d.share * houseCount as real >= 0.0;
  }

  /** With shares adding up to at most one, at most `houseCount` houses are apportioned. */
  lemma ApportionAtMostHouses(houseCount: int, entries: seq<ShareEntry>)
    requires houseCount >= 0
    requires SumShares(entries) <= 1.0
    ensures SumDistribution(Apportion(houseCount, entries)) <= houseCount
  {
    FloorsAtMostHouses(houseCount, entries);
    ApportionTotal(houseCount, entries);
  }

  lemma FloorsAtMostHouses(houseCount: int, entries: seq<ShareEntry>)
    requires houseCount >= 0
    requires SumShares(entries) <= 1.0
    ensures SumCounts(RankAll(entries, houseCount)) <= houseCount
  {
    var ranked := RankAll(entries, houseCount);
    SumRawOfRankAll(entries, houseCount);
    RemaindersBetween(ranked, houseCount);
    var total := SumShares(entries) * houseCount as real;
    assert total <= houseCount as real by {
      assert SumShares(entries) * houseCount as real <= 1.0 * houseCount as real;
    }
    assert SumCounts(ranked) as real <= total;
  }

  /**
   * `computeDistribution`: quotas into a fresh array, the floors summed, the
   * array sorted in place, the leading entries bumped by one, and the list
   * published in the sorted order.
   */
  method ComputeDistribution(houseCount: int, entries: seq<ShareEntry>)
    returns (distribution: seq<AssetDistribution>)
    ensures distribution == Apportion(houseCount, entries)
  {
    var withCounts := new RankedEntry[|entries|](k requires 0 <= k < |entries| => Rank(entries[k], houseCount));
    ghost var ranked := withCounts[..];
    assert ranked == RankAll(entries, houseCount);
    var assignedSoFar := SumFloors(withCounts);
    var remaining := houseCount - assignedSoFar;
    SortInPlace(withCounts);
    var bonus := |JsSlice(withCounts[..], 0, Max(0, remaining))|;
    assert bonus == Bonus(houseCount, ranked);
    BumpLeading(withCounts, bonus);
    distribution := Publish(withCounts[..]);
  }

  /** `withCounts.reduce((sum, entry) => sum + entry.count, 0)`. */
  method SumFloors(withCounts: array<RankedEntry>) returns (sum: int)
    ensures sum == SumCounts(withCounts[..])
  {
    sum := 0;
    var k := 0;
    while k < withCounts.Length
      invariant 0 <= k <= withCounts.Length
      invariant sum == SumCounts(withCounts[..k])
    {
      SumCountsAppend(withCounts[..k], withCounts[k]);
      assert withCounts[..k + 1] == withCounts[..k] + [withCounts[k]];
      sum := sum + withCounts[k].count;
      k := k + 1;
    }
    assert withCounts[..k] == withCounts[..];
  }

  /** The `forEach` over `slice(0, bonus)` that adds one house to each entry it reaches. */
  method BumpLeading(withCounts: array<RankedEntry>, bonus: nat)
    requires bonus <= withCounts.Length
    modifies withCounts
    ensures withCounts[..] == Bumped(old(withCounts[..]), bonus)
  {
    ghost var sorted := withCounts[..];
    var k := 0;
    while k < bonus
      invariant 0 <= k <= bonus
      invariant withCounts[..] == Bumped(sorted, k)
    {
      BumpOne(sorted, k);
      withCounts[k] := withCounts[k].(count := withCounts[k].count + 1);
      k := k + 1;
    }
  }
}
