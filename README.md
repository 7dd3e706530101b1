# Neighbourhood energy simulation: a Dafny model

This project models the computational core of an energy-simulation service. The service generates a synthetic neighbourhood of households and public EV chargers, then steps a simulation over it.

It models three source files:

- **The layout generator** (`neighborhood.generator.ts`):
  - a seeded mulberry32 random number generator;
  - a Fisher–Yates shuffle of the house indices;
  - a largest-remainder apportionment (`computeDistribution`) of the optional asset kinds to house counts;
  - `generateNeighborhoodConfig`, which hands each kind a consecutive block of the shuffled houses, then builds the households (a base load plus the assigned optional asset) and the public chargers.
- **The simulation service** (`simulation.service.ts`):
  - fail-fast input validation;
  - the per-asset power resolver (profile or rated power, then a weather multiplier for PV and heat pumps);
  - the month-based weather snapshot;
  - `runSimulation`, the time-stepped loop. It sums household and neighbourhood power, credits every asset's energy accumulator and accumulates the household and neighbourhood energies.
- **Two chart helpers** of the public-charger dashboard (`PublicChargersView.tsx`):
  - `stepsForLast24Hours`, a window of the most recent day of steps;
  - `groupByDay`, which sums public charging energy per date key.

Modules, one per file:

| file | module | what it holds |
|---|---|---|
| `js_builtins.dfy` | `JsBuiltins` | `Option`/`Result`, `Math.max`/`min`, `Math.round`, `Array.prototype.slice`, `Array.from` length, decimal rendering of indices |
| `assets.dfy` | `Assets` | asset kinds, assets, households |
| `mulberry.dfy` | `Mulberry` | the generator's mixing on 32-bit words, the `n`-th draw of a seed, and the `Rng` class whose `Next` advances the state |
| `fisher_yates.dfy` | `FisherYates` | the in-place swap loop on an array, specified by the function `Shuffled` |
| `apportionment.dfy` | `Apportionment` | quotas, the stable sort by descending remainder, the leftover bonus, and `ComputeDistribution` on an array |
| `neighborhood_generator.dfy` | `NeighborhoodGenerator` | blocks, the `assignment` dictionary, households, chargers, `GenerateNeighborhoodConfig` |
| `layout_properties.dfy` | `LayoutProperties` | what the generated layout satisfies |
| `simulation_types.dfy` | `SimulationTypes` | clock, input and result records |
| `weather.dfy` | `Weather` | season, temperature and irradiance of a month |
| `power_resolver.dfy` | `PowerResolver` | `resolveAssetKw` and `applyWeather` |
| `validation.dfy` | `InputValidation` | `validateInput` |
| `asset_ledger.dfy` | `AssetLedger` | the `assetAccumulators` map as a class: registration (first one wins), crediting, read-out in insertion order |
| `simulation.dfy` | `Simulation` | the specification function `Simulate` and the loop methods proved equal to it |
| `simulation_properties.dfy` | `SimulationProperties` | step records, balances and household totals of a run |
| `asset_energy.dfy` | `AssetEnergyProperties` | what every asset accumulator holds at the end of a run |
| `public_chargers_view.dfy` | `PublicChargersView` | the two chart helpers |

Modelling choices:

- The random number generator is a class. Its state `t` is an unbounded integer, as the source's JavaScript number grows without wrapping. Only `t mod 2^32` reaches the mixing, which follows `^`, `|`, `>>>` and `Math.imul` on 32-bit words.
- A ghost `history` records every draw returned. `Valid()` ties draw number `m` to the pure function `Draw(seed, m)`. So the layout is a function of the configuration alone (`Layout(raw)`), and the same configuration always yields the same layout.
- `Array.prototype.sort` with the comparator `b.remainder - a.remainder` is a stable sort (as the language guarantees), modelled by insertion. `withCounts` is sorted in place, so the published distribution is in descending-remainder order, not in configuration order; the model keeps that.
- The configuration file's `assetDistribution` object becomes a sequence in its key order.
- Powers, energies, shares and quotas are `real`: IEEE-754 rounding is not modelled.
- `Date.parse`, `toISOString`, `getUTCMonth` and the `Math.cos`/`Math.sin` of the month angle are the fields of a `Calendar` value. `WellFormed` states what the runtime guarantees of them: a parsed time lies in the time range, a time in range has a month in 0..11, and both swings lie in [-1, 1].
- The time range of ECMA-262 (section 21.4.1.1, "Time Values and Time Range": at most 8.64 × 10^15 ms either side of the epoch) is modelled. `new Date` of a step time beyond it is an invalid date, and its `toISOString` throws a RangeError. So a run whose steps leave the range fails with `InvalidTimeValue` at the first such step.
- `runSimulation` throws the first failing check's exception, or the RangeError of the first step out of the time range. Here it returns `Failure(Rejected(error))` or `Failure(InvalidTimeValue(stepIndex))` instead.

Where the system's design documents and the code differ, the model follows the code:

- `runSimulation` has no battery dispatch, no time-of-day or solar-elevation shaping, no end timestamp and no per-category power fields.
- Validation requires exactly 30 households and 6 public chargers.
- The apportionment counts add up to `houseCount` when the shares add up to one (`SharesOfOneApportionAllHouses`), not for every set of shares. When the shares add up to at most one, they add up to at most `houseCount` (`ApportionAtMostHouses`).
- Every weather snapshot of a time in range has a temperature in [0, 20] °C. So the freezing modifier 0.9 never applies, and the clamp of the irradiance factor to [0.1, 1] never changes a value (`SnapshotRanges`).

## Model

| member | source | states |
|---|---|---|
| `Mulberry.Scale` | apps/backend/src/simulation/neighborhood.generator.ts:39 | an unsigned 32-bit word divided by 2^32 lies in [0, 1) |
| `Mulberry.Draw` | apps/backend/src/simulation/neighborhood.generator.ts:35-39 | draw number k of a seed lies in [0, 1) |
| `Mulberry.State` | apps/backend/src/simulation/neighborhood.generator.ts:33-36 | the state word mixed by draw k is a 32-bit unsigned word |
| `Mulberry.StateDependsOnSeedModulo` | apps/backend/src/simulation/neighborhood.generator.ts:33-35 | seeds equal modulo 2^32 produce the same state words |
| `Mulberry.StatePeriodic` | apps/backend/src/simulation/neighborhood.generator.ts:35 | the state words repeat with period 2^32 in the draw number |
| `Mulberry.Draws` | apps/backend/src/simulation/neighborhood.generator.ts:34-40 | the first n draws of a seed: n values, each in [0, 1) |
| `Mulberry.DrawsAgree` | apps/backend/src/simulation/neighborhood.generator.ts:34-40 | a sequence whose every entry m is draw m of the seed is the sequence of the first draws |
| `Mulberry.ExtendHistory` | apps/backend/src/simulation/neighborhood.generator.ts:35-39 | appending draw number n to the first n draws keeps every entry equal to its draw |
| `Mulberry.Rng.constructor` | apps/backend/src/simulation/neighborhood.generator.ts:32-33 | a fresh generator holds the seed and has returned nothing yet |
| `Mulberry.Rng.Next` | apps/backend/src/simulation/neighborhood.generator.ts:34-40 | a call returns one value in [0, 1), appends it to the history and keeps every returned value equal to the draw of that number for the seed |
| `Mulberry.HistoryFromSeed` | apps/backend/src/simulation/neighborhood.generator.ts:32-41 | whatever a generator has returned is exactly the first draws of its seed (determinism) |
| `FisherYates.FloorUpTo` | apps/backend/src/simulation/neighborhood.generator.ts:46 | the largest integer not above x, kept within [0, i] |
| `FisherYates.SwapPartner` | apps/backend/src/simulation/neighborhood.generator.ts:46 | the swap partner of index i lies in [0, i] |
| `FisherYates.SwapPartnerIsFloor` | apps/backend/src/simulation/neighborhood.generator.ts:46 | the swap partner is `Math.floor(r * (i + 1))` |
| `FisherYates.Swap` | apps/backend/src/simulation/neighborhood.generator.ts:47 | positions i and j are exchanged and every other position is unchanged |
| `FisherYates.SwapPermutes` | apps/backend/src/simulation/neighborhood.generator.ts:47 | a swap keeps the multiset of elements |
| `FisherYates.PassesSnoc` | apps/backend/src/simulation/neighborhood.generator.ts:45-48 | one more pass swaps the next index down with the partner the next draw picks |
| `FisherYates.PassesPermute` | apps/backend/src/simulation/neighborhood.generator.ts:45-48 | any number of passes keeps the multiset of elements |
| `FisherYates.SwapInPlace` | apps/backend/src/simulation/neighborhood.generator.ts:47 | the array afterwards is its old contents with positions i and j exchanged |
| `FisherYates.SwapPasses` | apps/backend/src/simulation/neighborhood.generator.ts:45-48 | the loop consumes one draw per index from the last down to 1, leaves earlier draws alone, and leaves the array equal to `Shuffled` of its old contents and those draws |
| `FisherYates.Shuffle` | apps/backend/src/simulation/neighborhood.generator.ts:43-50 | a fresh array that is a permutation of the input and equals `Shuffled` of it; the input is not modified; exactly length - 1 draws are consumed (none for an empty input) |
| `FisherYates.Range` | apps/backend/src/simulation/neighborhood.generator.ts:92 | the indices 0 to n - 1 in order |
| `FisherYates.RangeMultiplicity` | apps/backend/src/simulation/neighborhood.generator.ts:92 | every index below n occurs once in the range, nothing else occurs |
| `FisherYates.PermutationOfRange` | apps/backend/src/simulation/neighborhood.generator.ts:91-94 | a permutation of 0..n-1 has length n, holds no index twice, holds only indices below n and holds all of them |
| `FisherYates.ShuffledRangeIsPermutation` | apps/backend/src/simulation/neighborhood.generator.ts:91-94 | the shuffled house indices are n distinct indices below n covering every house, whatever the draws |
| `Apportionment.Rank` | apps/backend/src/simulation/neighborhood.generator.ts:56-66 | an entry keeps its type and share, its quota is share × houseCount, its count is the floor of the quota and its remainder the fraction in [0, 1) |
| `Apportionment.RankAll` | apps/backend/src/simulation/neighborhood.generator.ts:56-66 | every configuration entry is ranked, in order |
| `Apportionment.StripRankAll` | apps/backend/src/simulation/neighborhood.generator.ts:56-66 | ranking preserves every entry's type and share |
| `Apportionment.RemaindersBetween` | apps/backend/src/simulation/neighborhood.generator.ts:62-66 | the quotas add up to the floors plus the remainders, which add up to less than the number of entries |
| `Apportionment.SumRawOfRankAll` | apps/backend/src/simulation/neighborhood.generator.ts:59 | the quotas add up to houseCount times the sum of the shares |
| `Apportionment.InsertPermutes` | apps/backend/src/simulation/neighborhood.generator.ts:72 | inserting adds exactly the inserted entry |
| `Apportionment.SortPermutes` | apps/backend/src/simulation/neighborhood.generator.ts:72 | the sort is a permutation of the entries |
| `Apportionment.InsertSorted` | apps/backend/src/simulation/neighborhood.generator.ts:72 | inserting into a list of non-increasing remainders keeps it so |
| `Apportionment.SortSorted` | apps/backend/src/simulation/neighborhood.generator.ts:72 | the sorted remainders are non-increasing |
| `Apportionment.InsertStable` | apps/backend/src/simulation/neighborhood.generator.ts:72 | inserting places the entry after every entry with the same remainder |
| `Apportionment.SortStable` | apps/backend/src/simulation/neighborhood.generator.ts:72 | entries with equal remainders keep their relative order (a stable sort) |
| `Apportionment.SortStrip` | apps/backend/src/simulation/neighborhood.generator.ts:72 | sorting keeps the multiset of (type, share) pairs |
| `Apportionment.SortSumCounts` | apps/backend/src/simulation/neighborhood.generator.ts:68-72 | sorting does not change the sum of the floors |
| `Apportionment.SortInPlace` | apps/backend/src/simulation/neighborhood.generator.ts:71-72 | the array afterwards holds the stable sort of its old contents by descending remainder |
| `Apportionment.BumpOne` | apps/backend/src/simulation/neighborhood.generator.ts:74-77 | bumping one more leading entry adds one house to entry k and changes nothing else |
| `Apportionment.RemainderOf` | apps/backend/src/simulation/neighborhood.generator.ts:65 | a published entry's remainder is in [0, 1) |
| `Apportionment.ApportionCounts` | apps/backend/src/simulation/neighborhood.generator.ts:62-83 | the published entries are a permutation of the configuration's (type, share) pairs; entry k's count is its floor, plus one exactly when k is below min(max(0, houseCount - Σfloor), number of entries) |
| `Apportionment.ApportionOrder` | apps/backend/src/simulation/neighborhood.generator.ts:71-77 | the published list has non-increasing remainders, and any entry given its floor plus one has a remainder at least that of any entry left at its floor |
| `Apportionment.ApportionTotal` | apps/backend/src/simulation/neighborhood.generator.ts:68-77 | the counts add up to Σfloor plus the number of bumped entries |
| `Apportionment.PublishSum` | apps/backend/src/simulation/neighborhood.generator.ts:74-83 | bumping the leading entries adds exactly their number to the sum of the counts |
| `Apportionment.SharesOfOneApportionAllHouses` | apps/backend/src/simulation/neighborhood.generator.ts:62-77 | when the shares add up to one, exactly houseCount - Σfloor entries are bumped and the counts add up to houseCount |
| `Apportionment.ApportionNonNegative` | apps/backend/src/simulation/neighborhood.generator.ts:62-77 | with non-negative shares and house count, no count is negative |
| `Apportionment.FloorsAtMostHouses` | apps/backend/src/simulation/neighborhood.generator.ts:62-68 | with shares adding up to at most one, the floors add up to at most houseCount |
| `Apportionment.ApportionAtMostHouses` | apps/backend/src/simulation/neighborhood.generator.ts:62-77 | with shares adding up to at most one, the counts add up to at most houseCount |
| `Apportionment.ComputeDistribution` | apps/backend/src/simulation/neighborhood.generator.ts:52-84 | the in-place computation returns exactly `Apportion` of the house count and entries |
| `Apportionment.SumFloors` | apps/backend/src/simulation/neighborhood.generator.ts:68 | the reduce returns the sum of the floors |
| `Apportionment.BumpLeading` | apps/backend/src/simulation/neighborhood.generator.ts:71-77 | the first `bonus` entries of the array get one more house each and nothing else changes |
| `NeighborhoodGenerator.BlockOfPrefix` | apps/backend/src/simulation/neighborhood.generator.ts:98-100 | an entry's block depends only on the entries up to it |
| `NeighborhoodGenerator.PrefixCount` | apps/backend/src/simulation/neighborhood.generator.ts:98 | the reduce over the earlier entries returns the start of the entry's block |
| `NeighborhoodGenerator.SumDistributionAppend` | apps/backend/src/simulation/neighborhood.generator.ts:98 | one more entry adds its count to the block start |
| `NeighborhoodGenerator.Repeat` | apps/backend/src/simulation/neighborhood.generator.ts:101-106 | n copies of a kind |
| `NeighborhoodGenerator.PushLookup` | apps/backend/src/simulation/neighborhood.generator.ts:101-105 | a push appends the kind to the selected house's list (creating it if absent) and to no other |
| `NeighborhoodGenerator.PushEachLast` | apps/backend/src/simulation/neighborhood.generator.ts:101-106 | the last selected index pushes the kind onto its own house's list only |
| `NeighborhoodGenerator.RepeatLast` | apps/backend/src/simulation/neighborhood.generator.ts:101-106 | one more selected index adds one copy for its own house only |
| `NeighborhoodGenerator.PushEachLookup` | apps/backend/src/simulation/neighborhood.generator.ts:100-106 | after a block is pushed, a house's list has the kind appended once per occurrence of the house in the block |
| `NeighborhoodGenerator.AssignmentLookup` | apps/backend/src/simulation/neighborhood.generator.ts:96-107 | a house's list in the `assignment` dictionary is, in entry order, the kind of every block the house lies in |
| `NeighborhoodGenerator.PushAll` | apps/backend/src/simulation/neighborhood.generator.ts:101-106 | the `forEach` over a block returns the dictionary with the whole block pushed |
| `NeighborhoodGenerator.AssignOptionalAssets` | apps/backend/src/simulation/neighborhood.generator.ts:96-107 | the loop over the distribution builds exactly the dictionary `Assignment` |
| `NeighborhoodGenerator.OptionalAsset` | apps/backend/src/simulation/neighborhood.generator.ts:121-145 | an asset is pushed exactly for PV, heat pump and home charger, of that kind and without a profile |
| `NeighborhoodGenerator.OptionalAssets` | apps/backend/src/simulation/neighborhood.generator.ts:120-146 | a house gets at most one optional asset per assigned kind |
| `NeighborhoodGenerator.PublicChargers` | apps/backend/src/simulation/neighborhood.generator.ts:155-160 | `publicChargerCount` chargers, none for a negative count |
| `NeighborhoodGenerator.Households` | apps/backend/src/simulation/neighborhood.generator.ts:109-153 | `houseCount` households, none for a negative count |
| `NeighborhoodGenerator.Indices` | apps/backend/src/simulation/neighborhood.generator.ts:92 | a fresh array holding the indices 0 to houseCount - 1 |
| `NeighborhoodGenerator.GenerateNeighborhoodConfig` | apps/backend/src/simulation/neighborhood.generator.ts:86-170 | the generator returns `Layout(raw)`: a function of the configuration alone, with the shuffle driven by the seed's first draws |
| `LayoutProperties.BlocksArePrefix` | apps/backend/src/simulation/neighborhood.generator.ts:97-100 | with non-negative counts, the blocks laid end to end are the first min(Σcount, houseCount) shuffled indices: disjoint and contiguous |
| `LayoutProperties.AssignedCountIsOccurrences` | apps/backend/src/simulation/neighborhood.generator.ts:97-106 | a house gets one assigned kind per occurrence in the blocks |
| `LayoutProperties.AtMostOneAssigned` | apps/backend/src/simulation/neighborhood.generator.ts:97-106 | a house occurring at most once among the indices is assigned at most one kind |
| `LayoutProperties.KindTallyIsBlockSize` | apps/backend/src/simulation/neighborhood.generator.ts:97-106 | when every index is a house, the houses assigned a kind number the sizes of that kind's blocks |
| `LayoutProperties.FullBlocks` | apps/backend/src/simulation/neighborhood.generator.ts:97-100 | when Σcount is at most houseCount, every block has its entry's full count |
| `LayoutProperties.CountOfOnlyKind` | apps/backend/src/simulation/neighborhood.generator.ts:97-107 | a kind listed once has that entry's count |
| `LayoutProperties.OptionalAssetsCount` | apps/backend/src/simulation/neighborhood.generator.ts:120-146 | a house gets one asset of an optional kind per assignment of it, and none of any other kind |
| `LayoutProperties.HouseKinds` | apps/backend/src/simulation/neighborhood.generator.ts:109-146 | a house has exactly one base load, one asset per assigned optional kind, and no asset of any other kind |
| `LayoutProperties.LayoutHousehold` | apps/backend/src/simulation/neighborhood.generator.ts:109-120 | household k is built from the kinds the blocks assign to index k |
| `LayoutProperties.HouseholdShape` | apps/backend/src/simulation/neighborhood.generator.ts:109-118 | houseCount households with ids `house-(k+1)` and names `House (k+1)`, pairwise distinct ids, the first asset the base load at the default power, exactly one base load and no public charger |
| `LayoutProperties.ChargerShape` | apps/backend/src/simulation/neighborhood.generator.ts:155-160 | publicChargerCount chargers with pairwise distinct ids `public-ev-(k+1)`, all public chargers at the default power, without a profile |
| `LayoutProperties.HouseOrderOnce` | apps/backend/src/simulation/neighborhood.generator.ts:91-94 | no house index occurs twice in the shuffled order |
| `LayoutProperties.AtMostOneOptionalAsset` | apps/backend/src/simulation/neighborhood.generator.ts:97-146 | with non-negative shares, every household has at most two assets |
| `LayoutProperties.HousesWithIsTally` | apps/backend/src/simulation/neighborhood.generator.ts:97-146 | the households carrying an optional kind are the houses the blocks assign it to |
| `LayoutProperties.HousesPerKind` | apps/backend/src/simulation/neighborhood.generator.ts:97-146 | with non-negative shares whose published counts add up to at most houseCount, the number of households carrying a kind listed once equals that kind's published count |
| `JsBuiltins.Clamp` | apps/backend/src/simulation/simulation.service.ts:263 | `Math.min(hi, Math.max(lo, x))` lies in [lo, hi], is x inside it and the nearer bound outside |
| `JsBuiltins.JsSlice` | apps/backend/src/simulation/neighborhood.generator.ts:100 | `slice` with non-negative bounds is the clamped sub-sequence, and empty when the end is not after the start |
| `JsBuiltins.ArrayLength` | apps/backend/src/simulation/neighborhood.generator.ts:92 | `Array.from({ length: n })` has n elements, none for a negative n |
| `JsBuiltins.Round` | apps/frontend/src/components/PublicChargersView.tsx:21 | `Math.round(x)` is the integer within half a unit, halves rounding up |
| `JsBuiltins.Decimal` | apps/backend/src/simulation/neighborhood.generator.ts:110 | an index renders as a non-empty string of digits |
| `JsBuiltins.DecimalInjective` | apps/backend/src/simulation/neighborhood.generator.ts:110 | distinct numbers render differently |
| `JsBuiltins.LabelInjective` | apps/backend/src/simulation/neighborhood.generator.ts:156 | ids built from distinct numbers with the same prefix and suffix differ |
| `Weather.GetSeason` | apps/backend/src/simulation/simulation.service.ts:241-252 | winter exactly for months up to 1 and 11, spring for 2-4, summer for 5-7, autumn for 8-10 and above 11 |
| `Weather.SeasonsInOrder` | apps/backend/src/simulation/simulation.service.ts:241-252 | over the year the season changes only after months 1, 4, 7 and 10, each time to the next season |
| `Weather.Temperature` | apps/backend/src/simulation/simulation.service.ts:254-258 | a swing in [-1, 1] gives a temperature in [0, 20] °C |
| `Weather.TemperatureFallsWithSwing` | apps/backend/src/simulation/simulation.service.ts:257 | a larger swing gives a colder month |
| `Weather.TempModifier` | apps/backend/src/simulation/simulation.service.ts:262 | 1.05 exactly above 15 °C, 0.9 exactly below 0 °C, 1.0 otherwise |
| `Weather.Irradiance` | apps/backend/src/simulation/simulation.service.ts:260-264 | the irradiance factor lies in [0.1, 1.0] |
| `Weather.ToIsoString` | apps/backend/src/simulation/simulation.service.ts:67-70 | a rendering exactly for a time within ±8.64 × 10^15 ms, the calendar's ISO string of it; otherwise the RangeError |
| `Weather.SnapshotRanges` | apps/backend/src/simulation/simulation.service.ts:228-264 | for a time in range, a snapshot's season is the month's, its temperature is in [0, 20] °C, its irradiance factor in [0.1, 1] and equal to the monthly base times 1.05 above 15 °C, else the base |
| `PowerResolver.BaseKw` | apps/backend/src/simulation/simulation.service.ts:200-204 | the profile value at the step when there is one, the rated power otherwise |
| `PowerResolver.DemandFactor` | apps/backend/src/simulation/simulation.service.ts:221 | the heat-pump factor is in [0.6, 1.8], is (18 - T)/12 between -3.6 and 10.8 °C and saturates outside |
| `PowerResolver.DemandFallsWithTemperature` | apps/backend/src/simulation/simulation.service.ts:221 | warmer weather never raises the heat-pump factor |
| `PowerResolver.ApplyWeather` | apps/backend/src/simulation/simulation.service.ts:207-226 | without weather, and for kinds other than PV and heat pump, the base power; PV times the irradiance factor; heat pump times the demand factor |
| `PowerResolver.ResolvedBounds` | apps/backend/src/simulation/simulation.service.ts:195-226 | for a non-negative base, PV resolves to between 0.1 and 1 times it, a heat pump to between 0.6 and 1.8 times it, and other kinds to exactly it |
| `InputValidation.FirstWithoutBaseLoad` | apps/backend/src/simulation/simulation.service.ts:277-286 | the first household without a base load, and none exactly when every household has one |
| `InputValidation.NoErrorIffAcceptable` | apps/backend/src/simulation/simulation.service.ts:266-301 | validation passes exactly when the step length and count are positive, the start parses, every household has a base load, there are 30 households and 6 chargers, all public chargers |
| `InputValidation.MissingBaseLoadIsFirst` | apps/backend/src/simulation/simulation.service.ts:266-286 | a missing base load is reported only after the clock checks pass, and for the first household lacking one |
| `InputValidation.ValidateInput` | apps/backend/src/simulation/simulation.service.ts:266-301 | the checks in the source's order return the first failure, or none |
| `AssetLedger.Credited` | apps/backend/src/simulation/simulation.service.ts:186-189 | crediting never adds or removes an accumulator |
| `AssetLedger.Values` | apps/backend/src/simulation/simulation.service.ts:166 | one value per registered id |
| `AssetLedger.FirstIndex` | apps/backend/src/simulation/simulation.service.ts:38-47 | the position of the first asset with an id, or the length when there is none |
| `AssetLedger.FirstIndexOfPrefix` | apps/backend/src/simulation/simulation.service.ts:38-47 | the first occurrence within a prefix is the first occurrence overall |
| `AssetLedger.FirstIndexOfLast` | apps/backend/src/simulation/simulation.service.ts:38-47 | one more asset changes the first occurrence only of an id not seen before |
| `AssetLedger.RegisteredIds` | apps/backend/src/simulation/simulation.service.ts:38-50 | the accumulators are exactly one per distinct asset id, and the map and the order list agree |
| `AssetLedger.FirstRegistrationWins` | apps/backend/src/simulation/simulation.service.ts:38-47 | each accumulator is the zeroed accumulator of the first asset with its id |
| `AssetLedger.FirstOccurrenceOrder` | apps/backend/src/simulation/simulation.service.ts:38-50 | the accumulators are listed in the order their ids first occur |
| `AssetLedger.Accumulators.constructor` | apps/backend/src/simulation/simulation.service.ts:37 | a new map is empty |
| `AssetLedger.Accumulators.Register` | apps/backend/src/simulation/simulation.service.ts:38-47 | registering adds a zeroed accumulator for an id not yet present and changes nothing otherwise |
| `AssetLedger.Accumulators.RegisterAll` | apps/backend/src/simulation/simulation.service.ts:49-50 | registering a list registers each asset in order |
| `AssetLedger.Accumulators.Credit` | apps/backend/src/simulation/simulation.service.ts:186-189 | crediting adds energy to a present id and leaves the order and other accumulators alone |
| `AssetLedger.Accumulators.ToArray` | apps/backend/src/simulation/simulation.service.ts:166 | `Array.from(values())` lists the accumulators in insertion order |
| `SimulationTypes.PositivePart` | apps/backend/src/simulation/simulation.service.ts:96-97 | `Math.max(x, 0)` is non-negative, at least x, and either 0 or x |
| `Simulation.PassCredit` | apps/backend/src/simulation/simulation.service.ts:179-192 | a pass never adds or removes an accumulator |
| `Simulation.SumAssetPower` | apps/backend/src/simulation/simulation.service.ts:171-193 | the reduce returns the pass's total power and credits every asset of the pass; the order of the map is unchanged |
| `Simulation.HouseholdStepAt` | apps/backend/src/simulation/simulation.service.ts:78-118 | a household record keeps the household's id and name; net load and export are non-negative, one of them is zero, and their difference is load minus PV |
| `Simulation.HouseholdsCredit` | apps/backend/src/simulation/simulation.service.ts:78-94 | the household passes never add or remove an accumulator |
| `Simulation.StepCredit` | apps/backend/src/simulation/simulation.service.ts:78-127 | a step never adds or removes an accumulator |
| `Simulation.LedgerAfter` | apps/backend/src/simulation/simulation.service.ts:66-153 | the accumulators after any number of steps are the registered ones |
| `Simulation.WithAssetsAppend` | apps/backend/src/simulation/simulation.service.ts:49-50 | registering two lists is registering the first, then the second |
| `Simulation.RegisterAssets` | apps/backend/src/simulation/simulation.service.ts:37-50 | the map after registration holds the household assets, then the public chargers, as `Registered` |
| `Simulation.HouseholdCallback` | apps/backend/src/simulation/simulation.service.ts:78-118 | the callback returns the household's record, credits its load pass then its PV pass, and adds the record's energies to its own accumulator only |
| `Simulation.MapHouseholdsSnoc` | apps/backend/src/simulation/simulation.service.ts:78-118 | one more household appends its record, its two passes and its accumulator update, and adds its powers to each running sum |
| `Simulation.MapHouseholds` | apps/backend/src/simulation/simulation.service.ts:73-118 | the map returns every household's record; the four running sums are the sums of the records; every household pass is credited; each household accumulator receives its own record's energies |
| `Simulation.FirstInvalidStep` | apps/backend/src/simulation/simulation.service.ts:66-70 | the least step index below n whose time is out of range, or none exactly when every step time is in range |
| `Simulation.FirstInvalidStepIs` | apps/backend/src/simulation/simulation.service.ts:66-70 | when the steps before i are in range and step i is not, the run's first out-of-range step is i |
| `Simulation.FirstInvalidStepSnoc` | apps/backend/src/simulation/simulation.service.ts:66-70 | one more step in range keeps every step so far in range |
| `Simulation.SimulateStep` | apps/backend/src/simulation/simulation.service.ts:67-152 | one iteration fails (the RangeError) exactly when the step's time is out of range, changing nothing else; otherwise it produces `StepAt` for the step, credits the step's passes and accrues the household records |
| `Simulation.TotalsOfAppend` | apps/backend/src/simulation/simulation.service.ts:131-139 | one more step adds its energies to the neighbourhood totals and its household records to the household accumulators |
| `Simulation.StepLoop` | apps/backend/src/simulation/simulation.service.ts:66-153 | the loop stops at the first step out of the time range, exactly as `FirstInvalidStep` says; when there is none it returns the steps of `Steps`, the neighbourhood totals over them, and leaves the household and asset accumulators as their functions of the steps |
| `Simulation.RunSimulation` | apps/backend/src/simulation/simulation.service.ts:30-169 | the service returns `Simulate`: the first validation error, the RangeError of the first step out of the time range, or the clock, the steps, the household totals, the asset totals and the neighbourhood totals |
| `SimulationProperties.StepsAreIndexed` | apps/backend/src/simulation/simulation.service.ts:66 | n steps are produced, step i being `StepAt` of i |
| `SimulationProperties.SuccessfulRun` | apps/backend/src/simulation/simulation.service.ts:162-168 | a successful run had acceptable input with every step time in range, and returns its clock, its `clock.steps` steps and the totals over them |
| `SimulationProperties.StepTimesAreEvenlySpaced` | apps/backend/src/simulation/simulation.service.ts:67-69 | step 0 is at the start, and consecutive steps are stepMinutes × 60000 ms apart |
| `SimulationProperties.StepRecords` | apps/backend/src/simulation/simulation.service.ts:66-71 | a successful run has `clock.steps` records; record i has index i, the ISO time of start + i × stepMinutes × 60000 ms (a time in range), and that time's season, temperature and irradiance |
| `SimulationProperties.RunFailsExactlyOnInvalidInput` | apps/backend/src/simulation/simulation.service.ts:31-70 | a run succeeds exactly when the input is acceptable and every step time is in range; otherwise it fails with the first validation error, or, for acceptable input, with the RangeError of the least step out of range |
| `SimulationProperties.StepTimeIncreases` | apps/backend/src/simulation/simulation.service.ts:67-69 | with positive step minutes, a later step has a later time |
| `SimulationProperties.LastStepDecidesRange` | apps/backend/src/simulation/simulation.service.ts:67-70 | for acceptable input, every step time is in range exactly when the last one is at most 8.64 × 10^15 ms |
| `SimulationProperties.LongRunLeavesTimeRange` | apps/backend/src/simulation/simulation.service.ts:67-70 | 100 steps of 2147483647 minutes from 2024-01-01T00:00:00Z fail with the RangeError at step 68 |
| `SimulationProperties.HouseholdStepsAreIndexed` | apps/backend/src/simulation/simulation.service.ts:78 | the k-th household record is that household's record |
| `SimulationProperties.TotalsBalance` | apps/backend/src/simulation/simulation.service.ts:99-102 | summed over the households, net load minus export equals load minus PV |
| `SimulationProperties.TotalNonNegative` | apps/backend/src/simulation/simulation.service.ts:99-102 | a running sum of non-negative values is non-negative |
| `SimulationProperties.StepBalance` | apps/backend/src/simulation/simulation.service.ts:96-129 | at every step grid import minus grid export equals neighbourhood load minus PV, and grid export is non-negative |
| `SimulationProperties.PassPowerAppend` | apps/backend/src/simulation/simulation.service.ts:179-192 | a pass over two lists is the sum of the passes over each |
| `SimulationProperties.HouseholdSumsArePasses` | apps/backend/src/simulation/simulation.service.ts:79-100 | the households' load and PV sums are the load and PV passes over all household assets |
| `SimulationProperties.PassPowerOfNone` | apps/backend/src/simulation/simulation.service.ts:180-183 | a pass over assets all outside it contributes nothing |
| `SimulationProperties.NeighbourhoodSumsCoverEveryAsset` | apps/backend/src/simulation/simulation.service.ts:78-129 | with all public chargers of their kind, the neighbourhood load is the load pass over all assets, the PV the PV pass, and grid import exceeds load by exactly the households' net load minus their load |
| `SimulationProperties.TotalsBalanceOverSteps` | apps/backend/src/simulation/simulation.service.ts:131-139 | over balanced steps the import minus export energy equals consumption minus PV energy |
| `SimulationProperties.RunTotalsBalance` | apps/backend/src/simulation/simulation.service.ts:131-160 | a successful run's import minus export energy equals consumption minus PV energy |
| `SimulationProperties.AccrueStepAt` | apps/backend/src/simulation/simulation.service.ts:104-108 | household accumulator k receives only record k |
| `SimulationProperties.HouseholdTotalsAreSums` | apps/backend/src/simulation/simulation.service.ts:104-108 | each household accumulator keeps the household's id and name, and each of its four energies is the sum over the steps of its power times the step hours |
| `SimulationProperties.ColumnsBalance` | apps/backend/src/simulation/simulation.service.ts:104-108 | over balanced records a household's net load minus export energy equals its load minus PV energy |
| `SimulationProperties.StepsRecordsBalance` | apps/backend/src/simulation/simulation.service.ts:96-97 | every household record of every step is balanced |
| `SimulationProperties.HouseholdTotalAt` | apps/backend/src/simulation/simulation.service.ts:104-108 | a household's totals are its sums over the steps, with net load minus export equal to load minus PV |
| `SimulationProperties.RunHouseholdTotals` | apps/backend/src/simulation/simulation.service.ts:57-165 | a successful run returns one total per household, in order, each the sum over the steps of that household's records, and balanced |
| `AssetEnergyProperties.PassCreditAdds` | apps/backend/src/simulation/simulation.service.ts:179-192 | a pass adds to an accumulator the energy of the pass's assets with its id |
| `AssetEnergyProperties.PassesCoverEachAssetOnce` | apps/backend/src/simulation/simulation.service.ts:180-183 | the load pass and the PV pass together credit every asset exactly once |
| `AssetEnergyProperties.LoadPassCoversAll` | apps/backend/src/simulation/simulation.service.ts:120-127 | without PV assets the load pass alone credits every asset |
| `AssetEnergyProperties.IdEnergyAppend` | apps/backend/src/simulation/simulation.service.ts:179-192 | an id's energy over two lists is the sum over each |
| `AssetEnergyProperties.HouseholdsCreditAdds` | apps/backend/src/simulation/simulation.service.ts:78-94 | the household passes add to an accumulator the energy of every household asset with its id |
| `AssetEnergyProperties.StepCreditAdds` | apps/backend/src/simulation/simulation.service.ts:78-127 | with all public chargers of their kind, a step adds to an accumulator the energy of every asset with its id |
| `AssetEnergyProperties.LedgerStep` | apps/backend/src/simulation/simulation.service.ts:66-153 | step n adds the step's energy for the id to its accumulator |
| `AssetEnergyProperties.LedgerAfterHolds` | apps/backend/src/simulation/simulation.service.ts:66-153 | after n steps an accumulator holds its cumulative energy over those steps |
| `AssetEnergyProperties.ValuesAreIndexed` | apps/backend/src/simulation/simulation.service.ts:166 | value j is the accumulator of the j-th registered id |
| `AssetEnergyProperties.EveryAssetListed` | apps/backend/src/simulation/simulation.service.ts:38-50 | every asset's id is registered |
| `AssetEnergyProperties.AssetTotalsAfter` | apps/backend/src/simulation/simulation.service.ts:166 | asset total j is the first asset with the j-th id, with its cumulative energy after n steps |
| `AssetEnergyProperties.RegistrationOrder` | apps/backend/src/simulation/simulation.service.ts:38-50 | every asset id is registered once, in order of first occurrence among household assets then public chargers |
| `AssetEnergyProperties.RunAssetTotals` | apps/backend/src/simulation/simulation.service.ts:37-166 | a successful run returns one total per distinct id, in first-occurrence order, each the first such asset with its cumulative energy over every step |
| `PublicChargersView.StepsPerDay` | apps/frontend/src/components/PublicChargersView.tsx:21 | at least 1; 1 for a negative step; unbounded (Infinity) exactly for a zero step; for a positive step, half a step more than that many steps is longer than a day, and (for steps of at most two days) half a step fewer is at most a day; exactly 1 for a step longer than two days, as rounding 1440 / stepMinutes gives |
| `PublicChargersView.RoundedDayBounds` | apps/frontend/src/components/PublicChargersView.tsx:21 | `max(1, round(1440 / stepMinutes))` is 1 for a negative step and lies within half a step of a day otherwise |
| `PublicChargersView.RoundedUpBound` | apps/frontend/src/components/PublicChargersView.tsx:21 | half a step more than the day's steps is longer than a day |
| `PublicChargersView.RoundedDownBound` | apps/frontend/src/components/PublicChargersView.tsx:21 | for steps of at most two days, half a step fewer is at most a day |
| `PublicChargersView.StepsForLast24Hours` | apps/frontend/src/components/PublicChargersView.tsx:20-24 | the window is no longer than the steps; from index -1 on it is no longer than the day; for an index in range it is the non-empty contiguous slice ending at that step, min(stepsPerDay, index + 1) long, and every step up to it for a zero step length |
| `PublicChargersView.WindowShape` | apps/frontend/src/components/PublicChargersView.tsx:22-23 | the slice from the clamped start to index + 1 has the window's length and contents |
| `PublicChargersView.DateKey` | apps/frontend/src/components/PublicChargersView.tsx:31 | the key is the first ten characters of the timestamp (all of it when shorter) |
| `PublicChargersView.DaysHoldEveryKey` | apps/frontend/src/components/PublicChargersView.tsx:30-33 | the days are exactly the keys of the steps |
| `PublicChargersView.NoEnergyOffDays` | apps/frontend/src/components/PublicChargersView.tsx:30-33 | a key no step has gets no energy |
| `PublicChargersView.BeforeIrreflexive` | apps/frontend/src/components/PublicChargersView.tsx:35 | no string sorts before itself |
| `PublicChargersView.BeforeTransitive` | apps/frontend/src/components/PublicChargersView.tsx:35 | the string order is transitive |
| `PublicChargersView.BeforeTotal` | apps/frontend/src/components/PublicChargersView.tsx:35 | of two different strings one sorts first |
| `PublicChargersView.AscendingDistinct` | apps/frontend/src/components/PublicChargersView.tsx:35 | strictly ascending labels are distinct |
| `PublicChargersView.InsertLabel` | apps/frontend/src/components/PublicChargersView.tsx:35 | insertion adds exactly the inserted label |
| `PublicChargersView.SortLabels` | apps/frontend/src/components/PublicChargersView.tsx:35 | `sort()` is a permutation of the keys |
| `PublicChargersView.ConsAscending` | apps/frontend/src/components/PublicChargersView.tsx:35 | a label before every label of an ascending list extends it |
| `PublicChargersView.InsertMember` | apps/frontend/src/components/PublicChargersView.tsx:35 | insertion adds no label other than the inserted one |
| `PublicChargersView.InsertAscending` | apps/frontend/src/components/PublicChargersView.tsx:35 | inserting a new label keeps a list ascending |
| `PublicChargersView.SortAscending` | apps/frontend/src/components/PublicChargersView.tsx:35 | the sorted distinct keys are strictly ascending |
| `PublicChargersView.OccursOnce` | apps/frontend/src/components/PublicChargersView.tsx:35 | a label of a distinct list occurs once |
| `PublicChargersView.SumOverDaysSnoc` | apps/frontend/src/components/PublicChargersView.tsx:30-33 | one more step adds its energy once per label equal to its key |
| `PublicChargersView.DaysAddUp` | apps/frontend/src/components/PublicChargersView.tsx:30-33 | over distinct labels covering every key, the daily energies add up to the total energy |
| `PublicChargersView.NothingOnNoSteps` | apps/frontend/src/components/PublicChargersView.tsx:30 | no steps, no energy on any day |
| `PublicChargersView.SumOfDayValues` | apps/frontend/src/components/PublicChargersView.tsx:38 | the values add up to the labels' daily energies |
| `PublicChargersView.DailyValuesAddUp` | apps/frontend/src/components/PublicChargersView.tsx:30-38 | ascending labels covering every key with their daily energies add up to the energy of all steps |
| `PublicChargersView.EnergyByDay` | apps/frontend/src/components/PublicChargersView.tsx:27-33 | the map's keys are exactly the steps' date keys, each listed once in `keys`, and each holds the sum of publicEvKw × stepHours over that day's steps |
| `PublicChargersView.GroupByDay` | apps/frontend/src/components/PublicChargersView.tsx:26-40 | the labels are the distinct date keys in ascending order; there are as many values as labels; value k is day k's energy; the values add up to the energy of all steps |
| `PublicChargersView.LabelsAreDays` | apps/frontend/src/components/PublicChargersView.tsx:35 | the sorted labels are days and every step's key is among them |
| `PublicChargersView.ValuesAreDayEnergies` | apps/frontend/src/components/PublicChargersView.tsx:38 | the value read back for each label is that day's energy |
| `PublicChargersView.ReadBack` | apps/frontend/src/components/PublicChargersView.tsx:38 | `labels.map(label => map.get(label) ?? 0)`: one value per label, 0 for a missing key |
| `PublicChargersView.SortedLabelsAreKeys` | apps/frontend/src/components/PublicChargersView.tsx:35 | the sorted labels are exactly the keys |

## Left out

- `loadConfig` reads the configuration file from disk. The model takes the parsed configuration (`RawConfig`) as a parameter.
- `getNeighborhoodConfig` only forwards to the generator, and the GraphQL resolver, the Nest module and the DTO and model classes only carry data. They are not modelled; their field lists give the datatypes.
- `Date.parse`, `toISOString`, `getUTCMonth`, `Math.cos` and `Math.sin` are library calls. They are the fields of a `Calendar` value, and `WellFormed` states only their ranges. The time range itself, and the RangeError `toISOString` throws outside it, are modelled.
- Step times are exact integers, and they agree with JavaScript's floating-point `start + stepIndex * stepMinutes * 60 * 1000` wherever `toISOString` succeeds. `stepMinutes` and `steps` are 32-bit integers. A step time within ±8.64 × 10^15 ms needs a product of at most 1.728 × 10^16, so `stepIndex * stepMinutes` is at most 2.88 × 10^11 and exact. The full product is 2^5 times an integer below 2^53, so it is exact too, and so is the integer sum of magnitude at most 8.64 × 10^15 < 2^53. Outside the range both throw, because rounding is monotone.
- Floating point: every kW and kWh is a `real`, with no IEEE-754 rounding, `NaN` or infinities. The one infinity the chart helper meets, a zero step length, is modelled as `None`.
- `Apportionment.Rank`: the quota `share * houseCount` is the exact product, and its floor and remainder are taken of that. JavaScript rounds the product, which can land just below an integer: `0.29 * 100` is `28.999999999999996`. Its floor is then one less, its remainder nearly 1, and the remainder ranking, the bonus, the published order and so the blocks can all differ. With `{HEAT_PUMP: 0.71, PV: 0.29}` and 100 houses, JavaScript publishes `[PV 29, HEAT_PUMP 71]` and gives PV the first 29 shuffled houses. The model publishes `[HEAT_PUMP 71, PV 29]`. With shares adding up to more than one, the counts themselves can differ: `{PV: 0.29, HEAT_PUMP: 0.9}` gives 28 and 90 in JavaScript, 29 and 90 in the model.
- The generator's state `t` grows without bound. Beyond 2^53 a JavaScript number loses integer precision, but the model does not. The two agree while `seed + houseCount × 0x6D2B79F5` stays below 2^53, since a shuffle of `houseCount` houses consumes `houseCount - 1` draws. For a seed below 2^32 that is up to about 4.9 million houses. `houseCount` is not bounded by the configuration, and beyond that bound the draws are not modelled.
- `JsBuiltins.ArrayLength`: `Array.from({ length: n })` throws a RangeError for n ≥ 2^32 (`houseCount` for the indices and the households, `publicChargerCount` for the chargers). The model builds the layout anyway, so it covers only counts below 2^32.
- Non-integer seeds, house counts and charger counts are not modelled: they are integers.
- `Array.prototype.sort()` on the date keys compares UTF-16 code units. The model compares characters, which agrees on the ASCII date keys.
- Only the two fields of a chart step that the helpers read, `timestampIso` and `publicEvKw`, are modelled.
- The rest of `PublicChargersView.tsx` (the React component, its chart options and state) and every other frontend component are presentation, not modelled.
- `PublicChargersView.StepsPerDay`: a negative or zero step length is covered, but a step length that is `NaN` is not, because the model's numbers are reals.
- `PublicChargersView.EnergyByDay`: the order of `keys` (the order the `Map` first saw each day) is not stated, since `groupByDay` sorts the keys before using them.
- `NeighborhoodGenerator.OptionalAssets`: its own contract bounds only the number of assets; the count per kind is `LayoutProperties.OptionalAssetsCount`.
- `SimulationProperties.NeighbourhoodSumsCoverEveryAsset`, `AssetEnergyProperties.StepCreditAdds`, `AssetEnergyProperties.LedgerStep`, `AssetEnergyProperties.LedgerAfterHolds` and `AssetEnergyProperties.AssetTotalsAfter` assume every public charger is of the public-charger kind, which validation guarantees before any step runs. A PV-typed public charger would be skipped by the load pass.
- `LayoutProperties.HousesPerKind` is stated for non-negative shares whose published counts add up to at most `houseCount` (which holds whenever the shares add up to at most one), with each kind listed once. Otherwise the last blocks run past the last house and come up short, or two entries of one kind overlap.
