/**
 * The power one asset draws or produces at a step
 * (simulation.service.ts, `resolveAssetKw` and `applyWeather`): a profile
 * value or the rated power, then scaled by the weather for PV arrays and
 * heat pumps.
 */
module PowerResolver {
  import opened JsBuiltins
  import opened Assets
  import opened Weather

  /**
   * The power before weather: `profileKw[stepIndex] ?? ratedKw` when the
   * asset has a non-empty profile, the rated power otherwise.
   */
  function BaseKw(asset: Asset, stepIndex: int): (kw: real)
    ensures asset.profileKw.Some? && 0 <= stepIndex < |asset.profileKw.value| ==> kw == asset.profileKw.value[stepIndex]
    ensures asset.profileKw.None? || !(0 <= stepIndex < |asset.profileKw.value|) ==> kw == asset.ratedKw
  {
    match asset.profileKw
    case Some(profile) =>
      if |profile| > 0 then
        if 0 <= stepIndex < |profile| then profile[stepIndex] else asset.ratedKw
      else asset.ratedKw
    case None => asset.ratedKw
  }

  /** `Math.min(1.8, Math.max(0.6, (18 - temperatureC) / 12))`: how hard a heat pump works. */
  function DemandFactor(celsius: real): (f: real)
    ensures 0.6 <= f <= 1.8
    ensures celsius <= -3.6 ==> f == 1.8
    ensures 10.8 <= celsius ==> f == 0.6
    ensures -3.6 <= celsius <= 10.8 ==> f * 12.0 == 18.0 - celsius
  {
    MinReal(1.8, MaxReal(0.6, (18.0 - celsius) / 12.0))
  }

  /** Colder weather never makes a heat pump draw less. */
  lemma DemandFallsWithTemperature(a: real, b: real)
    requires a <= b
    ensures DemandFactor(b) <= DemandFactor(a)
  {
  }

  /** `applyWeather`: PV scales by the irradiance, heat pumps by the demand factor, the rest keep their power. */
  function ApplyWeather(assetType: AssetType, baseKw: real, weather: Option<Snapshot>): (kw: real)
    ensures weather.None? || (assetType != Pv && assetType != HeatPump) ==> kw == baseKw
    ensures weather.Some? && assetType == Pv ==> kw == baseKw * weather.value.irradianceFactor
    ensures weather.Some? && assetType == HeatPump ==> kw == baseKw * DemandFactor(weather.value.temperatureC)
  {
    match weather
    case None => baseKw
    case Some(w) =>
      if assetType == Pv then baseKw * w.irradianceFactor
      else if assetType == HeatPump then baseKw * DemandFactor(w.temperatureC)
      else baseKw
  }

  /** `resolveAssetKw`. */
  function ResolveAssetKw(asset: Asset, stepIndex: int, weather: Option<Snapshot>): real
  {
    ApplyWeather(asset.assetType, BaseKw(asset, stepIndex), weather)
  }

  /**
   * Under a snapshot's irradiance in [0.1, 1], a PV array with a
   * non-negative base produces between a tenth of it and all of it; a heat
   * pump draws between 0.6 and 1.8 times its base; every other asset draws
   * its base.
   */
  lemma ResolvedBounds(asset: Asset, stepIndex: int, w: Snapshot)
    requires 0.1 <= w.irradianceFactor <= 1.0
    requires BaseKw(asset, stepIndex) >= 0.0
    ensures var base := BaseKw(asset, stepIndex);
      var kw := ResolveAssetKw(asset, stepIndex, Some(w));
      && (asset.assetType == Pv ==> 0.1 * base <= kw <= base)
      && (asset.assetType == HeatPump ==> 0.6 * base <= kw <= 1.8 * base)
      && (asset.assetType != Pv && asset.assetType != HeatPump ==> kw == base)
  {
    var base := BaseKw(asset, stepIndex);
    if asset.assetType == Pv {
      assert base * w.irradianceFactor <= base * 1.0;
      assert base * w.irradianceFactor >= base * 0.1 == 0.1 * base;
    } else if asset.assetType == HeatPump {
      var f := DemandFactor(w.temperatureC);
      assert ResolveAssetKw(asset, stepIndex, Some(w)) == base * f;
      assert base * f <= base * 1.8 == 1.8 * base;
      assert base * f >= base * 0.6 == 0.6 * base;
    }
  }
}
