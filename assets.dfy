/**
 * The entities the layout generator produces and the simulation consumes:
 * asset kinds, assets and households.
 */
module Assets {
  import opened JsBuiltins

  datatype AssetType = BaseLoad | HeatPump | Pv | HomeEvCharger | PublicEvCharger

  /**
   * One consumer or producer. `profileKw`, when present and non-empty, gives
   * one power value per simulated step; generated assets carry none.
   */
  datatype Asset = Asset(
    id: string,
    name: Option<string>,
    assetType: AssetType,
    ratedKw: real,
    profileKw: Option<seq<real>>)

  datatype Household = Household(id: string, name: string, assets: seq<Asset>)

  predicate HasAssetOfType(assets: seq<Asset>, t: AssetType)
  {
    exists k :: 0 <= k < |assets| && assets[k].assetType == t
  }

  /** How many of `assets` are of kind `t`. */
  function CountOfType(assets: seq<Asset>, t: AssetType): (n: nat)
    ensures n <= |assets|
    ensures n > 0 <==> HasAssetOfType(assets, t)
  {
    if assets == [] then 0
    else
      var rest := CountOfType(assets[1..], t);
      assert HasAssetOfType(assets, t) <==>
        assets[0].assetType == t || HasAssetOfType(assets[1..], t) by {
        if HasAssetOfType(assets, t) && assets[0].assetType != t {
          var k :| 0 <= k < |assets| && assets[k].assetType == t;
          assert assets[1..][k - 1].assetType == t;
        }
        if HasAssetOfType(assets[1..], t) {
          var k :| 0 <= k < |assets[1..]| && assets[1..][k].assetType == t;
          assert assets[k + 1].assetType == t;
        }
      }
      (if assets[0].assetType == t then 1 else 0) + rest
  }
}
