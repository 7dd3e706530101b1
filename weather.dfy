/**
 * The synthetic weather the simulation looks up per step
 * (simulation.service.ts, `getWeatherSnapshot` and its helpers): the season
 * and a temperature from the UTC month, and a solar irradiance factor from
 * the month and the temperature.
 *
 * Dates and trigonometry are not modelled: a `Calendar` supplies
 * `Date.parse`, `toISOString`, `getUTCMonth` and the two seasonal swings
 * (the cosine and the sine the service takes of the month's angle).
 */
module Weather {
  import opened JsBuiltins

  datatype Season = Winter | Spring | Summer | Autumn

  /** The date and trigonometry functions the service calls, as given functions. */
  datatype Calendar = Calendar(
    parse: string -> Option<int>,
    iso: int -> string,
    utcMonth: int -> int,
    temperatureSwing: int -> real,
    irradianceSwing: int -> real)

  /**
   * The largest magnitude of a time value, in milliseconds from the epoch
   * (section 21.4.1.1 of ECMA-262, "Time Values and Time Range"). `new Date`
   * of a time beyond it is an invalid date, whose `toISOString` throws a
   * RangeError and whose `getUTCMonth` is NaN.
   */
  const MaxTimeValue: int := 8_640_000_000_000_000

  predicate ValidTime(t: int)
  {
    -MaxTimeValue <= t <= MaxTimeValue
  }

  /** `new Date(t).toISOString()`: the rendering of a time in range, or the RangeError (None) outside it. */
  function ToIsoString(calendar: Calendar, t: int): (r: Option<string>)
    ensures r.Some? <==> ValidTime(t)
    ensures r.Some? ==> r.value == calendar.iso(t)
  {
    if ValidTime(t) then Some(calendar.iso(t)) else None
  }

  /**
   * What the runtime guarantees of those functions: a parsed time lies in the
   * time range, the month of a time in range is in 0..11, and both swings lie
   * in [-1, 1]. `iso` and `utcMonth` are only consulted for times in range.
   */
  ghost predicate WellFormed(calendar: Calendar)
  {
    && (forall s :: calendar.parse(s).Some? ==> ValidTime(calendar.parse(s).value))
    && (forall t :: ValidTime(t) ==> 0 <= calendar.utcMonth(t) <= 11)
    && (forall month :: 0 <= month <= 11 ==> -1.0 <= calendar.temperatureSwing(month) <= 1.0)
    && (forall month :: 0 <= month <= 11 ==> -1.0 <= calendar.irradianceSwing(month) <= 1.0)
  }

  datatype Snapshot = Snapshot(season: Season, temperatureC: real, irradianceFactor: real)

  /** `getSeason`: December to February winter, then three months each of spring, summer and autumn. */
  function GetSeason(month: int): (s: Season)
    ensures s == Winter <==> month <= 1 || month == 11
    ensures s == Spring <==> 2 <= month <= 4
    ensures s == Summer <==> 5 <= month <= 7
    ensures s == Autumn <==> 8 <= month <= 10 || 12 <= month
  {
    if month <= 1 || month == 11 then Winter
    else if 2 <= month <= 4 then Spring
    else if 5 <= month <= 7 then Summer
    else Autumn
  }

  function NextSeason(s: Season): Season
  {
    match s
    case Winter => Spring
    case Spring => Summer
    case Summer => Autumn
    case Autumn => Winter
  }

  /**
   * Through the year the season changes exactly after February, May, August
   * and November, each time to the next season in order.
   */
  lemma SeasonsInOrder(month: int)
    requires 0 <= month <= 11
    ensures var following := (month + 1) % 12;
      && (GetSeason(following) != GetSeason(month) <==> month == 1 || month == 4 || month == 7 || month == 10)
      && (GetSeason(following) == GetSeason(month) || GetSeason(following) == NextSeason(GetSeason(month)))
  {
  }

  /** `10 + seasonalSwing * -10`. */
  function Temperature(swing: real): (celsius: real)
    ensures -1.0 <= swing <= 1.0 ==> 0.0 <= celsius <= 20.0
  {
    10.0 + swing * -10.0
  }

  /** A larger swing gives a colder month. */
  lemma TemperatureFallsWithSwing(a: real, b: real)
    requires a <= b
    ensures Temperature(b) <= Temperature(a)
  {
  }

  function SeasonalTemperature(calendar: Calendar, month: int): real
  {
    Temperature(calendar.temperatureSwing(month))
  }

  /** `tempModifier`: warmer than 15 °C boosts, below freezing dampens. */
  function TempModifier(celsius: real): (m: real)
    ensures m == 1.05 <==> celsius > 15.0
    ensures m == 0.9 <==> celsius < 0.0
    ensures m == 1.0 <==> 0.0 <= celsius <= 15.0
  {
    if celsius > 15.0 then 1.05 else if celsius < 0.0 then 0.9 else 1.0
  }

  /** `0.45 + sin(...) * 0.35`, the unmodified irradiance of a month. */
  function IrradianceBase(swing: real): real
  {
    0.45 + swing * 0.35
  }

  /** `getSeasonalIrradiance`: the base scaled by the temperature modifier, clamped to [0.1, 1]. */
  function Irradiance(swing: real, celsius: real): (factor: real)
    ensures 0.1 <= factor <= 1.0
  {
    Clamp(0.1, 1.0, IrradianceBase(swing) * TempModifier(celsius))
  }

  function SeasonalIrradiance(calendar: Calendar, month: int, celsius: real): real
  {
    Irradiance(calendar.irradianceSwing(month), celsius)
  }

  /** `getWeatherSnapshot` for a millisecond time. */
  function SnapshotAt(calendar: Calendar, time: int): Snapshot
  {
    var month := calendar.utcMonth(time);
    var celsius := SeasonalTemperature(calendar, month);
    Snapshot(GetSeason(month), celsius, SeasonalIrradiance(calendar, month, celsius))
  }

  /**
   * Every snapshot has a temperature in [0, 20] °C, so the freezing
   * modifier never applies, and an irradiance factor in [0.1, 1] that the
   * clamp never changes: it is the monthly base times 1.05 in months warmer
   * than 15 °C and the base itself otherwise.
   */
  lemma SnapshotRanges(calendar: Calendar, time: int)
    requires WellFormed(calendar) && ValidTime(time)
    ensures var w := SnapshotAt(calendar, time);
      var month := calendar.utcMonth(time);
      && 0 <= month <= 11
      && w.season == GetSeason(month)
      && 0.0 <= w.temperatureC <= 20.0
      && 0.1 <= w.irradianceFactor <= 1.0
      && w.irradianceFactor == IrradianceBase(calendar.irradianceSwing(month)) * (if w.temperatureC > 15.0 then 1.05 else 1.0)
  {
    var month := calendar.utcMonth(time);
    var swing := calendar.irradianceSwing(month);
    var celsius := SeasonalTemperature(calendar, month);
    assert -1.0 <= calendar.temperatureSwing(month) <= 1.0;
    assert -1.0 <= swing <= 1.0;
    var m := TempModifier(celsius);
    assert 1.0 <= m <= 1.05;
    assert 0.1 <= IrradianceBase(swing) <= 0.8;
    assert IrradianceBase(swing) * m <= 0.8 * 1.05;
    assert IrradianceBase(swing) * m >= 0.1 * 1.0;
  }
}
