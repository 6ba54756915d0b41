/**
 * The weather module's reading of a One Call response
 * (internal/modules/weather/api.go): which entries are copied, the
 * precipitation type, and the minute-by-minute precipitation scan. Each
 * minute's precipitation is given as whether it is at or above the 0.1 mm/h
 * threshold.
 */
module WeatherApi {
  import opened Text

  /** One entry of a `weather` array. */
  datatype WeatherEntry = WeatherEntry(main: string, description: string, icon: string)

  datatype DailyEntry = DailyEntry(tempMin: real, tempMax: real, weather: seq<WeatherEntry>)

  /** The copied current conditions (temperatures, humidity and wind are copied unchanged and not modelled). */
  datatype CurrentWeather = CurrentWeather(condition: string, description: string, icon: string)

  datatype DailyForecast = DailyForecast(tempMin: real, tempMax: real, condition: string, icon: string)

  datatype PrecipForecast = PrecipForecast(
    active: bool,
    startsIn: nat,
    endsIn: nat,
    kind: string,
    description: string)

  /** The zero `PrecipForecast`. */
  const NoPrecip := PrecipForecast(false, 0, 0, "", "")

  /** Conditions come from the first current entry, when there is one. */
  function CurrentFrom(weather: seq<WeatherEntry>): (c: CurrentWeather)
    ensures weather == [] ==> c == CurrentWeather("", "", "")
    ensures weather != [] ==>
      c.condition == weather[0].main && c.description == weather[0].description && c.icon == weather[0].icon
  {
    if weather == [] then CurrentWeather("", "", "")
    else CurrentWeather(weather[0].main, weather[0].description, weather[0].icon)
  }

  /** Today's forecast comes from the first daily entry and, within it, its first weather entry. */
  function DailyFrom(daily: seq<DailyEntry>): (d: DailyForecast)
    ensures daily == [] ==> d == DailyForecast(0.0, 0.0, "", "")
    ensures daily != [] ==> d.tempMin == daily[0].tempMin && d.tempMax == daily[0].tempMax
    ensures daily != [] && daily[0].weather != [] ==>
      d.condition == daily[0].weather[0].main && d.icon == daily[0].weather[0].icon
    ensures (daily == [] || daily[0].weather == []) ==> d.condition == "" && d.icon == ""
  {
    if daily == [] then DailyForecast(0.0, 0.0, "", "")
    else if daily[0].weather == [] then DailyForecast(daily[0].tempMin, daily[0].tempMax, "", "")
    else DailyForecast(daily[0].tempMin, daily[0].tempMax, daily[0].weather[0].main, daily[0].weather[0].icon)
  }

  predicate KnownPrecip(condition: string) {
    condition in {"Snow", "Sleet", "Thunderstorm", "Drizzle"}
  }

  /** `getPrecipType`: snow, sleet and drizzle keep their names, a thunderstorm is a storm, anything else is rain. */
  function GetPrecipType(condition: string): (t: string)
    ensures t in {"Snow", "Sleet", "Storm", "Drizzle", "Rain"}
    ensures condition in {"Snow", "Sleet", "Drizzle"} ==> t == condition
    ensures condition == "Thunderstorm" <==> t == "Storm"
    ensures !KnownPrecip(condition) <==> t == "Rain"
  {
    if condition == "Snow" then "Snow"
    else if condition == "Sleet" then "Sleet"
    else if condition == "Thunderstorm" then "Storm"
    else if condition == "Drizzle" then "Drizzle"
    else "Rain"
  }

  function EndingText(kind: string, minutes: nat): string { kind + " ending in " + NatToString(minutes) + " min" }
  function LastingText(kind: string): string { kind + " for 60+ min" }
  function StartingText(kind: string, minutes: nat): string { kind + " in " + NatToString(minutes) + " min" }

  /**
   * What `analyzePrecipitation` reports for the samples `wet` (`wet[i]` says
   * whether minute i is at or above the threshold). Precipitating now: when
   * it first stops (or "60+" when it does not). Dry now: when it first
   * starts (or nothing when it does not). No samples: no precipitation.
   */
  ghost predicate PrecipScan(wet: seq<bool>, condition: string, f: PrecipForecast) {
    && (wet == [] ==> f == NoPrecip)
    && (wet != [] ==> f.kind == GetPrecipType(condition) && f.active == wet[0])
    && (wet != [] && wet[0] ==>
      && f.startsIn == 0
      && ((f.endsIn == 0 && (forall i :: 0 <= i < |wet| ==> wet[i]) && f.description == LastingText(f.kind))
          || (1 <= f.endsIn < |wet| && !wet[f.endsIn] && (forall i :: 0 <= i < f.endsIn ==> wet[i])
              && f.description == EndingText(f.kind, f.endsIn))))
    && (wet != [] && !wet[0] ==>
      && f.endsIn == 0
      && ((f.startsIn == 0 && (forall i :: 0 <= i < |wet| ==> !wet[i]) && f.description == "")
          || (1 <= f.startsIn < |wet| && wet[f.startsIn] && (forall i :: 0 <= i < f.startsIn ==> !wet[i])
              && f.description == StartingText(f.kind, f.startsIn))))
  }

  /** The scan leaves no choice: one forecast fits the samples and the condition. */
  lemma PrecipScanUnique(wet: seq<bool>, condition: string, f: PrecipForecast, g: PrecipForecast)
    requires PrecipScan(wet, condition, f) && PrecipScan(wet, condition, g)
    ensures f == g
  {
  }

  /** `analyzePrecipitation`: one pass over the minutes, stopping at the first change. */
  method AnalyzePrecipitation(wet: seq<bool>, condition: string) returns (f: PrecipForecast)
    ensures PrecipScan(wet, condition, f)
  {
    if |wet| == 0 {
      return NoPrecip;
    }
    var kind := GetPrecipType(condition);
    var isActive := wet[0];
    f := PrecipForecast(isActive, 0, 0, kind, "");
    if isActive {
      var i := 0;
      while i < |wet|
        invariant 0 <= i <= |wet|
        invariant forall j :: 0 <= j < i ==> wet[j]
        invariant f == PrecipForecast(true, 0, 0, kind, "")
      {
        if !wet[i] {
          f := f.(endsIn := i, description := kind + " ending in " + NatToString(i) + " min");
          break;
        }
        i := i + 1;
      }
      if f.endsIn == 0 {
        f := f.(description := kind + " for 60+ min");
      }
    } else {
      var i := 0;
      while i < |wet|
        invariant 0 <= i <= |wet|
        invariant forall j :: 0 <= j < i ==> !wet[j]
        invariant f == PrecipForecast(false, 0, 0, kind, "")
      {
        if wet[i] {
          f := f.(startsIn := i, description := kind + " in " + NatToString(i) + " min");
          break;
        }
        i := i + 1;
      }
    }
  }

  /** The mapping step of `fetchOneCall`: copy the first entries, then scan the minutes with the current condition. */
  method FetchOneCall(currentWeather: seq<WeatherEntry>, wet: seq<bool>, daily: seq<DailyEntry>)
    returns (current: CurrentWeather, today: DailyForecast, precip: PrecipForecast)
    ensures current == CurrentFrom(currentWeather) && today == DailyFrom(daily)
    ensures PrecipScan(wet, current.condition, precip)
    ensures currentWeather == [] && wet != [] ==> precip.kind == "Rain"
  {
    current := CurrentFrom(currentWeather);
    today := DailyFrom(daily);
    precip := AnalyzePrecipitation(wet, current.condition);
  }
}
