/**
 * The weather strip's choices that do not draw pixels
 * (internal/modules/weather/render.go): the icon and its colour for an
 * OpenWeatherMap icon code, the displayed condition text, and the colour of
 * the precipitation text.
 */
module WeatherRender {
  import opened Wrappers
  import opened Text
  import opened WeatherApi

  datatype Icon = Sun | Moon | CloudSun | CloudMoon | Cloud | CloudRain | CloudLightning | CloudSnow | CloudFog

  datatype Tone = NightTone | SunnyTone | CloudyTone | RainTone | StormTone | SnowTone

  /** A code ending in "n" is a night code. */
  predicate IsNight(code: string) {
    HasSuffix(code, "n")
  }

  /** `getWeatherIcon`: the first matching code prefix decides; unknown codes show a cloud. */
  function GetWeatherIcon(code: string): (r: (Icon, Tone))
    ensures r.1 == NightTone <==> IsNight(code) && (HasPrefix(code, "01") || HasPrefix(code, "02"))
    ensures r.1 == SunnyTone <==> !IsNight(code) && (HasPrefix(code, "01") || HasPrefix(code, "02"))
    ensures r.0 == Cloud <==> !(exists p :: p in KnownPrefixes && HasPrefix(code, p)) || HasPrefix(code, "03") || HasPrefix(code, "04")
  {
    var night := IsNight(code);
    if HasPrefix(code, "01") then (if night then (Moon, NightTone) else (Sun, SunnyTone))
    else if HasPrefix(code, "02") then (if night then (CloudMoon, NightTone) else (CloudSun, SunnyTone))
    else if HasPrefix(code, "03") || HasPrefix(code, "04") then (Cloud, CloudyTone)
    else if HasPrefix(code, "09") || HasPrefix(code, "10") then (CloudRain, RainTone)
    else if HasPrefix(code, "11") then (CloudLightning, StormTone)
    else if HasPrefix(code, "13") then (CloudSnow, SnowTone)
    else if HasPrefix(code, "50") then (CloudFog, CloudyTone)
    else (Cloud, CloudyTone)
  }

  const KnownPrefixes: set<string> := {"01", "02", "03", "04", "09", "10", "11", "13", "50"}

  /** The day and night variants of a code differ only for clear sky and few clouds. */
  lemma DayNightDiffersOnlyWhenClear(p: string)
    requires |p| == 2
    ensures GetWeatherIcon(p + "d") != GetWeatherIcon(p + "n") <==> p == "01" || p == "02"
  {
    CodePrefix(p, 'd');
    CodePrefix(p, 'n');
  }

  /** A three-character code starts with exactly one two-character prefix. */
  lemma CodePrefix(p: string, x: char)
    requires |p| == 2
    ensures forall q :: |q| == 2 ==> (HasPrefix(p + [x], q) <==> q == p)
    ensures IsNight(p + [x]) <==> x == 'n'
  {
    assert (p + [x])[..2] == p;
    assert (p + [x])[2..] == [x];
  }

  /** The OpenWeatherMap codes for clear sky and few clouds: night icons exactly for an "n" suffix. */
  lemma ClearSkyIcons(x: char)
    ensures GetWeatherIcon("01" + [x]) == (if x == 'n' then (Moon, NightTone) else (Sun, SunnyTone))
    ensures GetWeatherIcon("02" + [x]) == (if x == 'n' then (CloudMoon, NightTone) else (CloudSun, SunnyTone))
  {
    assert GetWeatherIcon("01" + [x]) == (if x == 'n' then (Moon, NightTone) else (Sun, SunnyTone)) by {
      CodePrefix("01", x);
    }
    CodePrefix("02", x);
  }

  /** The remaining OpenWeatherMap codes, whose icon ignores the time of day. */
  lemma OtherWeatherIcons(x: char)
    ensures GetWeatherIcon("03" + [x]) == (Cloud, CloudyTone) && GetWeatherIcon("04" + [x]) == (Cloud, CloudyTone)
    ensures GetWeatherIcon("09" + [x]) == (CloudRain, RainTone) && GetWeatherIcon("10" + [x]) == (CloudRain, RainTone)
    ensures GetWeatherIcon("11" + [x]) == (CloudLightning, StormTone)
    ensures GetWeatherIcon("13" + [x]) == (CloudSnow, SnowTone)
    ensures GetWeatherIcon("50" + [x]) == (CloudFog, CloudyTone)
  {
    assert GetWeatherIcon("03" + [x]) == (Cloud, CloudyTone) by { CodePrefix("03", x); }
    assert GetWeatherIcon("04" + [x]) == (Cloud, CloudyTone) by { CodePrefix("04", x); }
    assert GetWeatherIcon("09" + [x]) == (CloudRain, RainTone) by { CodePrefix("09", x); }
    assert GetWeatherIcon("10" + [x]) == (CloudRain, RainTone) by { CodePrefix("10", x); }
    assert GetWeatherIcon("11" + [x]) == (CloudLightning, StormTone) by { CodePrefix("11", x); }
    assert GetWeatherIcon("13" + [x]) == (CloudSnow, SnowTone) by { CodePrefix("13", x); }
    assert GetWeatherIcon("50" + [x]) == (CloudFog, CloudyTone) by { CodePrefix("50", x); }
  }

  /** A code with none of the known prefixes, the empty code among them, shows the cloudy icon. */
  lemma UnknownCodeIcon(code: string)
    requires forall p :: p in KnownPrefixes ==> !HasPrefix(code, p)
    ensures GetWeatherIcon(code) == (Cloud, CloudyTone)
  {
  }

  /** The description when there is one, else the main condition; its first byte upper-cased. */
  function ConditionText(c: CurrentWeather): (text: string)
    ensures text == "" <==> c.description == "" && c.condition == ""
    ensures var chosen := if c.description != "" then c.description else c.condition;
      |text| == |chosen| && (text != "" ==> text[0] == ToUpperAscii(chosen[0]) && text[1..] == chosen[1..])
  {
    var chosen := if c.description != "" then c.description else c.condition;
    if |chosen| > 0 then [ToUpperAscii(chosen[0])] + chosen[1..] else chosen
  }

  /** The precipitation text is drawn only when there is one, in the snow colour for snow and sleet. */
  function PrecipTone(p: PrecipForecast): (t: Option<Tone>)
    ensures t.None? <==> p.description == ""
    ensures t.Some? ==> (t.value == SnowTone <==> p.kind in {"Snow", "Sleet"}) && t.value in {SnowTone, RainTone}
  {
    if p.description == "" then None
    else if p.kind == "Snow" || p.kind == "Sleet" then Some(SnowTone)
    else Some(RainTone)
  }

  /** Through the whole chain, the text is in the snow colour exactly for snow and sleet conditions. */
  lemma SnowColourForSnowAndSleet(condition: string, p: PrecipForecast)
    requires p.kind == GetPrecipType(condition) && p.description != ""
    ensures PrecipTone(p) == Some(if condition in {"Snow", "Sleet"} then SnowTone else RainTone)
  {
  }
}
