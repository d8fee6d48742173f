/**
 * `WeatherCondition`: one entry of a weather report's condition list, keyed
 * by the weather service's numeric condition id (2xx thunderstorm, 3xx
 * drizzle, 5xx rain, 6xx snow, 7xx atmosphere, 800 clear, 80x clouds).
 */
module WeatherConditions {
  import opened Nullable
  import opened Text

  datatype WeatherCondition = WeatherCondition(
    id: int,
    main: Option<string>,
    description: Option<string>,
    /** An icon code such as "01d" or "10n"; the last letter is day or night. */
    icon: Option<string>)

  /** `new WeatherCondition()`: id 0 and every text `null`. */
  const EmptyCondition: WeatherCondition := WeatherCondition(0, None, None, None)

  /** `isDaytime()`: an icon is present and ends in 'd'. */
  predicate IsDaytime(c: WeatherCondition) {
    c.icon.Some? && EndsWith(c.icon.value, "d")
  }

  /** `hasPrecipitation()`: thunderstorm up to snow, ids 200 to 699. */
  predicate HasPrecipitation(c: WeatherCondition) {
    200 <= c.id < 700
  }

  /** `isClear()`. */
  predicate IsClear(c: WeatherCondition) {
    c.id == 800
  }

  /** `isCloudy()`: the 80x group, ids 801 to 899. */
  predicate IsCloudy(c: WeatherCondition) {
    800 < c.id < 900
  }

  /** `isThunderstorm()`: the 2xx group. */
  predicate IsThunderstorm(c: WeatherCondition) {
    200 <= c.id < 300
  }

  /** `isRaining()`: ids 300 to 599, the unused 4xx group included. */
  predicate IsRaining(c: WeatherCondition) {
    300 <= c.id < 600
  }

  const Thunder: string := "⛈"
  const Drizzle: string := "🌦"
  const Rain: string := "🌧"
  const Snow: string := "❄"
  const Fog: string := "🌫"
  const Sun: string := "☀"
  const Moon: string := "🌙"
  const Cloud: string := "☁"
  const SunBehindCloud: string := "🌤"

  /**
   * `getWeatherEmoji()`: the emoji of the id's group, the sun or the moon for
   * a clear sky by the icon's day/night letter, and the sun behind a cloud
   * for every id outside the groups (below 200 and the 4xx gap).
   */
  function WeatherEmoji(c: WeatherCondition): (e: string)
    ensures e == Thunder <==> 200 <= c.id < 300
    ensures e == Drizzle <==> 300 <= c.id < 400
    ensures e == Rain <==> 500 <= c.id < 600
    ensures e == Snow <==> 600 <= c.id < 700
    ensures e == Fog <==> 700 <= c.id < 800
    ensures e == Sun <==> c.id == 800 && IsDaytime(c)
    ensures e == Moon <==> c.id == 800 && !IsDaytime(c)
    ensures e == Cloud <==> c.id > 800
    ensures e == SunBehindCloud <==> c.id < 200 || 400 <= c.id < 500
  {
    if 200 <= c.id < 300 then Thunder
    else if 300 <= c.id < 400 then Drizzle
    else if 500 <= c.id < 600 then Rain
    else if 600 <= c.id < 700 then Snow
    else if 700 <= c.id < 800 then Fog
    else if c.id == 800 then (if IsDaytime(c) then Sun else Moon)
    else if c.id > 800 then Cloud
    else SunBehindCloud
  }

  /**
   * How the predicates relate to each other and to the emoji: thunderstorms
   * and rain are precipitation, clear and cloudy exclude each other, clear
   * is exactly the sun or the moon; but an id in the 4xx gap counts as
   * raining while drawn with the default emoji, and an id of 900 or more
   * is drawn as a cloud without counting as cloudy.
   */
  lemma PredicatesAndEmoji(c: WeatherCondition)
    ensures IsThunderstorm(c) ==> HasPrecipitation(c)
    ensures IsRaining(c) ==> HasPrecipitation(c)
    ensures !(IsClear(c) && IsCloudy(c))
    ensures IsThunderstorm(c) <==> WeatherEmoji(c) == Thunder
    ensures IsClear(c) <==> WeatherEmoji(c) == Sun || WeatherEmoji(c) == Moon
    ensures IsCloudy(c) ==> WeatherEmoji(c) == Cloud
    ensures HasPrecipitation(c) && !IsRaining(c) && !IsThunderstorm(c) <==> WeatherEmoji(c) == Snow
    ensures IsRaining(c) && WeatherEmoji(c) == SunBehindCloud <==> 400 <= c.id < 500
    ensures WeatherEmoji(c) == Cloud && !IsCloudy(c) <==> c.id >= 900
  {
  }

  const IconUrlPrefix: string := "https://openweathermap.org/img/wn/"
  const IconUrlSuffix: string := "@2x.png"

  /** `getIconUrl()`: `null` without a non-empty icon code. */
  function IconUrl(c: WeatherCondition): (url: Option<string>)
    ensures url.None? <==> c.icon.None? || |c.icon.value| == 0
    ensures url.Some? ==> StartsWith(url.value, IconUrlPrefix) && EndsWith(url.value, IconUrlSuffix)
  {
    if c.icon.Some? && |c.icon.value| > 0 then Some(IconUrlPrefix + c.icon.value + IconUrlSuffix)
    else None
  }

  /**
   * The icon code can be read back from the URL between the fixed prefix and
   * suffix, so distinct icon codes give distinct URLs.
   */
  lemma IconUrlDeterminesIcon(c: WeatherCondition, d: WeatherCondition)
    requires IconUrl(c).Some?
    ensures var u := IconUrl(c).value;
      u[|IconUrlPrefix|..|u| - |IconUrlSuffix|] == c.icon.value
    ensures IconUrl(c) == IconUrl(d) ==> c.icon == d.icon
  {
    var u := IconUrl(c).value;
    assert u[|IconUrlPrefix|..|u| - |IconUrlSuffix|] == c.icon.value;
    if IconUrl(c) == IconUrl(d) {
      var v := IconUrl(d).value;
      assert v[|IconUrlPrefix|..|v| - |IconUrlSuffix|] == d.icon.value;
    }
  }

  /**
   * `getDescriptionCapitalized()`: "" without a non-empty description;
   * otherwise the first character upper-cased and the rest unchanged.
   */
  function DescriptionCapitalized(c: WeatherCondition): (s: string)
    ensures c.description.None? || |c.description.value| == 0 ==> s == ""
    ensures c.description.Some? && |c.description.value| > 0 ==>
      var d := c.description.value;
      && |s| >= |d|
      && s[|s| - (|d| - 1)..] == d[1..]
      && (|s| == |d| || d[0] == 'ß')
      && ('a' <= d[0] <= 'z' ==> s[0] == (d[0] as int - 32) as char)
      && (!('a' <= d[0] <= 'z') && d[0] < 'ª' ==> s == d)
  {
    if c.description.Some? && |c.description.value| > 0 then
      var d := c.description.value;
      UpperCase(d[0]) + d[1..]
    else ""
  }

  /** Capitalising a capitalised description changes nothing. */
  lemma CapitalizeIdempotent(c: WeatherCondition)
    ensures var once := c.(description := Some(DescriptionCapitalized(c)));
      DescriptionCapitalized(once) == DescriptionCapitalized(c)
  {
    var s := DescriptionCapitalized(c);
    if |s| > 0 {
      var d := c.description.value;
      var u := UpperCase(d[0]);
      assert s == u + d[1..];
      assert UpperCase(s[0]) == [s[0]];
      assert [s[0]] + s[1..] == s;
    }
  }
}
