/**
 * `WeatherResponse`: a whole current-weather report and the accessors the
 * home screen reads, each with its fallback for missing parts.
 */
module WeatherResponses {
  import opened Nullable
  import opened Numbers
  import opened Text
  import opened WeatherConditions
  import opened WeatherMains

  datatype Wind = Wind(speed: real, deg: int)

  datatype Clouds = Clouds(all: int)

  datatype Sys = Sys(country: Option<string>, sunrise: Long, sunset: Long)

  /**
   * A report. The condition list, and each of its elements, may be `null`
   * when the JSON leaves them out.
   */
  datatype WeatherResponse = WeatherResponse(
    main: Option<WeatherMain>,
    weather: Option<seq<Option<WeatherCondition>>>,
    cityName: Option<string>,
    /** The HTTP-like status code inside the body; 200 means success. */
    cod: int,
    dt: Long,
    timezone: int,
    wind: Option<Wind>,
    clouds: Option<Clouds>,
    sys: Option<Sys>)

  /** `new WeatherResponse()`: every reference `null`, every number 0. */
  const EmptyResponse: WeatherResponse :=
    WeatherResponse(None, None, None, 0, 0, 0, None, None, None)

  /** `isSuccessful()`. */
  predicate IsSuccessful(w: WeatherResponse) {
    w.cod == 200
  }

  /**
   * `getFirstWeatherCondition()`: element 0 of a non-empty list, which is
   * itself `null` when the list holds a `null` there.
   */
  function FirstWeatherCondition(w: WeatherResponse): (c: Option<WeatherCondition>)
    ensures c.None? <==> w.weather.None? || |w.weather.value| == 0 || w.weather.value[0].None?
    ensures c.Some? ==> |w.weather.value| > 0 && w.weather.value[0] == c
  {
    if w.weather.Some? && |w.weather.value| > 0 then w.weather.value[0] else None
  }

  const NotAvailable: string := "No disponible"

  /**
   * `getWeatherDescription()`: the first condition's description (itself
   * possibly `null`), or "No disponible" when there is no first condition.
   */
  function WeatherDescription(w: WeatherResponse): (d: Option<string>)
    ensures FirstWeatherCondition(w).None? ==> d == Some(NotAvailable)
    ensures FirstWeatherCondition(w).Some? ==> d == FirstWeatherCondition(w).value.description
  {
    var c := FirstWeatherCondition(w);
    if c.Some? then c.value.description else Some(NotAvailable)
  }

  /**
   * `getWeatherIcon()`: the first condition's icon code (itself possibly
   * `null`), or "" when there is no first condition.
   */
  function WeatherIcon(w: WeatherResponse): (i: Option<string>)
    ensures FirstWeatherCondition(w).None? ==> i == Some("")
    ensures FirstWeatherCondition(w).Some? ==> i == FirstWeatherCondition(w).value.icon
  {
    var c := FirstWeatherCondition(w);
    if c.Some? then c.value.icon else Some("")
  }

  /**
   * The fallbacks cannot be told apart from real values: the description is
   * "No disponible" exactly when there is no first condition or that
   * condition's description says so, and the icon is "" exactly when there is
   * no first condition or its icon code is empty, in which case no icon URL
   * can be built either.
   */
  lemma FallbacksAreAmbiguous(w: WeatherResponse)
    ensures WeatherDescription(w) == Some(NotAvailable) <==>
      FirstWeatherCondition(w).None? || FirstWeatherCondition(w).value.description == Some(NotAvailable)
    ensures WeatherIcon(w) == Some("") <==>
      FirstWeatherCondition(w).None? || FirstWeatherCondition(w).value.icon == Some("")
    ensures WeatherIcon(w) == Some("") && FirstWeatherCondition(w).Some? ==>
      IconUrl(FirstWeatherCondition(w).value).None?
  {
  }

  /**
   * `getTemperatureFormatted()`: the main block's rounded temperature with
   * "°C", or "N/A" when there is no main block.
   */
  function TemperatureFormatted(w: WeatherResponse): (s: string)
    ensures w.main.None? ==> s == "N/A"
    ensures w.main.Some? ==> EndsWith(s, Celsius) && ParseLong(s[..|s| - |Celsius|]) == Some(RoundToInt(w.main.value.temp))
    ensures w.main.Some? ==> s == DecimalString(RoundToInt(w.main.value.temp)) + Celsius
  {
    if w.main.Some? then TempFormatted(w.main.value) else "N/A"
  }

  /** "N/A" appears exactly when the main block is missing: no temperature is written that way. */
  lemma TemperatureFallbackIsDistinct(w: WeatherResponse)
    ensures TemperatureFormatted(w) == "N/A" <==> w.main.None?
  {
  }
}
