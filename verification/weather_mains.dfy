/**
 * `WeatherMain`: the temperature, pressure and humidity block of a weather
 * report, with its comfort flags and display texts.
 */
module WeatherMains {
  import opened Nullable
  import opened Numbers
  import opened Text

  datatype WeatherMain = WeatherMain(
    /** Degrees Celsius (the report is requested in metric units). */
    temp: real,
    feelsLike: real,
    tempMin: real,
    tempMax: real,
    /** Hectopascals. */
    pressure: int,
    /** Relative humidity, percent. */
    humidity: int,
    seaLevel: Option<int>,
    grndLevel: Option<int>)

  /** `isHot()`: above 28 °C. */
  predicate IsHot(w: WeatherMain) {
    w.temp > 28.0
  }

  /** `isCold()`: below 15 °C. */
  predicate IsCold(w: WeatherMain) {
    w.temp < 15.0
  }

  /** `isHumid()`: above 70 %. */
  predicate IsHumid(w: WeatherMain) {
    w.humidity > 70
  }

  /** `isDry()`: below 30 %. */
  predicate IsDry(w: WeatherMain) {
    w.humidity < 30
  }

  /**
   * The flags never contradict each other, and the rounded temperature shown
   * to the user is never on the wrong side of the threshold that set them.
   */
  lemma ComfortFlagsConsistent(w: WeatherMain)
    ensures !(IsHot(w) && IsCold(w))
    ensures !(IsHumid(w) && IsDry(w))
    ensures IsHot(w) ==> RoundToInt(w.temp) >= 28
    ensures IsCold(w) ==> RoundToInt(w.temp) <= 15
  {
  }

  const Celsius: string := "°C"

  /**
   * `getTempFormatted()`: the temperature rounded by `Math.round` and
   * followed by "°C"; the number reads back as that rounded value.
   */
  function TempFormatted(w: WeatherMain): (s: string)
    ensures EndsWith(s, Celsius)
    ensures s[..|s| - |Celsius|] == DecimalString(RoundToInt(w.temp))
    ensures ParseLong(s[..|s| - |Celsius|]) == Some(RoundToInt(w.temp))
  {
    var n := RoundToInt(w.temp);
    ParseLongOfDecimalString(n);
    var s := DecimalString(n) + Celsius;
    assert s[..|s| - |Celsius|] == DecimalString(n);
    s
  }

  /**
   * `getTempRange()`: the rounded minimum and maximum with their units,
   * joined by " - ".
   */
  function TempRange(w: WeatherMain): (s: string)
    ensures EndsWith(s, Celsius)
  {
    DecimalString(RoundToInt(w.tempMin)) + "°C - " + DecimalString(RoundToInt(w.tempMax)) + "°C"
  }

  /**
   * The range is the formatted minimum and the formatted maximum, each
   * written exactly as the current temperature would be.
   */
  lemma TempRangeJoinsFormattedBounds(w: WeatherMain)
    ensures TempRange(w) ==
      TempFormatted(w.(temp := w.tempMin)) + " - " + TempFormatted(w.(temp := w.tempMax))
    ensures w.tempMin == w.temp ==> StartsWith(TempRange(w), TempFormatted(w) + " - ")
  {
    var lo := DecimalString(RoundToInt(w.tempMin));
    var hi := DecimalString(RoundToInt(w.tempMax));
    assert TempRange(w) == (lo + Celsius) + " - " + (hi + Celsius);
    if w.tempMin == w.temp {
      var prefix := TempFormatted(w) + " - ";
      assert TempRange(w)[..|prefix|] == prefix;
    }
  }
}
