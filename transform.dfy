/**
 * The display transformer of the weather widget: the values the view derives
 * from the weather payload on every render (src/App/App.js, lines 36 and 74-79).
 */
module Transform {
  import opened Wrappers

  /** Kelvin at 0 degrees Celsius. */
  const KelvinOffset: real := 273.15

  /** Sentinel shown for any value missing from the payload. */
  const NotAvailable: string := "N/A"

  const IconUrlPrefix: string := "https://openweathermap.org/img/wn/"
  const IconUrlSuffix: string := "@2x.png"

  /** The `main` block of the payload; temperatures are in Kelvin. */
  datatype MainReadings = MainReadings(temp: real, tempMin: real, tempMax: real)

  /** One entry of the payload's `weather` list. */
  datatype Condition = Condition(description: string, icon: string)

  /**
   * The weather payload as the view reads it. Each field may be absent: the
   * component starts from the empty object `{}` and stores whatever the API
   * answered.
   */
  datatype Payload = Payload(
    name: Option<string>,
    main: Option<MainReadings>,
    weather: Option<seq<Condition>>)

  /** The initial `data` state, `{}`. */
  const EmptyPayload: Payload := Payload(None, None, None)

  /** A temperature as displayed: whole degrees Celsius, or the "N/A" sentinel. */
  datatype Temp = Num(celsius: int) | NA

  /** Which of the three readings of `main` a temperature comes from. */
  datatype Reading = Current | Minimum | Maximum

  /** Everything the view derives from a payload. */
  datatype DisplayValues = DisplayValues(
    temperature: Temp,
    minTemperature: Temp,
    maxTemperature: Temp,
    description: string,
    iconUrl: Option<string>)

  /** `n` is the integer nearest to `x`, halves rounding upwards. */
  ghost predicate IsRoundedHalfUp(n: int, x: real)
  {
    n as real - 0.5 <= x < n as real + 0.5
  }

  /** JavaScript's `Math.round`, on exact reals: the floor of `x + 0.5`. */
  function JsRound(x: real): (n: int)
    ensures IsRoundedHalfUp(n, x)
  {
    (x + 0.5).Floor
  }

  /** Only one integer is the rounding of `x`. */
  lemma RoundingUnique(m: int, n: int, x: real)
    requires IsRoundedHalfUp(m, x) && IsRoundedHalfUp(n, x)
    ensures m == n
  {
  }

  /** `toCelsius`: Kelvin to whole degrees Celsius. */
  function ToCelsius(kelvin: real): (c: int)
    ensures IsRoundedHalfUp(c, kelvin - KelvinOffset)
  {
    JsRound(kelvin - KelvinOffset)
  }

  /** Rounding never reverses the order of two temperatures. */
  lemma ToCelsiusMonotone(k1: real, k2: real)
    requires k1 <= k2
    ensures ToCelsius(k1) <= ToCelsius(k2)
  {
  }

  /** A shift of whole Kelvin degrees shifts the Celsius value by as much. */
  lemma ToCelsiusShift(k: real, d: int)
    ensures ToCelsius(k + d as real) == ToCelsius(k) + d
  {
    RoundingUnique(ToCelsius(k + d as real), ToCelsius(k) + d, k + d as real - KelvinOffset);
  }

  /** Sample readings. */
  lemma ToCelsiusSamples()
    ensures ToCelsius(300.0) == 27
    ensures ToCelsius(295.0) == 22
    ensures ToCelsius(305.0) == 32
    ensures ToCelsius(273.15) == 0
    ensures ToCelsius(0.0) == -273
  {
    RoundingUnique(ToCelsius(300.0), 27, 300.0 - KelvinOffset);
    RoundingUnique(ToCelsius(295.0), 22, 295.0 - KelvinOffset);
    RoundingUnique(ToCelsius(305.0), 32, 305.0 - KelvinOffset);
    RoundingUnique(ToCelsius(273.15), 0, 0.0);
    RoundingUnique(ToCelsius(0.0), -273, -KelvinOffset);
  }

  function Kelvin(m: MainReadings, r: Reading): real
  {
    match r
    case Current => m.temp
    case Minimum => m.tempMin
    case Maximum => m.tempMax
  }

  /** `temperatureInCelsius`, `minTemperature`, `maxTemperature`. */
  function TemperatureShown(p: Payload, r: Reading): (t: Temp)
    ensures t.NA? <==> p.main.None?
    ensures t.Num? ==> IsRoundedHalfUp(t.celsius, Kelvin(p.main.value, r) - KelvinOffset)
  {
    match p.main
    case None => NA
    case Some(m) => Num(ToCelsius(Kelvin(m, r)))
  }

  /** The payload carries a non-empty `weather` list. */
  predicate HasCondition(p: Payload)
  {
    p.weather.Some? && |p.weather.value| > 0
  }

  /** `weatherDescription`. */
  function Description(p: Payload): (d: string)
    ensures HasCondition(p) ==> d == p.weather.value[0].description
    ensures d != NotAvailable ==> HasCondition(p) && d == p.weather.value[0].description
    ensures !HasCondition(p) ==> d == NotAvailable
  {
    if HasCondition(p) then p.weather.value[0].description else NotAvailable
  }

  /** The icon address for an icon code. */
  function IconUrlFor(icon: string): (url: string)
    ensures |url| == |IconUrlPrefix| + |icon| + |IconUrlSuffix|
    ensures url[..|IconUrlPrefix|] == IconUrlPrefix
    ensures url[|url| - |IconUrlSuffix|..] == IconUrlSuffix
    ensures url[|IconUrlPrefix|..|url| - |IconUrlSuffix|] == icon
  {
    IconUrlPrefix + icon + IconUrlSuffix
  }

  /** Reads the icon code back out of an icon address; `None` if `url` is not one. */
  function IconOfUrl(url: string): (icon: Option<string>)
    ensures icon.Some? ==> IconUrlFor(icon.value) == url
  {
    if |url| >= |IconUrlPrefix| + |IconUrlSuffix|
       && url[..|IconUrlPrefix|] == IconUrlPrefix
       && url[|url| - |IconUrlSuffix|..] == IconUrlSuffix
    then
      var icon := url[|IconUrlPrefix|..|url| - |IconUrlSuffix|];
      assert url == url[..|IconUrlPrefix|] + icon + url[|url| - |IconUrlSuffix|..];
      Some(icon)
    else None
  }

  /** The icon address determines the icon code. */
  lemma IconUrlRoundTrip(icon: string)
    ensures IconOfUrl(IconUrlFor(icon)) == Some(icon)
  {
    var url := IconUrlFor(icon);
    assert url[|IconUrlPrefix|..|url| - |IconUrlSuffix|] == icon;
  }

  /** `weatherIcon`: the icon address, or null. */
  function IconUrl(p: Payload): (url: Option<string>)
    ensures url.Some? <==> HasCondition(p)
    ensures url.Some? ==> IconOfUrl(url.value) == Some(p.weather.value[0].icon)
  {
    if HasCondition(p) then
      IconUrlRoundTrip(p.weather.value[0].icon);
      Some(IconUrlFor(p.weather.value[0].icon))
    else None
  }

  /** All values the view derives from `p` (src/App/App.js:74-79). */
  function Derive(p: Payload): (d: DisplayValues)
    ensures d.temperature.NA? <==> p.main.None?
    ensures d.minTemperature.NA? <==> p.main.None?
    ensures d.maxTemperature.NA? <==> p.main.None?
    ensures d.iconUrl.Some? <==> HasCondition(p)
    ensures d.iconUrl.None? ==> d.description == NotAvailable
  {
    DisplayValues(
      TemperatureShown(p, Current),
      TemperatureShown(p, Minimum),
      TemperatureShown(p, Maximum),
      Description(p),
      IconUrl(p))
  }

  /** The three temperatures are all numbers or all "N/A": they hang on the one `main` test. */
  lemma TemperaturesInLockstep(p: Payload)
    ensures var d := Derive(p);
      (d.temperature.NA? && d.minTemperature.NA? && d.maxTemperature.NA?) ||
      (d.temperature.Num? && d.minTemperature.Num? && d.maxTemperature.Num?)
  {
  }

  /**
   * Without `main` all three temperatures are "N/A"; with it, each is
   * `toCelsius` of its own reading.
   */
  lemma TemperaturesFromMain(p: Payload)
    ensures var d := Derive(p);
      (p.main.None? ==> d.temperature == NA && d.minTemperature == NA && d.maxTemperature == NA) &&
      (p.main.Some? ==>
        d.temperature == Num(ToCelsius(p.main.value.temp)) &&
        d.minTemperature == Num(ToCelsius(p.main.value.tempMin)) &&
        d.maxTemperature == Num(ToCelsius(p.main.value.tempMax)))
  {
  }

  /** Readings ordered min <= current <= max stay ordered after conversion. */
  lemma DisplayedRangeOrdered(p: Payload)
    requires p.main.Some?
    requires p.main.value.tempMin <= p.main.value.temp <= p.main.value.tempMax
    ensures var d := Derive(p);
      d.minTemperature.celsius <= d.temperature.celsius <= d.maxTemperature.celsius
  {
    var m := p.main.value;
    ToCelsiusMonotone(m.tempMin, m.temp);
    ToCelsiusMonotone(m.temp, m.tempMax);
  }

  /**
   * With a non-empty `weather` list the view shows the first entry's
   * description and its icon; otherwise the sentinel and no icon. So a real
   * description is shown exactly when an icon is.
   */
  lemma DescriptionAndIconAgree(p: Payload)
    ensures var d := Derive(p);
      (HasCondition(p) ==>
        d.description == p.weather.value[0].description &&
        d.iconUrl == Some(IconUrlPrefix + p.weather.value[0].icon + IconUrlSuffix)) &&
      (!HasCondition(p) ==> d.description == NotAvailable && d.iconUrl == None)
  {
  }

  /** Sample payload: Riyadh, 300/295/305 K, clear sky. */
  lemma RiyadhSample()
    ensures var p := Payload(
        Some("Riyadh"),
        Some(MainReadings(300.0, 295.0, 305.0)),
        Some([Condition("clear sky", "01d")]));
      Derive(p) == DisplayValues(Num(27), Num(22), Num(32), "clear sky",
        Some("https://openweathermap.org/img/wn/01d@2x.png"))
  {
    ToCelsiusSamples();
    assert IconUrlFor("01d") == "https://openweathermap.org/img/wn/01d@2x.png";
  }
}
