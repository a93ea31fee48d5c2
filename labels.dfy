/** The text shown in the widget: fixed concatenations of the observation
    and forecast fields, which stay opaque strings here. */
module Labels {
  import opened Wrappers
  import opened Strings

  /** The degree sign followed by `F`. */
  const DegreesF: string := "\U{B0}F"

  // Current conditions.

  function TemperatureLabel(tempF: string): string { tempF + DegreesF }

  function FeelsLikeLabel(feelslikeF: string): string { "feels like: " + feelslikeF + DegreesF }

  function UvLabel(uv: string): string { "UV: " + uv }

  function WindLabel(windMph: string, windDir: string): string { "Wind: " + windMph + " " + windDir }

  /** The trend sign in front of the pressure: none when the trend is `'0'`. */
  function PressureSign(trend: string): string { if trend == "0" then "" else trend }

  function PressureLabel(trend: string, pressureIn: string): string {
    "Pressure: " + PressureSign(trend) + pressureIn + " in."
  }

  // Forecast days.

  function DateLabel(monthnameShort: string, day: string): string { monthnameShort + " " + day }

  function HighLabel(fahrenheit: string): string { "Hi: " + fahrenheit + DegreesF }

  function LowLabel(fahrenheit: string): string { "Lo: " + fahrenheit + DegreesF }

  const WindHeading: string := "Wind: "

  function AverageWindLabel(mph: string): string { mph + " mph" }

  const HumidityHeading: string := "Avg Humidity: "

  function HumidityLabel(avehumidity: string): string { avehumidity + "%" }

  const PrecipHeading: string := "Precip: "

  function PrecipLabel(inches: string): string { inches + " in." }

  /** The pressure line carries no sign exactly when the trend is `'0'` or
      empty: any other trend is written in front of the pressure. */
  lemma PressureLabelUnsigned(trend: string, pressureIn: string)
    ensures PressureLabel(trend, pressureIn) == "Pressure: " + pressureIn + " in."
        <==> trend == "0" || trend == ""
  {
    if PressureLabel(trend, pressureIn) == "Pressure: " + pressureIn + " in." && trend != "0" {
      assert |PressureLabel(trend, pressureIn)| == 10 + |trend| + |pressureIn| + 4;
    }
    if trend == "" {
      assert "Pressure: " + "" == "Pressure: ";
    }
  }

  /** A trend other than `'0'` is shown verbatim right after `Pressure: `. */
  lemma PressureLabelShowsTrend(trend: string, pressureIn: string)
    requires trend != "0"
    ensures PressureLabel(trend, pressureIn)[10..10 + |trend|] == trend
  {
    assert PressureLabel(trend, pressureIn) == "Pressure: " + trend + (pressureIn + " in.");
  }

  /** Each single-field line of the current conditions gives back the
      field it was built from. */
  lemma CurrentLabelsDetermineFields(a: string, b: string)
    ensures TemperatureLabel(a) == TemperatureLabel(b) ==> a == b
    ensures FeelsLikeLabel(a) == FeelsLikeLabel(b) ==> a == b
    ensures UvLabel(a) == UvLabel(b) ==> a == b
  {
    assert "" + a == a && "" + b == b;
    if TemperatureLabel(a) == TemperatureLabel(b) { AffixCancel("", a, b, DegreesF); }
    if FeelsLikeLabel(a) == FeelsLikeLabel(b) { AffixCancel("feels like: ", a, b, DegreesF); }
    if UvLabel(a) == UvLabel(b) { AffixCancel("UV: ", a, b, ""); }
  }

  /** Each single-field line of a forecast day gives back the field it was
      built from. */
  lemma ForecastLabelsDetermineFields(a: string, b: string)
    ensures HighLabel(a) == HighLabel(b) ==> a == b
    ensures LowLabel(a) == LowLabel(b) ==> a == b
    ensures AverageWindLabel(a) == AverageWindLabel(b) ==> a == b
    ensures HumidityLabel(a) == HumidityLabel(b) ==> a == b
    ensures PrecipLabel(a) == PrecipLabel(b) ==> a == b
  {
    assert "" + a == a && "" + b == b;
    if HighLabel(a) == HighLabel(b) { AffixCancel("Hi: ", a, b, DegreesF); }
    if LowLabel(a) == LowLabel(b) { AffixCancel("Lo: ", a, b, DegreesF); }
    if AverageWindLabel(a) == AverageWindLabel(b) { AffixCancel("", a, b, " mph"); }
    if HumidityLabel(a) == HumidityLabel(b) { AffixCancel("", a, b, "%"); }
    if PrecipLabel(a) == PrecipLabel(b) { AffixCancel("", a, b, " in."); }
  }

  /** Reads a wind line back into speed and direction. */
  function ParseWindLabel(line: string): (r: Option<(string, string)>)
    ensures r.Some? ==> WindLabel(r.value.0, r.value.1) == line
  {
    match StripPrefix("Wind: ", line)
    case None => None
    case Some(rest) =>
      match SplitAt(rest, ' ')
      case None => None
      case Some((mph, dir)) => Some((mph, dir))
  }

  /** The wind line names speed and direction unambiguously when the speed
      holds no space. */
  lemma WindLabelRoundTrip(windMph: string, windDir: string)
    requires ' ' !in windMph
    ensures ParseWindLabel(WindLabel(windMph, windDir)) == Some((windMph, windDir))
  {
    assert WindLabel(windMph, windDir) == "Wind: " + (windMph + [' '] + windDir);
    StripPrefixOf("Wind: ", windMph + [' '] + windDir);
    SplitAtFirst(windMph, ' ', windDir);
  }

  /** Reads a forecast date line back into month and day. */
  function ParseDateLabel(line: string): (r: Option<(string, string)>)
    ensures r.Some? ==> DateLabel(r.value.0, r.value.1) == line
  {
    SplitAt(line, ' ')
  }

  /** The date line names month and day unambiguously when the short month
      name holds no space. */
  lemma DateLabelRoundTrip(monthnameShort: string, day: string)
    requires ' ' !in monthnameShort
    ensures ParseDateLabel(DateLabel(monthnameShort, day)) == Some((monthnameShort, day))
  {
    SplitAtFirst(monthnameShort, ' ', day);
  }
}
