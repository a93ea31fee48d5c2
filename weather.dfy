/** The Weather Fetcher's request: the URL of one feature of the weather API
    for a normalised location. The fetch itself is not modelled. */
module Weather {
  import opened Wrappers
  import opened Location
  import opened Strings

  /** The fixed part of every request URL, with the API key in its path. */
  const Base: string := "https://api.wunderground.com/api/470787643e4b900e/"
  const Format: string := ".json"

  /** The two features the widget asks for. */
  const Conditions: string := "conditions"
  const Forecast: string := "forecast"

  /** `base + feature + "/q/" + lat + "," + lng + format`, for any fixed
      `base` and `format`. */
  function UrlWith(base: string, format: string, req: WeatherRequest, feature: string): string {
    base + feature + "/q/" + req.lat + "," + req.lng + format
  }

  /** `UrlWith` as the nesting the parser takes apart. */
  lemma UrlWithNested(base: string, format: string, req: WeatherRequest, feature: string)
    ensures UrlWith(base, format, req, feature)
         == base + (feature + ['/'] + ("q/" + (req.lat + [','] + (req.lng + format))))
  {
    assert "/q/" == ['/'] + "q/";
    assert [','] == ",";
  }

  /** The inverse of `UrlWith` for a fixed `base` and `format`. */
  function ParseUrlWith(base: string, format: string, url: string): (r: Option<(string, WeatherRequest)>)
    ensures r.Some? ==> UrlWith(base, format, r.value.1, r.value.0) == url
  {
    match StripPrefix(base, url)
    case None => None
    case Some(rest) =>
      match SplitAt(rest, '/')
      case None => None
      case Some((feature, query)) =>
        match StripPrefix("q/", query)
        case None => None
        case Some(place) =>
          match SplitAt(place, ',')
          case None => None
          case Some((lat, tail)) =>
            match StripSuffix(tail, format)
            case None => None
            case Some(lng) =>
              UrlWithNested(base, format, WeatherRequest(lat, lng), feature);
              Some((feature, WeatherRequest(lat, lng)))
  }

  lemma UrlWithRoundTrip(base: string, format: string, req: WeatherRequest, feature: string)
    requires '/' !in feature && ',' !in req.lat
    ensures ParseUrlWith(base, format, UrlWith(base, format, req, feature)) == Some((feature, req))
  {
    var tail := req.lng + format;
    var place := req.lat + [','] + tail;
    var query := "q/" + place;
    var rest := feature + ['/'] + query;
    UrlWithNested(base, format, req, feature);
    StripPrefixOf(base, rest);
    SplitAtFirst(feature, '/', query);
    StripPrefixOf("q/", place);
    SplitAtFirst(req.lat, ',', tail);
    StripSuffixOf(req.lng, format);
  }

  /** `getWeatherViaPromise(obj)(feature)`'s URL: base, feature, `/q/`,
      latitude, `,`, longitude and `.json`, concatenated. */
  function WeatherUrl(req: WeatherRequest, feature: string): string {
    UrlWith(Base, Format, req, feature)
  }

  /** Reads a request URL of the weather API back into its feature and
      request record. */
  function ParseWeatherUrl(url: string): (r: Option<(string, WeatherRequest)>)
    ensures r.Some? ==> WeatherUrl(r.value.1, r.value.0) == url
  {
    ParseUrlWith(Base, Format, url)
  }

  /** The URL names its feature and location unambiguously: parsing it back
      gives the feature and the request, for features without `/` and
      latitudes without `,`. */
  lemma WeatherUrlRoundTrip(req: WeatherRequest, feature: string)
    requires '/' !in feature && ',' !in req.lat
    ensures ParseWeatherUrl(WeatherUrl(req, feature)) == Some((feature, req))
  {
    UrlWithRoundTrip(Base, Format, req, feature);
  }

  /** The conditions and forecast requests for one location differ only in
      the feature, so the two responses cannot be mixed up. */
  lemma FeatureUrlsDiffer(req: WeatherRequest)
    ensures WeatherUrl(req, Conditions) != WeatherUrl(req, Forecast)
  {
    assert |WeatherUrl(req, Conditions)| != |WeatherUrl(req, Forecast)|;
  }
}
