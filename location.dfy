/** The Location Resolver: pulling the JSON payload out of the JSONP text
    returned by the fallback IP-geolocation endpoint, and normalising the two
    shapes of location response into one `{lat, lng}` request record. */
module Location {
  import opened Wrappers

  /** `i` and `j` delimit a match of the regular expression `/\(([^)]+)\)/`:
      an opening parenthesis at `i`, a non-empty run of characters other than
      `)`, and the closing parenthesis at `j`. Group 1 is `s[i + 1..j]`. */
  ghost predicate IsMatch(s: string, i: int, j: int) {
    0 <= i && i + 1 < j < |s| && s[i] == '(' && s[j] == ')' && ')' !in s[i + 1..j]
  }

  /** The position of the first `)` in `s` at or after `from`. */
  function NextClose(s: string, from: nat): (r: Option<nat>)
    requires from <= |s|
    ensures r.Some? ==> from <= r.value < |s| && s[r.value] == ')' && ')' !in s[from..r.value]
    ensures r.None? ==> ')' !in s[from..]
    decreases |s| - from
  {
    if from == |s| then None
    else if s[from] == ')' then Some(from)
    else
      var r := NextClose(s, from + 1);
      assert r.Some? ==> s[from..r.value] == [s[from]] + s[from + 1..r.value];
      assert s[from..] == [s[from]] + s[from + 1..];
      r
  }

  /** The leftmost match of the regular expression that starts at or after
      `i`, as the pair (position of `(`, position of `)`). A regular
      expression engine tries each start position in turn; at a `(` the greedy
      run `[^)]+` stops at the next `)`, so a start position matches exactly
      when that `)` exists and is not the very next character. */
  function Scan(s: string, i: nat): (r: Option<(nat, nat)>)
    requires i <= |s|
    ensures r.Some? ==> i <= r.value.0 && IsMatch(s, r.value.0, r.value.1)
    ensures r.Some? ==> forall k, j :: i <= k < r.value.0 ==> !IsMatch(s, k, j)
    ensures r.None? ==> forall k, j :: i <= k ==> !IsMatch(s, k, j)
    decreases |s| - i
  {
    if i == |s| then None
    else if s[i] == '(' && NextClose(s, i + 1).Some? && NextClose(s, i + 1).value > i + 1 then
      Some((i, NextClose(s, i + 1).value))
    else
      NoMatchAt(s, i);
      Scan(s, i + 1)
  }

  /** When the scan rejects start position `i`, no match starts there. */
  lemma NoMatchAt(s: string, i: nat)
    requires i < |s|
    requires !(s[i] == '(' && NextClose(s, i + 1).Some? && NextClose(s, i + 1).value > i + 1)
    ensures forall j :: !IsMatch(s, i, j)
  {
    forall j | IsMatch(s, i, j) ensures false {
    }
  }

  /** `data.match(/\(([^)]+)\)/)` followed by `[1]`: group 1 of the leftmost
      match, or None where the source gets `null` back. */
  function MatchGroup(s: string): (r: Option<string>)
    ensures r.Some? <==> exists i, j :: IsMatch(s, i, j)
    ensures r.Some? ==> |r.value| > 0 && ')' !in r.value
    ensures r.Some? ==> exists i, j ::
      IsMatch(s, i, j) && r.value == s[i + 1..j] && forall k, j' :: 0 <= k < i ==> !IsMatch(s, k, j')
  {
    match Scan(s, 0)
    case None => None
    case Some((i, j)) => Some(s[i + 1..j])
  }

  /** The payload of a JSONP response `name(body)` followed by anything:
      when `name` holds no `(` and `body` is non-empty and holds no `)`, the
      extracted text is exactly `body`. */
  lemma MatchGroupJsonp(name: string, body: string, rest: string)
    requires '(' !in name
    requires |body| > 0 && ')' !in body
    ensures MatchGroup(name + "(" + body + ")" + rest) == Some(body)
  {
    var s := name + "(" + body + ")" + rest;
    var n := |name|;
    var j := n + 1 + |body|;
    assert s[n + 1..j] == body;
    assert IsMatch(s, n, j);
    forall k, j' | 0 <= k < n ensures !IsMatch(s, k, j') {
      assert s[k] == name[k];
    }
    var r := Scan(s, 0);
    assert r.Some? && r.value.0 == n;
  }

  /** The example payload of the fallback endpoint: the callback wrapper is
      stripped and the JSON object text is returned unchanged. */
  lemma MatchGroupExample(text: string, name: string, body: string)
    requires name == "fetchCallback" && body == "{\"latitude\":10,\"longitude\":20}"
    requires text == name + "(" + body + ")"
    ensures MatchGroup(text) == Some(body)
  {
    assert '(' !in name;
    assert ')' !in body;
    MatchGroupJsonp(name, body, "");
    assert text == name + "(" + body + ")" + "";
  }

  /** A response text `name(body)tail)` whose intended payload would be
      `body)tail` is cut at the first `)`: only `body` reaches the JSON
      parser, whatever `tail` holds. */
  lemma MatchGroupStopsAtClose(name: string, body: string, tail: string)
    requires '(' !in name
    requires |body| > 0 && ')' !in body
    ensures MatchGroup(name + "(" + body + ")" + tail + ")") == Some(body)
  {
    MatchGroupJsonp(name, body, tail + ")");
    assert name + "(" + body + ")" + (tail + ")") == name + "(" + body + ")" + tail + ")";
  }

  /** What `fetch` hands to the first `.then`: the `ok` flag and the body text. */
  datatype FetchResponse = FetchResponse(ok: bool, body: string)

  /** Why the fallback never resolves a location. Each is a TypeError thrown
      inside the fetch chain: `undefined.match` when the response was not ok,
      `null[1]` when the pattern does not match, or a JSON parse error. */
  datatype LocationError = ResponseNotOk | NoPayload | InvalidJson

  /** The nested coordinates of a geolocation position. */
  datatype Coords = Coords(latitude: string, longitude: string)

  /** What the location promise resolves with: a geolocation position carries
      a nested `coords`; the parsed fallback object carries flat fields. Field
      values are the text the browser would concatenate. */
  datatype LocationResponse = LocationResponse(coords: Option<Coords>, latitude: string, longitude: string)

  /** The fallback path after the fetch: the text exists only when the
      response was ok, the payload is group 1 of the pattern, and `parse`
      stands for `JSON.parse`. */
  function FallbackLocation(res: FetchResponse, parse: string -> Option<LocationResponse>)
    : (r: Result<LocationResponse, LocationError>)
    ensures r == Failure(ResponseNotOk) <==> !res.ok
    ensures r == Failure(NoPayload) <==> res.ok && forall i, j :: !IsMatch(res.body, i, j)
    ensures r.Success? ==> exists p :: p == MatchGroup(res.body) && p.Some? && parse(p.value) == Some(r.value)
    ensures res.ok && MatchGroup(res.body).Some? && parse(MatchGroup(res.body).value).Some?
      ==> r == Success(parse(MatchGroup(res.body).value).value)
    ensures r == Failure(InvalidJson)
      <==> res.ok && MatchGroup(res.body).Some? && parse(MatchGroup(res.body).value).None?
  {
    if !res.ok then Failure(ResponseNotOk)
    else match MatchGroup(res.body)
      case None => Failure(NoPayload)
      case Some(payload) =>
        match parse(payload)
        case None => Failure(InvalidJson)
        case Some(loc) => Success(loc)
  }

  /** The request record `{lat, lng}` built by the first `.then`. */
  datatype WeatherRequest = WeatherRequest(lat: string, lng: string)

  /** Normalisation: nested `coords` when present, flat fields otherwise. */
  function Normalise(res: LocationResponse): WeatherRequest {
    match res.coords
    case Some(c) => WeatherRequest(c.latitude, c.longitude)
    case None => WeatherRequest(res.latitude, res.longitude)
  }

  /** A response with nested `coords` is read only through them: its flat
      fields, whatever they hold, do not reach the request. */
  lemma NormaliseNested(c: Coords, latitude: string, longitude: string)
    ensures Normalise(LocationResponse(Some(c), latitude, longitude)) == WeatherRequest(c.latitude, c.longitude)
  {
  }

  /** A response without `coords` is read through its flat fields. */
  lemma NormaliseFlat(latitude: string, longitude: string)
    ensures Normalise(LocationResponse(None, latitude, longitude)) == WeatherRequest(latitude, longitude)
  {
  }

  /** The two shapes carrying the same coordinates normalise to the same
      request, and the request determines them. */
  lemma NormaliseUniform(res1: LocationResponse, res2: LocationResponse)
    requires res1.coords.Some? && res2.coords.None?
    ensures Normalise(res1) == Normalise(res2)
        <==> res1.coords.value == Coords(res2.latitude, res2.longitude)
  {
  }
}
