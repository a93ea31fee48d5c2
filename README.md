# Weather widget core, modelled in Dafny

This project models the logic inside a small browser weather widget. The
widget finds the user's location, fetches current conditions and a forecast
from a weather API, and renders them as page elements. The ES6 script
(`app/es6/script.js`) and its transpiled ES5 copy (`app/js/script.js`) hold
the same logic, and one model covers both. The browser stays abstract:
geolocation, `fetch`, promises, timers and element creation become
parameters, return values or fresh objects.

- `wrappers.dfy` (`Wrappers`): `Option` and `Result`. They stand for
  JavaScript's `undefined`/`null` results and its thrown errors.
- `strings.dfy` (`Strings`): helpers that strip a prefix or suffix and split a
  string at a character. Each comes with the lemma that it undoes the
  matching concatenation.
- `location.dfy` (`Location`): the Location Resolver.
  - JSONP payload extraction. The regular expression `/\(([^)]+)\)/` is
    written as a declarative match predicate (`IsMatch`) plus a leftmost scan
    (`Scan`). `MatchGroup` returns group 1.
  - The fallback path's error cases.
  - Normalisation of the two location shapes into one `{lat, lng}` record.
- `weather.dfy` (`Weather`): the weather API URL and a parser that reads it
  back.
- `labels.dfy` (`Labels`): the text of every line the widget shows,
  including the pressure line's trend rule.
- `dom.dfy` (`Dom`): the DOM Builder.
  - An `Element` class. Its tag is fixed; its `children: seq<Node>` and its
    `attrs: map<string, string>` are updated in place.
  - The curried helpers `setAttrs`, `append`, `populateAndReturnContainer` and
    `makeTextNodeAndAppendToHeaderTag`, as methods that modify the element
    they are given and return it.
  - `conveyorBelt` as a left fold of unary functions. The transpiled copy's
    `arguments`-copying loop is a method of its own.
  - Pure step functions (`WithAttrs`, `WithChild`) tie the in-place helpers
    to the fold.
- `render.dfy` (`Render`): the Renderer/Scheduler.
  - The current-conditions fragment: eight children in a fixed order.
  - The head/tail split of the forecast list.
  - One `forecastContainer` per remaining day: a divider and then five
    children.
  - The reveal schedule. It is returned as a list of inner delays paired with
    fragments. `Reveal` performs the timers' appends in firing order.

Field values (temperatures, coordinates, wind speeds and so on) are opaque
strings: the text the browser would concatenate.

The fallback's errors (`undefined.match` when the response was not ok,
`null[1]` when the pattern does not match) are thrown inside the inner
`fetch(...).then` chain. So the location promise does not reject; it never
settles. `FallbackLocation` returns `Failure` for these cases, and a
`Failure` means that no location is ever produced. The pressure line also
shows no sign when the trend is the empty string, as well as when it is `'0'`
(`Labels.PressureLabelUnsigned`).

## Model

| member | source | states |
|---|---|---|
| `Location.IsMatch` | app/es6/script.js:22 | the regular expression `/\(([^)]+)\)/` as a predicate: a `(` at `i`, a `)` at `j`, at least one character between them and no `)` among those characters; group 1 is the text between |
| `Location.NextClose` | app/es6/script.js:22-23 | the index returned holds the first `)` at or after the start, with no `)` before it; None means that no `)` follows |
| `Location.Scan` | app/es6/script.js:22-23 | the pair returned is a match of `/\(([^)]+)\)/`, and no match starts further left; None means that no match starts at or after the position |
| `Location.NoMatchAt` | app/js/script.js:21-22 | a start position that the scan rejects begins no match of the pattern |
| `Location.MatchGroup` | app/js/script.js:21-22 | the result is Some exactly when the text contains a match; what it returns is group 1, the text between the parentheses of the leftmost match, which is non-empty and contains no `)` |
| `Location.MatchGroupJsonp` | app/es6/script.js:15-23 | for `name(body)` followed by anything, where `name` has no `(` and `body` is non-empty with no `)`, the extracted payload is exactly `body` |
| `Location.MatchGroupExample` | app/es6/script.js:15-23 | the fallback text `fetchCallback({"latitude":10,"longitude":20})` yields the JSON object text `{"latitude":10,"longitude":20}` |
| `Location.MatchGroupStopsAtClose` | app/es6/script.js:22-23 | a payload followed by a later `)` is cut at the first `)`, so text after it never reaches the JSON parser |
| `Location.FallbackLocation` | app/js/script.js:16-23 | fails with ResponseNotOk exactly when the response is not ok; fails with NoPayload exactly when the response is ok and the pattern matches nowhere; fails with InvalidJson exactly when the group is extracted but does not parse; an ok response whose group parses resolves with that parse, and every success is one |
| `Location.Normalise` | app/es6/script.js:50-63 | the `{lat, lng}` record built from a location response; characterised by `NormaliseNested`, `NormaliseFlat` and `NormaliseUniform` |
| `Location.NormaliseNested` | app/es6/script.js:52-54 | a response with nested `coords` yields `{lat: coords.latitude, lng: coords.longitude}`, whatever its flat fields hold |
| `Location.NormaliseFlat` | app/es6/script.js:55-58 | a response without `coords` yields `{lat: latitude, lng: longitude}` from the flat fields |
| `Location.NormaliseUniform` | app/js/script.js:45-58 | a nested response and a flat one normalise to the same request exactly when they carry the same coordinates |
| `Weather.UrlWith` | app/es6/script.js:41-42 | the URL concatenation for a fixed base and format; `ParseUrlWith` and `UrlWithRoundTrip` read it back |
| `Weather.UrlWithRoundTrip` | app/es6/script.js:41-42 | for any base and format, the URL parses back to its feature and request when the feature has no `/` and the latitude no `,` |
| `Weather.WeatherUrl` | app/es6/script.js:37-42 | the request URL for a feature and a location; characterised by `ParseWeatherUrl`, `WeatherUrlRoundTrip` and `FeatureUrlsDiffer` |
| `Weather.ParseWeatherUrl` | app/es6/script.js:37-42 | every URL that the parser accepts is the URL built from the feature and the request it returns |
| `Weather.WeatherUrlRoundTrip` | app/es6/script.js:37-42 | the URL `base + feature + "/q/" + lat + "," + lng + ".json"` parses back to that feature and that request, for features without `/` and latitudes without `,` |
| `Weather.FeatureUrlsDiffer` | app/es6/script.js:66-69 | the conditions URL and the forecast URL for one location differ, for every location |
| `Labels.TemperatureLabel` | app/es6/script.js:145 | the temperature line, `temp_f` followed by `°F`; `CurrentLabelsDetermineFields` shows it determines the temperature |
| `Labels.FeelsLikeLabel` | app/es6/script.js:147 | the `feels like: ` line; `CurrentLabelsDetermineFields` shows it determines its field |
| `Labels.UvLabel` | app/es6/script.js:148 | the `UV: ` line; `CurrentLabelsDetermineFields` shows it determines its field |
| `Labels.WindLabel` | app/es6/script.js:150 | the `Wind: <mph> <dir>` line; `ParseWindLabel` and `WindLabelRoundTrip` read it back |
| `Labels.PressureSign` | app/es6/script.js:154-156 | the sign shown in front of the pressure: nothing for trend `'0'`, the trend otherwise; characterised by `PressureLabelUnsigned` and `PressureLabelShowsTrend` |
| `Labels.PressureLabel` | app/es6/script.js:154-156 | the `Pressure: ` line; characterised by `PressureLabelUnsigned` and `PressureLabelShowsTrend` |
| `Labels.DateLabel` | app/es6/script.js:197 | the `<month> <day>` line; `ParseDateLabel` and `DateLabelRoundTrip` read it back |
| `Labels.HighLabel` | app/es6/script.js:198 | the `Hi: ` line; `ForecastLabelsDetermineFields` shows it determines its field |
| `Labels.LowLabel` | app/es6/script.js:199 | the `Lo: ` line; `ForecastLabelsDetermineFields` shows it determines its field |
| `Labels.AverageWindLabel` | app/es6/script.js:204 | the average wind line, `<mph> mph`; `ForecastLabelsDetermineFields` shows it determines its field |
| `Labels.HumidityLabel` | app/es6/script.js:209 | the humidity line, `<avehumidity>%`; `ForecastLabelsDetermineFields` shows it determines its field |
| `Labels.PrecipLabel` | app/es6/script.js:214 | the precipitation line, `<in> in.`; `ForecastLabelsDetermineFields` shows it determines its field |
| `Labels.WindHeading` | app/es6/script.js:203 | the forecast wind box's first line, the literal `Wind: ` |
| `Labels.HumidityHeading` | app/es6/script.js:208 | the humidity box's first line, the literal `Avg Humidity: ` |
| `Labels.PrecipHeading` | app/es6/script.js:213 | the precipitation box's first line, the literal `Precip: ` |
| `Labels.PressureLabelUnsigned` | app/es6/script.js:154-156 | the pressure line is `Pressure: ` + pressure + ` in.` with no sign exactly when the trend is `'0'` (or empty) |
| `Labels.PressureLabelShowsTrend` | app/js/script.js:138 | for any trend other than `'0'`, the trend appears verbatim right after `Pressure: ` |
| `Labels.CurrentLabelsDetermineFields` | app/es6/script.js:145-148 | the temperature, feels-like and UV lines each determine the field they show |
| `Labels.ForecastLabelsDetermineFields` | app/es6/script.js:198-214 | the Hi, Lo, average wind, humidity and precipitation lines each determine the field they show |
| `Labels.WindLabelRoundTrip` | app/es6/script.js:150 | `Wind: <mph> <dir>` reads back to the speed and direction when the speed has no space |
| `Labels.DateLabelRoundTrip` | app/es6/script.js:197 | `<month> <day>` reads back to month and day when the month name has no space |
| `Dom.Element.constructor` | app/es6/script.js:122 | a new element has the requested tag, no children and no attributes |
| `Dom.WithAttrs` | app/es6/script.js:105-109 | the effect of `setAttrs(obj)` on an element's state; `Dom.SetAttrs` is proved to have exactly this effect |
| `Dom.WithChild` | app/es6/script.js:118-121 | the effect of `append(child)` on an element's state; `Dom.Append` and `WithChildrenAppends` use it |
| `Dom.ConveyorBelt` | app/es6/script.js:96 | the left fold of `conveyorBelt`; characterised by `ConveyorBeltEmpty`, `ConveyorBeltPair`, `ConveyorBeltConcat` and `ConveyorBeltLast` |
| `Dom.ConveyorBeltEmpty` | app/js/script.js:80-90 | the belt of no functions is the identity |
| `Dom.ConveyorBeltPair` | app/es6/script.js:96 | `conveyorBelt(f, g)(x) == g(f(x))`: functions are applied left to right |
| `Dom.ConveyorBeltConcat` | app/es6/script.js:96 | the belt of `fs + gs` is the belt of `gs` applied to the result of the belt of `fs` |
| `Dom.ConveyorBeltLast` | app/js/script.js:86-88 | the last function is applied last, to the accumulated value of all the others (the step of `reduce`) |
| `Dom.CollectArguments` | app/js/script.js:80-83 | the copying loop yields exactly the arguments, in order |
| `Dom.MakeConveyorBelt` | app/js/script.js:80-90 | the returned closure maps every value to the left fold of the arguments over it |
| `Dom.SetAttrs` | app/js/script.js:91-99 | every key of `obj` maps to its value afterwards; every other attribute is unchanged; children are unchanged; the same element is returned |
| `Dom.Append` | app/js/script.js:100-105 | the child becomes the last child; earlier children and the attributes are unchanged; the parent itself is returned |
| `Dom.PopulateAndReturnContainer` | app/js/script.js:109-116 | the children become `old(children) + arr`; the attributes are unchanged; the container is returned; the new state is the belt of one append per node |
| `Dom.WithChildrenAppends` | app/es6/script.js:131-134 | the belt of single appends, one per node of `arr`, adds exactly `arr` to the children, in order |
| `Dom.MakeTextNodeAndAppendToHeaderTag` | app/js/script.js:117-121 | a text node holding the string becomes the element's last child, and the element is returned |
| `Render.CurrentHeaders` | app/es6/script.js:143-148 | the reference shape of the six headers above the wind box: `h1` location, `h4` update time, `h2` temperature, `h3` conditions, feels-like and UV, each an element with no attributes holding only its text |
| `Render.CurrentChildren` | app/es6/script.js:143-165 | the reference shape of `stuffToAppend`: the six headers, the `windBox` div holding the `h3` wind line and the `h4` wind string, then the `h3` pressure line; the eight are distinct, and neither wind-box header is one of them |
| `Render.CurrentFragment` | app/es6/script.js:141-167 | the reference shape of the populated `currentWeatherContainer`: a `div` of that class whose children have the `CurrentChildren` shape |
| `Render.ForecastChildren` | app/es6/script.js:197-223 | the reference shape of `contentToAppendArr`: the `h1` date, the `tempBox` div with `Hi`/`Lo` `h2`s, then the `windBox` div, the `h3` `humidityBox` and the `precipBox` div, each of these three holding its heading and its value as `h3`s |
| `Render.ForecastFragment` | app/es6/script.js:172-224 | the reference shape of a populated forecast container: a `forecastContainer` div whose first child is the empty `vertical-divide` div, followed by children of the `ForecastChildren` shape |
| `Render.CurrentNodesDistinct` | app/es6/script.js:143-156 | every current-conditions fragment has ten distinct nodes: its eight children and the wind box's two headers |
| `Render.MakeHeader` | app/es6/script.js:143 | a fresh element of the given tag, with no attributes, whose only child is the text |
| `Render.MakeBox` | app/es6/script.js:200-201 | a fresh element of class `cls` holding exactly two fresh text elements, in order |
| `Render.MakeCurrentHeaders` | app/es6/script.js:143-148 | the six headers above the wind box, of the `CurrentHeaders` shape, each a distinct fresh element |
| `Render.MakeCurrentChildren` | app/es6/script.js:143-165 | the eight children: location, updated, temperature, conditions, feels-like, UV, wind box, pressure, of the `CurrentChildren` shape; all ten elements, the wind box's headers included, are distinct and fresh |
| `Render.NewCurrentContainer` | app/es6/script.js:141 | `setAttrs({'class': 'currentWeatherContainer'})(make('div'))`: a fresh, empty `div` of that class |
| `Render.BuildCurrentContainer` | app/js/script.js:125-141 | a fresh `div` of class `currentWeatherContainer` whose children are exactly those eight elements, in that order, with no node used twice |
| `Render.SetupForecastContainer` | app/es6/script.js:172-181 | the container gets class `forecastContainer`, then a fresh `vertical-divide` div as its last child; its new state is the belt of the two steps |
| `Render.NewForecastContainer` | app/es6/script.js:224 | `setupForecastContainer(make('div'))`: a fresh `div` of class `forecastContainer` whose only child is a fresh `vertical-divide` div |
| `Render.MakeForecastChildren` | app/es6/script.js:197-223 | the five children: date, then the temperature, wind, humidity and precipitation boxes, with their tags, classes and texts, each a distinct fresh element |
| `Render.BuildForecastContainer` | app/js/script.js:201-202 | a fresh `forecastContainer` div whose first child is the divider, followed by the five children in order, all six distinct |
| `Render.DropHead` | app/es6/script.js:182-183 | `let [head, ...tail]`: the days after the first; characterised by `DropHeadSplit` |
| `Render.SlideInDelay` | app/es6/script.js:226 | the inner delay `60*(idx+1)` of day `idx`, added to the outer delay `RevealDelay` (800, line 230); characterised by `RevealDelaysIncrease` and `RevealDelayExamples` |
| `Render.DropHeadSplit` | app/js/script.js:163-167 | the split drops exactly the first day and keeps the rest in order; an empty list gives no days |
| `Render.RevealDelaysIncrease` | app/es6/script.js:226-230 | day `idx` is appended after `800 + 60*(idx+1)`, which is positive and strictly increases with `idx` |
| `Render.RevealDelayExamples` | app/js/script.js:206-216 | the first remaining day appears at 860 and the third at 980 |
| `Render.ScheduleForecast` | app/es6/script.js:184-228 | one slide-in per day, in order; slide-in `idx` has inner delay `60*(idx+1)` and a fragment built from day `idx`; the fragments' element sets are pairwise disjoint |
| `Render.Render` | app/es6/script.js:168-230 | the main container receives exactly the current-conditions fragment at once; the schedule holds one fragment per forecast day after the first, in order, with increasing delays; the current fragment and every forecast fragment are built from disjoint element sets, and all are distinct nodes |
| `Render.Reveal` | app/js/script.js:211-216 | the timers append the scheduled fragments to the main container in order, and nothing else |
| `Render.ShowWeather` | app/es6/script.js:168-231 | the main container receives the current-conditions fragment first, then one forecast fragment per remaining day, in the order of the days; its attributes are unchanged; the appended fragments are distinct elements built from disjoint sets of elements |
| `Render.FragmentsDistinct` | app/es6/script.js:186-224 | fragments built from pairwise disjoint sets of fresh elements are distinct nodes, so no append moves a node |

## Left out

- Geolocation, `fetch`, `res.json()`, `val.text()` and `Promise.all` are browser and network I/O. The location response, the fallback's fetch response and the parsed weather fields are inputs. `JSON.parse` is the parameter `parse` of `FallbackLocation`.
- A geolocation request that never calls back (permission denied) leaves the promise pending. A pending promise is not a value, so it has no counterpart in the model.
- The weather fetches and `res.json()` are not modelled. A non-ok weather response is parsed like any other. Only the URL of each request is modelled.
- `setTimeout` and the event loop are not modelled. `Render` returns the delays, and `Reveal` performs the appends in list order.
- Reveal: requires increasing delays, because timers whose due times increase fire in list order. `Render` proves that its schedule has increasing delays.
- Number-to-string formatting of temperatures, coordinates, wind and pressure values (JavaScript floats) is not modelled. These values are opaque strings.
- `document.createElement` and `createTextNode` are not modelled beyond a fresh element or a text node. Neither is rendering.
- `getElementsByClassName('mainContainer')[0]` is not modelled. The main container is the parameter `main`, so a missing container is not modelled either.
- Dom.Append: DOM `appendChild` moves a child that already has a parent. The model only appends, because every node the widget appends is new. The builders prove this. No node occurs twice among a fragment's children, and the current-conditions fragment's wind-box headers are none of its other children (`Render.CurrentNodesDistinct`). `Render.ShowWeather` proves the same for the fragments it appends to the main container.
- The unused bindings are not modelled: `relative_humidity`, `visibility_mi`, `conditions`, `makeAndSetTempContainer`/`setTempAttr`, and the alias `windBoxWithAttr`. Neither are the API key's meaning and the colour-palette comment.
- A missing flat field (`UV`, `temp_f`, `wind_mph` and so on) is bound to `undefined`, and its line shows the text `undefined`. Field values are opaque strings, so that text is one more string the model covers.
- A missing `current_observation` or `display_location` makes the last `.then` throw before anything is appended, so nothing is rendered. The observation record always carries these fields, so this case is not modelled.
- A missing `forecast.simpleforecast.forecastday`, `date`, `high`, `low`, `avewind` or `qpf_allday` throws after the current conditions are already appended but before the outer timer is set, so the current conditions show and no forecast day does. The forecast records always carry these parts, so this case is not modelled.
- Labels.PressureSign: the source tests `pressure_trend === '0'` strictly. A numeric trend `0` would not match and would print as `0`. The model holds the trend as text, so it cannot tell a numeric `0` from the string `'0'`.
