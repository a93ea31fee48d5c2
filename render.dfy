/** The Renderer/Scheduler: the current-conditions fragment, appended to the
    main container at once, and one fragment per forecast day after the
    first, each scheduled for a later append. Timers are not run: the
    schedule is returned as delays paired with fragments, and `Reveal`
    performs the appends in the order the timers fire. */
module Render {
  import opened Dom
  import opened Labels

  /** The fields read from `current_observation`, as the text they render to. */
  datatype CurrentObservation = CurrentObservation(
    uv: string, tempF: string, feelslikeF: string, observationTime: string,
    pressureIn: string, pressureTrend: string, locationFull: string,
    weather: string, windMph: string, windDir: string, windString: string)

  /** The fields read from one `forecastday` entry, as the text they render to. */
  datatype ForecastDay = ForecastDay(
    avehumidity: string, avewindMph: string, monthnameShort: string, day: string,
    highF: string, lowF: string, qpfAlldayIn: string)

  /** No node occurs twice: every child is an element of its own, so no
      append has to move a node from one place to another. */
  ghost predicate Distinct(parts: seq<Node>) {
    forall k, l :: 0 <= k < l < |parts| ==> parts[k] != parts[l]
  }

  /** A node that is not among distinct nodes can be put in front of them. */
  lemma DistinctCons(n: Node, parts: seq<Node>)
    requires Distinct(parts) && n !in parts
    ensures Distinct([n] + parts)
  {
    var all := [n] + parts;
    forall k, l | 0 <= k < l < |all| ensures all[k] != all[l] {
      assert all[l] == parts[l - 1];
      if k > 0 {
        assert all[k] == parts[k - 1];
      }
    }
  }

  /** A prefix of distinct nodes is distinct. */
  lemma DistinctPrefix(parts: seq<Node>, more: seq<Node>)
    requires Distinct(parts + more)
    ensures Distinct(parts)
  {
    forall k, l | 0 <= k < l < |parts| ensures parts[k] != parts[l] {
      assert parts[k] == (parts + more)[k] && parts[l] == (parts + more)[l];
    }
  }

  /** A node that is not among distinct nodes can follow them. */
  lemma DistinctSnoc(parts: seq<Node>, n: Node)
    requires Distinct(parts) && n !in parts
    ensures Distinct(parts + [n])
  {
    var all := parts + [n];
    forall k, l | 0 <= k < l < |all| ensures all[k] != all[l] {
      assert all[k] == parts[k];
      if l < |parts| {
        assert all[l] == parts[l];
      }
    }
  }

  // The shape of a built fragment. Each predicate is framed by `fp`, the
  // set of elements the fragment is made of, and holds only when every
  // element it inspects lies in `fp`.

  /** A `tag` element with no attributes whose only child is the text `text`. */
  ghost predicate IsText(n: Node, tag: string, text: string, fp: set<object>)
    reads fp
  {
    n.Elem? && n.el in fp && n.el.tag == tag && n.el.attrs == map[] && n.el.children == [Text(text)]
  }

  /** A box: a `tag` element of class `cls` holding two text elements. */
  ghost predicate IsBox(n: Node, tag: string, cls: string, tag1: string, text1: string, tag2: string, text2: string,
                        fp: set<object>)
    reads fp
  {
    n.Elem? && n.el in fp && n.el.tag == tag && n.el.attrs == map["class" := cls] && |n.el.children| == 2 &&
    IsText(n.el.children[0], tag1, text1, fp) && IsText(n.el.children[1], tag2, text2, fp)
  }

  /** The decorative divider: an empty `div` of class `vertical-divide`. */
  ghost predicate IsDivider(n: Node, fp: set<object>)
    reads fp
  {
    n.Elem? && n.el in fp && n.el.tag == "div" && n.el.attrs == map["class" := "vertical-divide"] && n.el.children == []
  }

  /** The current-conditions fragment: a `currentWeatherContainer` div holding
      location, update time, temperature, conditions, feels-like, UV, the wind
      box and pressure, in that order. */
  ghost predicate CurrentFragment(c: Element, obs: CurrentObservation, fp: set<object>)
    reads fp
  {
    c in fp && c.tag == "div" && c.attrs == map["class" := "currentWeatherContainer"] &&
    CurrentChildren(c.children, obs, fp)
  }

  /** The six headers above the wind box: location, update time,
      temperature, conditions, feels-like and UV. */
  ghost predicate CurrentHeaders(heads: seq<Node>, obs: CurrentObservation, fp: set<object>)
    reads fp
  {
    |heads| == 6 &&
    IsText(heads[0], "h1", obs.locationFull, fp) &&
    IsText(heads[1], "h4", obs.observationTime, fp) &&
    IsText(heads[2], "h2", TemperatureLabel(obs.tempF), fp) &&
    IsText(heads[3], "h3", obs.weather, fp) &&
    IsText(heads[4], "h3", FeelsLikeLabel(obs.feelslikeF), fp) &&
    IsText(heads[5], "h3", UvLabel(obs.uv), fp)
  }

  /** The eight children: the six headers, then the wind box and the
      pressure line, all distinct. The wind box's two headers are elements
      of their own, none of the eight. */
  ghost predicate CurrentChildren(parts: seq<Node>, obs: CurrentObservation, fp: set<object>)
    reads fp
  {
    |parts| == 8 &&
    CurrentHeaders(parts[..6], obs, fp) &&
    IsBox(parts[6], "div", "windBox", "h3", WindLabel(obs.windMph, obs.windDir), "h4", obs.windString, fp) &&
    IsText(parts[7], "h3", PressureLabel(obs.pressureTrend, obs.pressureIn), fp) &&
    Distinct(parts) && parts[6].el.children[0] !in parts && parts[6].el.children[1] !in parts
  }

  /** A forecast fragment: a `forecastContainer` div holding the divider, the
      date, then the temperature, wind, humidity and precipitation boxes. */
  ghost predicate ForecastFragment(c: Element, day: ForecastDay, fp: set<object>)
    reads fp
  {
    c in fp && c.tag == "div" && c.attrs == map["class" := "forecastContainer"] && |c.children| == 6 &&
    IsDivider(c.children[0], fp) && ForecastChildren(c.children[1..], day, fp)
  }

  ghost predicate ForecastChildren(parts: seq<Node>, day: ForecastDay, fp: set<object>)
    reads fp
  {
    |parts| == 5 &&
    IsText(parts[0], "h1", DateLabel(day.monthnameShort, day.day), fp) &&
    IsBox(parts[1], "div", "tempBox", "h2", HighLabel(day.highF), "h2", LowLabel(day.lowF), fp) &&
    IsBox(parts[2], "div", "windBox", "h3", WindHeading, "h3", AverageWindLabel(day.avewindMph), fp) &&
    IsBox(parts[3], "h3", "humidityBox", "h3", HumidityHeading, "h3", HumidityLabel(day.avehumidity), fp) &&
    IsBox(parts[4], "div", "precipBox", "h3", PrecipHeading, "h3", PrecipLabel(day.qpfAlldayIn), fp)
  }

  /** The shape predicates only gain when their frame grows. */
  lemma CurrentHeadersGrow(heads: seq<Node>, obs: CurrentObservation, fp1: set<object>, fp2: set<object>)
    requires fp1 <= fp2 && CurrentHeaders(heads, obs, fp1)
    ensures CurrentHeaders(heads, obs, fp2)
  {
  }

  lemma CurrentChildrenGrow(parts: seq<Node>, obs: CurrentObservation, fp1: set<object>, fp2: set<object>)
    requires fp1 <= fp2 && CurrentChildren(parts, obs, fp1)
    ensures CurrentChildren(parts, obs, fp2)
  {
  }

  lemma ForecastChildrenGrow(parts: seq<Node>, day: ForecastDay, fp1: set<object>, fp2: set<object>)
    requires fp1 <= fp2 && ForecastChildren(parts, day, fp1)
    ensures ForecastChildren(parts, day, fp2)
  {
  }

  /** No node of the current-conditions fragment occurs twice: its eight
      children and the wind box's two headers are ten distinct nodes. */
  lemma CurrentNodesDistinct(c: Element, obs: CurrentObservation, fp: set<object>)
    requires CurrentFragment(c, obs, fp)
    ensures Distinct(c.children + c.children[6].el.children)
  {
    var parts, heads := c.children, c.children[6].el.children;
    assert heads[0].el.tag == "h3" && heads[1].el.tag == "h4";
    DistinctSnoc(parts, heads[0]);
    DistinctSnoc(parts + [heads[0]], heads[1]);
    assert parts + [heads[0]] + [heads[1]] == parts + heads;
  }

  // Building fragments.

  /** `makeTextNodeAndAppendToHeaderTag(text)(make(tag))`. */
  method MakeHeader(tag: string, text: string) returns (h: Element)
    ensures fresh(h) && h.tag == tag && h.attrs == map[] && h.children == [Text(text)]
  {
    h := new Element(tag);
    h := MakeTextNodeAndAppendToHeaderTag(text, h);
  }

  /** Two headers put in a fresh `tag` element, which then gets class `cls`. */
  method MakeBox(tag: string, cls: string, tag1: string, text1: string, tag2: string, text2: string)
    returns (box: Element, first: Element, second: Element)
    ensures fresh(box) && fresh(first) && fresh(second) && first != second && box != first && box != second
    ensures box.tag == tag && box.attrs == map["class" := cls] && box.children == [Elem(first), Elem(second)]
    ensures first.tag == tag1 && first.attrs == map[] && first.children == [Text(text1)]
    ensures second.tag == tag2 && second.attrs == map[] && second.children == [Text(text2)]
  {
    first := MakeHeader(tag1, text1);
    second := MakeHeader(tag2, text2);
    box := new Element(tag);
    box := PopulateAndReturnContainer([Elem(first), Elem(second)], box);
    box := SetAttrs(map["class" := cls], box);
  }

  /** The six headers above the wind box, each a new element. */
  method MakeCurrentHeaders(obs: CurrentObservation) returns (heads: seq<Node>, ghost fp: set<object>)
    ensures fresh(fp)
    ensures CurrentHeaders(heads, obs, fp)
    ensures forall n :: n in heads ==> n.Elem? && n.el in fp
    ensures Distinct(heads)
  {
    var location := MakeHeader("h1", obs.locationFull);
    var updated := MakeHeader("h4", obs.observationTime);
    var temp := MakeHeader("h2", TemperatureLabel(obs.tempF));
    var conditions := MakeHeader("h3", obs.weather);
    var feelsLike := MakeHeader("h3", FeelsLikeLabel(obs.feelslikeF));
    var uv := MakeHeader("h3", UvLabel(obs.uv));
    heads := [Elem(location), Elem(updated), Elem(temp), Elem(conditions), Elem(feelsLike), Elem(uv)];
    fp := {location, updated, temp, conditions, feelsLike, uv};
  }

  /** The eight children of the current-conditions container. */
  method MakeCurrentChildren(obs: CurrentObservation) returns (parts: seq<Node>, ghost fp: set<object>)
    ensures fresh(fp)
    ensures CurrentChildren(parts, obs, fp)
    ensures Distinct(parts)
  {
    var heads, headsFp := MakeCurrentHeaders(obs);
    var windBox, windHeader, windCondition :=
      MakeBox("div", "windBox", "h3", WindLabel(obs.windMph, obs.windDir), "h4", obs.windString);
    var pressure := MakeHeader("h3", PressureLabel(obs.pressureTrend, obs.pressureIn));
    parts := heads + [Elem(windBox), Elem(pressure)];
    fp := headsFp + {windBox, windHeader, windCondition, pressure};
    // The wind box and its headers are made after the six headers, and the
    // pressure line after all of them, so each is new.
    DistinctSnoc(heads, Elem(windBox));
    DistinctSnoc(heads + [Elem(windBox)], Elem(pressure));
    assert parts[..6] == heads;
    CurrentHeadersGrow(heads, obs, headsFp, fp);
  }

  /** `setAttrs({'class': 'currentWeatherContainer'})(make('div'))`: a fresh,
      still empty container. */
  method NewCurrentContainer() returns (c: Element)
    ensures fresh(c)
    ensures c.tag == "div" && c.attrs == map["class" := "currentWeatherContainer"] && c.children == []
  {
    c := new Element("div");
    c := SetAttrs(map["class" := "currentWeatherContainer"], c);
  }

  /** The current-conditions container with its eight children. */
  method BuildCurrentContainer(obs: CurrentObservation) returns (c: Element, ghost fp: set<object>)
    ensures fresh(fp)
    ensures CurrentFragment(c, obs, fp)
    ensures Distinct(c.children)
  {
    c := NewCurrentContainer();
    var parts, partsFp := MakeCurrentChildren(obs);
    c := PopulateAndReturnContainer(parts, c);
    fp := {c} + partsFp;
    assert fresh(fp);
    CurrentChildrenGrow(parts, obs, partsFp, fp);
    assert c.children == parts;
  }

  /** `setupForecastContainer`, the belt of `setForecastContainerAttr` and
      `appendDividerToForecastContainer`: the container gets class
      `forecastContainer`, then a fresh divider as its last child. */
  method SetupForecastContainer(c: Element) returns (r: Element, ghost divider: Element)
    modifies c
    ensures r == c && fresh(divider)
    ensures c.children == old(c.children) + [Elem(divider)]
    ensures c.attrs == old(c.attrs) + map["class" := "forecastContainer"]
    ensures IsDivider(Elem(divider), {divider})
    ensures c.State() == ConveyorBelt([WithAttrs(map["class" := "forecastContainer"]),
                                       WithChild(Elem(divider))], old(c.State()))
  {
    r := SetAttrs(map["class" := "forecastContainer"], c);
    var d := new Element("div");
    d := SetAttrs(map["class" := "vertical-divide"], d);
    r := Append(Elem(d), r);
    divider := d;
    ConveyorBeltPair(WithAttrs(map["class" := "forecastContainer"]), WithChild(Elem(divider)), old(c.State()));
  }

  /** `setupForecastContainer(make('div'))`: a fresh container of class
      `forecastContainer` whose only child is a fresh divider. */
  method NewForecastContainer() returns (c: Element, ghost divider: Element)
    ensures fresh(c) && fresh(divider) && c != divider
    ensures c.tag == "div" && c.attrs == map["class" := "forecastContainer"] && c.children == [Elem(divider)]
    ensures IsDivider(Elem(divider), {divider})
  {
    c := new Element("div");
    c, divider := SetupForecastContainer(c);
  }

  /** The five children that follow the divider in a forecast container. */
  method MakeForecastChildren(day: ForecastDay) returns (parts: seq<Node>, ghost fp: set<object>)
    ensures fresh(fp)
    ensures ForecastChildren(parts, day, fp)
    ensures Distinct(parts)
    ensures forall k :: 0 <= k < |parts| ==> parts[k].Elem? && parts[k].el in fp
  {
    var date := MakeHeader("h1", DateLabel(day.monthnameShort, day.day));
    var tempBox, high, low := MakeBox("div", "tempBox", "h2", HighLabel(day.highF), "h2", LowLabel(day.lowF));
    var windBox, windHeader, windInfo :=
      MakeBox("div", "windBox", "h3", WindHeading, "h3", AverageWindLabel(day.avewindMph));
    var humidityBox, humidityHeader, humidityInfo :=
      MakeBox("h3", "humidityBox", "h3", HumidityHeading, "h3", HumidityLabel(day.avehumidity));
    var precipBox, precipHeader, precipInfo :=
      MakeBox("div", "precipBox", "h3", PrecipHeading, "h3", PrecipLabel(day.qpfAlldayIn));
    parts := [Elem(date), Elem(tempBox), Elem(windBox), Elem(humidityBox), Elem(precipBox)];
    fp := {date, tempBox, high, low, windBox, windHeader, windInfo,
           humidityBox, humidityHeader, humidityInfo, precipBox, precipHeader, precipInfo};
  }

  /** One forecast day's container: the boxes are built, then the container
      is set up by the belt and populated. */
  method BuildForecastContainer(day: ForecastDay) returns (c: Element, ghost fp: set<object>)
    ensures fresh(fp)
    ensures ForecastFragment(c, day, fp)
    ensures Distinct(c.children)
  {
    var parts, partsFp := MakeForecastChildren(day);
    ghost var divider: Element;
    c, divider := NewForecastContainer();
    c := PopulateAndReturnContainer(parts, c);
    fp := {c, divider} + partsFp;
    ForecastChildrenGrow(parts, day, partsFp, fp);
    assert c.children == [Elem(divider)] + parts;
    DistinctCons(Elem(divider), parts);
  }

  // The head/tail split and the reveal schedule.

  /** `let [head, ...tail] = forecastday` (`_toArray` and `slice(1)` in the
      transpiled copy): every day but the first, none for an empty list. */
  function DropHead<T>(days: seq<T>): seq<T> {
    if |days| == 0 then [] else days[1..]
  }

  /** The split drops exactly the first day and keeps the others in order. */
  lemma DropHeadSplit<T>(days: seq<T>)
    ensures |days| > 0 ==> [days[0]] + DropHead(days) == days
    ensures |days| > 0 ==> |DropHead(days)| == |days| - 1
    ensures |days| == 0 ==> DropHead(days) == []
  {
  }

  /** The outer timer: every slide-in starts after this many milliseconds. */
  const RevealDelay: nat := 800

  /** The inner timer of day `idx` (0-based among the remaining days). */
  function SlideInDelay(idx: nat): nat {
    60 * (idx + 1)
  }

  /** Day `idx`'s fragment is appended `800 + 60 * (idx + 1)` milliseconds
      after the render; later days come strictly later, and every day comes
      after the current conditions, which are appended at once. */
  lemma RevealDelaysIncrease(i: nat, j: nat)
    ensures RevealDelay + SlideInDelay(i) > 0
    ensures i < j ==> RevealDelay + SlideInDelay(i) < RevealDelay + SlideInDelay(j)
  {
  }

  lemma RevealDelayExamples()
    ensures RevealDelay + SlideInDelay(0) == 860
    ensures RevealDelay + SlideInDelay(2) == 980
  {
  }

  /** One entry of `functionsToExecute`: the inner delay and the fragment its
      timer appends. The outer timer runs the entry after `RevealDelay`, so
      the fragment is due `RevealDelay + delay` milliseconds after the render. */
  datatype SlideIn = SlideIn(delay: nat, fragment: Element)

  /** Inner delays strictly increase along the list, so the timers fire in
      list order. */
  ghost predicate DelaysIncrease(slides: seq<SlideIn>) {
    forall i, j :: 0 <= i < j < |slides| ==> slides[i].delay < slides[j].delay
  }

  /** The nodes the slide-ins append, in list order. */
  function Fragments(slides: seq<SlideIn>): (r: seq<Node>)
    ensures |r| == |slides|
  {
    seq(|slides|, i requires 0 <= i < |slides| => Elem(slides[i].fragment))
  }

  /** `fourDayForecastArray.forEach((el, idx) => ...)`: one forecast
      container per day, pushed to `functionsToExecute` with inner delay
      `60 * (idx + 1)`, in the order of the days. */
  method ScheduleForecast(days: seq<ForecastDay>) returns (slides: seq<SlideIn>, ghost fps: seq<set<object>>)
    ensures |slides| == |fps| == |days|
    ensures forall idx {:trigger slides[idx]} :: 0 <= idx < |slides| ==>
      slides[idx].delay == SlideInDelay(idx) && fresh(fps[idx]) &&
      ForecastFragment(slides[idx].fragment, days[idx], fps[idx])
    ensures forall k, l :: 0 <= k < l < |fps| ==> fps[k] * fps[l] == {}
  {
    slides, fps := [], [];
    var idx := 0;
    while idx < |days|
      invariant 0 <= idx <= |days| && |slides| == |fps| == idx
      invariant forall k {:trigger slides[k]} :: 0 <= k < idx ==>
        slides[k].delay == SlideInDelay(k) && ForecastFragment(slides[k].fragment, days[k], fps[k])
      invariant forall k :: 0 <= k < idx ==> fresh(fps[k])
      invariant forall k, l :: 0 <= k < l < idx ==> fps[k] * fps[l] == {}
    {
      var container, containerFp := BuildForecastContainer(days[idx]);
      assert fresh(containerFp);
      slides := slides + [SlideIn(SlideInDelay(idx), container)];
      fps := fps + [containerFp];
      idx := idx + 1;
    }
  }

  /** Fragments drawn from pairwise disjoint element sets are distinct nodes. */
  lemma FragmentsDistinct(current: Element, slides: seq<SlideIn>, fp: set<object>, fps: seq<set<object>>)
    requires |slides| == |fps| && current in fp
    requires forall k :: 0 <= k < |slides| ==> slides[k].fragment in fps[k]
    requires forall k, l :: 0 <= k < l < |fps| ==> fps[k] * fps[l] == {}
    requires forall k :: 0 <= k < |fps| ==> fp * fps[k] == {}
    ensures Distinct([Elem(current)] + Fragments(slides))
  {
    var all := [Elem(current)] + Fragments(slides);
    forall k, l | 0 <= k < l < |all| ensures all[k] != all[l] {
      var b := slides[l - 1].fragment;
      assert all[l] == Elem(b) && b in fps[l - 1];
      if k == 0 {
        assert current !in fp * fps[l - 1];
      } else {
        var a := slides[k - 1].fragment;
        assert all[k] == Elem(a) && a in fps[k - 1];
        assert a !in fps[k - 1] * fps[l - 1];
      }
    }
  }

  /** The last `.then`: the current-conditions fragment is built and appended
      to `main` at once; then the forecast list loses its head and the
      remaining days are scheduled. The returned frame sets (`fp`, `fps`)
      are the elements each fragment is made of. */
  method Render(obs: CurrentObservation, forecastday: seq<ForecastDay>, main: Element)
    returns (current: Element, slides: seq<SlideIn>, ghost fp: set<object>, ghost fps: seq<set<object>>)
    modifies main
    ensures main.children == old(main.children) + [Elem(current)]
    ensures main.attrs == old(main.attrs)
    ensures fresh(fp) && CurrentFragment(current, obs, fp)
    ensures |slides| == |fps| == |DropHead(forecastday)|
    ensures forall k :: 0 <= k < |fps| ==> fresh(fps[k])
    ensures forall idx {:trigger slides[idx]} :: 0 <= idx < |slides| ==>
      slides[idx].delay == SlideInDelay(idx) &&
      ForecastFragment(slides[idx].fragment, DropHead(forecastday)[idx], fps[idx])
    ensures forall k, l :: 0 <= k < l < |fps| ==> fps[k] * fps[l] == {}
    ensures forall k :: 0 <= k < |fps| ==> fp * fps[k] == {}
    ensures Distinct([Elem(current)] + Fragments(slides))
    ensures DelaysIncrease(slides)
  {
    current, fp := BuildCurrentContainer(obs);
    var _ := Append(Elem(current), main);
    slides, fps := ScheduleForecast(DropHead(forecastday));
    forall k | 0 <= k < |fps| ensures fresh(fps[k]) {
      assert slides[k].delay == SlideInDelay(k);
    }
    FragmentsDistinct(current, slides, fp, fps);
  }

  /** The timers firing: the outer timer runs every slide-in, and each
      slide-in's timer appends its fragment to `main`. With increasing
      delays they fire in list order. */
  method Reveal(main: Element, slides: seq<SlideIn>)
    requires DelaysIncrease(slides)
    modifies main
    ensures main.children == old(main.children) + Fragments(slides)
    ensures main.attrs == old(main.attrs)
  {
    var i := 0;
    while i < |slides|
      invariant 0 <= i <= |slides|
      invariant main.children == old(main.children) + Fragments(slides)[..i]
      invariant main.attrs == old(main.attrs)
    {
      var _ := Append(Elem(slides[i].fragment), main);
      i := i + 1;
    }
  }

  /** The whole render: `main` receives the current-conditions fragment
      first and then the forecast fragments, one per day after the first,
      in the order of the days. */
  method ShowWeather(obs: CurrentObservation, forecastday: seq<ForecastDay>, main: Element)
    returns (current: Element, slides: seq<SlideIn>, ghost fp: set<object>, ghost fps: seq<set<object>>)
    modifies main
    ensures main.children == old(main.children) + [Elem(current)] + Fragments(slides)
    ensures main.attrs == old(main.attrs)
    ensures fresh(fp) && CurrentFragment(current, obs, fp)
    ensures |slides| == |fps| == |DropHead(forecastday)|
    ensures forall k :: 0 <= k < |fps| ==> fresh(fps[k])
    ensures forall idx {:trigger slides[idx]} :: 0 <= idx < |slides| ==>
      slides[idx].delay == SlideInDelay(idx) &&
      ForecastFragment(slides[idx].fragment, DropHead(forecastday)[idx], fps[idx])
    ensures forall k, l :: 0 <= k < l < |fps| ==> fps[k] * fps[l] == {}
    ensures forall k :: 0 <= k < |fps| ==> fp * fps[k] == {}
    ensures Distinct([Elem(current)] + Fragments(slides))
  {
    current, slides, fp, fps := Render(obs, forecastday, main);
    Reveal(main, slides);
  }
}
