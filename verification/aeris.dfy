/** `AerisWeatherProvider`: the Aeris adapter. Its forecast arrives as an array of day periods,
    one object per day; every failure of a weather request, of either kind, ends in null. */
module Aeris {
  import opened Wrappers
  import opened Json
  import opened Weather
  import AerisIcons

  /** Day periods the forecast loop reads, whether or not the array has that many. */
  const FORECAST_DAYS: nat := 5
  /** The key length the key resolver tests for (to no effect). */
  const API_KEY_LENGTH: nat := 86

  // ---------------------------------------------------------------------------------------
  // Configuration read per request

  /** `getAPIKey()`: the stored override when it is non-empty, otherwise the built-in key. */
  function ApiKey(device: Device): (key: string)
    ensures device.customKey != "" ==> key == device.customKey
    ensures device.customKey == "" ==> key == device.builtInKey
  {
    ResolveKey(device, API_KEY_LENGTH)
  }

  // ---------------------------------------------------------------------------------------
  // Request URLs

  /** The fixed starts of `URL_LOCATION`, `URL_WEATHER` and `URL_FORECAST`. */
  const LOCATION_BASE: string := "https://api.aerisapi.com/places/search?query=name:"
  const CONDITIONS_BASE: string := "https://api.aerisapi.com/observations/"
  const FORECAST_BASE: string := "https://api.aerisapi.com/forecasts/"

  /** `URL_LOCATION` filled with query and key: the query right after `name:`, ten results, the
      key (its whole query-string pair) last. */
  function LocationUrl(key: string, query: string): (url: string)
    ensures Slot(url, 0, LOCATION_BASE)
    ensures Slot(url, |LOCATION_BASE|, query)
    ensures EndsWith(url, "&limit=10&" + key)
    ensures |url| == |LOCATION_BASE| + |query| + |"&limit=10&" + key|
  {
    Placed(LOCATION_BASE, query, "&limit=10&" + key);
    LOCATION_BASE + query + ("&limit=10&" + key)
  }

  /** `URL_WEATHER`: the selection as the path segment after `observations/`, the key last. */
  function WeatherUrl(key: string, selection: string): (url: string)
    ensures Slot(url, 0, CONDITIONS_BASE)
    ensures Slot(url, |CONDITIONS_BASE|, selection)
    ensures EndsWith(url, "?&format=json&filter=allstations&limit=1&" + key)
    ensures |url| == |CONDITIONS_BASE| + |selection| + |"?&format=json&filter=allstations&limit=1&" + key|
  {
    Placed(CONDITIONS_BASE, selection, "?&format=json&filter=allstations&limit=1&" + key);
    CONDITIONS_BASE + selection + ("?&format=json&filter=allstations&limit=1&" + key)
  }

  /** `URL_FORECAST`: the selection as the path segment after `forecasts/`, daily periods, five
      of them, the key last. */
  function ForecastUrl(key: string, selection: string): (url: string)
    ensures Slot(url, 0, FORECAST_BASE)
    ensures Slot(url, |FORECAST_BASE|, selection)
    ensures EndsWith(url, "?&format=json&filter=day&limit=5&" + key)
    ensures |url| == |FORECAST_BASE| + |selection| + |"?&format=json&filter=day&limit=5&" + key|
  {
    Placed(FORECAST_BASE, selection, "?&format=json&filter=day&limit=5&" + key);
    FORECAST_BASE + selection + ("?&format=json&filter=day&limit=5&" + key)
  }

  /** Under one key, different search texts never share a location URL. */
  lemma LocationUrlDeterminesQuery(key: string, q1: string, q2: string)
    requires LocationUrl(key, q1) == LocationUrl(key, q2)
    ensures q1 == q2
  {
    var suffix := "&limit=10&" + key;
    assert LocationUrl(key, q1) == LOCATION_BASE + q1 + suffix;
    assert LocationUrl(key, q2) == LOCATION_BASE + q2 + suffix;
    InfixDetermined(LOCATION_BASE, q1, q2, suffix);
  }

  /** Under one key, different selections never share a conditions or forecast URL. */
  lemma UrlsDetermineSelection(key: string, s1: string, s2: string)
    requires WeatherUrl(key, s1) == WeatherUrl(key, s2) || ForecastUrl(key, s1) == ForecastUrl(key, s2)
    ensures s1 == s2
  {
    if WeatherUrl(key, s1) == WeatherUrl(key, s2) {
      var prefix := CONDITIONS_BASE;
      var suffix := "?&format=json&filter=allstations&limit=1&" + key;
      assert WeatherUrl(key, s1) == prefix + s1 + suffix;
      assert WeatherUrl(key, s2) == prefix + s2 + suffix;
      InfixDetermined(prefix, s1, s2, suffix);
    } else {
      var prefix := FORECAST_BASE;
      var suffix := "?&format=json&filter=day&limit=5&" + key;
      assert ForecastUrl(key, s1) == prefix + s1 + suffix;
      assert ForecastUrl(key, s2) == prefix + s2 + suffix;
      InfixDetermined(prefix, s1, s2, suffix);
    }
  }

  /** `SELECTION_LOCATION` (`"%s,%s"`): the id a search hit gets from its coordinates. */
  function LocationId(latitude: string, longitude: string): (id: string)
    ensures |id| == |latitude| + 1 + |longitude|
    ensures id[..|latitude|] == latitude && id[|latitude|] == ',' && id[|latitude| + 1..] == longitude
  {
    latitude + "," + longitude
  }

  /** A latitude without a comma can be read back from the id, and so can the longitude. */
  lemma LocationIdInjective(lat1: string, long1: string, lat2: string, long2: string)
    requires ',' !in lat1 && ',' !in lat2
    requires LocationId(lat1, long1) == LocationId(lat2, long2)
    ensures lat1 == lat2 && long1 == long2
  {
    var id := LocationId(lat1, long1);
    assert forall k :: 0 <= k < |lat1| ==> id[k] == lat1[k];
    assert forall k :: 0 <= k < |lat2| ==> id[k] == lat2[k];
    assert id[|lat1|] == ',' && id[|lat2|] == ',';
    assert |lat1| == |lat2|;
    assert lat1 == id[..|lat1|] == lat2;
    assert long1 == id[|lat1| + 1..] == long2;
  }

  // ---------------------------------------------------------------------------------------
  // Location search

  /** Member `key` of `obj` is an object that has every one of `fields`. */
  ghost predicate HasObject(obj: map<string, Json>, key: string, fields: set<string>) {
    key in obj && obj[key].JObj? && fields <= obj[key].members.Keys
  }

  /** A search hit the loop reads without an exception. */
  ghost predicate WellFormedHit(hit: Json) {
    && hit.JObj?
    && HasObject(hit.members, "loc", {"lat", "long"})
    && HasObject(hit.members, "place", {"name", "countryFull"})
  }

  /** One iteration of the loop of `getLocations`: the id from `loc`, city and country from
      `place`. */
  function LocationOf(p: Platform, hits: seq<Json>, i: nat): (r: Parsed<WeatherLocation>)
    ensures r.Err? ==> r.error == Structural
    ensures r.Ok? <==> i < |hits| && WellFormedHit(hits[i])
    ensures r.Ok? ==>
      var loc := hits[i].members["loc"].members;
      var place := hits[i].members["place"].members;
      r.value == WeatherLocation(LocationId(Text(p, loc["lat"]), Text(p, loc["long"])),
                                 Text(p, place["name"]), Text(p, place["countryFull"]))
  {
    var result :- ObjectElement(hits, i);
    var loc :- ObjectMember(result, "loc");
    var latitude :- StringMember(p, loc, "lat");
    var longitude :- StringMember(p, loc, "long");
    var place :- ObjectMember(result, "place");
    var city :- StringMember(p, place, "name");
    var country :- StringMember(p, place, "countryFull");
    Ok(WeatherLocation(LocationId(latitude, longitude), city, country))
  }

  /** The `try` block of `getLocations` on a parsed body: one location per hit of `response`,
      or an exception when any hit lacks a field; never a truncated list. */
  function ParseLocations(p: Platform, root: map<string, Json>): (r: Parsed<seq<WeatherLocation>>)
    ensures r.Err? ==> r.error == Structural
    ensures r.Ok? <==> && "response" in root && root["response"].JArr?
                       && forall k :: 0 <= k < |root["response"].items| ==> WellFormedHit(root["response"].items[k])
    ensures r.Ok? ==> |r.value| == |root["response"].items|
    ensures r.Ok? ==> forall k :: 0 <= k < |r.value| ==> Ok(r.value[k]) == LocationOf(p, root["response"].items, k)
  {
    var hits :- ArrayMember(root, "response");
    var attempts := seq(|hits|, k requires 0 <= k => LocationOf(p, hits, k));
    assert forall k :: 0 <= k < |hits| ==> (attempts[k].Ok? <==> WellFormedHit(hits[k]));
    AllOf(attempts)
  }

  /** `getLocations(input)`: one retrieval; null when it fails or the body is malformed. */
  function Locations(p: Platform, retrieve: string -> Option<string>, device: Device, input: string)
    : (r: Option<seq<WeatherLocation>>)
    ensures var url := LocationUrl(ApiKey(device), p.uriEncode(input));
      && (retrieve(url).None? ==> r.None?)
      && (retrieve(url).Some? ==>
            (r.Some? <==> ObjectOf(p, retrieve(url).value).Ok?
                          && ParseLocations(p, ObjectOf(p, retrieve(url).value).value).Ok?))
      && (r.Some? ==> r.value == ParseLocations(p, ObjectOf(p, retrieve(url).value).value).value)
  {
    var url := LocationUrl(ApiKey(device), p.uriEncode(input));
    match retrieve(url)
    case None => None
    case Some(body) =>
      match ObjectOf(p, body)
      case Err(_) => None
      case Ok(root) =>
        match ParseLocations(p, root)
        case Ok(locations) => Some(locations)
        case Err(_) => None
  }

  // ---------------------------------------------------------------------------------------
  // Forecast list

  /** Member `key` of period `i`, when the period is an object that has it. */
  ghost function Field(periods: seq<Json>, i: nat, key: string): Option<Json> {
    if i < |periods| && periods[i].JObj? && key in periods[i].members then Some(periods[i].members[key])
    else None
  }

  function MinKey(metric: bool): string { if metric then "minTempC" else "minTempF" }
  function MaxKey(metric: bool): string { if metric then "maxTempC" else "maxTempF" }

  /** One pass of the loop body of `parseForecasts`, before its `catch`. */
  function Day(p: Platform, periods: seq<Json>, i: nat, metric: bool): (r: Parsed<DayForecast>)
    ensures r.Ok? ==> r.value.metric == metric && 0 <= r.value.conditionCode <= 47
  {
    var forecast :- ObjectElement(periods, i);
    var lowText :- StringMember(p, forecast, MinKey(metric));
    var low :- Float(p, lowText);
    var highText :- StringMember(p, forecast, MaxKey(metric));
    var high :- Float(p, highText);
    var condition :- StringMember(p, forecast, "weatherPrimary");
    var icon :- StringMember(p, forecast, "icon");
    var date :- StringMember(p, forecast, "timestamp");
    Ok(DayForecast(low, high, condition, AerisIcons.IconCode(icon), date, metric))
  }

  /** What one loop day reads: it yields an entry exactly when the period has its five fields
      and both temperatures parse, and the entry then holds those values with the icon mapped;
      with every field present only a NumberFormatException can occur; a period past the end of
      the array, or one that is not an object, is a JSONException. The period fails with a
      NumberFormatException exactly when a temperature that is read fails to parse before a
      later field turns out to be missing. */
  lemma DayReads(p: Platform, periods: seq<Json>, i: nat, metric: bool)
    ensures var low := Field(periods, i, MinKey(metric));
            var high := Field(periods, i, MaxKey(metric));
            var condition := Field(periods, i, "weatherPrimary");
            var icon := Field(periods, i, "icon");
            var date := Field(periods, i, "timestamp");
            var r := Day(p, periods, i, metric);
      && (r.Ok? <==>
            && low.Some? && p.parseFloat(Text(p, low.value)).Some?
            && high.Some? && p.parseFloat(Text(p, high.value)).Some?
            && condition.Some? && icon.Some? && date.Some?)
      && (r.Ok? ==>
            r.value == DayForecast(p.parseFloat(Text(p, low.value)).value, p.parseFloat(Text(p, high.value)).value,
                                   Text(p, condition.value), AerisIcons.IconCode(Text(p, icon.value)),
                                   Text(p, date.value), metric))
      && (low.Some? && high.Some? && condition.Some? && icon.Some? && date.Some? ==> r != Err(Structural))
      && (i >= |periods| || !periods[i].JObj? ==> r == Err(Structural))
      && (low.Some? && p.parseFloat(Text(p, low.value)).None? ==> r == Err(Numeric))
      && (r == Err(Numeric) <==>
            && low.Some?
            && (|| p.parseFloat(Text(p, low.value)).None?
                || (high.Some? && p.parseFloat(Text(p, high.value)).None?)))
  {
  }

  /** The control of the loop `for (; i < FORECAST_DAYS; i++)` from index `i` on: the indices
      it visits, `i + k` at position `k`, until the index reaches FORECAST_DAYS. */
  function LoopIndices(i: nat): (indices: seq<nat>)
    ensures |indices| == if i < FORECAST_DAYS then FORECAST_DAYS - i else 0
    ensures forall k :: 0 <= k < |indices| ==> indices[k] == i + k
    decreases FORECAST_DAYS - i
  {
    if i < FORECAST_DAYS then [i] + LoopIndices(i + 1) else []
  }

  /** The loop bodies, periods 0 to 4, in order. */
  function Attempts(p: Platform, periods: seq<Json>, metric: bool): seq<Parsed<DayForecast>> {
    seq(5, i requires 0 <= i => Day(p, periods, i, metric))
  }

  /** The attempts are the loop's as the source starts it, at `i = 0`: one per index it visits,
      in the order it visits them, and no others. */
  lemma AttemptsFollowLoop(p: Platform, periods: seq<Json>, metric: bool)
    ensures var indices := LoopIndices(0);
            var days := Attempts(p, periods, metric);
      && |days| == |indices|
      && forall k :: 0 <= k < |days| ==> days[k] == Day(p, periods, indices[k], metric)
  {
  }

  /** `parseForecasts`: five entries, period i at position i; an empty array fails the list. */
  function ParseForecasts(p: Platform, periods: seq<Json>, metric: bool): (r: Parsed<seq<DayForecast>>)
    ensures |periods| == 0 ==> r == Err(Structural)
    ensures r.Ok? ==> |r.value| == 5
    ensures r.Ok? ==> forall i :: 0 <= i < 5 ==>
      var day := Day(p, periods, i, metric);
      r.value[i] == if day.Ok? then day.value else Dummy(metric)
    ensures r.Ok? <==> |periods| != 0 && forall i :: 0 <= i < 5 ==> Day(p, periods, i, metric) != Err(Numeric)
  {
    if |periods| == 0 then Err(Structural)
    else
      var attempts := Attempts(p, periods, metric);
      var days :- Assemble(attempts, metric);
      assert forall i :: 0 <= i < 5 ==> Day(p, periods, i, metric) != Err(Numeric) by {
        forall i | 0 <= i < 5 ensures Day(p, periods, i, metric) != Err(Numeric) {
          assert attempts[i] != Err(Numeric);
        }
      }
      Ok(days)
  }

  /** With a non-empty array the list fails only with a NumberFormatException. */
  lemma LoopFailsOnlyNumerically(p: Platform, periods: seq<Json>, metric: bool)
    requires |periods| != 0
    ensures ParseForecasts(p, periods, metric) != Err(Structural)
  {
    assert Assemble(Attempts(p, periods, metric), metric) != Err(Structural);
  }

  /** The loop does not stop at the end of the array: a position the array does not reach is
      the dummy entry. */
  lemma MissingPeriodsAreDummies(p: Platform, periods: seq<Json>, metric: bool, i: nat)
    requires ParseForecasts(p, periods, metric).Ok?
    requires |periods| <= i < 5
    ensures ParseForecasts(p, periods, metric).value[i] == Dummy(metric)
  {
    assert Day(p, periods, i, metric) == Err(Structural);
  }

  /** A temperature that reads as JSON null, as the vendor sometimes sends, fails the whole list
      rather than only its own day. */
  lemma NullTemperatureFailsList(p: Platform, periods: seq<Json>, metric: bool, i: nat)
    requires JavaNumbers(p) && i < 5
    requires Field(periods, i, MinKey(metric)) == Some(JNull)
    ensures ParseForecasts(p, periods, metric) == Err(Numeric)
  {
    DayReads(p, periods, i, metric);
    assert Day(p, periods, i, metric) == Err(Numeric);
  }

  // ---------------------------------------------------------------------------------------
  // Weather request

  /** `new JSONObject(forecastResponse).getJSONArray("response").getJSONObject(0)
      .getJSONArray("periods")`. */
  function Periods(p: Platform, forecastBody: string): (r: Parsed<seq<Json>>)
    ensures r.Err? ==> r.error == Structural
    ensures r.Ok? <==>
      && ObjectOf(p, forecastBody).Ok?
      && var root := ObjectOf(p, forecastBody).value;
         && "response" in root && root["response"].JArr? && |root["response"].items| > 0
         && root["response"].items[0].JObj?
         && "periods" in root["response"].items[0].members
         && root["response"].items[0].members["periods"].JArr?
    ensures r.Ok? ==> r.value == ObjectOf(p, forecastBody).value["response"].items[0].members["periods"].items
  {
    var root :- ObjectOf(p, forecastBody);
    var responses :- ArrayMember(root, "response");
    var first :- ObjectElement(responses, 0);
    ArrayMember(first, "periods")
  }

  function TemperatureKey(metric: bool): string { if metric then "tempC" else "tempF" }
  /** The wind field as written: the metric request reads miles per hour. */
  function WindKey(metric: bool): string { if metric then "windMPH" else "windKPH" }

  /** The arguments of the `WeatherInfo` constructor, read in order once the forecast list is
      built: the place name serves as both id and city, the icon goes through the table. */
  function Snapshot(p: Platform, conditions: map<string, Json>, observation: map<string, Json>,
                    forecasts: seq<DayForecast>, metric: bool, now: int): (r: Parsed<WeatherInfo>)
    ensures r.Ok? ==> && r.value.id == r.value.city && r.value.forecasts == forecasts
                      && r.value.metric == metric && r.value.timestamp == now
                      && 0 <= r.value.conditionCode <= 47
    ensures r.Ok? <==>
      && HasObject(conditions, "place", {"name"})
      && {"weatherShort", "icon", TemperatureKey(metric), "humidity", WindKey(metric), "windDirDEG"}
           <= observation.Keys
      && p.parseFloat(Text(p, observation[TemperatureKey(metric)])).Some?
      && p.parseFloat(Text(p, observation["humidity"])).Some?
      && p.parseFloat(Text(p, observation[WindKey(metric)])).Some?
      && p.parseInt(Text(p, observation["windDirDEG"])).Some?
    ensures r.Ok? ==>
      && r.value.id == Text(p, conditions["place"].members["name"])
      && r.value.condition == Text(p, observation["weatherShort"])
      && r.value.conditionCode == AerisIcons.IconCode(Text(p, observation["icon"]))
      && r.value.temperature == p.parseFloat(Text(p, observation[TemperatureKey(metric)])).value
      && r.value.humidity == p.parseFloat(Text(p, observation["humidity"])).value
      && r.value.windSpeed == p.parseFloat(Text(p, observation[WindKey(metric)])).value
      && r.value.windDirection == p.parseInt(Text(p, observation["windDirDEG"])).value
  {
    var place :- ObjectMember(conditions, "place");
    var id :- StringMember(p, place, "name");
    var condition :- StringMember(p, observation, "weatherShort");
    var icon :- StringMember(p, observation, "icon");
    var temperatureText :- StringMember(p, observation, TemperatureKey(metric));
    var temperature :- Float(p, temperatureText);
    var humidityText :- StringMember(p, observation, "humidity");
    var humidity :- Float(p, humidityText);
    var windText :- StringMember(p, observation, WindKey(metric));
    var wind :- Float(p, windText);
    var directionText :- StringMember(p, observation, "windDirDEG");
    var direction :- Int(p, directionText);
    Ok(WeatherInfo(id, id, condition, AerisIcons.IconCode(icon), temperature, humidity, wind,
                   direction, metric, forecasts, now))
  }

  /** The `try` block of `handleWeatherRequest` on the two bodies: `Ok(None)` where it returns
      null, `Err` where an exception leaves it. */
  function Interpret(p: Platform, conditionBody: string, forecastBody: string, metric: bool, now: int)
    : (r: Parsed<Option<WeatherInfo>>)
    ensures (&& ObjectOf(p, conditionBody).Ok?
             && OptObjectMember(ObjectOf(p, conditionBody).value, "response").None?) ==> r == Ok(None)
    ensures r.Ok? && r.value.Some? ==>
      && ObjectOf(p, conditionBody).Ok?
      && OptObjectMember(ObjectOf(p, conditionBody).value, "response").Some?
      && Periods(p, forecastBody).Ok?
      && ParseForecasts(p, Periods(p, forecastBody).value, metric).Ok?
      && var w := r.value.value;
         && w.forecasts == ParseForecasts(p, Periods(p, forecastBody).value, metric).value
         && |w.forecasts| == 5
         && w.id == w.city && w.metric == metric && w.timestamp == now
         && 0 <= w.conditionCode <= 47
    ensures (&& ObjectOf(p, conditionBody).Ok?
             && OptObjectMember(ObjectOf(p, conditionBody).value, "response").Some?
             && ObjectMember(OptObjectMember(ObjectOf(p, conditionBody).value, "response").value, "ob").Ok?
             && Periods(p, forecastBody).Ok?) ==>
      (ParseForecasts(p, Periods(p, forecastBody).value, metric).Err? ==>
         r == Err(ParseForecasts(p, Periods(p, forecastBody).value, metric).error))
    ensures (&& ObjectOf(p, conditionBody).Ok?
             && OptObjectMember(ObjectOf(p, conditionBody).value, "response").Some?
             && ObjectMember(OptObjectMember(ObjectOf(p, conditionBody).value, "response").value, "ob").Err?) ==>
      r == Err(Structural)
    ensures (&& ObjectOf(p, conditionBody).Ok?
             && OptObjectMember(ObjectOf(p, conditionBody).value, "response").Some?
             && ObjectMember(OptObjectMember(ObjectOf(p, conditionBody).value, "response").value, "ob").Ok?
             && Periods(p, forecastBody).Ok?
             && ParseForecasts(p, Periods(p, forecastBody).value, metric).Ok?) ==>
      var response := OptObjectMember(ObjectOf(p, conditionBody).value, "response").value;
      var s := Snapshot(p, response, ObjectMember(response, "ob").value,
                        ParseForecasts(p, Periods(p, forecastBody).value, metric).value, metric, now);
      && (s.Ok? ==> r == Ok(Some(s.value)))
      && (s.Err? ==> r == Err(s.error))
  {
    var root :- ObjectOf(p, conditionBody);
    match OptObjectMember(root, "response")
    case None => Ok(None)
    case Some(conditions) =>
      var observation :- ObjectMember(conditions, "ob");
      var periods :- Periods(p, forecastBody);
      var forecasts :- ParseForecasts(p, periods, metric);
      var w :- Snapshot(p, conditions, observation, forecasts, metric, now);
      Ok(Some(w))
  }

  /** `handleWeatherRequest(selection, metric)`: conditions, then forecast; a null body ends the
      request at once; both exception kinds are caught, so the request never throws. */
  function Fetch(p: Platform, retrieve: string -> Option<string>, device: Device, selection: string,
                 metric: bool, now: int): (f: Fetched)
    ensures f.outcome.Returns?
    ensures 1 <= |f.requested| <= 2
    ensures var conditionUrl := WeatherUrl(ApiKey(device), selection);
            var forecastUrl := ForecastUrl(ApiKey(device), selection);
      && f.requested[0] == conditionUrl
      && (retrieve(conditionUrl).None? ==> f == Fetched(Returns(None), [conditionUrl]))
      && (retrieve(conditionUrl).Some? ==> f.requested == [conditionUrl, forecastUrl])
      && (retrieve(conditionUrl).Some? && retrieve(forecastUrl).None? ==> f.outcome == Returns(None))
      && (f.outcome.value.Some? <==>
            && retrieve(conditionUrl).Some? && retrieve(forecastUrl).Some?
            && var attempt := Interpret(p, retrieve(conditionUrl).value, retrieve(forecastUrl).value, metric, now);
               attempt.Ok? && attempt.value.Some?)
      && (f.outcome.value.Some? ==>
            f.outcome.value.value
              == Interpret(p, retrieve(conditionUrl).value, retrieve(forecastUrl).value, metric, now).value.value)
  {
    var key := ApiKey(device);
    var conditionUrl := WeatherUrl(key, selection);
    match retrieve(conditionUrl)
    case None => Fetched(Returns(None), [conditionUrl])
    case Some(conditionBody) =>
      var forecastUrl := ForecastUrl(key, selection);
      var requested := [conditionUrl, forecastUrl];
      match retrieve(forecastUrl)
      case None => Fetched(Returns(None), requested)
      case Some(forecastBody) =>
        match Interpret(p, conditionBody, forecastBody, metric, now)
        case Ok(Some(w)) => Fetched(Returns(Some(w)), requested)
        case _ => Fetched(Returns(None), requested)
  }

  /** A conditions body without a `response` object returns null, after both retrievals. */
  lemma NoResponseReturnsNull(p: Platform, retrieve: string -> Option<string>, device: Device,
                              selection: string, metric: bool, now: int, conditionBody: string)
    requires retrieve(WeatherUrl(ApiKey(device), selection)) == Some(conditionBody)
    requires ObjectOf(p, conditionBody).Ok?
    requires OptObjectMember(ObjectOf(p, conditionBody).value, "response").None?
    ensures Fetch(p, retrieve, device, selection, metric, now).outcome == Returns(None)
    ensures |Fetch(p, retrieve, device, selection, metric, now).requested| == 2
  {
  }

  /** An empty `periods` array makes the request return null. */
  lemma EmptyPeriodsVoidFetch(p: Platform, retrieve: string -> Option<string>, device: Device,
                              selection: string, metric: bool, now: int, forecastBody: string)
    requires retrieve(ForecastUrl(ApiKey(device), selection)) == Some(forecastBody)
    requires Periods(p, forecastBody) == Ok([])
    ensures Fetch(p, retrieve, device, selection, metric, now).outcome == Returns(None)
  {
  }

  /** A forecast day whose temperature does not parse makes the whole request return null,
      even when the conditions are complete. */
  lemma NumericDayVoidsFetch(p: Platform, retrieve: string -> Option<string>, device: Device,
                             selection: string, metric: bool, now: int, forecastBody: string, i: nat)
    requires retrieve(ForecastUrl(ApiKey(device), selection)) == Some(forecastBody)
    requires Periods(p, forecastBody).Ok? && i < 5
    requires Day(p, Periods(p, forecastBody).value, i, metric) == Err(Numeric)
    ensures Fetch(p, retrieve, device, selection, metric, now).outcome == Returns(None)
  {
    assert ParseForecasts(p, Periods(p, forecastBody).value, metric).Err?;
  }

  /** `getCustomWeather(id, metric)`: the request for the id verbatim, e.g. a search hit's
      coordinate pair. */
  function CustomWeather(p: Platform, retrieve: string -> Option<string>, device: Device, id: string,
                         metric: bool, now: int): (f: Fetched)
    ensures f.outcome.Returns?
    ensures 1 <= |f.requested| && f.requested[0] == WeatherUrl(ApiKey(device), id)
    ensures |f.requested| == 2 ==> f.requested[1] == ForecastUrl(ApiKey(device), id)
  {
    Fetch(p, retrieve, device, id, metric, now)
  }
}
