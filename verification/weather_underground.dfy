/** `WeatherUndergroundProvider`: the weather.com v3 adapter. Its forecast arrives as parallel
    arrays, with day and night halves interleaved in the `daypart` arrays. */
module WeatherUnderground {
  import opened Wrappers
  import opened Json
  import opened Weather

  /** Half-day entries the loop walks: indices 2, 4, .., 10 are the day parts. */
  const FORECAST_DAYS: nat := 11
  /** The key length the key resolver tests for (to no effect). */
  const API_KEY_LENGTH: nat := 16
  /** `SELECTION_ID` without its `%s`. */
  const SELECTION_ID: string := "placeid="

  // ---------------------------------------------------------------------------------------
  // Configuration read per request

  /** `getAPIKey()`: the stored override when it is non-empty, otherwise the built-in key. */
  function ApiKey(device: Device): (key: string)
    ensures device.customKey != "" ==> key == device.customKey
    ensures device.customKey == "" ==> key == device.builtInKey
  {
    ResolveKey(device, API_KEY_LENGTH)
  }

  /** `LANGUAGE_CODE_MAPPING`: locale prefix to vendor language code. */
  const LANGUAGE_CODE_MAPPING: map<string, string> := map[
    "bg-" := "BU", "de-" := "DL", "es-" := "SP", "fi-" := "FI",
    "fr-" := "FR", "it-" := "IT", "nl-" := "NL", "pl-" := "PL",
    "pt-" := "BR", "ro-" := "RO", "ru-" := "RU", "se-" := "SW",
    "tr-" := "TR", "uk-" := "UA", "zh-CN" := "CN", "zh-TW" := "TW"
  ]

  /** The keys in the order of the `put` calls; a `HashMap` may hand them out in any order. */
  const DECLARED_ORDER: seq<string> := [
    "bg-", "de-", "es-", "fi-", "fr-", "it-", "nl-", "pl-",
    "pt-", "ro-", "ru-", "se-", "tr-", "uk-", "zh-CN", "zh-TW"
  ]

  /** `order` lists every key of the table and nothing else: a possible iteration order. */
  ghost predicate IterationOrder(order: seq<string>) {
    forall k :: k in order <==> k in LANGUAGE_CODE_MAPPING
  }

  /** The `for (entry : LANGUAGE_CODE_MAPPING.entrySet())` loop of `getLanguageCode()` walking the
      keys in `order`: the code of the first key that prefixes `selector`, else "EN". */
  function LanguageCodeIn(order: seq<string>, selector: string): (code: string)
    requires forall k :: k in order ==> k in LANGUAGE_CODE_MAPPING
    ensures (forall k :: k in order ==> !(k <= selector)) ==> code == "EN"
    ensures (exists k :: k in order && k <= selector) ==>
      exists k :: k in order && k <= selector && code == LANGUAGE_CODE_MAPPING[k]
  {
    if |order| == 0 then "EN"
    else if order[0] <= selector then
      assert order[0] in order;
      LANGUAGE_CODE_MAPPING[order[0]]
    else
      assert forall k :: k in order && k != order[0] ==> k in order[1..];
      assert forall k :: k in order[1..] ==> k in order;
      LanguageCodeIn(order[1..], selector)
  }

  /** The keys are three characters long, except two five-character keys sharing the
      three-character start "zh-", which is not itself a key. */
  lemma KeyShape(k: string)
    requires k in LANGUAGE_CODE_MAPPING
    ensures |k| == 3 || (|k| == 5 && k[..3] == "zh-")
    ensures "zh-" !in LANGUAGE_CODE_MAPPING
  {
  }

  /** Of two prefixes of one sequence, the shorter is a prefix of the longer. */
  lemma PrefixOfPrefix(a: string, b: string, s: string)
    requires a <= s && b <= s && |a| <= |b|
    ensures a == b[..|a|]
  {
    assert a == s[..|a|];
    assert b[..|a|] == s[..|a|];
  }

  /** Two table keys that both prefix one selector are the same key. */
  lemma {:induction false} KeysPrefixFree(k1: string, k2: string, selector: string)
    requires k1 in LANGUAGE_CODE_MAPPING && k2 in LANGUAGE_CODE_MAPPING
    requires k1 <= selector && k2 <= selector
    ensures k1 == k2
  {
    KeyShape(k1);
    KeyShape(k2);
    if |k1| <= |k2| {
      PrefixOfPrefix(k1, k2, selector);
    } else {
      PrefixOfPrefix(k2, k1, selector);
    }
  }

  /** The `HashMap` iteration order cannot change the language code: whatever the order, the
      result is the code of the one key prefixing the selector, or "EN" when no key does. */
  lemma OrderIrrelevant(order: seq<string>, selector: string)
    requires IterationOrder(order)
    ensures forall k :: k in LANGUAGE_CODE_MAPPING && k <= selector ==>
      LanguageCodeIn(order, selector) == LANGUAGE_CODE_MAPPING[k]
    ensures (forall k :: k in LANGUAGE_CODE_MAPPING ==> !(k <= selector)) ==>
      LanguageCodeIn(order, selector) == "EN"
  {
    forall k | k in LANGUAGE_CODE_MAPPING && k <= selector
      ensures LanguageCodeIn(order, selector) == LANGUAGE_CODE_MAPPING[k]
    {
      assert k in order;
      var k' :| k' in order && k' <= selector && LanguageCodeIn(order, selector) == LANGUAGE_CODE_MAPPING[k'];
      KeysPrefixFree(k', k, selector);
    }
  }

  /** `getLanguageCode()` for the device locale `language-country`, walking the keys in the
      order they were put. */
  function LanguageCode(device: Device): (code: string)
    ensures code == "EN" || code in LANGUAGE_CODE_MAPPING.Values
  {
    LanguageCodeIn(DECLARED_ORDER, device.language + "-" + device.country)
  }

  /** The language code of a locale: the table's code for the key prefixing `language-country`,
      or "EN" when no key does. */
  lemma LanguageCodeMatches(device: Device)
    ensures forall k :: k in LANGUAGE_CODE_MAPPING && k <= device.language + "-" + device.country ==>
      LanguageCode(device) == LANGUAGE_CODE_MAPPING[k]
    ensures (forall k :: k in LANGUAGE_CODE_MAPPING ==> !(k <= device.language + "-" + device.country)) ==>
      LanguageCode(device) == "EN"
  {
    OrderIrrelevant(DECLARED_ORDER, device.language + "-" + device.country);
  }

  // ---------------------------------------------------------------------------------------
  // Request URLs

  /** The fixed starts of `URL_LOCATION`, `URL_WEATHER` and `URL_FORECAST`. */
  const LOCATION_BASE: string := "https://api.weather.com/v3/location/search?query="
  const CONDITIONS_BASE: string := "https://api.weather.com/v3/wx/observations/current?"
  const FORECAST_BASE: string := "https://api.weather.com/v3/wx/forecast/daily/5day?"

  /** `URL_LOCATION` filled with key, language and query (`%1$s`, `%2$s`, `%3$s`): the query
      right after the base, then the language, the key last. */
  function LocationUrl(key: string, language: string, query: string): (url: string)
    ensures Slot(url, 0, LOCATION_BASE)
    ensures Slot(url, |LOCATION_BASE|, query + ("&language=" + language))
    ensures EndsWith(url, "&format=json&apiKey=" + key)
    ensures |url| == |LOCATION_BASE| + |query + ("&language=" + language)| + |"&format=json&apiKey=" + key|
  {
    Placed(LOCATION_BASE, query + ("&language=" + language), "&format=json&apiKey=" + key);
    LOCATION_BASE + (query + ("&language=" + language)) + ("&format=json&apiKey=" + key)
  }

  /** `URL_WEATHER`: the selection right after the base, metric units whatever the caller's
      `metric`, then the language, the key last. */
  function WeatherUrl(key: string, language: string, selection: string): (url: string)
    ensures Slot(url, 0, CONDITIONS_BASE)
    ensures Slot(url, |CONDITIONS_BASE|, selection + ("&units=m&language=" + language))
    ensures EndsWith(url, "&format=json&apiKey=" + key)
    ensures |url| == |CONDITIONS_BASE| + |selection + ("&units=m&language=" + language)| + |"&format=json&apiKey=" + key|
  {
    Placed(CONDITIONS_BASE, selection + ("&units=m&language=" + language), "&format=json&apiKey=" + key);
    CONDITIONS_BASE + (selection + ("&units=m&language=" + language)) + ("&format=json&apiKey=" + key)
  }

  /** `URL_FORECAST`: the selection right after the base, metric units, the language, the key
      last. */
  function ForecastUrl(key: string, language: string, selection: string): (url: string)
    ensures Slot(url, 0, FORECAST_BASE)
    ensures Slot(url, |FORECAST_BASE|, selection + ("&format=json&units=m&language=" + language))
    ensures EndsWith(url, "&apiKey=" + key)
    ensures |url| == |FORECAST_BASE| + |selection + ("&format=json&units=m&language=" + language)| + |"&apiKey=" + key|
  {
    Placed(FORECAST_BASE, selection + ("&format=json&units=m&language=" + language), "&apiKey=" + key);
    FORECAST_BASE + (selection + ("&format=json&units=m&language=" + language)) + ("&apiKey=" + key)
  }

  /** Under one key and language, different search texts never share a location URL. */
  lemma LocationUrlDeterminesQuery(key: string, language: string, q1: string, q2: string)
    requires LocationUrl(key, language, q1) == LocationUrl(key, language, q2)
    ensures q1 == q2
  {
    SlotDetermined(LOCATION_BASE, q1, q2, "&language=" + language, "&format=json&apiKey=" + key);
  }

  /** Under one key and language, different selections never share a conditions or forecast URL. */
  lemma UrlsDetermineSelection(key: string, language: string, s1: string, s2: string)
    requires WeatherUrl(key, language, s1) == WeatherUrl(key, language, s2)
          || ForecastUrl(key, language, s1) == ForecastUrl(key, language, s2)
    ensures s1 == s2
  {
    if WeatherUrl(key, language, s1) == WeatherUrl(key, language, s2) {
      SlotDetermined(CONDITIONS_BASE, s1, s2, "&units=m&language=" + language, "&format=json&apiKey=" + key);
    } else {
      SlotDetermined(FORECAST_BASE, s1, s2, "&format=json&units=m&language=" + language, "&apiKey=" + key);
    }
  }

  /** The selector `getCustomWeather` builds from a place id; the id can be read back from it. */
  function CustomSelection(id: string): (selection: string)
    ensures SELECTION_ID <= selection && selection[|SELECTION_ID|..] == id
  {
    SELECTION_ID + id
  }

  // ---------------------------------------------------------------------------------------
  // Location search

  /** `location[key]` is an array with at least `count` entries. */
  ghost predicate Column(location: map<string, Json>, key: string, count: nat) {
    key in location && location[key].JArr? && |location[key].items| >= count
  }

  /** A search body the loop of `getLocations` reads without an exception. No column is read
      when `address` is empty. */
  ghost predicate WellFormedSearch(root: map<string, Json>) {
    && "location" in root && root["location"].JObj?
    && var location := root["location"].members;
       && "address" in location && location["address"].JArr?
       && var count := |location["address"].items|;
          count == 0 || (Column(location, "placeId", count) && Column(location, "city", count)
                         && Column(location, "country", count))
  }

  /** One iteration of the loop of `getLocations`: entry `i` of each of the three columns. */
  function LocationAt(p: Platform, location: map<string, Json>, i: nat): (r: Parsed<WeatherLocation>)
    ensures r.Err? ==> r.error == Structural
    ensures r.Ok? <==> Column(location, "placeId", i + 1) && Column(location, "city", i + 1)
                       && Column(location, "country", i + 1)
    ensures r.Ok? ==> r.value == WeatherLocation(Text(p, location["placeId"].items[i]),
                                                 Text(p, location["city"].items[i]),
                                                 Text(p, location["country"].items[i]))
  {
    var ids :- ArrayMember(location, "placeId");
    var id :- StringElement(p, ids, i);
    var cities :- ArrayMember(location, "city");
    var city :- StringElement(p, cities, i);
    var countries :- ArrayMember(location, "country");
    var country :- StringElement(p, countries, i);
    Ok(WeatherLocation(id, city, country))
  }

  /** The `try` block of `getLocations` on a parsed body: all entries or an exception, never a
      truncated list; element i takes `placeId[i]`, `city[i]` and `country[i]`. */
  function ParseLocations(p: Platform, root: map<string, Json>): (r: Parsed<seq<WeatherLocation>>)
    ensures r.Err? ==> r.error == Structural
    ensures r.Ok? <==> WellFormedSearch(root)
    ensures r.Ok? ==>
      var location := root["location"].members;
      && |r.value| == |location["address"].items|
      && forall i :: 0 <= i < |r.value| ==>
           r.value[i] == WeatherLocation(Text(p, location["placeId"].items[i]),
                                         Text(p, location["city"].items[i]),
                                         Text(p, location["country"].items[i]))
  {
    var location :- ObjectMember(root, "location");
    var address :- ArrayMember(location, "address");
    var attempts := seq(|address|, k requires 0 <= k => LocationAt(p, location, k));
    if |address| == 0 then AllOf(attempts)
    else
      assert attempts[|address| - 1].Ok? ==> forall k :: 0 <= k < |address| ==> attempts[k].Ok?;
      AllOf(attempts)
  }

  /** `getLocations(input)`: one retrieval; null when it fails or the body is malformed. */
  function Locations(p: Platform, retrieve: string -> Option<string>, device: Device, input: string)
    : (r: Option<seq<WeatherLocation>>)
    ensures var url := LocationUrl(ApiKey(device), LanguageCode(device), p.uriEncode(input));
      && (retrieve(url).None? ==> r.None?)
      && (retrieve(url).Some? ==>
            (r.Some? <==> ObjectOf(p, retrieve(url).value).Ok? && WellFormedSearch(ObjectOf(p, retrieve(url).value).value)))
      && (r.Some? ==> r.value == ParseLocations(p, ObjectOf(p, retrieve(url).value).value).value)
  {
    var url := LocationUrl(ApiKey(device), LanguageCode(device), p.uriEncode(input));
    match retrieve(url)
    case None => None
    case Some(body) =>
      match ObjectOf(p, body)
      case Err(_) => None
      case Ok(root) =>
        match ParseLocations(p, root)
        case Ok(locations) => Some(locations)
        case Err(_) => None
  }

  // ---------------------------------------------------------------------------------------
  // Forecast list

  /** Entry `i` of the array `obj[key]`, when there is one. */
  ghost function Cell(obj: map<string, Json>, key: string, i: nat): Option<Json> {
    if key in obj && obj[key].JArr? && i < |obj[key].items| then Some(obj[key].items[i]) else None
  }

  /** `forecasts.getJSONArray("daypart").getJSONObject(0)`. */
  function Dayparts(forecasts: map<string, Json>): (r: Parsed<map<string, Json>>)
    ensures r.Ok? <==> Cell(forecasts, "daypart", 0).Some? && Cell(forecasts, "daypart", 0).value.JObj?
    ensures r.Ok? ==> r.value == Cell(forecasts, "daypart", 0).value.members
    ensures r.Err? ==> r.error == Structural
  {
    var parts :- ArrayMember(forecasts, "daypart");
    ObjectElement(parts, 0)
  }

  /** Tonight's entry: `temperatureMin[0]` as both low and high, the phrase and icon code of
      day part 1, date "NaN". */
  function Tonight(p: Platform, forecasts: map<string, Json>, dayparts: map<string, Json>, metric: bool)
    : (r: Parsed<DayForecast>)
    ensures r.Ok? <==>
      && Cell(forecasts, "temperatureMin", 0).Some?
      && p.parseFloat(Text(p, Cell(forecasts, "temperatureMin", 0).value)).Some?
      && Cell(dayparts, "wxPhraseLong", 1).Some?
      && Cell(dayparts, "iconCode", 1).Some?
      && p.parseInt(Text(p, Cell(dayparts, "iconCode", 1).value)).Some?
    ensures r.Ok? ==>
      var low := p.parseFloat(Text(p, Cell(forecasts, "temperatureMin", 0).value)).value;
      r.value == DayForecast(low, low, Text(p, Cell(dayparts, "wxPhraseLong", 1).value),
                             p.parseInt(Text(p, Cell(dayparts, "iconCode", 1).value)).value, "NaN", metric)
  {
    // The source reads temperatureMin[0] twice; both reads see the same value.
    var mins :- ArrayMember(forecasts, "temperatureMin");
    var lowText :- StringElement(p, mins, 0);
    var low :- Float(p, lowText);
    var phrases :- ArrayMember(dayparts, "wxPhraseLong");
    var phrase :- StringElement(p, phrases, 1);
    var icons :- ArrayMember(dayparts, "iconCode");
    var iconText :- StringElement(p, icons, 1);
    var code :- Int(p, iconText);
    Ok(DayForecast(low, low, phrase, code, "NaN", metric))
  }

  /** How tonight's entry fails: a missing `temperatureMin[0]` is a JSONException, a present but
      unparseable one a NumberFormatException; with its three cells present only a
      NumberFormatException can occur. The source does not catch either here. */
  lemma TonightFailures(p: Platform, forecasts: map<string, Json>, dayparts: map<string, Json>, metric: bool)
    ensures var low := Cell(forecasts, "temperatureMin", 0);
            var r := Tonight(p, forecasts, dayparts, metric);
      && (low.None? ==> r == Err(Structural))
      && (low.Some? && p.parseFloat(Text(p, low.value)).None? ==> r == Err(Numeric))
      && (low.Some? && Cell(dayparts, "wxPhraseLong", 1).Some? && Cell(dayparts, "iconCode", 1).Some? ==>
            r != Err(Structural))
  {
  }

  /** The `try` body for loop index `i`: temperatures at `i/2`, phrase and icon code at day part `i`. */
  function Day(p: Platform, forecasts: map<string, Json>, dayparts: map<string, Json>, i: nat, metric: bool)
    : (r: Parsed<DayForecast>)
  {
    var mins :- ArrayMember(forecasts, "temperatureMin");
    var lowText :- StringElement(p, mins, i / 2);
    var low :- Float(p, lowText);
    var maxs :- ArrayMember(forecasts, "temperatureMax");
    var highText :- StringElement(p, maxs, i / 2);
    var high :- Float(p, highText);
    var phrases :- ArrayMember(dayparts, "wxPhraseLong");
    var phrase :- StringElement(p, phrases, i);
    var icons :- ArrayMember(dayparts, "iconCode");
    var iconText :- StringElement(p, icons, i);
    var code :- Int(p, iconText);
    Ok(DayForecast(low, high, phrase, code, "NaN", metric))
  }

  /** What one loop day reads: it yields an entry exactly when its four cells exist and its three
      numbers parse, and the entry then holds those values; with every cell present only a
      NumberFormatException can occur; a missing `temperatureMin` cell is a JSONException. The
      reads run in source order, so the day fails with a NumberFormatException exactly when a
      number that is read fails to parse before any later cell turns out to be missing. */
  lemma DayReads(p: Platform, forecasts: map<string, Json>, dayparts: map<string, Json>, i: nat, metric: bool)
    ensures var low := Cell(forecasts, "temperatureMin", i / 2);
            var high := Cell(forecasts, "temperatureMax", i / 2);
            var phrase := Cell(dayparts, "wxPhraseLong", i);
            var icon := Cell(dayparts, "iconCode", i);
            var r := Day(p, forecasts, dayparts, i, metric);
      && (r.Ok? <==>
            && low.Some? && p.parseFloat(Text(p, low.value)).Some?
            && high.Some? && p.parseFloat(Text(p, high.value)).Some?
            && phrase.Some?
            && icon.Some? && p.parseInt(Text(p, icon.value)).Some?)
      && (r.Ok? ==>
            r.value == DayForecast(p.parseFloat(Text(p, low.value)).value, p.parseFloat(Text(p, high.value)).value,
                                   Text(p, phrase.value), p.parseInt(Text(p, icon.value)).value, "NaN", metric))
      && (low.Some? && high.Some? && phrase.Some? && icon.Some? ==> r != Err(Structural))
      && (low.None? ==> r == Err(Structural))
      && (low.Some? && p.parseFloat(Text(p, low.value)).None? ==> r == Err(Numeric))
      && (r == Err(Numeric) <==>
            && low.Some?
            && (|| p.parseFloat(Text(p, low.value)).None?
                || (&& high.Some?
                    && (|| p.parseFloat(Text(p, high.value)).None?
                        || (phrase.Some? && icon.Some? && p.parseInt(Text(p, icon.value)).None?)))))
  {
  }

  /** The control of the loop `for (; i < FORECAST_DAYS; i = i + 2)` from index `i` on: the
      indices it visits, `i + 2k` at position `k`, until the index reaches FORECAST_DAYS. */
  function LoopIndices(i: nat): (indices: seq<nat>)
    ensures |indices| == if i < FORECAST_DAYS then (FORECAST_DAYS - i + 1) / 2 else 0
    ensures forall k :: 0 <= k < |indices| ==> indices[k] == i + 2 * k
    decreases FORECAST_DAYS - i
  {
    if i < FORECAST_DAYS then [i] + LoopIndices(i + 2) else []
  }

  /** The `try` bodies of the loop, day parts 2, 4, 6, 8 and 10, in order. */
  function Attempts(p: Platform, forecasts: map<string, Json>, dayparts: map<string, Json>, metric: bool)
    : seq<Parsed<DayForecast>>
  {
    seq(5, k requires 0 <= k => Day(p, forecasts, dayparts, 2 * k + 2, metric))
  }

  /** The attempts are the loop's as the source starts it, at `i = 2`: one per index it visits,
      in the order it visits them, and no others. */
  lemma AttemptsFollowLoop(p: Platform, forecasts: map<string, Json>, dayparts: map<string, Json>, metric: bool)
    ensures var indices := LoopIndices(2);
            var days := Attempts(p, forecasts, dayparts, metric);
      && |days| == |indices|
      && forall k :: 0 <= k < |days| ==> days[k] == Day(p, forecasts, dayparts, indices[k], metric)
  {
  }

  /** `parseForecasts`: six entries, tonight first and then the day parts 2, 4, .., 10; an empty
      forecast object, a missing day-part object or a bad tonight entry fails the whole list. */
  function ParseForecasts(p: Platform, forecasts: map<string, Json>, metric: bool): (r: Parsed<seq<DayForecast>>)
    ensures |forecasts| == 0 ==> r == Err(Structural)
    ensures Dayparts(forecasts).Err? ==> r == Err(Structural)
    ensures Dayparts(forecasts).Ok? && Tonight(p, forecasts, Dayparts(forecasts).value, metric).Err? ==>
      r == Err(Tonight(p, forecasts, Dayparts(forecasts).value, metric).error)
    ensures r.Ok? ==> |r.value| == 6
    ensures r.Ok? ==> (&& Dayparts(forecasts).Ok?
                       && Tonight(p, forecasts, Dayparts(forecasts).value, metric).Ok?
                       && r.value[0] == Tonight(p, forecasts, Dayparts(forecasts).value, metric).value)
  {
    if |forecasts| == 0 then Err(Structural)
    else
      var dayparts :- Dayparts(forecasts);
      var tonight :- Tonight(p, forecasts, dayparts, metric);
      var days :- Assemble(Attempts(p, forecasts, dayparts, metric), metric);
      Ok([tonight] + days)
  }

  /** A list that is built is tonight's entry followed by the assembled loop attempts. */
  lemma ListShape(p: Platform, forecasts: map<string, Json>, metric: bool)
    requires ParseForecasts(p, forecasts, metric).Ok?
    ensures Dayparts(forecasts).Ok?
    ensures Tonight(p, forecasts, Dayparts(forecasts).value, metric).Ok?
    ensures Assemble(Attempts(p, forecasts, Dayparts(forecasts).value, metric), metric).Ok?
    ensures ParseForecasts(p, forecasts, metric).value
         == [Tonight(p, forecasts, Dayparts(forecasts).value, metric).value]
            + Assemble(Attempts(p, forecasts, Dayparts(forecasts).value, metric), metric).value
  {
  }

  /** Entry `k` of a built list, after tonight's, is day part 2k or the dummy entry. */
  lemma ListEntry(p: Platform, forecasts: map<string, Json>, metric: bool, k: nat)
    requires ParseForecasts(p, forecasts, metric).Ok? && 1 <= k < 6
    ensures var day := Day(p, forecasts, Dayparts(forecasts).value, 2 * k, metric);
      ParseForecasts(p, forecasts, metric).value[k] == if day.Ok? then day.value else Dummy(metric)
  {
    ListShape(p, forecasts, metric);
    AttemptAt(p, forecasts, Dayparts(forecasts).value, metric, k - 1, 2 * k);
  }

  /** What the list holds: day part 2j + 2 at position j + 1, or the dummy entry when that part
      broke structurally; and the list exists exactly when the day-part object and tonight's
      entry are read and no day part hits a NumberFormatException. */
  /** Attempt `j` is the loop body run at index `i` = 2j + 2. */
  lemma AttemptAt(p: Platform, forecasts: map<string, Json>, dayparts: map<string, Json>, metric: bool,
                  j: nat, i: nat)
    requires j < 5 && i == 2 * j + 2
    ensures Attempts(p, forecasts, dayparts, metric)[j] == Day(p, forecasts, dayparts, i, metric)
  {
  }

  lemma ForecastListReads(p: Platform, forecasts: map<string, Json>, metric: bool)
    ensures var r := ParseForecasts(p, forecasts, metric);
      && (r.Ok? ==> forall j :: 0 <= j < 5 ==>
            var day := Day(p, forecasts, Dayparts(forecasts).value, 2 * j + 2, metric);
            r.value[j + 1] == if day.Ok? then day.value else Dummy(metric))
      && (r.Ok? <==>
            && |forecasts| != 0 && Dayparts(forecasts).Ok?
            && Tonight(p, forecasts, Dayparts(forecasts).value, metric).Ok?
            && forall j :: 0 <= j < 5 ==> Day(p, forecasts, Dayparts(forecasts).value, 2 * j + 2, metric) != Err(Numeric))
  {
    var r := ParseForecasts(p, forecasts, metric);
    if |forecasts| != 0 && Dayparts(forecasts).Ok? && Tonight(p, forecasts, Dayparts(forecasts).value, metric).Ok? {
      var dayparts := Dayparts(forecasts).value;
      var attempts := Attempts(p, forecasts, dayparts, metric);
      var days := Assemble(attempts, metric);
      assert r == if days.Ok? then Ok([Tonight(p, forecasts, dayparts, metric).value] + days.value) else Err(days.error);
      if r.Ok? {
        forall j | 0 <= j < 5
          ensures var day := Day(p, forecasts, dayparts, 2 * j + 2, metric);
            r.value[j + 1] == if day.Ok? then day.value else Dummy(metric)
        {
          AttemptAt(p, forecasts, dayparts, metric, j, 2 * j + 2);
          assert r.value[j + 1] == days.value[j];
        }
        forall j | 0 <= j < 5 ensures Day(p, forecasts, dayparts, 2 * j + 2, metric) != Err(Numeric) {
          AttemptAt(p, forecasts, dayparts, metric, j, 2 * j + 2);
        }
      } else {
        var j :| 0 <= j < 5 && attempts[j] == Err(Numeric);
        AttemptAt(p, forecasts, dayparts, metric, j, 2 * j + 2);
      }
    }
  }

  /** Once the day-part object and tonight's entry are read, the list can only fail with a
      NumberFormatException: the loop absorbs every JSONException. */
  lemma LoopFailsOnlyNumerically(p: Platform, forecasts: map<string, Json>, metric: bool)
    requires |forecasts| != 0 && Dayparts(forecasts).Ok?
    requires Tonight(p, forecasts, Dayparts(forecasts).value, metric).Ok?
    ensures ParseForecasts(p, forecasts, metric) != Err(Structural)
  {
    var attempts := Attempts(p, forecasts, Dayparts(forecasts).value, metric);
    assert Assemble(attempts, metric) != Err(Structural);
  }

  /** A day part that breaks structurally becomes exactly the dummy entry; the others keep
      what their own fields say. */
  lemma StructuralDayBecomesDummy(p: Platform, forecasts: map<string, Json>, metric: bool, k: nat)
    requires ParseForecasts(p, forecasts, metric).Ok? && 1 <= k < 6
    requires Day(p, forecasts, Dayparts(forecasts).value, 2 * k, metric) == Err(Structural)
    ensures ParseForecasts(p, forecasts, metric).value[k] == Dummy(metric)
  {
    ListEntry(p, forecasts, metric, k);
  }

  /** Tonight's entry sits outside the loop's `try`: a null `temperatureMin[0]` is a
      NumberFormatException that fails the whole list, where a loop day would be dropped or
      replaced. */
  lemma NullTonightFailsList(p: Platform, forecasts: map<string, Json>, metric: bool)
    requires JavaNumbers(p)
    requires |forecasts| != 0 && Dayparts(forecasts).Ok?
    requires Cell(forecasts, "temperatureMin", 0) == Some(JNull)
    ensures ParseForecasts(p, forecasts, metric) == Err(Numeric)
  {
    TonightFailures(p, forecasts, Dayparts(forecasts).value, metric);
    assert Text(p, JNull) == "null";
  }

  /** A day part whose temperature reads as JSON null is not replaced by the dummy entry:
      `Float.parseFloat("null")` throws NumberFormatException, which the loop does not catch, so
      the whole list fails. */
  lemma NullTemperatureFailsList(p: Platform, forecasts: map<string, Json>, metric: bool, k: nat)
    requires JavaNumbers(p) && 1 <= k < 6
    requires Cell(forecasts, "temperatureMin", k) == Some(JNull)
    ensures ParseForecasts(p, forecasts, metric).Err?
  {
    if |forecasts| != 0 && Dayparts(forecasts).Ok? {
      var dayparts := Dayparts(forecasts).value;
      var attempts := Attempts(p, forecasts, dayparts, metric);
      assert attempts[k - 1] == Err(Numeric) by {
        AttemptAt(p, forecasts, dayparts, metric, k - 1, 2 * k);
        DayReads(p, forecasts, dayparts, 2 * k, metric);
        assert (2 * k) / 2 == k;
      }
      assert Assemble(attempts, metric).Err?;
    }
  }

  // ---------------------------------------------------------------------------------------
  // Weather request

  /** The `WeatherInfo` built from the conditions object: id and city "N/A", the long phrase, the
      parsed icon code, temperature, humidity, wind speed and direction, in that reading order.
      The first read that fails decides the kind: a missing member is a JSONException, a present
      number that does not parse a NumberFormatException, so an unparseable `iconCode` throws the
      latter even when `temperature` is missing. Once all six are present only a
      NumberFormatException can occur, as when `iconCode` is null. */
  function Conditions(p: Platform, conditions: map<string, Json>, forecasts: seq<DayForecast>,
                      metric: bool, now: int): (r: Parsed<WeatherInfo>)
    ensures r.Ok? <==>
      && {"wxPhraseLong", "iconCode", "temperature", "relativeHumidity", "windSpeed", "windDirection"}
           <= conditions.Keys
      && p.parseInt(Text(p, conditions["iconCode"])).Some?
      && p.parseFloat(Text(p, conditions["temperature"])).Some?
      && p.parseFloat(Text(p, conditions["relativeHumidity"])).Some?
      && p.parseFloat(Text(p, conditions["windSpeed"])).Some?
      && p.parseInt(Text(p, conditions["windDirection"])).Some?
    ensures r.Ok? ==>
      && r.value.id == "N/A" && r.value.city == "N/A"
      && r.value.condition == Text(p, conditions["wxPhraseLong"])
      && r.value.conditionCode == p.parseInt(Text(p, conditions["iconCode"])).value
      && r.value.temperature == p.parseFloat(Text(p, conditions["temperature"])).value
      && r.value.humidity == p.parseFloat(Text(p, conditions["relativeHumidity"])).value
      && r.value.windSpeed == p.parseFloat(Text(p, conditions["windSpeed"])).value
      && r.value.windDirection == p.parseInt(Text(p, conditions["windDirection"])).value
      && r.value.metric == metric && r.value.forecasts == forecasts && r.value.timestamp == now
    ensures !("wxPhraseLong" in conditions && "iconCode" in conditions) ==> r == Err(Structural)
    ensures ("wxPhraseLong" in conditions && "iconCode" in conditions
             && p.parseInt(Text(p, conditions["iconCode"])).None?) ==> r == Err(Numeric)
    ensures ({"wxPhraseLong", "iconCode", "temperature", "relativeHumidity", "windSpeed", "windDirection"}
               <= conditions.Keys) ==> r != Err(Structural)
    ensures r == Err(Numeric) <==>
      && "wxPhraseLong" in conditions && "iconCode" in conditions
      && (|| p.parseInt(Text(p, conditions["iconCode"])).None?
          || (&& "temperature" in conditions
              && (|| p.parseFloat(Text(p, conditions["temperature"])).None?
                  || (&& "relativeHumidity" in conditions
                      && (|| p.parseFloat(Text(p, conditions["relativeHumidity"])).None?
                          || (&& "windSpeed" in conditions
                              && (|| p.parseFloat(Text(p, conditions["windSpeed"])).None?
                                  || ("windDirection" in conditions
                                      && p.parseInt(Text(p, conditions["windDirection"])).None?))))))))
  {
    var phrase :- StringMember(p, conditions, "wxPhraseLong");
    var iconText :- StringMember(p, conditions, "iconCode");
    var code :- Int(p, iconText);
    var temperatureText :- StringMember(p, conditions, "temperature");
    var temperature :- Float(p, temperatureText);
    var humidityText :- StringMember(p, conditions, "relativeHumidity");
    var humidity :- Float(p, humidityText);
    var windText :- StringMember(p, conditions, "windSpeed");
    var wind :- Float(p, windText);
    var directionText :- StringMember(p, conditions, "windDirection");
    var direction :- Int(p, directionText);
    Ok(WeatherInfo("N/A", "N/A", phrase, code, temperature, humidity, wind, direction, metric, forecasts, now))
  }

  /** The `try` block of `handleWeatherRequest` on the two bodies; its exceptions unhandled. Both
      bodies are parsed and the forecast list is built before any condition is read. */
  function Interpret(p: Platform, conditionBody: string, forecastBody: string, metric: bool, now: int)
    : (r: Parsed<WeatherInfo>)
    ensures r.Ok? ==> ObjectOf(p, conditionBody).Ok? && ObjectOf(p, forecastBody).Ok?
    ensures r.Ok? ==> && r.value.id == "N/A" && r.value.city == "N/A"
                      && r.value.metric == metric && r.value.timestamp == now
                      && ParseForecasts(p, ObjectOf(p, forecastBody).value, metric).Ok?
                      && r.value.forecasts == ParseForecasts(p, ObjectOf(p, forecastBody).value, metric).value
                      && |r.value.forecasts| == 6
    ensures ObjectOf(p, forecastBody) == Ok(map[]) ==> r == Err(Structural)
    ensures ObjectOf(p, conditionBody).Err? || ObjectOf(p, forecastBody).Err? ==> r == Err(Structural)
    ensures (&& ObjectOf(p, conditionBody).Ok? && ObjectOf(p, forecastBody).Ok?
             && ParseForecasts(p, ObjectOf(p, forecastBody).value, metric).Err?) ==>
      r == Err(ParseForecasts(p, ObjectOf(p, forecastBody).value, metric).error)
    ensures (&& ObjectOf(p, conditionBody).Ok? && ObjectOf(p, forecastBody).Ok?
             && ParseForecasts(p, ObjectOf(p, forecastBody).value, metric).Ok?) ==>
      r == Conditions(p, ObjectOf(p, conditionBody).value,
                      ParseForecasts(p, ObjectOf(p, forecastBody).value, metric).value, metric, now)
  {
    var conditions :- ObjectOf(p, conditionBody);
    var forecastRoot :- ObjectOf(p, forecastBody);
    var forecasts :- ParseForecasts(p, forecastRoot, metric);
    Conditions(p, conditions, forecasts, metric, now)
  }

  /** The body of `handleWeatherRequest` once its two URLs are built: conditions, then forecast;
      a null body ends the request at once; only JSONException is caught, so a
      NumberFormatException escapes. */
  function Exchange(p: Platform, retrieve: string -> Option<string>, conditionUrl: string, forecastUrl: string,
                    metric: bool, now: int): (f: Fetched)
    ensures 1 <= |f.requested| <= 2 && f.requested[0] == conditionUrl
    ensures retrieve(conditionUrl).None? ==> f == Fetched(Returns(None), [conditionUrl])
    ensures retrieve(conditionUrl).Some? ==> f.requested == [conditionUrl, forecastUrl]
    ensures retrieve(conditionUrl).Some? && retrieve(forecastUrl).None? ==> f.outcome == Returns(None)
    ensures retrieve(conditionUrl).Some? && retrieve(forecastUrl).Some? ==>
      var attempt := Interpret(p, retrieve(conditionUrl).value, retrieve(forecastUrl).value, metric, now);
      && (attempt == Err(Structural) ==> f.outcome == Returns(None))
      && (attempt == Err(Numeric) ==> f.outcome == Throws(Numeric))
      && (attempt.Ok? ==> f.outcome == Returns(Some(attempt.value)))
    ensures f.outcome.Throws? ==> f.outcome.error == Numeric
    ensures f.outcome.Returns? && f.outcome.value.Some? ==>
      && retrieve(conditionUrl).Some? && retrieve(forecastUrl).Some?
      && Interpret(p, retrieve(conditionUrl).value, retrieve(forecastUrl).value, metric, now).Ok?
      && f.outcome.value.value == Interpret(p, retrieve(conditionUrl).value, retrieve(forecastUrl).value, metric, now).value
      && |f.outcome.value.value.forecasts| == 6
      && f.outcome.value.value.metric == metric && f.outcome.value.value.timestamp == now
  {
    match retrieve(conditionUrl)
    case None => Fetched(Returns(None), [conditionUrl])
    case Some(conditionBody) =>
      var requested := [conditionUrl, forecastUrl];
      match retrieve(forecastUrl)
      case None => Fetched(Returns(None), requested)
      case Some(forecastBody) =>
        match Interpret(p, conditionBody, forecastBody, metric, now)
        case Ok(w) => Fetched(Returns(Some(w)), requested)
        case Err(Structural) => Fetched(Returns(None), requested)
        case Err(Numeric) => Fetched(Throws(Numeric), requested)
  }

  /** `handleWeatherRequest(selection, metric)`: the conditions URL and then the forecast URL for
      the device's key and language; at most the numeric exception escapes, and a snapshot has
      six forecast entries. */
  function Fetch(p: Platform, retrieve: string -> Option<string>, device: Device, selection: string,
                 metric: bool, now: int): (f: Fetched)
    ensures 1 <= |f.requested| <= 2
    ensures f.requested[0] == WeatherUrl(ApiKey(device), LanguageCode(device), selection)
    ensures |f.requested| == 2 ==> f.requested[1] == ForecastUrl(ApiKey(device), LanguageCode(device), selection)
    ensures f.outcome.Throws? ==> f.outcome.error == Numeric
    ensures f.outcome.Returns? && f.outcome.value.Some? ==>
      var w := f.outcome.value.value;
      |w.forecasts| == 6 && w.id == "N/A" && w.metric == metric && w.timestamp == now
  {
    var key := ApiKey(device);
    var language := LanguageCode(device);
    Exchange(p, retrieve, WeatherUrl(key, language, selection), ForecastUrl(key, language, selection), metric, now)
  }

  /** An empty forecast object makes the request return null, not a snapshot without days. */
  lemma EmptyForecastFailsFetch(p: Platform, retrieve: string -> Option<string>, conditionUrl: string,
                                forecastUrl: string, metric: bool, now: int)
    requires retrieve(conditionUrl).Some?
    requires retrieve(forecastUrl).Some? && p.parseText(retrieve(forecastUrl).value) == Some(JObj(map[]))
    ensures Exchange(p, retrieve, conditionUrl, forecastUrl, metric, now).outcome == Returns(None)
  {
  }

  /** A conditions body that is not a JSON object is a JSONException, which the request
      catches: it returns null after both retrievals, and never throws. */
  lemma UnreadableConditionsReturnsNull(p: Platform, retrieve: string -> Option<string>, conditionUrl: string,
                                        forecastUrl: string, metric: bool, now: int)
    requires retrieve(conditionUrl).Some? && retrieve(forecastUrl).Some?
    requires ObjectOf(p, retrieve(conditionUrl).value).Err?
    ensures var f := Exchange(p, retrieve, conditionUrl, forecastUrl, metric, now);
      f.outcome == Returns(None) && f.requested == [conditionUrl, forecastUrl]
  {
  }

  /** A forecast object without a `daypart` array of objects is a JSONException too: the request
      returns null, whatever the conditions say. */
  lemma MissingDaypartsReturnsNull(p: Platform, retrieve: string -> Option<string>, conditionUrl: string,
                                   forecastUrl: string, metric: bool, now: int)
    requires retrieve(conditionUrl).Some? && retrieve(forecastUrl).Some?
    requires ObjectOf(p, retrieve(forecastUrl).value).Ok?
    requires Dayparts(ObjectOf(p, retrieve(forecastUrl).value).value).Err?
    ensures Exchange(p, retrieve, conditionUrl, forecastUrl, metric, now).outcome == Returns(None)
  {
  }

  /** A forecast day whose number does not parse fails the whole forecast list with that error. */
  lemma NumericDayFailsList(p: Platform, forecasts: map<string, Json>, metric: bool, k: nat)
    requires 1 <= k < 6
    requires && |forecasts| != 0 && Dayparts(forecasts).Ok?
             && Tonight(p, forecasts, Dayparts(forecasts).value, metric).Ok?
             && Day(p, forecasts, Dayparts(forecasts).value, 2 * k, metric) == Err(Numeric)
    ensures ParseForecasts(p, forecasts, metric) == Err(Numeric)
  {
    var dayparts := Dayparts(forecasts).value;
    var attempts := Attempts(p, forecasts, dayparts, metric);
    assert attempts[k - 1] == Err(Numeric) by {
      AttemptAt(p, forecasts, dayparts, metric, k - 1, 2 * k);
    }
    assert Assemble(attempts, metric) == Err(Numeric);
  }

  /** A forecast day whose number does not parse makes the exception escape the request. */
  lemma NumericDayEscapes(p: Platform, retrieve: string -> Option<string>, conditionUrl: string,
                          forecastUrl: string, metric: bool, now: int,
                          conditionBody: string, forecastBody: string, k: nat)
    requires retrieve(conditionUrl) == Some(conditionBody) && retrieve(forecastUrl) == Some(forecastBody)
    requires ObjectOf(p, conditionBody).Ok? && ObjectOf(p, forecastBody).Ok?
    requires 1 <= k < 6
    requires var forecasts := ObjectOf(p, forecastBody).value;
      && |forecasts| != 0 && Dayparts(forecasts).Ok?
      && Tonight(p, forecasts, Dayparts(forecasts).value, metric).Ok?
      && Day(p, forecasts, Dayparts(forecasts).value, 2 * k, metric) == Err(Numeric)
    ensures Exchange(p, retrieve, conditionUrl, forecastUrl, metric, now).outcome == Throws(Numeric)
  {
    NumericDayFailsList(p, ObjectOf(p, forecastBody).value, metric, k);
  }

  /** A null `iconCode` in the conditions coerces to "null", which `Integer.parseInt` rejects: a
      NumberFormatException, which the request lets escape (see `Exchange`) even though the
      forecast list was built. */
  lemma NullIconCodeEscapes(p: Platform, conditions: map<string, Json>, forecasts: seq<DayForecast>,
                            metric: bool, now: int)
    requires JavaNumbers(p)
    requires "wxPhraseLong" in conditions && "iconCode" in conditions && conditions["iconCode"] == JNull
    ensures Conditions(p, conditions, forecasts, metric, now) == Err(Numeric)
  {
    assert Text(p, conditions["iconCode"]) == "null";
  }

  /** `getCustomWeather(id, metric)`: the request for selector `placeid=<id>`. */
  function CustomWeather(p: Platform, retrieve: string -> Option<string>, device: Device, id: string,
                         metric: bool, now: int): (f: Fetched)
    ensures 1 <= |f.requested| && f.requested[0] == WeatherUrl(ApiKey(device), LanguageCode(device), SELECTION_ID + id)
    ensures |f.requested| == 2 ==>
      f.requested[1] == ForecastUrl(ApiKey(device), LanguageCode(device), SELECTION_ID + id)
  {
    Fetch(p, retrieve, device, CustomSelection(id), metric, now)
  }

  // ---------------------------------------------------------------------------------------
  // Humidity clean-up

  /** The characters `[^\d.]` does not match: ASCII digits and the dot. */
  predicate NumericChar(c: char) {
    '0' <= c <= '9' || c == '.'
  }

  /** One step of the filter: the head of `s`, kept or dropped, before what it leaves of the tail. */
  function Step(s: string, rest: string): string
    requires |s| > 0
  {
    if NumericChar(s[0]) then [s[0]] + rest else rest
  }

  /** The step keeps only digits and dots. */
  lemma StepNumeric(s: string, rest: string)
    requires |s| > 0 && forall i :: 0 <= i < |rest| ==> NumericChar(rest[i])
    ensures var r := Step(s, rest); forall i :: 0 <= i < |r| ==> NumericChar(r[i])
  {
    var r := Step(s, rest);
    if NumericChar(s[0]) {
      assert forall i :: 1 <= i < |r| ==> r[i] == rest[i - 1];
    }
  }

  /** The step keeps every digit and dot as often as it occurs. */
  lemma StepCounts(s: string, rest: string)
    requires |s| > 0 && forall c :: NumericChar(c) ==> multiset(rest)[c] == multiset(s[1..])[c]
    ensures forall c :: NumericChar(c) ==> multiset(Step(s, rest))[c] == multiset(s)[c]
  {
    assert s == [s[0]] + s[1..];
    assert multiset(s) == multiset([s[0]]) + multiset(s[1..]);
    if NumericChar(s[0]) {
      assert multiset(Step(s, rest)) == multiset([s[0]]) + multiset(rest);
    }
  }

  /** The step leaves a text of digits and dots as it is. */
  lemma StepIdentity(s: string, rest: string)
    requires |s| > 0
    requires (forall i :: 0 <= i < |s[1..]| ==> NumericChar(s[1..][i])) ==> rest == s[1..]
    ensures (forall i :: 0 <= i < |s| ==> NumericChar(s[i])) ==> Step(s, rest) == s
  {
    if forall i :: 0 <= i < |s| ==> NumericChar(s[i]) {
      assert forall i :: 0 <= i < |s[1..]| ==> NumericChar(s[1..][i]);
      assert s == [s[0]] + s[1..];
    }
  }

  /** The step leaves nothing exactly when there is no digit or dot. */
  lemma StepEmpty(s: string, rest: string)
    requires |s| > 0
    requires |rest| == 0 <==> forall i :: 0 <= i < |s[1..]| ==> !NumericChar(s[1..][i])
    ensures |Step(s, rest)| == 0 <==> forall i :: 0 <= i < |s| ==> !NumericChar(s[i])
  {
    if forall i :: 0 <= i < |s| ==> !NumericChar(s[i]) {
      assert forall i :: 0 <= i < |s[1..]| ==> !NumericChar(s[1..][i]);
    }
    if forall i :: 0 <= i < |s[1..]| ==> !NumericChar(s[1..][i]) {
      assert forall i :: 1 <= i < |s| ==> s[i] == s[1..][i - 1];
    }
  }

  /** The filter as a recursion over the text: each character kept or dropped in turn. */
  function Filtered(s: string): string {
    if |s| == 0 then "" else Step(s, Filtered(s[1..]))
  }

  /** The filter keeps exactly the digits and dots, each as often as it occurs, leaves a numeric
      text as it is and leaves nothing exactly when there is no digit or dot. */
  lemma {:induction false} FilteredReads(s: string)
    ensures var r := Filtered(s);
      && (forall i :: 0 <= i < |r| ==> NumericChar(r[i]))
      && (forall c :: NumericChar(c) ==> multiset(r)[c] == multiset(s)[c])
      && ((forall i :: 0 <= i < |s| ==> NumericChar(s[i])) ==> r == s)
      && (|r| == 0 <==> forall i :: 0 <= i < |s| ==> !NumericChar(s[i]))
  {
    if |s| > 0 {
      var rest := Filtered(s[1..]);
      FilteredReads(s[1..]);
      StepNumeric(s, rest);
      StepCounts(s, rest);
      StepIdentity(s, rest);
      StepEmpty(s, rest);
    }
  }

  /** `string.replaceAll("[^\\d.]", "")`: the digits and dots of `s`, in order. */
  function KeepNumeric(s: string): (r: string)
    ensures forall i :: 0 <= i < |r| ==> NumericChar(r[i])
    ensures forall c :: NumericChar(c) ==> multiset(r)[c] == multiset(s)[c]
    ensures (forall i :: 0 <= i < |s| ==> NumericChar(s[i])) ==> r == s
    ensures |r| == 0 <==> forall i :: 0 <= i < |s| ==> !NumericChar(s[i])
  {
    FilteredReads(s);
    Filtered(s)
  }

  /** The recursion works piecewise. */
  lemma {:induction false} FilteredAppend(a: string, b: string)
    ensures Filtered(a + b) == Filtered(a) + Filtered(b)
  {
    if |a| == 0 {
      assert a + b == b;
    } else {
      assert (a + b)[0] == a[0];
      assert (a + b)[1..] == a[1..] + b;
      FilteredAppend(a[1..], b);
    }
  }

  /** The filter works piecewise, so it keeps the order of what it keeps. */
  lemma KeepNumericAppend(a: string, b: string)
    ensures KeepNumeric(a + b) == KeepNumeric(a) + KeepNumeric(b)
  {
    FilteredAppend(a, b);
  }

  /** Filtering twice is filtering once. */
  lemma KeepNumericIdempotent(s: string)
    ensures KeepNumeric(KeepNumeric(s)) == KeepNumeric(s)
  {
  }

  /** `cleanStrings(string)`: the filtered text as a number, or 1.0 when that does not parse. */
  function CleanStrings(p: Platform, s: string): (v: real)
    ensures p.parseFloat(KeepNumeric(s)).Some? ==> v == p.parseFloat(KeepNumeric(s)).value
    ensures p.parseFloat(KeepNumeric(s)).None? ==> v == 1.0
    ensures (forall i :: 0 <= i < |s| ==> NumericChar(s[i])) ==>
      v == if p.parseFloat(s).Some? then p.parseFloat(s).value else 1.0
  {
    match p.parseFloat(KeepNumeric(s))
    case Some(v) => v
    case None => 1.0
  }

  /** A value with no digit or dot at all (a bare "%") falls back to 1.0. */
  lemma CleanStringsFallback(p: Platform, s: string)
    requires JavaNumbers(p)
    requires forall i :: 0 <= i < |s| ==> !NumericChar(s[i])
    ensures CleanStrings(p, s) == 1.0
  {
  }
}
