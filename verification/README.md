# OmniJaws weather adapters — a Dafny model

OmniJaws is an Android weather service. It fetches the weather from one of several vendors
and hands it to the rest of the system as a vendor-neutral snapshot (`WeatherInfo`) with a
list of daily forecasts (`DayForecast`). This project models the normalisation layer of two of
those vendor adapters:

- `WeatherUndergroundProvider`, for the weather.com v3 API. Its forecast comes as parallel
  arrays, with day and night halves interleaved in the `daypart` arrays.
- `AerisWeatherProvider`, for the Aeris API. Its forecast comes as an array of one object per
  day period.

For each adapter the model covers:
- how the request URLs are built from the API key, the locale and the selection;
- the location search;
- the weather request, conditions first and then the forecast, with its exception policy;
- the forecast loop with its per-day fallback entry;
- the icon-name to condition-code table;
- the API-key choice;
- for Weather Underground, the locale-to-language table and the humidity clean-up.

## Layout

| file | module | contents |
|---|---|---|
| `wrappers.dfy` | `Wrappers` | `Option` and `Result`, with the failure-propagation members that `:-` needs |
| `json.dfy` | `Json` | a parsed JSON tree, the `org.json` accessors the adapters call, the two exception kinds, and the `Platform` routines taken as parameters |
| `weather.dfy` | `Weather` | the vendor-neutral records, the outcome of a call, the dummy forecast entry, the two loop shapes, the key resolver, URL-slot predicates |
| `wu_icons.dfy` | `WuIcons` | the Weather Underground icon table |
| `aeris_icons.dfy` | `AerisIcons` | the Aeris icon table |
| `weather_underground.dfy` | `WeatherUnderground` | the Weather Underground adapter |
| `aeris.dfy` | `Aeris` | the Aeris adapter |

How Java is modelled:
- A body is a JSON value already parsed by `Platform.parseText`.
- Every `org.json` accessor returns either a value or `Err(Structural)` (a `JSONException`).
  `getString` coerces any present value to text, and JSON null reads as `"null"`.
- `Float.parseFloat` and `Integer.parseInt` are the `Platform` parsers. They return
  `Err(Numeric)` (a `NumberFormatException`) when they reject the text.
- A Java method's end is a `Call`: it `Returns` a value or null, or `Throws`.
- A weather request is a `Fetched` value. It records that end and also the URLs handed to the
  retrieval client, in order.
- Retrieval (`retrieve`) and the clock (`now`) are parameters.

## Model

| member | source | states |
|---|---|---|
| WuIcons.IconCode | src/org/omnirom/omnijaws/WeatherUndergroundProvider.java:214-309 | an icon name gets -1 exactly when the table does not list it, and every listed name gets a code between 4 and 47 |
| WuIcons.TwinsShareCode | src/org/omnirom/omnijaws/WeatherUndergroundProvider.java:214-309 | names listed together under one `return` share a code, including the day and night twins `rain`/`nt_rain`, `snow`/`nt_snow`, `flurries`/`nt_flurries` and `partlycloudy`/`partlysunny` |
| AerisIcons.IconCode | src/org/omnirom/omnijaws/AerisWeatherProvider.java:170-398 | every code is between 0 and 47; an unlisted name gets 0, and 0 otherwise comes only from `blizzard.png` |
| AerisIcons.SharedCodes | src/org/omnirom/omnijaws/AerisWeatherProvider.java:170-398 | the fall-through groups share a code: rain-and-snow and snow showers give 5, the clear-and-windy names give 24, `cloudyw` and `mcloudyr` give 40 |
| AerisIcons.UnknownLooksLikeBlizzard | src/org/omnirom/omnijaws/AerisWeatherProvider.java:393-395 | an unlisted icon name cannot be told apart from `blizzard.png` by its code |
| Weather.Isolated | src/org/omnirom/omnijaws/AerisWeatherProvider.java:146-164 | the per-day `catch (JSONException)`: a structural failure becomes the dummy entry (0, 0, " ", -1, "NaN"); a numeric failure passes through, and it is the only failure that does |
| Weather.Assemble | src/org/omnirom/omnijaws/WeatherUndergroundProvider.java:151-172 | the loop succeeds exactly when no attempt fails numerically; it then has one entry per attempt, which is the attempt's value or the dummy entry; any failure is numeric |
| Weather.AllOf | src/org/omnirom/omnijaws/AerisWeatherProvider.java:55-64 | a loop without an inner `catch` succeeds exactly when every attempt does, and keeps the values in order; otherwise it fails with the error of the first failed attempt |
| Weather.ResolveKey | src/org/omnirom/omnijaws/WeatherUndergroundProvider.java:321-329 | a non-empty stored key wins; an empty stored key gives the built-in key whenever the expected length is positive |
| Weather.KeyLengthIrrelevant | src/org/omnirom/omnijaws/AerisWeatherProvider.java:405-413 | the expected key length (16 or 86) never changes which key is chosen |
| WeatherUnderground.ApiKey | src/org/omnirom/omnijaws/WeatherUndergroundProvider.java:321-329 | the stored key if it is non-empty, otherwise the built-in key |
| WeatherUnderground.LanguageCodeIn | src/org/omnirom/omnijaws/WeatherUndergroundProvider.java:202-212 | for any order of the table's keys: "EN" when no key prefixes the selector, otherwise the code of some key that does |
| WeatherUnderground.KeysPrefixFree | src/org/omnirom/omnijaws/WeatherUndergroundProvider.java:182-200 | no two keys of the language table can both prefix one selector |
| WeatherUnderground.OrderIrrelevant | src/org/omnirom/omnijaws/WeatherUndergroundProvider.java:206-211 | whatever order the `HashMap` yields its keys in, the result is the code of the one matching key, or "EN" |
| WeatherUnderground.LanguageCode | src/org/omnirom/omnijaws/WeatherUndergroundProvider.java:202-212 | the code is "EN" or one of the table's codes |
| WeatherUnderground.LanguageCodeMatches | src/org/omnirom/omnijaws/WeatherUndergroundProvider.java:202-212 | for the locale `language-country`: the table's code for the matching key, "EN" when none matches |
| WeatherUnderground.LocationUrl | src/org/omnirom/omnijaws/WeatherUndergroundProvider.java:34-35 | the URL starts with the search base, the query and then the language follow it, and it ends with the key, with nothing between the slots |
| WeatherUnderground.WeatherUrl | src/org/omnirom/omnijaws/WeatherUndergroundProvider.java:36-37 | the URL starts with the observations base, the selection follows it with metric units and then the language, and it ends with the key, with nothing between the slots |
| WeatherUnderground.ForecastUrl | src/org/omnirom/omnijaws/WeatherUndergroundProvider.java:38-39 | the URL starts with the daily-forecast base, the selection follows it with metric units and then the language, and it ends with the key, with nothing between the slots |
| WeatherUnderground.LocationUrlDeterminesQuery | src/org/omnirom/omnijaws/WeatherUndergroundProvider.java:34-35 | under one key and language, two different search texts never give the same location URL |
| WeatherUnderground.UrlsDetermineSelection | src/org/omnirom/omnijaws/WeatherUndergroundProvider.java:34-39 | under one key and language, two different selections never give the same conditions URL or the same forecast URL |
| WeatherUnderground.CustomSelection | src/org/omnirom/omnijaws/WeatherUndergroundProvider.java:76-79 | the selector is `placeid=` followed by the id, and the id can be read back from it |
| WeatherUnderground.LocationAt | src/org/omnirom/omnijaws/WeatherUndergroundProvider.java:60-66 | entry i exists exactly when all three columns have more than i entries; it then holds `placeId[i]`, `city[i]` and `country[i]` |
| WeatherUnderground.ParseLocations | src/org/omnirom/omnijaws/WeatherUndergroundProvider.java:56-71 | a list exactly when the body has the `location` object and its `address` array, plus (when `address` is non-empty) three columns at least that long; one entry per address, taken column-wise; never a truncated list |
| WeatherUnderground.Locations | src/org/omnirom/omnijaws/WeatherUndergroundProvider.java:46-74 | null when retrieval fails or the body is malformed; otherwise the parsed list |
| WeatherUnderground.Dayparts | src/org/omnirom/omnijaws/WeatherUndergroundProvider.java:139 | the first element of `daypart` if it is an object, otherwise a JSONException |
| WeatherUnderground.Tonight | src/org/omnirom/omnijaws/WeatherUndergroundProvider.java:141-148 | tonight's entry takes `temperatureMin[0]` as both low and high, and the phrase and icon code of day part 1; it exists exactly when those cells exist and parse |
| WeatherUnderground.TonightFailures | src/org/omnirom/omnijaws/WeatherUndergroundProvider.java:141-148 | a missing `temperatureMin[0]` is a JSONException; a present but unparseable one is a NumberFormatException; with its three cells present, only a NumberFormatException can occur |
| WeatherUnderground.NullTonightFailsList | src/org/omnirom/omnijaws/WeatherUndergroundProvider.java:142-148 | a JSON-null `temperatureMin[0]` fails the whole list with a NumberFormatException; tonight gets no dummy entry |
| WeatherUnderground.DayReads | src/org/omnirom/omnijaws/WeatherUndergroundProvider.java:153-160 | a loop day yields an entry exactly when its four cells exist and its three numbers parse, and the entry holds those values; with all cells present, only a NumberFormatException can occur; a missing minimum is a JSONException, and an unparseable minimum is a NumberFormatException; exactly, the day fails with a NumberFormatException when, reading in source order, a present minimum does not parse, or a present maximum does not parse, or the phrase and icon code are present and the icon code does not parse, so a parseable minimum with the maximum missing is a JSONException and the day becomes the dummy |
| WeatherUnderground.LoopIndices | src/org/omnirom/omnijaws/WeatherUndergroundProvider.java:151 | the loop started at i visits i, i+2, i+4, ... while below 11: (11 - i + 1) / 2 indices, index i + 2k at step k |
| WeatherUnderground.AttemptsFollowLoop | src/org/omnirom/omnijaws/WeatherUndergroundProvider.java:151-160 | the attempts the list is built from are the loop body run at each index the loop visits from 2, in that order, and no others |
| WeatherUnderground.ParseForecasts | src/org/omnirom/omnijaws/WeatherUndergroundProvider.java:131-174 | an empty forecast object or a missing day-part object is a JSONException; a failed tonight entry fails the list with its own kind; a list always has six entries, with tonight first |
| WeatherUnderground.ForecastListReads | src/org/omnirom/omnijaws/WeatherUndergroundProvider.java:131-174 | position j+1 holds day part 2j+2, or the dummy entry when that part broke structurally; the list exists exactly when the day-part object and tonight read cleanly and no day part hits a NumberFormatException |
| WeatherUnderground.LoopFailsOnlyNumerically | src/org/omnirom/omnijaws/WeatherUndergroundProvider.java:151-172 | once tonight's entry is read, the list can only fail with a NumberFormatException |
| WeatherUnderground.ListEntry | src/org/omnirom/omnijaws/WeatherUndergroundProvider.java:151-172 | in a built list, entry k (1 to 5) is the loop's day part 2k, or the dummy entry when that day part broke structurally |
| WeatherUnderground.StructuralDayBecomesDummy | src/org/omnirom/omnijaws/WeatherUndergroundProvider.java:161-170 | a day part that breaks structurally is the dummy entry in the list |
| WeatherUnderground.NullTemperatureFailsList | src/org/omnirom/omnijaws/WeatherUndergroundProvider.java:155 | a day minimum that is JSON null fails the whole list rather than blanking its day |
| WeatherUnderground.NumericDayFailsList | src/org/omnirom/omnijaws/WeatherUndergroundProvider.java:151-172 | a day part that hits a NumberFormatException fails the list with that exception |
| WeatherUnderground.Conditions | src/org/omnirom/omnijaws/WeatherUndergroundProvider.java:108-119 | a snapshot exists exactly when the six conditions fields are present and the five numbers parse; it holds id and city "N/A", the long phrase, the parsed icon code, temperature, humidity, wind speed and direction; a missing phrase or icon code is a JSONException; an unparseable icon code is a NumberFormatException; with all six fields present only a NumberFormatException can occur; exactly, a NumberFormatException occurs when the first of the six reads to fail, in source order, is a number that does not parse |
| WeatherUnderground.Interpret | src/org/omnirom/omnijaws/WeatherUndergroundProvider.java:102-122 | a snapshot has id and city "N/A", the request's unit flag and clock, and the six parsed forecast entries; a body that is not a JSON object, or an empty forecast object, is a JSONException; the list's failure passes through with its kind; once both bodies parse and the list is built, the outcome is that of reading the conditions |
| WeatherUnderground.Exchange | src/org/omnirom/omnijaws/WeatherUndergroundProvider.java:88-129 | the conditions URL is requested first; a null conditions body returns null before the forecast is requested; a null forecast body returns null; a JSONException returns null; a NumberFormatException escapes; a snapshot is returned as parsed |
| WeatherUnderground.Fetch | src/org/omnirom/omnijaws/WeatherUndergroundProvider.java:87-129 | the two URLs carry the device's key and language code and the selection; only a NumberFormatException can escape; a snapshot has id "N/A", six forecast entries, the unit flag and the clock |
| WeatherUnderground.UnreadableConditionsReturnsNull | src/org/omnirom/omnijaws/WeatherUndergroundProvider.java:102-126 | a conditions body that is not a JSON object makes the request return null after both retrievals; it never throws |
| WeatherUnderground.MissingDaypartsReturnsNull | src/org/omnirom/omnijaws/WeatherUndergroundProvider.java:102-126 | a forecast object without a day-part object makes the request return null |
| WeatherUnderground.EmptyForecastFailsFetch | src/org/omnirom/omnijaws/WeatherUndergroundProvider.java:136-138 | an empty forecast object makes the request return null, not a snapshot without days |
| WeatherUnderground.NumericDayEscapes | src/org/omnirom/omnijaws/WeatherUndergroundProvider.java:123-126 | a forecast day that hits a NumberFormatException makes the request throw it |
| WeatherUnderground.NullIconCodeEscapes | src/org/omnirom/omnijaws/WeatherUndergroundProvider.java:112-126 | a JSON-null `iconCode` in the conditions is a NumberFormatException, which `Exchange` lets escape the request |
| WeatherUnderground.CustomWeather | src/org/omnirom/omnijaws/WeatherUndergroundProvider.java:76-79 | the request asks first for the conditions of `placeid=<id>`, then for its forecast |
| WeatherUnderground.FilteredReads | src/org/omnirom/omnijaws/WeatherUndergroundProvider.java:314 | the character-by-character filter keeps only digits and dots, each as often as in the input, leaves a text of digits and dots unchanged, and is empty exactly when the input has no digit or dot |
| WeatherUnderground.FilteredAppend | src/org/omnirom/omnijaws/WeatherUndergroundProvider.java:314 | the character-by-character filter of a concatenation is the concatenation of the filtered parts |
| WeatherUnderground.KeepNumeric | src/org/omnirom/omnijaws/WeatherUndergroundProvider.java:314 | the result holds only digits and dots, each as often as in the input; an input of only digits and dots is unchanged; the result is empty exactly when the input has no digit or dot |
| WeatherUnderground.KeepNumericAppend | src/org/omnirom/omnijaws/WeatherUndergroundProvider.java:314 | the filter works character by character: filtering a concatenation is concatenating the filtered parts |
| WeatherUnderground.KeepNumericIdempotent | src/org/omnirom/omnijaws/WeatherUndergroundProvider.java:314 | filtering twice is the same as filtering once |
| WeatherUnderground.CleanStrings | src/org/omnirom/omnijaws/WeatherUndergroundProvider.java:311-319 | the number that the digits-and-dots of the text parse to, or 1.0 when that does not parse; a text that is already only digits and dots is parsed as it is |
| WeatherUnderground.CleanStringsFallback | src/org/omnirom/omnijaws/WeatherUndergroundProvider.java:311-319 | a text with no digit and no dot cleans to 1.0 |
| Aeris.ApiKey | src/org/omnirom/omnijaws/AerisWeatherProvider.java:405-413 | the stored key if it is non-empty, otherwise the built-in key |
| Aeris.LocationUrl | src/org/omnirom/omnijaws/AerisWeatherProvider.java:28-29 | the URL starts with the place-search base ending in `name:`, the query follows it, and it ends with ten results and the key, with nothing between the slots |
| Aeris.WeatherUrl | src/org/omnirom/omnijaws/AerisWeatherProvider.java:30-31 | the URL starts with the observations base, the selection is the next path segment, and it ends with one all-stations result and the key, with nothing between the slots |
| Aeris.ForecastUrl | src/org/omnirom/omnijaws/AerisWeatherProvider.java:32-33 | the URL starts with the forecasts base, the selection is the next path segment, and it ends with five daily periods and the key, with nothing between the slots |
| Aeris.LocationUrlDeterminesQuery | src/org/omnirom/omnijaws/AerisWeatherProvider.java:28-29 | under one key, two different search texts never give the same location URL |
| Aeris.UrlsDetermineSelection | src/org/omnirom/omnijaws/AerisWeatherProvider.java:30-33 | under one key, two different selections never give the same conditions URL or the same forecast URL |
| Aeris.LocationId | src/org/omnirom/omnijaws/AerisWeatherProvider.java:59-60 | the id is the latitude, a comma, then the longitude |
| Aeris.LocationIdInjective | src/org/omnirom/omnijaws/AerisWeatherProvider.java:59-60 | if the latitudes contain no comma, equal ids mean equal latitudes and equal longitudes |
| Aeris.LocationOf | src/org/omnirom/omnijaws/AerisWeatherProvider.java:56-63 | hit i gives a location exactly when it is an object with `loc.lat`, `loc.long`, `place.name` and `place.countryFull`; the location holds those values |
| Aeris.ParseLocations | src/org/omnirom/omnijaws/AerisWeatherProvider.java:50-68 | a list exactly when `response` is an array whose every hit is well formed; one location per hit, in order; never a truncated list |
| Aeris.Locations | src/org/omnirom/omnijaws/AerisWeatherProvider.java:40-71 | null when retrieval fails or the body is malformed; otherwise the parsed list |
| Aeris.Day | src/org/omnirom/omnijaws/AerisWeatherProvider.java:146-154 | an entry read from a period carries the unit flag and an icon code between 0 and 47 |
| Aeris.DayReads | src/org/omnirom/omnijaws/AerisWeatherProvider.java:146-154 | period i yields an entry exactly when it has its five fields and both temperatures (Celsius or Fahrenheit by the unit flag) parse; the entry holds them, with the icon mapped; with all fields present, only a NumberFormatException can occur; a period past the end of the array, or one that is not an object, is a JSONException; exactly, the period fails with a NumberFormatException when a present minimum does not parse, or it parses and a present maximum does not, so a parseable minimum, an unparseable maximum and no `weatherPrimary` still make the request return null |
| Aeris.LoopIndices | src/org/omnirom/omnijaws/AerisWeatherProvider.java:143 | the loop started at i visits i, i+1, ... while below 5: 5 - i indices, index i + k at step k |
| Aeris.AttemptsFollowLoop | src/org/omnirom/omnijaws/AerisWeatherProvider.java:143-154 | the attempts the list is built from are the loop body run at each index the loop visits from 0, in that order, however long the array is |
| Aeris.ParseForecasts | src/org/omnirom/omnijaws/AerisWeatherProvider.java:134-168 | an empty array is a JSONException; a list has five entries, each the period's entry or the dummy entry; it exists exactly when the array is non-empty and no period hits a NumberFormatException |
| Aeris.LoopFailsOnlyNumerically | src/org/omnirom/omnijaws/AerisWeatherProvider.java:143-166 | with a non-empty array, the list can only fail with a NumberFormatException |
| Aeris.MissingPeriodsAreDummies | src/org/omnirom/omnijaws/AerisWeatherProvider.java:143-166 | positions past the end of a short array hold the dummy entry |
| Aeris.NullTemperatureFailsList | src/org/omnirom/omnijaws/AerisWeatherProvider.java:149 | a period minimum that is JSON null fails the whole list |
| Aeris.Periods | src/org/omnirom/omnijaws/AerisWeatherProvider.java:107 | the forecast body's `response[0].periods` array, or a JSONException when any step is missing |
| Aeris.Snapshot | src/org/omnirom/omnijaws/AerisWeatherProvider.java:109-120 | a snapshot exists exactly when the place name and the six observation fields are present and the four numbers parse; the place name is both id and city; the icon goes through the table; the other fields are the parsed values |
| Aeris.Interpret | src/org/omnirom/omnijaws/AerisWeatherProvider.java:99-123 | no `response` object gives null; a snapshot carries the five parsed forecast entries, the unit flag and the clock; a failed forecast list fails the request with the same exception |
| Aeris.Fetch | src/org/omnirom/omnijaws/AerisWeatherProvider.java:83-132 | the request never throws; the conditions URL is requested first, and a null body returns null before the forecast is requested; a snapshot is returned exactly when both bodies arrive and parse to one |
| Aeris.NoResponseReturnsNull | src/org/omnirom/omnijaws/AerisWeatherProvider.java:100-103 | a conditions body without a `response` object returns null, after both retrievals |
| Aeris.EmptyPeriodsVoidFetch | src/org/omnirom/omnijaws/AerisWeatherProvider.java:139-141 | an empty `periods` array makes the request return null |
| Aeris.NumericDayVoidsFetch | src/org/omnirom/omnijaws/AerisWeatherProvider.java:127-129 | a period that hits a NumberFormatException makes the whole request return null |
| Aeris.CustomWeather | src/org/omnirom/omnijaws/AerisWeatherProvider.java:73-75 | the request uses the id as the selection verbatim, so a search hit's coordinate pair selects the conditions and forecast URLs |

## Left out

- `getLocationWeather` in both adapters is left out. It formats two Java `double`s with `%f` or `%s`, and floating-point formatting is not modelled.
- WeatherUnderground.Day: has no postcondition of its own. `WeatherUnderground.DayReads` states what one loop day reads, its value, and exactly when it fails with a NumberFormatException rather than a JSONException. A postcondition on `Day` would be unfolded at every day of every forecast-list proof and push those proofs past the solver's budget.
- `shouldRetry` is left out. It is the constant `false` in both adapters.
- Logging, `Toast` and `Log` calls are left out. They do not affect any result.
- `System.currentTimeMillis()` is the parameter `now`.
- HTTP retrieval is the parameter `retrieve`. `null` from the client is `None`.
- JSON text parsing, the rendering of nested JSON values, `Float.parseFloat`/`Float.valueOf`, `Integer.parseInt` and `Uri.encode` are `Platform` functions passed as parameters. Their code is not part of this model. Only `JavaNumbers`, the fact that "null" and "" do not parse, is assumed where a lemma needs it.
- `org.json`, `AbstractWeatherProvider` and `WeatherInfo` are not part of this model. The accessors follow the documented Android behaviour. The `WeatherInfo` constructor is modelled as a record constructor; any derived fields it computes are left out.
- Repeated identical reads are modelled as one read, since the second read sees the same value. These are the WU `temperatureMin[0]` read at lines 143-144, and the Aeris `loc` and `place` lookups and place name at lines 60-62 and 110-111.
- The Weather Underground icon table is never called by the adapter as written; it is modelled as a table all the same.
- `cleanStrings` is never called in the adapter as written. It is modelled because it is part of the class.
- The locale is modelled as two strings, `language` and `country`. How Android derives them is not modelled.
- The key and the language code are read once per weather request, from one `Device`. The source reads them again for the forecast URL: `getAPIKey()` and `getLanguageCode()` at WeatherUndergroundProvider.java:95, and `getAPIKey()` at AerisWeatherProvider.java:91. These second reads come after the blocking conditions retrieval has returned, and they consult the stored preferences and the device locale again. The model therefore assumes the stored key and the locale do not change between the two retrievals; a change in between, which would put a different key or language into the forecast URL, is not modelled.
- The built-in key is `Device.builtInKey`, a string given to each adapter on its own. Both adapters read the resource named `wug_api_key`, but each passes its own `API_KEY` format argument (`"YOUR_WUG_API_KEY"` for Weather Underground, `"YOUR_AERIES_API_KEY"` for Aeris), so the two built-in keys can differ. The resource lookup is not modelled.

Behaviour of the code worth noting:
- A day whose temperature is JSON null does not become the dummy entry. `Float.parseFloat("null")` throws `NumberFormatException`, and the per-day `catch` only catches `JSONException`. So the Weather Underground request throws, and the Aeris request returns null. The model follows the code.
- An unknown Aeris icon name maps to 0, not -1 as for Weather Underground. That is the same code as `blizzard.png`. The model follows the code.
- The Aeris snapshot reads `windMPH` for metric requests and `windKPH` otherwise, which looks swapped. The model reads the fields as written.
- `getAPIKey`'s test `isEmpty(k) && k.length() != n` is modelled as written. `KeyLengthIrrelevant` shows the length test has no effect.
