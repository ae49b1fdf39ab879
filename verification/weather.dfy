/** The vendor-neutral values both adapters produce, and the logic the adapters share in shape:
    the per-day fallback entry and the API-key resolution. */
module Weather {
  import opened Wrappers
  import opened Json

  /** One location-search hit (`WeatherInfo.WeatherLocation`). */
  datatype WeatherLocation = WeatherLocation(id: string, city: string, countryId: string)

  /** One forecast entry (`WeatherInfo.DayForecast`); the temperatures are in the unit `metric` names. */
  datatype DayForecast = DayForecast(
    low: real, high: real, condition: string, conditionCode: int, date: string, metric: bool)

  /** A weather snapshot (`WeatherInfo`); `timestamp` is the caller's clock when it was assembled. */
  datatype WeatherInfo = WeatherInfo(
    id: string, city: string, condition: string, conditionCode: int,
    temperature: real, humidity: real, windSpeed: real, windDirection: int,
    metric: bool, forecasts: seq<DayForecast>, timestamp: int)

  /** How a Java method ends: it returns a value or null, or an exception escapes it. */
  datatype Call<+T> = Returns(value: Option<T>) | Throws(error: Failure)

  /** A fetch: how it ended and the URLs handed to the retrieval client, in order. */
  datatype Fetched = Fetched(outcome: Call<WeatherInfo>, requested: seq<string>)

  /** What the adapters read from the device: the stored key override, the built-in key
      resource, and the current locale. */
  datatype Device = Device(customKey: string, builtInKey: string, language: string, country: string)

  /** The entry that stands in for a forecast day that could not be read. */
  function Dummy(metric: bool): (d: DayForecast)
    ensures d.low == 0.0 && d.high == 0.0 && d.condition == " " && d.conditionCode == -1
    ensures d.date == "NaN" && d.metric == metric
  {
    DayForecast(0.0, 0.0, " ", -1, "NaN", metric)
  }

  /** The per-day `try { .. } catch (JSONException e) { item = dummy }`: a structural failure
      becomes the dummy entry, a numeric failure is not caught. */
  function Isolated(day: Parsed<DayForecast>, metric: bool): (r: Parsed<DayForecast>)
    ensures r.Err? <==> day == Err(Numeric)
    ensures r.Err? ==> r.error == Numeric
    ensures day == Err(Structural) ==> r == Ok(Dummy(metric))
    ensures day.Ok? ==> r == day
  {
    match day
    case Err(Structural) => Ok(Dummy(metric))
    case _ => day
  }

  /** A forecast loop over its attempted days, in order: each structural failure replaced by the
      dummy entry, the first numeric failure ending the whole loop. */
  function Assemble(attempts: seq<Parsed<DayForecast>>, metric: bool): (r: Parsed<seq<DayForecast>>)
    ensures r.Err? ==> r.error == Numeric
    ensures r.Ok? <==> forall i :: 0 <= i < |attempts| ==> attempts[i] != Err(Numeric)
    ensures r.Ok? ==> |r.value| == |attempts|
    ensures r.Ok? ==> forall i :: 0 <= i < |attempts| ==>
      r.value[i] == if attempts[i].Ok? then attempts[i].value else Dummy(metric)
  {
    if |attempts| == 0 then Ok([])
    else
      var item :- Isolated(attempts[0], metric);
      var rest :- Assemble(attempts[1..], metric);
      Ok([item] + rest)
  }

  /** A loop with no `catch` inside it: every attempt in order, the first failure ending it. */
  function AllOf<T>(attempts: seq<Parsed<T>>): (r: Parsed<seq<T>>)
    ensures r.Ok? <==> forall i :: 0 <= i < |attempts| ==> attempts[i].Ok?
    ensures r.Ok? ==> |r.value| == |attempts|
    ensures r.Ok? ==> forall i :: 0 <= i < |attempts| ==> r.value[i] == attempts[i].value
    ensures r.Err? ==> exists i :: && 0 <= i < |attempts| && attempts[i] == Err(r.error)
                                   && forall j :: 0 <= j < i ==> attempts[j].Ok?
  {
    if |attempts| == 0 then Ok([])
    else
      var item :- attempts[0];
      var rest :- AllOf(attempts[1..]);
      Ok([item] + rest)
  }

  /** `getAPIKey()` as written: `TextUtils.isEmpty(k) && k.length() != expectedLength` selects
      the built-in key, anything else the override. For a positive expected length the length
      test cannot change the outcome: the override wins exactly when it is non-empty. */
  function ResolveKey(device: Device, expectedLength: nat): (key: string)
    ensures |device.customKey| > 0 ==> key == device.customKey
    ensures |device.customKey| == 0 && expectedLength > 0 ==> key == device.builtInKey
    ensures expectedLength == 0 ==> key == device.customKey
  {
    if |device.customKey| == 0 && |device.customKey| != expectedLength then device.builtInKey
    else device.customKey
  }

  /** Neither vendor's expected key length has any effect on which key is used. */
  lemma KeyLengthIrrelevant(device: Device, n: nat, m: nat)
    requires n > 0 && m > 0
    ensures ResolveKey(device, n) == ResolveKey(device, m)
  {
  }

  /** `part` occurs in `s` starting at position `offset`. */
  predicate Slot(s: string, offset: nat, part: string) {
    offset + |part| <= |s| && s[offset..offset + |part|] == part
  }

  /** `s` ends with `suffix`. */
  predicate EndsWith(s: string, suffix: string) {
    |suffix| <= |s| && s[|s| - |suffix|..] == suffix
  }

  /** The three parts of `a + b + c` sit where they were put. */
  lemma Placed(a: string, b: string, c: string)
    ensures Slot(a + b + c, 0, a) && Slot(a + b + c, |a|, b) && EndsWith(a + b + c, c)
  {
    var u := a + b + c;
    assert u[..|a|] == a;
    assert u[|a|..|a| + |b|] == b;
    assert u[|u| - |c|..] == c;
  }

  /** A slot followed by fixed text, inside fixed text: equal URLs mean equal fillings. */
  lemma SlotDetermined(prefix: string, s1: string, s2: string, middle: string, suffix: string)
    requires prefix + (s1 + middle) + suffix == prefix + (s2 + middle) + suffix
    ensures s1 == s2
  {
    var u := prefix + (s1 + middle) + suffix;
    assert |s1| == |s2|;
    assert s1 == u[|prefix|..|prefix| + |s1|];
    assert s2 == (prefix + (s2 + middle) + suffix)[|prefix|..|prefix| + |s2|];
  }

  /** A URL template fills one slot between fixed text: equal URLs mean equal fillings. */
  lemma InfixDetermined(prefix: string, s1: string, s2: string, suffix: string)
    requires prefix + s1 + suffix == prefix + s2 + suffix
    ensures s1 == s2
  {
    var u := prefix + s1 + suffix;
    assert |s1| == |s2|;
    assert s1 == u[|prefix|..|prefix| + |s1|];
    assert s2 == (prefix + s2 + suffix)[|prefix|..|prefix| + |s2|];
  }
}
