/** An already-parsed JSON tree and the accessors of Android's `org.json` that the adapters use.
    Every accessor that can throw `JSONException` returns `Err(Structural)`; the number parsers,
    which throw `NumberFormatException`, return `Err(Numeric)`. */
module Json {
  import opened Wrappers

  /** A JSON value. A number is held as the text Java prints for it. */
  datatype Json =
    | JNull
    | JBool(b: bool)
    | JNum(lexeme: string)
    | JStr(s: string)
    | JArr(items: seq<Json>)
    | JObj(members: map<string, Json>)

  /** The two exception classes the adapters distinguish. */
  datatype Failure =
    | Structural  // org.json.JSONException: missing member or index, wrong JSON type, unparseable text
    | Numeric     // java.lang.NumberFormatException from Float.parseFloat / Integer.parseInt

  type Parsed<T> = Result<T, Failure>

  /** The platform routines the adapters call but whose code is not part of this model. */
  datatype Platform = Platform(
    parseText: string -> Option<Json>,   // the org.json tokenizer behind `new JSONObject(text)`
    render: Json -> string,              // `toString()` of a nested JSONObject or JSONArray
    parseFloat: string -> Option<real>,  // Float.parseFloat / Float.valueOf
    parseInt: string -> Option<int>,     // Integer.parseInt
    uriEncode: string -> string)         // android.net.Uri.encode

  /** The platform's number parsers reject the text Java prints for JSON null, and the empty string. */
  predicate JavaNumbers(p: Platform) {
    && p.parseFloat("null").None? && p.parseInt("null").None?
    && p.parseFloat("").None? && p.parseInt("").None?
  }

  /** The string an `org.json` value coerces to under `getString` or `get(..).toString()`. */
  function Text(p: Platform, j: Json): (t: string)
    ensures j.JStr? ==> t == j.s
    ensures j.JNull? ==> t == "null"
  {
    match j
    case JNull => "null"
    case JBool(b) => if b then "true" else "false"
    case JNum(lexeme) => lexeme
    case JStr(s) => s
    case JArr(_) => p.render(j)
    case JObj(_) => p.render(j)
  }

  /** `new JSONObject(text)`: the text must parse to an object. */
  function ObjectOf(p: Platform, text: string): (r: Parsed<map<string, Json>>)
    ensures r.Ok? <==> p.parseText(text).Some? && p.parseText(text).value.JObj?
    ensures r.Ok? ==> r.value == p.parseText(text).value.members
    ensures r.Err? ==> r.error == Structural
  {
    match p.parseText(text)
    case Some(JObj(m)) => Ok(m)
    case _ => Err(Structural)
  }

  /** `JSONObject.getJSONObject(key)`. */
  function ObjectMember(obj: map<string, Json>, key: string): (r: Parsed<map<string, Json>>)
    ensures r.Ok? <==> key in obj && obj[key].JObj?
    ensures r.Ok? ==> r.value == obj[key].members
    ensures r.Err? ==> r.error == Structural
  {
    if key in obj && obj[key].JObj? then Ok(obj[key].members) else Err(Structural)
  }

  /** `JSONObject.optJSONObject(key)`: null instead of an exception. */
  function OptObjectMember(obj: map<string, Json>, key: string): (r: Option<map<string, Json>>)
    ensures r.Some? <==> key in obj && obj[key].JObj?
    ensures r.Some? ==> r.value == obj[key].members
  {
    if key in obj && obj[key].JObj? then Some(obj[key].members) else None
  }

  /** `JSONObject.getJSONArray(key)`. */
  function ArrayMember(obj: map<string, Json>, key: string): (r: Parsed<seq<Json>>)
    ensures r.Ok? <==> key in obj && obj[key].JArr?
    ensures r.Ok? ==> r.value == obj[key].items
    ensures r.Err? ==> r.error == Structural
  {
    if key in obj && obj[key].JArr? then Ok(obj[key].items) else Err(Structural)
  }

  /** `JSONObject.getString(key)`: any present value coerces to text. */
  function StringMember(p: Platform, obj: map<string, Json>, key: string): (r: Parsed<string>)
    ensures r.Ok? <==> key in obj
    ensures r.Ok? ==> r.value == Text(p, obj[key])
    ensures r.Err? ==> r.error == Structural
  {
    if key in obj then Ok(Text(p, obj[key])) else Err(Structural)
  }

  /** `JSONArray.getString(i)` and `JSONArray.get(i).toString()`: the index must be in range. */
  function StringElement(p: Platform, arr: seq<Json>, i: int): (r: Parsed<string>)
    ensures r.Ok? <==> 0 <= i < |arr|
    ensures r.Ok? ==> r.value == Text(p, arr[i])
    ensures r.Err? ==> r.error == Structural
  {
    if 0 <= i < |arr| then Ok(Text(p, arr[i])) else Err(Structural)
  }

  /** `JSONArray.getJSONObject(i)`. */
  function ObjectElement(arr: seq<Json>, i: int): (r: Parsed<map<string, Json>>)
    ensures r.Ok? <==> 0 <= i < |arr| && arr[i].JObj?
    ensures r.Ok? ==> r.value == arr[i].members
    ensures r.Err? ==> r.error == Structural
  {
    if 0 <= i < |arr| && arr[i].JObj? then Ok(arr[i].members) else Err(Structural)
  }

  /** `Float.parseFloat(text)`. */
  function Float(p: Platform, text: string): (r: Parsed<real>)
    ensures r.Ok? <==> p.parseFloat(text).Some?
    ensures r.Ok? ==> r.value == p.parseFloat(text).value
    ensures r.Err? ==> r.error == Numeric
  {
    match p.parseFloat(text)
    case Some(v) => Ok(v)
    case None => Err(Numeric)
  }

  /** `Integer.parseInt(text)`. */
  function Int(p: Platform, text: string): (r: Parsed<int>)
    ensures r.Ok? <==> p.parseInt(text).Some?
    ensures r.Ok? ==> r.value == p.parseInt(text).value
    ensures r.Err? ==> r.error == Numeric
  {
    match p.parseInt(text)
    case Some(v) => Ok(v)
    case None => Err(Numeric)
  }
}
