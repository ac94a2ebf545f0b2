/**
  Python values as the services see them after decoding a JSON request body,
  and the few Python built-ins the handlers apply to them: truth testing,
  the `in` operator, subscription by a string key, `float(...)` and list
  indexing. Every built-in that can raise returns a `Result` whose error
  names the Python exception class.
 */
module PyJson {

  datatype Option<+T> = None | Some(value: T)

  /** The Python exceptions the handlers can meet; `Raised` carries str(e) of any other one. */
  datatype PyError = TypeError | ValueError | IndexError | KeyError | Raised(message: string)

  datatype Result<+T> = Ok(value: T) | Err(error: PyError)

  /** A decoded JSON value: None, bool, int, float, str, list or dict. */
  datatype Json =
    | JNull
    | JBool(b: bool)
    | JInt(i: int)
    | JFloat(x: real)
    | JStr(s: string)
    | JArray(items: seq<Json>)
    | JObject(fields: map<string, Json>)

  /** Python's truth value: None, False, 0, 0.0, "", [] and {} are falsy. */
  predicate Truthy(v: Json) {
    match v
    case JNull => false
    case JBool(b) => b
    case JInt(i) => i != 0
    case JFloat(x) => x != 0.0
    case JStr(s) => s != ""
    case JArray(items) => items != []
    case JObject(fields) => fields != map[]
  }

  /** `t in s` for two Python strings: t occurs contiguously somewhere in s. */
  predicate IsSubstring(t: string, s: string)
    decreases |s|
  {
    t <= s || (s != [] && IsSubstring(t, s[1..]))
  }

  /**
    `key in container` for a string key: a dict tests its keys, a list its
    elements, a string its substrings; None, bool and numbers raise TypeError.
   */
  function Contains(container: Json, key: string): Result<bool> {
    match container
    case JObject(fields) => Ok(key in fields)
    case JArray(items) => Ok(JStr(key) in items)
    case JStr(s) => Ok(IsSubstring(key, s))
    case _ => Err(TypeError)
  }

  /** `container[key]` for a string key: only a dict can be subscripted by a string. */
  function GetItem(container: Json, key: string): Result<Json> {
    match container
    case JObject(fields) => if key in fields then Ok(fields[key]) else Err(KeyError)
    case _ => Err(TypeError)
  }

  /**
    `float(v)`. A bool is an int in Python, so True and False convert to 1.0
    and 0.0; a string is parsed by `parseFloat` (Python's float literal
    grammar, which is not modelled here) and raises ValueError when it does
    not parse; None, lists and dicts raise TypeError.
   */
  function ToFloat(v: Json, parseFloat: string -> Option<real>): Result<real> {
    match v
    case JBool(b) => Ok(if b then 1.0 else 0.0)
    case JInt(i) => Ok(i as real)
    case JFloat(x) => Ok(x)
    case JStr(s) => (match parseFloat(s) case Some(x) => Ok(x) case None => Err(ValueError))
    case _ => Err(TypeError)
  }

  /** `s[i]` on a Python list: a negative index counts from the end. */
  function PyIndex<T>(s: seq<T>, i: int): Result<T> {
    if 0 <= i < |s| then Ok(s[i])
    else if -|s| <= i < 0 then Ok(s[|s| + i])
    else Err(IndexError)
  }

  /** A request body that is a dict whose "features" entry is a list. */
  predicate HasFeatureList(body: Option<Json>) {
    body.Some? && body.value.JObject? && "features" in body.value.fields
    && body.value.fields["features"].JArray?
  }

  function FeatureList(body: Option<Json>): seq<Json>
    requires HasFeatureList(body)
  {
    body.value.fields["features"].items
  }

  /** A list of Python floats as a JSON list. */
  function FloatValues(xs: seq<real>): (r: seq<Json>)
    ensures |r| == |xs| && forall i :: 0 <= i < |xs| ==> r[i] == JFloat(xs[i])
  {
    seq(|xs|, i requires 0 <= i < |xs| => JFloat(xs[i]))
  }

  /** The `{'error': message}` payload every error response carries. */
  function ErrorBody(message: string): Json {
    JObject(map["error" := JStr(message)])
  }
}
