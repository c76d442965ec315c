/** A parsed JSON response body as the client sees it after `r.json()`, with
    Python's truthiness, `dict.get`, `int()` and `str()` on such values. */
module Json {
  import opened Builtins

  /** JSON values; an object is a dict from key to value. Numbers with a
      fractional part are not part of this model. */
  datatype Json =
    | JNull
    | JBool(b: bool)
    | JInt(i: int)
    | JStr(s: string)
    | JArr(items: seq<Json>)
    | JObj(fields: map<string, Json>)

  /** Python truthiness: None, False, 0, '', [] and {} are falsy. */
  predicate Truthy(j: Json) {
    match j
    case JNull => false
    case JBool(b) => b
    case JInt(i) => i != 0
    case JStr(s) => s != ""
    case JArr(items) => items != []
    case JObj(fields) => fields != map[]
  }

  /** `d.get(key, default)`. */
  function Get(d: map<string, Json>, key: string, default: Json): Json {
    if key in d then d[key] else default
  }

  /** Python's `int(v)` applied to a JSON value: integers pass, booleans
      become 0 or 1, decimal strings are parsed, None, lists and dicts raise
      TypeError and other strings ValueError. */
  function ToInt(v: Json): (r: Result<int>)
    ensures v.JInt? ==> r == Ok(v.i)
    ensures v.JBool? ==> r == Ok(if v.b then 1 else 0)
    ensures v.JStr? && ParseInt(v.s).Some? ==> r == Ok(ParseInt(v.s).value)
    ensures r.Err? <==> (v.JNull? || v.JArr? || v.JObj? || (v.JStr? && ParseInt(v.s).None?))
    ensures r.Err? ==> (r.error == ValueError <==> v.JStr?)
  {
    match v
    case JInt(i) => Ok(i)
    case JBool(b) => Ok(if b then 1 else 0)
    case JStr(s) => if ParseInt(s).Some? then Ok(ParseInt(s).value) else Err(ValueError)
    case _ => Err(TypeError)
  }

  /** `int(str(n))` on the JSON text of any integer gives it back. */
  lemma ToIntOfText(n: int)
    ensures ToInt(JStr(IntToString(n))) == Ok(n)
  {
    IntToStringRoundTrip(n);
  }

  /** Python's `str(v)` for the scalar values a record attribute holds; a
      list or dict is shown only by its brackets (see README, Left out). */
  function Str(v: Json): (s: string)
    ensures v.JStr? ==> s == v.s
    ensures v.JInt? ==> ToInt(JStr(s)) == Ok(v.i)
  {
    match v
    case JNull => "None"
    case JBool(b) => if b then "True" else "False"
    case JInt(i) => ToIntOfText(i); IntToString(i)
    case JStr(s) => s
    case JArr(_) => "[...]"
    case JObj(_) => "{...}"
  }
}
