/**
 * Values as Python's `json.load` returns them, and the Python conversions the application
 * applies to them: `bool(v)`, `int(v)`, `float(v)` and `str(v)`.
 */
module JsonValues {
  import opened Wrappers
  import opened Text
  import opened Clamps

  /** A decoded JSON document: None, bool, int, float, str, list or dict. */
  datatype Json =
    | JNull
    | JBool(b: bool)
    | JInt(i: int)
    | JFloat(x: real)
    | JStr(s: string)
    | JArray(items: seq<Json>)
    | JObject(fields: map<string, Json>)

  /** Python's `bool(v)`: false for None, False, zero and the empty containers. */
  predicate Truthy(j: Json) {
    match j
    case JNull => false
    case JBool(b) => b
    case JInt(i) => i != 0
    case JFloat(x) => x != 0.0
    case JStr(s) => s != []
    case JArray(items) => items != []
    case JObject(fields) => fields != map[]
  }

  /** Python's `int(v)`; `None` stands for the TypeError or ValueError it raises. */
  function PyInt(j: Json): (r: Option<int>)
    ensures r.None? <==> j.JNull? || j.JArray? || j.JObject? || (j.JStr? && ParseInt(j.s).None?)
    ensures j.JFloat? ==> r == Some(Trunc(j.x))
  {
    match j
    case JBool(b) => Some(if b then 1 else 0)
    case JInt(i) => Some(i)
    case JFloat(x) => Some(Trunc(x))
    case JStr(s) => ParseInt(s)
    case _ => None
  }

  /** Python's `float(v)`; `None` stands for the TypeError or ValueError it raises. */
  function PyFloat(j: Json): (r: Option<real>)
    ensures r.None? <==> j.JNull? || j.JArray? || j.JObject? || (j.JStr? && ParseReal(j.s).None?)
    ensures j.JInt? ==> r == Some(j.i as real)
  {
    match j
    case JBool(b) => Some(if b then 1.0 else 0.0)
    case JInt(i) => Some(i as real)
    case JFloat(x) => Some(x)
    case JStr(s) => ParseReal(s)
    case _ => None
  }

  /** Python's `str(v)`. The `repr` of floats, lists and dicts is a foreign formatter. */
  function PyStr(j: Json, repr: Json -> string): (r: string)
    ensures j.JStr? ==> r == j.s
    ensures j.JInt? ==> ParseInt(r) == Some(j.i)
  {
    match j
    case JNull => "None"
    case JBool(b) => if b then "True" else "False"
    case JInt(i) => ParseIntRoundTrip(i); IntToDecimal(i)
    case JStr(s) => s
    case _ => repr(j)
  }

  /** A JSON string holding an integer's decimal text converts back to that integer with
      both `int()` and `float()`. */
  lemma DecimalTextConverts(i: int)
    ensures PyInt(JStr(IntToDecimal(i))) == Some(i)
    ensures PyFloat(JStr(IntToDecimal(i))) == Some(i as real)
  {
    ParseIntRoundTrip(i);
    ParseRealOfInt(i);
  }
}
