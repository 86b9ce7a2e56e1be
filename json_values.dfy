/**
 * JSON values as Python's json module decodes a response body, together with
 * the part of Python's equality and hashing that a dict lookup keyed by such a
 * value depends on.
 */
module JsonValues {

  import opened Options

  /** A decoded JSON value; JNull also stands for Python's None. */
  datatype Json =
    | JNull
    | JBool(b: bool)
    | JInt(i: int)
    | JFloat(x: real)                     // finite floats only
    | JString(s: string)
    | JArray(items: seq<Json>)            // a Python list
    | JObject(fields: map<string, Json>)  // a Python dict

  /** Python's hash() accepts every decoded value except a list or a dict. */
  predicate Hashable(v: Json) {
    !v.JArray? && !v.JObject?
  }

  /**
   * The int that v equals under Python's ==, if there is one:
   * True == 1, False == 0 and a float equals the int it is a whole number of.
   */
  function IntEquivalent(v: Json): (k: Option<int>)
    ensures k.Some? ==> Hashable(v)
    ensures v.JInt? ==> k == Some(v.i)
    ensures v.JBool? ==> k == Some(if v.b then 1 else 0)
    ensures v.JFloat? && k.Some? ==> k.value as real == v.x
    ensures v.JNull? || v.JString? ==> k.None?
  {
    match v
    case JBool(b) => Some(if b then 1 else 0)
    case JInt(i) => Some(i)
    case JFloat(x) => if x.Floor as real == x then Some(x.Floor) else None
    case _ => None
  }

  /** Python's `v == n` for an int n. */
  predicate EqualsInt(v: Json, n: int) {
    IntEquivalent(v) == Some(n)
  }

  /** A float equals an int exactly when they denote the same number. */
  lemma FloatEqualsInt(x: real, n: int)
    ensures EqualsInt(JFloat(x), n) <==> x == n as real
  {
  }

  /** `d.get(key, default)` on a decoded JSON object. */
  function Get(fields: map<string, Json>, key: string, default: Json): Json {
    if key in fields then fields[key] else default
  }
}
