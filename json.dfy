/** The values a decoded JSON body can hold, as Python's `json` module hands
    them to the client: `None`, `bool`, `int`, `float`, `str`, `list` and
    `dict` with string keys.  The predicates below are the `isinstance`
    tests the parsers apply to them. */
module Json {

  import opened Wrappers

  datatype Json =
    | JNull
    | JBool(b: bool)
    | JInt(n: int)
    | JFloat(x: real)
    | JStr(str: string)
    | JList(items: seq<Json>)
    | JDict(fields: map<string, Json>)

  /** `key in data`, for a `data` that is a dict. */
  predicate Has(data: Json, key: string)
  {
    data.JDict? && key in data.fields
  }

  /** `isinstance(v, str)` */
  predicate IsStr(v: Json)
  {
    v.JStr?
  }

  /** `isinstance(v, int)`: Python's `bool` is a subclass of `int`, so a JSON
      `true` or `false` passes this test too. */
  predicate IsInt(v: Json)
  {
    v.JInt? || v.JBool?
  }

  /** The integer a value that passes `IsInt` stands for (`True == 1`). */
  function IntValue(v: Json): (n: int)
    requires IsInt(v)
    ensures v.JInt? ==> n == v.n
    ensures v.JBool? ==> (n == 1 <==> v.b) && (n == 0 <==> !v.b)
  {
    if v.JInt? then v.n else if v.b then 1 else 0
  }

  /** `isinstance(v, str | int | float)`: `None`, lists and dicts fail it,
      booleans pass it. */
  predicate IsScalar(v: Json)
  {
    v.JStr? || v.JInt? || v.JBool? || v.JFloat?
  }

  /** A dict field that is a string, or None when the field is missing or is
      not a string. */
  function StrField(data: Json, key: string): (r: Option<string>)
    ensures r.Some? <==> Has(data, key) && data.fields[key].JStr?
    ensures r.Some? ==> data.fields[key] == JStr(r.value)
  {
    if Has(data, key) && data.fields[key].JStr? then Some(data.fields[key].str) else None
  }
}
