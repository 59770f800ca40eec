/**
 * A JSON value as `json.loads` returns it, without floating point numbers. An object keeps its
 * members in document order.
 */
module JsonValues {
  import opened Wrappers
  import opened Text

  datatype Json =
    | JNull
    | JBool(b: bool)
    | JInt(i: int)
    | JStr(s: string)
    | JList(items: seq<Json>)
    | JObj(fields: seq<(string, Json)>)

  /** `obj.get(name)`. */
  function Field(fields: seq<(string, Json)>, name: string): (r: Option<Json>)
    ensures r.Some? ==> exists i :: 0 <= i < |fields| && fields[i].0 == name && fields[i].1 == r.value
    ensures r.None? ==> forall i :: 0 <= i < |fields| ==> fields[i].0 != name
  {
    if |fields| == 0 then None
    else if fields[0].0 == name then Some(fields[0].1)
    else
      var r := Field(fields[1..], name);
      assert forall i :: 1 <= i < |fields| ==> fields[i] == fields[1..][i - 1];
      r
  }

  /** `obj.get(name, default)`. */
  function FieldOr(fields: seq<(string, Json)>, name: string, default: Json): Json {
    Field(fields, name).GetOr(default)
  }

  /** `isinstance(v, int)`: a Python bool is an int too. */
  predicate IsInt(v: Json) {
    v.JInt? || v.JBool?
  }

  function AsInt(v: Json): int
    requires IsInt(v)
  {
    if v.JInt? then v.i else if v.b then 1 else 0
  }

  /** `int(v)`, with None where Python raises. */
  function IntOf(v: Json): Option<int> {
    match v
    case JInt(i) => Some(i)
    case JBool(b) => Some(if b then 1 else 0)
    case JStr(s) => ParseInt(s)
    case _ => None
  }

  /** `int()` gives back the number it is handed, and the number whose decimal text it is handed. */
  lemma IntOfRoundTrip(n: int)
    ensures IntOf(JInt(n)) == Some(n)
    ensures IntOf(JStr(IntToString(n))) == Some(n)
  {
    IntToStringRoundTrip(n);
  }
}
