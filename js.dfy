/**
 * The JavaScript values that cross the boundaries of the core: tool
 * arguments, request bodies, configuration objects and API replies.
 * Numbers are modelled as reals (no NaN, no infinities, no rounding).
 */
module Js {

  datatype Json =
    | Undefined
    | Null
    | Bool(b: bool)
    | Num(n: real)
    | Str(s: string)
    | Arr(items: seq<Json>)
    | Obj(fields: map<string, Json>)

  /** JavaScript truthiness: what `if (v)` and `v && ...` test. */
  predicate Truthy(v: Json)
  {
    match v
    case Undefined => false
    case Null => false
    case Bool(b) => b
    case Num(n) => n != 0.0
    case Str(s) => s != ""
    case Arr(_) => true
    case Obj(_) => true
  }

  /** Property access `v[key]`: `undefined` when `v` has no such own property. */
  function Get(v: Json, key: string): (r: Json)
    ensures v.Obj? && key in v.fields ==> r == v.fields[key]
    ensures !(v.Obj? && key in v.fields) ==> r == Undefined
  {
    if v.Obj? && key in v.fields then v.fields[key] else Undefined
  }

  /** An object built from a string-valued property, `{ [key]: s }`. */
  function Single(key: string, s: string): (r: Json)
    ensures Get(r, key) == Str(s)
    ensures r.Obj? && r.fields.Keys == {key}
  {
    Obj(map[key := Str(s)])
  }
}
