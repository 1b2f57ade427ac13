/**
 * The JavaScript values a parsed JSON request body can hold, and the two
 * operators the handlers use on them: truthiness (`!x`, `x && ...`) and the
 * defaulting `x || d`.
 */
module JsValues {

  /** A JSON value as `JSON.parse` yields it, plus `undefined`, which a
      property read returns for a missing property. JSON numbers are kept
      as reals. */
  datatype Value =
    | Undefined
    | Null
    | Bool(b: bool)
    | Num(n: real)
    | Str(s: string)
    | Arr(elems: seq<Value>)
    | Obj(props: map<string, Value>)

  /** A flat record: the own properties of a JavaScript object. */
  type Record = map<string, Value>

  /** JavaScript truthiness: `undefined`, `null`, `false`, `0` and `""` are
      falsy; every array and object, even an empty one, is truthy. */
  predicate Truthy(v: Value) {
    match v
    case Undefined => false
    case Null => false
    case Bool(b) => b
    case Num(n) => n != 0.0
    case Str(s) => s != ""
    case Arr(_) => true
    case Obj(_) => true
  }

  /** `x || d`: `x` when it is truthy, otherwise `d`. */
  function Or(x: Value, d: Value): (r: Value)
    ensures Truthy(x) ==> r == x
    ensures !Truthy(x) ==> r == d
    ensures Truthy(r) <==> Truthy(x) || Truthy(d)
  {
    if Truthy(x) then x else d
  }

  /** The property read `data[f]`: `undefined` when the property is absent. */
  function Field(data: Record, f: string): Value {
    if f in data then data[f] else Undefined
  }

  /** The properties an object spread `{...v}` copies that a schema field can
      name: an object's own properties, and none for any other value (the
      index properties of a string or an array never match a field name). */
  function Properties(v: Value): Record {
    if v.Obj? then v.props else map[]
  }
}
