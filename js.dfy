/**
 * JavaScript values as the handlers see them after `JSON.parse` (plus
 * `undefined`), with the language rules the source leans on: truthiness,
 * property reads and `typeof`.
 * Numbers are integers here; NaN and fractions are not part of this model.
 */
module Js {
  datatype Value =
    | Undefined
    | Null
    | Bool(b: bool)
    | Num(n: int)
    | Str(s: string)
    | Arr(items: seq<Value>)
    | Obj(fields: map<string, Value>)

  /** What `if (v)`, `!v`, `v || d` and `v && w` test. */
  predicate Truthy(v: Value)
    ensures IsNullish(v) ==> !Truthy(v)
    ensures v.Arr? || v.Obj? ==> Truthy(v)
  {
    match v
    case Undefined => false
    case Null => false
    case Bool(b) => b
    case Num(n) => n != 0
    case Str(s) => s != ""
    case Arr(_) => true
    case Obj(_) => true
  }

  /** Reading a property from `null` or `undefined` throws a TypeError. */
  predicate IsNullish(v: Value) {
    v.Undefined? || v.Null?
  }

  /** `typeof v === 'object'` (arrays and `null` included). */
  predicate IsTypeofObject(v: Value) {
    v.Null? || v.Arr? || v.Obj?
  }

  /**
   * `v[key]` on a value that is not nullish: an object's own property, and
   * `undefined` for every key this model reads on any other value.
   */
  function Get(v: Value, key: string): (r: Value)
    ensures !v.Obj? ==> r == Undefined
    ensures v.Obj? ==> (r == Undefined || key in v.fields)
  {
    if v.Obj? && key in v.fields then v.fields[key] else Undefined
  }

  /** `new Error(message)` as far as the model reads it: its `message` property. */
  function ErrorObject(message: string): (e: Value)
    ensures Get(e, "message") == Str(message)
  {
    Obj(map["message" := Str(message)])
  }
}
