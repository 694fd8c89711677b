/**
 * The JavaScript values that `JSON.parse` can produce, plus `undefined`,
 * with the three JavaScript operations the stream mapper relies on:
 * truthiness, property access and `?.[0]` indexing.
 */
module Js {

  /** A JavaScript value as produced by `JSON.parse`; `Undefined` is what a missing property reads as. */
  datatype Value =
    | Undefined
    | Null
    | Bool(b: bool)
    | Num(n: real)
    | Str(s: string)
    | Arr(items: seq<Value>)
    | Obj(fields: map<string, Value>)

  predicate IsNullish(v: Value) {
    v.Undefined? || v.Null?
  }

  /** JavaScript truthiness: `undefined`, `null`, `false`, `0` and `""` are falsy, everything else is truthy. */
  predicate Truthy(v: Value) {
    match v
    case Undefined => false
    case Null => false
    case Bool(b) => b
    case Num(n) => n != 0.0
    case Str(s) => s != ""
    case Arr(_) => true
    case Obj(_) => true
  }

  /**
   * `v.key` (or `v?.key`) on a value that is not nullish: only objects have
   * own properties here, so every other value reads as `undefined`.
   */
  function Get(v: Value, key: string): (r: Value)
  {
    match v
    case Obj(m) => if key in m then m[key] else Undefined
    case _ => Undefined
  }

  /** `v?.key`: optional chaining short-circuits to `undefined` on a nullish value. */
  function GetOpt(v: Value, key: string): (r: Value)
  {
    if IsNullish(v) then Undefined else Get(v, key)
  }

  /** `v?.[0]`: the first element of an array, the first character of a string, property "0" of an object. */
  function FirstOpt(v: Value): (r: Value)
  {
    match v
    case Arr(a) => if |a| > 0 then a[0] else Undefined
    case Str(s) => if |s| > 0 then Str([s[0]]) else Undefined
    case Obj(_) => Get(v, "0")
    case _ => Undefined
  }
}
