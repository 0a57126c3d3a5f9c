/** JavaScript values as they travel in socket.io event payloads, with the
    few operators of the language that the whiteboard's handlers apply to
    them: truthiness, `typeof`, `Array.isArray` and property reads. */
module Payload {

  /** A JavaScript value. Numbers are modelled as reals, so NaN and the
      infinities are not representable. */
  datatype Value =
    | Undefined
    | Null
    | Bool(b: bool)
    | Num(n: real)
    | Str(s: string)
    | Arr(items: seq<Value>)
    | Obj(fields: map<string, Value>)

  /** `null` and `undefined`: reading a property of either throws a TypeError. */
  predicate Nullish(v: Value) {
    v.Undefined? || v.Null?
  }

  /** JavaScript truthiness: `undefined`, `null`, `false`, `0` and `""` are falsy. */
  predicate Truthy(v: Value)
    ensures Truthy(v) ==> !Nullish(v)
  {
    match v
    case Undefined => false
    case Null => false
    case Bool(b) => b
    case Num(n) => n != 0.0
    case Str(s) => s != ""
    case Arr(_) => true
    case Obj(_) => true
  }

  /** The string the `typeof` operator yields. */
  function TypeOf(v: Value): string {
    match v
    case Undefined => "undefined"
    case Null => "object"
    case Bool(_) => "boolean"
    case Num(_) => "number"
    case Str(_) => "string"
    case Arr(_) => "object"
    case Obj(_) => "object"
  }

  /** The property read `v.key` on a value that is not nullish. Arrays and
      strings have a `length`; an object has its own keys; every other
      property reads as `undefined`. A string's `length` counts Unicode
      scalar values here, not UTF-16 code units as in JavaScript. */
  function Prop(v: Value, key: string): Value
    requires !Nullish(v)
  {
    match v
    case Obj(m) => if key in m then m[key] else Undefined
    case Arr(items) => if key == "length" then Num(|items| as real) else Undefined
    case Str(s) => if key == "length" then Num(|s| as real) else Undefined
    case _ => Undefined
  }
}
