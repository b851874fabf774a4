/**
 * The slice of JavaScript's value semantics the SDK relies on: the values
 * that travel through the channel, truthiness (`if (!x)`), the
 * `x === null || x === undefined` test, and property access, which throws a
 * TypeError on `undefined` and `null`.
 */
module Js {

  datatype Option<+T> = None | Some(value: T)

  datatype Result<+R, +E> = Success(value: R) | Failure(error: E)

  /** A JavaScript value as far as this SDK can observe it. */
  datatype Value =
    | Undefined
    | Null
    | Bool(b: bool)
    | Num(n: int)
    | Str(s: string)
      /** A plain object (a parsed message, a link token, a login response). */
    | Record(fields: map<string, Value>)
      /** An object the SDK never looks into: a Blob, File, Uint8Array or function. */
    | Opaque(handle: nat)
      /** An instance of `Error` or of one of its subclasses, named by `cls`. */
    | ErrorObject(cls: string, message: string, fields: map<string, Value>)

  /** The error `x.p` raises when `x` is `undefined` or `null`. */
  datatype TypeError = TypeError(property: string)

  /** `!!v`: the falsy values are undefined, null, false, 0 and "". */
  predicate Truthy(v: Value)
  {
    match v
    case Undefined => false
    case Null => false
    case Bool(b) => b
    case Num(n) => n != 0
    case Str(s) => s != ""
    case _ => true
  }

  /** `v === null || v === undefined` */
  predicate Nullish(v: Value)
  {
    v == Undefined || v == Null
  }

  /** Every nullish value is falsy, so a truthiness guard also rejects nullish values. */
  lemma NullishIsFalsy(v: Value)
    ensures Nullish(v) ==> !Truthy(v)
  {
  }

  /**
   * `v[key]` for a value that is neither `undefined` nor `null`: own
   * properties of records and error objects; every other value answers
   * `undefined` for the keys this SDK reads.
   */
  function Prop(v: Value, key: string): Value
    requires !Nullish(v)
  {
    match v
    case Record(fields) => if key in fields then fields[key] else Undefined
    case ErrorObject(_, message, fields) =>
      if key in fields then fields[key] else if key == "message" then Str(message) else Undefined
    case _ => Undefined
  }

  /** `v[key]` for any value: reading a property of `undefined` or `null` throws. */
  function Get(v: Value, key: string): (r: Result<Value, TypeError>)
    ensures r.Failure? <==> Nullish(v)
    ensures r.Failure? ==> r.error == TypeError(key)
  {
    if Nullish(v) then Failure(TypeError(key)) else Success(Prop(v, key))
  }

  /** The `TypeError` object a failed property read throws; the message wording is the engine's own. */
  function ThrownValue(e: TypeError): (v: Value)
    ensures v.ErrorObject? && v.cls == "TypeError" && v.fields == map[]
  {
    ErrorObject("TypeError", "Cannot read property '" + e.property + "'", map[])
  }
}
