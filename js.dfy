/**
 * The JavaScript values the front-end stores receive from their callers.
 * Numbers are modelled as integers.
 */
module Js {
  datatype JsValue = Null | Undefined | Bool(b: bool) | Number(n: int) | Str(s: string) | Obj(id: nat)

  /** JavaScript truthiness: null, undefined, false, 0 and "" are falsy. */
  predicate Truthy(v: JsValue)
  {
    match v
    case Null => false
    case Undefined => false
    case Bool(b) => b
    case Number(n) => n != 0
    case Str(s) => s != ""
    case Obj(_) => true
  }

  /** A plain JavaScript object as its own enumerable properties. */
  type JsObject = map<string, JsValue>

  /**
   * An argument whose properties an action reads: null or undefined, on
   * which reading a property (or destructuring) throws a TypeError, or any
   * other value, read through its own properties (a primitive reads as an
   * object without the properties asked for).
   */
  datatype Argument = NullOrUndefined | Fields(fields: JsObject)

  /** Property access: a missing property reads as undefined. */
  function Get(o: JsObject, key: string): (v: JsValue)
    ensures key in o ==> v == o[key]
    ensures key !in o ==> v == Undefined
  {
    if key in o then o[key] else Undefined
  }

  /** The statuses after which a store no longer shows a running scan or search. */
  predicate IsTerminal(status: JsValue)
  {
    status == Str("completed") || status == Str("cancelled") || status == Str("error")
  }
}
