/**
 * The JavaScript values the action reads and copies, JavaScript truthiness,
 * and the value a caught exception is reported by.
 */
module Js {

  /** A JavaScript value. Numbers are modelled as reals; objects, arrays and
      functions are opaque references. */
  datatype JsValue =
    | Undefined
    | Null
    | Bool(b: bool)
    | Num(n: real)
    | NaN
    | Str(s: string)
    | Obj(ref: nat)

  /** The values an `if (v)` test lets through. */
  predicate Truthy(v: JsValue) {
    match v
    case Undefined => false
    case Null => false
    case Bool(b) => b
    case Num(n) => n != 0.0
    case NaN => false
    case Str(s) => s != ""
    case Obj(_) => true
  }

  /** A caught exception, by the text the action reports for it:
      `e.statusText || JSON.stringify(e)`. */
  datatype Failure = Failure(description: string)

  /** `JSON.stringify` of an `Error` (a `TypeError`, or the action's own
      "Incompatible event" error): such errors have no enumerable fields
      and no `statusText`. */
  const ErrorObjectDescription: string := "{}"

  /** The message passed to `core.setFailed` by every catch block. */
  function FailureMessage(f: Failure): (m: string)
    ensures |m| >= |FailurePrefix| && m[..|FailurePrefix|] == FailurePrefix
    ensures m[|FailurePrefix|..] == f.description
  {
    FailurePrefix + f.description
  }

  const FailurePrefix: string := "Action failed with error: "
}
