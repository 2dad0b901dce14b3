/**
 * The fragment of JavaScript's value semantics that the RPC bridge relies on:
 * structured values (the parsed JSON of a message, plus `undefined`), truthiness
 * as used by `!x` and `x || y`, and property access, which throws a TypeError
 * when the receiver is `undefined` or `null`.
 */
module Js {

  datatype Option<+T> = None | Some(value: T)

  /** The outcome of code that may throw: a value, or an Error carrying its message. */
  datatype Result<+T> = Ok(value: T) | Thrown(message: string) {

    predicate IsFailure() {
      Thrown?
    }

    function PropagateFailure<U>(): Result<U>
      requires Thrown?
    {
      Thrown(message)
    }

    function Extract(): T
      requires Ok?
    {
      value
    }

    /** `promise.then(f)` for a function that does not throw. */
    function Map<U>(f: T -> U): Result<U> {
      match this
      case Ok(v) => Ok(f(v))
      case Thrown(m) => Thrown(m)
    }
  }

  /**
   * A JavaScript value as it reaches the handlers. Numbers are integers here;
   * object keys are strings and their order is not observed.
   */
  datatype Value =
    | Undefined
    | Null
    | Bool(b: bool)
    | Num(n: int)
    | Str(s: string)
    | Arr(items: seq<Value>)
    | Obj(fields: map<string, Value>)

  /** JavaScript truthiness: what `if (v)` and `!v` test. */
  predicate Truthy(v: Value) {
    match v
    case Undefined => false
    case Null => false
    case Bool(b) => b
    case Num(n) => n != 0
    case Str(s) => s != ""
    case Arr(_) => true
    case Obj(_) => true
  }

  /** The message of the TypeError thrown by reading `key` from `undefined` or `null` (V8's wording). */
  function TypeErrorMessage(receiver: Value, key: string): string {
    "Cannot read properties of " + (if receiver.Null? then "null" else "undefined") + " (reading '" + key + "')"
  }

  /**
   * Property access `v[key]`. Arrays and strings expose `length`; any other missing
   * property reads as `undefined`; reading from `undefined` or `null` throws.
   */
  function Get(v: Value, key: string): (r: Result<Value>)
    ensures r.Thrown? <==> v.Undefined? || v.Null?
    ensures v.Obj? ==> r == Ok(if key in v.fields then v.fields[key] else Undefined)
  {
    match v
    case Undefined => Thrown(TypeErrorMessage(v, key))
    case Null => Thrown(TypeErrorMessage(v, key))
    case Obj(fields) => Ok(if key in fields then fields[key] else Undefined)
    case Arr(items) => Ok(if key == "length" then Num(|items|) else Undefined)
    case Str(s) => Ok(if key == "length" then Num(|s|) else Undefined)
    case _ => Ok(Undefined)
  }

  /** `!v.length`: true exactly for an empty array or an empty string. */
  lemma LengthFalsyMeansEmpty(v: Value)
    requires v.Arr? || v.Str?
    ensures Get(v, "length").Ok?
    ensures !Truthy(Get(v, "length").value) <==> (if v.Arr? then v.items == [] else v.s == "")
  {
  }
}
