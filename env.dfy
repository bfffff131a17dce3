/**
  Everything the engine calls but does not define: caller-supplied functions
  (validators, defaults, transforms, formatters, nested schemas' methods),
  the host's Date and clone facilities, and helpers whose definitions are not
  part of this model.
 */
module Env {
  import opened Wrappers
  import opened JsValues
  import opened ErrorStuff
  import Util

  datatype Host = Host(
    /** Calls a function value with one argument (`Undef` for a call without arguments). */
    apply: (Value, Value) -> Value,
    /** Calls a caller-supplied `formatError` function on an error item. */
    format: (Value, ErrorItem) -> ErrEntry,
    /** The enum test `isEnum`. */
    isEnum: Value -> bool,
    /** The primitive checks `isString`, `isNumber`, `isBoolean`. */
    isString: Value -> bool,
    isNumber: Value -> bool,
    isBoolean: Value -> bool,
    /** `isValidDate`, and `new Date(x)`. */
    isValidDate: Value -> bool,
    newDate: Value -> Value,
    /** `new Date()`: the current time. */
    now: Value,
    /** `defaultCloneFn`. */
    defaultClone: Value -> Value,
    /** `processEnum`: the default value and the validator function of an enum. */
    processEnum: Value -> (Value, Value),
    /** `getErrObj(kind, location, schemaId, property[, value])`. */
    getErrObj: (ErrKind, string, Option<string>, Option<string>, Option<Value>) -> ErrorItem,
    /** `structuredClone`. */
    structuredClone: Value -> Value,
    /**
      The `transformedVal` a validator function records when `transformedFlag`
      is set after being called on an argument, `None` when the flag is not set.
     */
    transformed: (Value, Value) -> Option<Value>,
    /** The function object of the default thunk for a key, as a value. */
    thunkValue: string -> Value
  )

  /** `isDate`: `transform(arg => new Date(arg), isValidDate)`. */
  predicate IsDate(host: Host, v: Value) {
    Util.Transform(host.newDate, host.isValidDate, v).0
  }
}
