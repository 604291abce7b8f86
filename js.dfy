/** The JavaScript values the bodies of the computations handle, and promises
    abstracted to their settled state. */
module Js {
  /** A JavaScript value. Numbers are modelled as integers; an `Error` object is
      modelled by its name and message, and two are equal when both agree. */
  datatype Value =
    | Undefined
    | Num(n: int)
    | Str(s: string)
    | Error(name: string, message: string)

  /** What reading an unbound identifier throws. */
  function ReferenceError(x: string): Value {
    Error("ReferenceError", x + " is not defined")
  }

  /** A promise, by the way it settles. */
  datatype Promise<+T> = Resolved(value: T) | Rejected(reason: Value)
}
