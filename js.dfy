/** JavaScript values as far as the runner inspects them (through truthiness
    and strict equality), and the arguments of a Node-style completion callback. */
module Js {

  datatype Option<T> = None | Some(value: T)

  datatype Result<T, E> = Ok(value: T) | Err(error: E)

  /** A JavaScript value. Only integral numbers are modelled; `Obj` stands for
      any object, array or function, which are all truthy. */
  datatype Value =
    | Undefined
    | Null
    | Bool(b: bool)
    | Num(n: int)
    | NaN
    | Str(s: string)
    | Obj(tag: string)

  /** JavaScript's `ToBoolean`: what `if (v)` and `!v` test. */
  predicate Truthy(v: Value) {
    match v
    case Undefined => false
    case Null => false
    case NaN => false
    case Bool(b) => b
    case Num(n) => n != 0
    case Str(s) => s != ""
    case Obj(_) => true
  }

  /** The effect of `if (!v) { v = d; }`. */
  function OrDefault(v: Value, d: Value): Value {
    if Truthy(v) then v else d
  }

  /** The arguments `(err, result)` passed to a completion callback such as
      async.js's `step`; `step()` is `Signal(Undefined, Undefined)`. */
  datatype Signal = Signal(err: Value, result: Value) {
    /** async.js treats a completion as failed when its error argument is truthy. */
    predicate IsError() {
      Truthy(err)
    }
  }

  /** How an asynchronous task ends: it calls its completion callback once,
      or it throws before calling back, so the callback is never called. */
  datatype Completion = Completed(signal: Signal) | Threw {
    /** A series does not go on past this task: it threw, or it reported an error. */
    predicate Stops() {
      Threw? || signal.IsError()
    }
  }

  /** The result a completion carries (`undefined` when there is none). */
  function ResultOf(c: Completion): Value {
    match c
    case Completed(s) => s.result
    case Threw => Undefined
  }
}
