/** Option and Result, the two failure-carrying shapes the rest of the model uses. */
module Wrappers {

  /** A value that may be missing: JavaScript `undefined`/`null`, C# `null`, Python `None`. */
  datatype Option<+T> = None | Some(value: T) {
    function GetOr(default: T): T {
      match this
      case Some(v) => v
      case None => default
    }
  }

  /** The outcome of an operation that the source can abort by throwing. */
  datatype Result<+R, +E> = Ok(value: R) | Err(error: E) {
    predicate IsFailure() {
      Err?
    }

    function PropagateFailure<U>(): Result<U, E>
      requires Err?
    {
      Err(error)
    }

    function Extract(): R
      requires Ok?
    {
      value
    }
  }
}

/** A field of a decoded JSON object: left out of the object, given as `null`, or given a value. */
module Json {
  datatype Field<+T> = Absent | Null | Present(value: T)
}

/** Numbers of the JavaScript frontend, idealised as reals. */
module JsNumbers {
  /** A JavaScript number, with NaN and the infinities collapsed into one case. */
  datatype JsNumber = Finite(value: real) | NonFinite
}

/** Case mapping of single characters, for the ASCII letters only. */
module Ascii {
  /** Lower-casing one character (`str.lower`, `toLowerCase`). */
  function LowerChar(c: char): char {
    if 'A' <= c <= 'Z' then (c as int + 32) as char else c
  }

  /** Upper-casing one character (`str.upper`, `toUpperCase`). */
  function UpperChar(c: char): char {
    if 'a' <= c <= 'z' then (c as int - 32) as char else c
  }
}
