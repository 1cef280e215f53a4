/** Option and Result, failure-compatible so that `:-` can be used with them. */
module Wrappers {

  datatype Option<+T> = None | Some(value: T)

  datatype Result<+T, +E> = Ok(value: T) | Err(error: E) {

    predicate IsFailure() {
      Err?
    }

    function PropagateFailure<U>(): Result<U, E>
      requires Err?
    {
      Err(error)
    }

    function Extract(): T
      requires Ok?
    {
      value
    }
  }
}

/** Python truthiness of the optional arguments the client inspects with `if x:`. */
module Truthiness {
  import opened Wrappers

  /** `bool(x)` for `x: int = None`: false for None and for 0. */
  predicate IntTruthy(x: Option<int>) {
    x.Some? && x.value != 0
  }

  /** `bool(x)` for `x: str = None`: false for None and for "". */
  predicate StrTruthy(x: Option<string>) {
    x.Some? && x.value != ""
  }

  /** `bool(x)` for `x: List[str] = None`: false for None and for []. */
  predicate ListTruthy(x: Option<seq<string>>) {
    x.Some? && x.value != []
  }
}
