/** Failure-compatible result types shared by the model. */
module Wrappers {

  datatype Option<+T> = None | Some(value: T)

  /** `Ok` is a normal return; `Err` is an exception raised by the modelled code. */
  datatype Result<+T, +E> = Ok(value: T) | Err(error: E) {

    predicate IsFailure() {
      Err?
    }

    function PropagateFailure<U>(): Result<U, E>
      requires Err?
    {
      Err(error)
    }

    function Extract(): T
      requires Ok?
    {
      value
    }
  }
}

/** The kinds of Python exception the modelled code can raise. */
module Exceptions {

  datatype Exception =
    | KeyError(key: string)          // a missing dict key or DataFrame column
    | TypeError(context: string)     // a str concatenated with a non-str, `len` of a non-str
    | ValueError(context: string)    // `max([])`, `range` with step 0, `pd.concat([])`
    | IndexError(context: string)    // indexing an empty list
    | UnboundLocalError(name: string) // `del` of a loop variable the loop never bound
    | RequestFailed(url: string)     // the GET, the JSON decoding or the 'data' lookup of one request failed
}
