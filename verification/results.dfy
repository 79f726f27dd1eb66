/** Failure-compatible result types for the query pipeline, and the kinds of
    exception its operators can raise. */
module Results {

  datatype Option<+T> = None | Some(value: T)

  /** The exceptions the operators raise: `int()` on a malformed argument
      (`ArgumentError`, Python's ValueError), a column outside the split line
      (`IndexError`), and a regular expression that does not compile
      (`PatternError`, Python's re.error). */
  datatype Error = ArgumentError | IndexError | PatternError

  datatype Result<+T> = Ok(value: T) | Err(error: Error) {

    predicate IsFailure() {
      Err?
    }

    function PropagateFailure<U>(): Result<U>
      requires Err?
    {
      Err(error)
    }

    function Extract(): T
      requires Ok?
    {
      value
    }
  }
}
