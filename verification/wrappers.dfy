/** Failure-compatible result type standing in for Rust's `io::Result`. */
module Wrappers {

  /** The only failure the decoders can meet: `read_exact` hit the end of
      the stream before its buffer was full. */
  datatype Error = UnexpectedEof

  datatype Result<+T> = Ok(value: T) | Err(error: Error) {

    predicate IsFailure() {
      Err?
    }

    function PropagateFailure<U>(): Result<U>
      requires Err?
    {
      Err(error)
    }

    function Extract(): T
      requires Ok?
    {
      value
    }
  }
}
