/** Results of the parsers and optional values. */
module Wrappers {

  /** The two kinds of failure a parser can end in: the ParseException
      the source raises on purpose, and an uncaught Python error (an
      attribute or type error) that the source does not anticipate. */
  datatype Error = ParseError(reason: string) | Fault(reason: string)

  datatype Result<+T> = Ok(value: T) | Err(error: Error) {
    predicate IsFailure() { Err? }
    function PropagateFailure<U>(): Result<U> requires Err? { Err(error) }
    function Extract(): T requires Ok? { value }
  }

  datatype Option<+T> = None | Some(value: T)
}
