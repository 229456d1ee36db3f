/** The failures of the builder's operations, and a result type that carries
    either a value or one of them. */
module Outcomes {

  /** The four ways a mutation statement can fail. A failure aborts the call. */
  datatype Error =
    | InvalidTable                  // the table argument is neither a string nor a "no table" value
    | InvalidData                   // the data argument is not a record, a list of records or "no data"
    | InvalidValue(column: string)  // a record holds a value that cannot become a SQL literal
    | MissingTable                  // no table was given and none was set before

  datatype Result<+T> = Ok(value: T) | Err(error: Error) {

    predicate IsFailure() {
      Err?
    }

    function PropagateFailure<U>(): Result<U>
      requires Err?
    {
      Err(error)
    }

    function Extract(): T
      requires Ok?
    {
      value
    }
  }

  datatype Option<+T> = None | Some(value: T)
}
