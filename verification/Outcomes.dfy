/** The failure-compatible results the model is written in. */
module Outcomes {

  datatype Option<+T> = None | Some(value: T) {
    predicate IsFailure() {
      None?
    }

    function PropagateFailure<U>(): Option<U>
      requires None?
    {
      None
    }

    function Extract(): T
      requires Some?
    {
      value
    }
  }

  /** Why layer 1 refused a query. Only the reason tag is kept; the message and the hint are text. */
  datatype Reason =
    | ParseFailed
    | WriteOperation
    | DeniedFunction
    | DeniedCommand
    | DeniedOperator
    | PiiColumn
    | PiiUnprovable

  datatype Result<+T> = Ok(value: T) | Err(reason: Reason) {
    predicate IsFailure() {
      Err?
    }

    function PropagateFailure<U>(): Result<U>
      requires Err?
    {
      Err(reason)
    }

    function Extract(): T
      requires Ok?
    {
      value
    }
  }

  /** What reading a prefix of a text yields: a value and the text after it, or a refusal. */
  datatype Step<+T> = Got(value: T, rest: string) | Refused(reason: Reason) {
    predicate IsFailure() {
      Refused?
    }

    function PropagateFailure<U>(): Step<U>
      requires Refused?
    {
      Refused(reason)
    }

    function Extract(): (T, string)
      requires Got?
    {
      (value, rest)
    }
  }
}
