/** Option and Result, the two shapes the gateway uses for "maybe absent" and
    "value or Go error". Errors carry the message text the Go code formats. */
module Wrappers {

  datatype Option<+T> = None | Some(value: T)

  datatype Result<+T> = Ok(value: T) | Err(msg: string) {
    predicate IsFailure() { Err? }
    function PropagateFailure<U>(): Result<U>
      requires Err?
    {
      Err(msg)
    }
    function Extract(): T
      requires Ok?
    {
      value
    }
  }
}
