/** The throwables that cross the listener and the interceptor. */
module Exceptions {
  import opened Wrappers

  /** The members of `ExceptionType` that the listener and the interceptor use. */
  datatype ExceptionType = LocalApplication | RemotingCommunication | Unexpected

  /** An `ApplicationException`, or any other `Throwable`; `message` is `getMessage()`,
      which Java allows to be null. */
  datatype Throwable =
    | ApplicationException(kind: ExceptionType, message: Option<string>)
    | OtherThrowable(message: Option<string>)

  /** What a call into code outside the model did: returned normally or threw. */
  datatype Outcome = Pass | Fail(thrown: Throwable)

  /** Java string concatenation of a possibly null string: null prints as "null". */
  function MessageText(m: Option<string>): string
  {
    if m.Some? then m.value else "null"
  }
}
