/** Failure-compatible wrappers and the exceptions the client can raise. */
module Errors {

  datatype Option<+T> = None | Some(value: T)

  /** Every exception of the core, by the condition that raises it. */
  datatype Error =
    | MetricKey                      // MetricException: key empty, "0" or over 255 bytes
    | MetricType                     // MetricException: cast not float / int / integer
    | MetricUnit                     // MetricException: unit over 10 bytes
    | UnsupportedPart(key: string)   // a URI part that trim() cannot take as text here
    | MissingPart(key: string)       // ClientException "A <key> is missing."
    | InvalidUuid                    // ClientException "The app uuid is invalid."
    | InvalidCounter                 // ClientException "The counter name is invalid."
    | UnsupportedProtocol            // ClientException "This protocol is not supported."
    | NotSupported                   // debug(): "This method is currently not supported"
    | MethodNotFound                 // __call: "This method does not exist."
    | UnknownLevel                   // log() with a number no level has: TypeError on null name
    | NotAPromise                    // __call declared to return a promise got nothing: TypeError

  datatype Result<+T> = Ok(value: T) | Err(error: Error) {
    predicate IsFailure() { Err? }

    function PropagateFailure<U>(): Result<U>
      requires Err?
    {
      Err(error)
    }

    function Extract(): T
      requires Ok?
    {
      value
    }
  }

  /** A check that either passes or raises. */
  datatype Outcome = Pass | Fail(error: Error) {
    predicate IsFailure() { Fail? }

    function PropagateFailure<U>(): Result<U>
      requires Fail?
    {
      Err(error)
    }
  }
}
