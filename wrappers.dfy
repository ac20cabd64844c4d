/** Optional values, results, and the exceptions the wrapper classes throw,
    as values. */
module Wrappers {

  datatype Option<T> = None | Some(value: T)

  datatype Result<T, E> = Ok(value: T) | Err(error: E)

  /** The exception kinds of the modelled code. `NotExist` and `CannotOutputAs`
      are the wrapper's own TRspException messages ("... does not exist!",
      "... cannot be output as ..."); `WrongResponseType` is the one thrown by
      CheckRspValid; `NoSignalInfo` to `EmptyAutoBuffer` are the
      TCHRLibConnectionException messages of the sample-data class;
      `AsyncCommandFailed` and `CallbackRegistrationFailed` are the
      connection's exceptions for a failed library call; `OutsideBuffer` is
      an unchecked pointer dereference outside the sample buffer, which the
      source does not detect (its behaviour is undefined); the others are the
      .NET runtime's. */
  datatype Fault =
    | NotExist(index: int)
    | CannotOutputAs(target: string)
    | WrongResponseType
    | IndexOutOfRange
    | ArgumentOutOfRange
    | Argument
    | InvalidCast
    | NoSignalInfo
    | UnknownSignal
    | InvalidSampleIndex
    | InvalidChannelIndex
    | InvalidChannelCount
    | EmptyAutoBuffer
    | OutsideBuffer
    | AsyncCommandFailed
    | CallbackRegistrationFailed
}
