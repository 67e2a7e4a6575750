/** Error values of the connector core and the "returns or throws" outcome
    that stands for C++ exceptions in this model. */
module Errors {

  datatype Option<+T> = None | Some(value: T)

  /** Error codes the core distinguishes. The four named ones are members of
      the connector's own error category (cdkerrc); a server error keeps the
      numeric code the server sent; a transport error is any other failure
      reported by the socket layer. */
  datatype ErrorCode =
    | GenericError
    | AuthFailure
    | ProtobufError
    | TlsError
    | ServerError(number: nat)
    | TransportError(errno: int)

  datatype Error = Error(code: ErrorCode, msg: string)

  /** A C++ call either returns a value or raises an error. */
  datatype Outcome<+T> = Return(value: T) | Throw(error: Error)

  /** Bail-out codes: a connect failure carrying one of these is never
      swallowed by the failover logic. */
  predicate IsFatal(code: ErrorCode)
  {
    code.AuthFailure? || code.ProtobufError? || code.TlsError?
  }
}
