/** Error classification shared by the client: which failures mean "cannot connect" and which are permanent. */
module SafeErrors {
  datatype ErrorCode =
    | ProtocolConnectFailed
    | ProtocolConnectTimeout
    | ProtocolSchemaMismatch
    | ProtocolResponseValidationFailed
    | ProtocolEventValidationFailed
    | ProtocolSubscribeAckMismatch
    | OtherCode(name: string)

  datatype SafeError = SafeError(code: ErrorCode, message: string)

  predicate IsConnectError(error: SafeError) {
    error.code.ProtocolConnectFailed? || error.code.ProtocolConnectTimeout?
  }

  /** Client and observer builds disagree: retrying would repeat the same exchange. */
  predicate IsPermanent(error: SafeError) {
    || error.code.ProtocolSchemaMismatch?
    || error.code.ProtocolResponseValidationFailed?
    || error.code.ProtocolEventValidationFailed?
    || error.code.ProtocolSubscribeAckMismatch?
  }

  /** Errors fall into three classes: those of a failed connection, those of incompatible builds, and all others. */
  lemma ErrorClasses(error: SafeError)
    ensures IsConnectError(error) <==> error.code == ProtocolConnectFailed || error.code == ProtocolConnectTimeout
    ensures !IsPermanent(error) <==> IsConnectError(error) || error.code.OtherCode?
  {
  }
}
