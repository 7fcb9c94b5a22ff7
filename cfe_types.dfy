/**
 * Status codes and failure-carrying wrappers shared by the flight-software
 * components.  The cFE status values are named, not numbered: only their
 * identity matters to the pipelines, which compare them for equality.
 */
module Cfe {

  /** The cFE status codes that the modelled functions return (CFE_Status_t). */
  datatype Status =
    | Success               // CFE_SUCCESS
    | ExternalResourceFail  // CFE_STATUS_EXTERNAL_RESOURCE_FAIL
    | WrongMsgLength        // CFE_STATUS_WRONG_MSG_LENGTH
    | ValidationFailure     // CFE_STATUS_VALIDATION_FAILURE
    | MsgTooBig             // CFE_SB_MSG_TOO_BIG
    | BufAllocErr           // CFE_SB_BUF_ALOC_ERR
    | MsgBadArgument        // CFE_MSG_BAD_ARGUMENT, as returned by CFE_MSG_SetSize
    | Other(code: int)      // any other code a cFE service may return

  /** Outcome of a call into a library whose own error codes are only logged. */
  datatype Result<+T> = Ok(value: T) | Err

  datatype Option<+T> = None | Some(value: T)
}
