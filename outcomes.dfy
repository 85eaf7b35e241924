/** Values standing for `null`/`undefined` and for thrown errors. */
module Outcomes {

  /** An optional value: `None` stands for `null` or `undefined`. */
  datatype Option<+T> = None | Some(value: T)

  /** The kinds of error the gateway and the chat store raise. The source throws
      `Error` objects with fixed message texts; the model keeps only their kind. */
  datatype ErrorKind =
    | NotInitialised     // sendTextMessage while no SDK instance exists
    | LoginFailed        // the provider answered login with a non-zero result code
    | SendFailed         // the provider answered sendMessage with a non-zero result code
    | ProviderRejected   // a provider call was rejected; the rejection is re-raised unchanged
    | InvalidState       // sendMessage with no selected conversation or before the SDK is ready
    | MissingMessageList // updateStreamingMessage dereferences the list of a never-loaded conversation

  /** The outcome of an operation that may raise. */
  datatype Result<+T> = Ok(value: T) | Err(error: ErrorKind)
}
