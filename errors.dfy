/** Failures reported by the authentication layer. The payloads of the
    variants that wrap a library error are kept as that error's text. */
module AuthErrors {

  datatype AuthenticationError =
    | InvalidCredentials
    | MfaCodeRequired
    | OAuthError(request: string)
    | InvalidResponse(decoding: string)
    | UnsupportedChallenge(challenge: string)
    | SessionFailed
}

/** Failures reported by the REST and WebSocket layer. */
module ApiErrors {
  import opened AuthErrors

  datatype ApiError =
    | RequestError(request: string)
    | InvalidResponse(decoding: string)
    | WebsocketError(transport: string)
    | AuthenticationRefreshFailed(cause: AuthenticationError)
    | SinkAlreadyClosed
}

/** The result and option wrappers the model uses for the source's
    `Result` and `Option`. */
module Wrappers {

  datatype Option<+T> = None | Some(value: T)

  datatype Result<+T, +E> = Ok(value: T) | Err(error: E)
}
