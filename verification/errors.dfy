/** The exceptions the client raises, as values. */
module Errors {
  import opened Wrappers
  import opened JsonValues

  datatype Error =
    /** `ValueError`: an authenticator was constructed without a token. */
    | ValueError(message: string)
    /** The module's own `TimeoutError`, wrapping the transport's message. */
    | TimeoutError(message: string)
    /** The module's own `ConnectionError`, wrapping the transport's message. */
    | ConnectionError(message: string)
    /** The HTTP status error raised by `raise_for_status`, re-raised as is. */
    | HttpError(status: int, body: Option<Json>)
    /** The decoding error `resp.json()` raises on a body that is not JSON. */
    | DecodeError
    /** `TypeError`: a keyword argument was given twice. */
    | TypeError(message: string)
    /** `KeyError`/`TypeError` from a page body that lacks `results` or `next`
        or holds values of the wrong kind there. */
    | MalformedPage(message: string)
}
