/** `ApiRequestError`, the error every API function raises, and the result of
    an API call that either yields a value or raises one. */
module ApiErrors {
  import opened Js

  /** The message shown to the user, the backend's numeric error code when
      it sent one, and the HTTP status when there was a response. */
  datatype ApiError = ApiError(message: string, code: Option<Number>, status: Option<int>)

  datatype Result<T> = Ok(value: T) | Err(error: ApiError)

  /** An error carrying only a message. */
  function Plain(message: string): (e: ApiError)
    ensures e.message == message && e.code.None? && e.status.None?
  {
    ApiError(message, None, None)
  }
}
