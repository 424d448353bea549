/** The shapes of axios results that the session code inspects. */
module Http {
  import opened Js

  /** An HTTP response as far as it is read: its status and `data.message`
      (`Undefined` when the body or its message is absent). */
  datatype Response = Response(status: int, message: JsString)

  /** An axios error: its own transport-level `message`, and the server's
      response, absent when the request never got one. */
  datatype HttpError = HttpError(message: JsString, response: Option<Response>)

  /** What an awaited request settles to: the `data.body` it delivers, or the error it throws. */
  datatype Outcome<T> = Ok(body: T) | Err(error: HttpError)

  /** `error.response?.data?.message`. */
  function ServerMessage(e: HttpError): JsString {
    match e.response
    case None => Undefined
    case Some(r) => r.message
  }

  /** `error.response?.data?.message || fallback`: the value a thunk rejects with. */
  function RejectionReason(e: HttpError, fallback: string): (r: JsString)
    ensures Truthy(ServerMessage(e)) ==> r == ServerMessage(e)
    ensures !Truthy(ServerMessage(e)) ==> r == Str(fallback)
    ensures fallback != "" ==> Truthy(r)
  {
    Or(ServerMessage(e), Str(fallback))
  }
}
