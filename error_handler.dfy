/** The backend's central error middleware, and `asyncHandler`, which hands
    whatever a wrapped handler throws to it. */
module ErrorHandler {
  import opened Js
  import opened Options
  import opened Http

  const UpstreamError := "Upstream API error"
  const InternalError := "Internal server error"

  /** `errorHandler(err)`: an upstream error keeps the upstream's status and
      message (or a fixed text); any other error answers `statusCode` or
      500 with its own message or a fixed text. */
  function Handle(err: Failure): (r: Response)
    ensures err.response.Some? ==> r.status == err.response.value.status
    ensures err.response.Some? ==>
      r.body == MessageBody(if Truthy(Prop(err.response.value.data, "status_message"))
                            then Prop(err.response.value.data, "status_message") else Str(UpstreamError))
    ensures err.response.None? ==> r.status == (if Truthy(err.statusCode) then err.statusCode else Num(500))
    ensures err.response.None? ==> r.body == MessageBody(if Truthy(err.message) then err.message else Str(InternalError))
  {
    match err.response
    case Some(up) =>
      Response(up.status, MessageBody(Or(Prop(up.data, "status_message"), Str(UpstreamError))))
    case None =>
      Response(Or(err.statusCode, Num(500)), MessageBody(Or(err.message, Str(InternalError))))
  }

  /** Every error gets exactly one status and a `{message}` body whose
      message is never empty or missing. */
  lemma HandleIsTotal(err: Failure)
    ensures Handle(err).body.Obj? && Handle(err).body.fields.Keys == {"message"}
    ensures Truthy(Handle(err).body.fields["message"])
    ensures Truthy(Handle(err).status) || err.response.Some?
  {
  }

  /** An upstream response decides the status even when the error also
      carries a `statusCode`. */
  lemma UpstreamTakesPrecedence(up: ErrorResponse, code: Value, statusCode: Value, message: Value, hasConfig: bool)
    ensures Handle(Failure(Some(up), code, statusCode, message, hasConfig)).status == up.status
    ensures Handle(Failure(Some(up), code, statusCode, message, hasConfig))
         == Handle(Failure(Some(up), Undefined, Undefined, Undefined, false))
  {
  }

  /** `asyncHandler(fn)`: a handler that sends a response keeps it; one that
      throws (or rejects) is answered by the error middleware. */
  function Wrapped(o: Outcome): (r: Response)
    ensures o.Responded? ==> r == o.response
    ensures o.Thrown? ==> r == Handle(o.error)
  {
    match o
    case Responded(resp) => resp
    case Thrown(e) => Handle(e)
  }

  /** The TypeError of a failed property read or call becomes a 500 that
      carries the error's own message. */
  lemma TypeErrorIs500()
    ensures Wrapped(Thrown(TypeError)) == Response(Num(500), MessageBody(TypeError.message))
  {
  }
}
