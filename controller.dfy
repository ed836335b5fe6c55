/** What the account and auth handlers have in common: the record of what a
    handler did, the two 400 answers of the bind and validation steps, and
    the envelope discipline all their responses keep. */
module Controller {
  import opened GoLib
  import opened Rest
  import opened Service

  /** One handler run: the responses written, in order, the collaborator
      calls made, in order, and whether it panicked (the router installs no
      recovery middleware, so a panic writes nothing). */
  datatype Handled = Handled(sent: seq<Sent>, calls: seq<Call>, panicked: bool)

  /** Write one response and return. */
  function Respond(r: ResponseResult, calls: seq<Call>): Handled
  {
    Handled([r.sent], calls, false)
  }

  /** `ctx.Bind` failed: 400 with `{"body": ErrInvalidFormat}`. */
  function BadBody(uuid: Uuid): ResponseResult
  {
    ErrorResponse(400, StringMap(map["body" := Text(InvalidFormat)]), [], uuid)
  }

  /** The validator rejected the request: 400 with its field errors. */
  function Invalid(violations: seq<FieldError>, uuid: Uuid): ResponseResult
  {
    ErrorResponse(400, ValidationErrors(violations), [], uuid)
  }

  /** A sentinel mapped to `status` with `{key: sentinel text}`. */
  function Rejected(status: int, key: string, s: Sentinel, uuid: Uuid): ResponseResult
  {
    ErrorResponse(status, StringMap(map[key := Text(s)]), [], uuid)
  }

  /** Exactly one response per request, none when the handler panicked. */
  predicate AnswersOnce(h: Handled)
  {
    if h.panicked then h.sent == [] else |h.sent| == 1
  }

  /** Every response carries the reason phrase of its status as message, no
      `status` in the body, and the correlation token in `error` exactly
      when the status is outside [200, 299]; an answer outside that range
      carries no `result`, and one inside it no `detail`. */
  predicate Conforms(h: Handled, uuid: Uuid)
  {
    forall i :: 0 <= i < |h.sent| ==>
      && h.sent[i].body.message == StatusText(h.sent[i].status)
      && h.sent[i].body.status == 0
      && (IsSuccess(h.sent[i].status) ==> h.sent[i].body.error == "")
      && (!IsSuccess(h.sent[i].status) ==> h.sent[i].body.error == uuid)
      && (!IsSuccess(h.sent[i].status) ==> h.sent[i].body.result.None?)
      && (IsSuccess(h.sent[i].status) ==> h.sent[i].body.detail == map[])
  }
}
