/** The default outcome renderer of render.go: errors, rendered values and the
    four-way classification of whatever a handler hands to `Render`. */
module Render {
  import opened Results

  /** HTTP status codes, with the meaning RFC 9110 gives them:
      section 15.3.1 (200 OK), section 15.5.1 (400 Bad Request),
      section 15.6.1 (500 Internal Server Error). */
  const StatusOK: int := 200
  const StatusBadRequest: int := 400
  const StatusInternalServerError: int := 500

  /** A Go `error` as the renderer sees it: a `BindError` wrapping another
      error, or any other error, known only by its text. */
  datatype GoError = Plain(text: string) | BindError(err: GoError)

  /** The error at the bottom of a chain of `BindError` wrappers. */
  function Cause(e: GoError): (c: GoError)
    ensures c.Plain?
    ensures e.Plain? ==> c == e
  {
    match e
    case Plain(_) => e
    case BindError(inner) => Cause(inner)
  }

  /** `Error()`: a `BindError` reports the wrapped error's text unchanged. */
  function Message(e: GoError): (m: string)
    ensures m == Cause(e).text
  {
    match e
    case Plain(t) => t
    case BindError(inner) => Message(inner)
  }

  /** Stand-in for an arbitrary Go value that is neither nil nor an error;
      its JSON encoding is outside the model. */
  datatype Payload = Payload(repr: string)

  /** The dynamic value passed as `data interface{}` to `Render`. */
  datatype Value = Nil | ErrorValue(err: GoError) | Data(payload: Payload)

  /** A response body: the `{code, msg}` envelope or the payload itself. */
  datatype Body = Envelope(code: string, msg: string) | Raw(payload: Payload)

  /** What one `ctx.JSON(status, body)` call writes. */
  datatype Response = Response(status: int, body: Body)

  /** The tagged outcome a client reads off a response. */
  datatype Outcome = NoContent | BadInput(msg: string) | Fault(msg: string) | Content(payload: Payload)

  /** The case of the type switch a value falls into: nil, `BindError`,
      any other `error`, anything else. */
  function Kind(v: Value): Outcome
  {
    match v
    case Nil => NoContent
    case ErrorValue(e) => if e.BindError? then BadInput(Message(e)) else Fault(Message(e))
    case Data(p) => Content(p)
  }

  /** A client's reading of a response: the status and the envelope code
      must agree, otherwise the response is not one this renderer writes. */
  function Decode(r: Response): Option<Outcome>
  {
    match r.body
    case Raw(p) => if r.status == StatusOK then Some(Content(p)) else None
    case Envelope(code, msg) =>
      if r.status == StatusOK && code == "0" then Some(NoContent)
      else if r.status == StatusBadRequest && code == "1" then Some(BadInput(msg))
      else if r.status == StatusInternalServerError && code == "500" then Some(Fault(msg))
      else None
  }

  /** `defRenderer.Render`: one response per call, chosen by the value's
      dynamic type. */
  function DefaultRender(v: Value): (r: Response)
    ensures r.status == StatusOK <==> !v.ErrorValue?
    ensures r.status == StatusBadRequest <==> v.ErrorValue? && v.err.BindError?
    ensures r.status == StatusInternalServerError <==> v.ErrorValue? && !v.err.BindError?
    ensures v.Nil? ==> r.body == Envelope("0", "success")
    ensures v.ErrorValue? ==> r.body.Envelope? && r.body.msg == Cause(v.err).text
    ensures r.body.Raw? <==> v.Data?
    ensures v.Data? ==> r.body.payload == v.payload
    ensures Decode(r) == Some(Kind(v))
  {
    match v
    case Nil => Response(StatusOK, Envelope("0", "success"))
    case ErrorValue(e) =>
      if e.BindError? then Response(StatusBadRequest, Envelope("1", Message(e)))
      else Response(StatusInternalServerError, Envelope("500", Message(e)))
    case Data(p) => Response(StatusOK, Raw(p))
  }

  /** The `Renderer` a router group holds: the default one, or a
      user-supplied implementation whose behaviour is outside the model. */
  datatype Renderer = DefaultRenderer | CustomRenderer(name: string)

  /** What happens when `r.Render(ctx, v)` is called. */
  datatype Delivery = Panicked | Written(response: Response) | Delegated(name: string, v: Value)

  /** A call of `Render` through a renderer interface that may be nil:
      calling a method on a nil interface panics. */
  function Deliver(r: Option<Renderer>, v: Value): (d: Delivery)
    ensures d.Panicked? <==> r.None?
    ensures r == Some(DefaultRenderer) ==> d == Written(DefaultRender(v))
    ensures r.Some? && r.value.CustomRenderer? ==> d == Delegated(r.value.name, v)
  {
    match r
    case None => Panicked
    case Some(DefaultRenderer) => Written(DefaultRender(v))
    case Some(CustomRenderer(name)) => Delegated(name, v)
  }
}
