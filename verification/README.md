# ginx handler adapter — a Dafny model

ginx lets a gin route handler be written with an ergonomic signature.
It may take a `*gin.Context` and/or a pointer to an input struct, and it may
return a payload and/or an `error`. ginx turns that handler, once at
registration, into the single `gin.HandlerFunc` form gin requires.

This project models three parts of it:
- the registration-time classification of a handler's signature into a shape (`wrapper.go`);
- the request-time closure, which binds the input, validates it, calls the handler and hands the outcome to the renderer (`wrapper.go`);
- the default renderer, which turns an outcome into a status code and a body (`render.go`).

It also models the router facade that adapts the last handler of a registration with its group's renderer (`router.go`).

Modules:
- `Results` (`results.dfy`): `Option` and `Result`.
- `Render` (`render.go`): Go errors as `GoError = Plain(text) | BindError(err)`, the value handed to `Render` (`Nil | ErrorValue | Data`), `DefaultRender` and the client-side `Decode` of a response. Status codes are those of RFC 9110: section 15.3.1 (200), section 15.5.1 (400), section 15.6.1 (500).
- `Adapter` (`wrapper.go`): abstract kinds for parameters (`Ctx | PtrStruct(implBinder, implValidator) | Other`) and results (`Err | NonErr`), the independent grammar `LegalSignature`, `Classify`, `Wrap`, and `Serve`. `Serve` is the closure run on one request. It is a pure function from a shape and the abstract request inputs to the trace of calls it makes: bind, validate, invoke (with its arguments), render (with its value). The request inputs are the bind error, the `Validate` error, the handler's results and `Written()`. Each failed `assert` of the source is a `Failure(IllegalSignature(ins, outs))`, not a panic.
- `Router` (`router.go`): groups, `XRouter`, `Group`, `handlers` as a loop, and the registration methods.
- `Scenarios`: end-to-end lemmas on concrete handler signatures under the default renderer.

Behaviour of the code worth noting:
- A `Validate` failure is passed to the renderer unwrapped, and so is a failure of a target's own `Bind`. The default renderer therefore answers 500, not 400 (`wrapper.go:126-146`).
- A nil payload renders nothing. The `return` at `wrapper.go:172` keeps it from falling through to NoContent.
- A context-only handler written as an unnamed `func(*gin.Context)` is installed unchanged and is never rendered for, not even as NoContent (`wrapper.go:42-44`).
- The NoContent envelope is `{"code":"0","msg":"success"}`, not an empty message (`render.go:30-33`).

## Model

| member | source | states |
|---|---|---|
| Render.Message | render.go:15-17 | a `BindError`'s text is the text of the error it wraps, through any number of wrappers |
| Render.DefaultRender | render.go:27-52 | nil gives 200 with `{"0","success"}`; a `BindError` gives 400 with `{"1",text}`; any other error gives 500 with `{"500",text}`; any other value gives 200 with the value itself and no envelope; decoding the modelled (tagged) response recovers that case |
| Render.Deliver | render.go:19-21 | calling `Render` through a nil renderer panics; the default renderer writes `DefaultRender`'s response; a custom one receives the value unchanged |
| Adapter.Classify | wrapper.go:32-107 | a signature is accepted iff it is in the grammar: at most `(ctx, *T)` parameters and `(Out, error)` results, with a context or at least one result; the error names the signature; the shape's flags describe the signature, and its argument and result counts match the declared ones |
| Adapter.WrapAsWritten | wrapper.go:24-44 | a non-func fails with "not a func"; a func value is classified; a value of the named type `gin.HandlerFunc` fails the fast-path conversion |
| Adapter.Wrap | wrapper.go:24-107 | with the corrected fast path: a handler is accepted iff it is a func whose signature is legal, and its shape describes that signature; a non-func is rejected as not a func, and a func with an illegal signature is rejected with an error naming that signature |
| Adapter.Adapt | wrapper.go:41-110 | with the corrected fast path: an accepted context-only handler is installed unchanged; every other accepted handler is wrapped with its shape and the given renderer; a rejection carries `Wrap`'s error |
| Adapter.Args | wrapper.go:111-150 | the call gets the context first when there is one and the bind target last when there is one, one argument per declared parameter |
| Adapter.Interpret | wrapper.go:156-178 | the handler's results lead to at most one render call; there is none exactly when the error result is nil and either the payload is nil or, without a payload result, the handler wrote a response itself |
| Adapter.Serve | wrapper.go:110-179 | the closure always does something; a bind call happens only for a shape with a bind target, marked custom iff the target implements `Bind`; `Validate` is called only when it is implemented and binding succeeded; every call of the handler gets the declared arguments, or the context alone on the fast path |
| Adapter.BindPhase | wrapper.go:117-148 | a failed default bind is wrapped in `BindError`; a failed custom `Bind` is not; `Validate` runs only after a successful bind, and its error is not wrapped |
| Adapter.ServeRendersAtMostOnce | wrapper.go:110-179 | every path through the closure calls `Render` at most once |
| Adapter.FastPathNeverRenders | wrapper.go:41-44 | a context-only handler installed unchanged (run as the fast-path shape) is called with the context alone and nothing is rendered for it |
| Adapter.ServeInvokes | wrapper.go:110-154 | the handler is called iff it has no bind target or binding and validation succeed, always with the arguments in declared order |
| Adapter.BindFailureSkipsHandler | wrapper.go:117-148 | on a bind or validation failure the handler is not called and exactly that error is rendered, wrapped only when the default bind failed |
| Adapter.ValidateOnlyAfterBind | wrapper.go:139-143 | `Validate` is called iff the target implements it and binding succeeded, and only right after the bind |
| Adapter.ErrorResultWins | wrapper.go:156-166 | a non-nil error result is the only value rendered, so the payload is discarded; when the error slot holds an actual error, as every Go handler's does, the default renderer never answers it with 200 |
| Adapter.PayloadRendered | wrapper.go:168-173 | with a nil error, a non-nil payload is rendered and a nil payload renders nothing at all |
| Adapter.NoContentOnlyWhenNothingWritten | wrapper.go:175-178 | NoContent is rendered iff an adapted handler without a payload result was called, returned no error and wrote nothing |
| Adapter.AcceptedShapeFitsSignature | wrapper.go:110-166 | for an accepted signature, every call matches the declared parameters one by one; the slot read as the error is the declared error result, and the slot read as the payload is the declared non-error result |
| Adapter.Respond | wrapper.go:110-179 | a request makes at most one renderer call, delivered through the renderer the handler captured; a handler installed unchanged gets none |
| Router.XRouter | router.go:98-106 | the root group always has a renderer: the supplied one, or the default when nil is supplied |
| Router.ChildGroupAsWritten | router.go:36-41 | the child group is built with no renderer |
| Router.ChildGroup | router.go:36-41 | corrected: the child group keeps its parent's renderer |
| Router.NestedGroupsKeepRenderer | router.go:36-41 | with the correction, a group any number of levels below a root has the root's (non-nil) renderer |
| Router.Handlers | router.go:108-126 | with the corrected fast path for the last element (`HandlersSpec`): an empty list gives an empty chain; otherwise the list is accepted iff every element but the last is a `gin.HandlerFunc` and the last adapts. The first bad middleware is reported, by name, before the last element is looked at. The chain has the input's length, passes the middleware through unchanged and adapts only the last element, with the group's renderer |
| Router.Handle | router.go:43-81 | with the corrected fast path for the last handler: its chain or failure meets `HandlersSpec`, so an empty list registers an empty chain; otherwise a registration succeeds iff its handler list does. It records the method, the path and the chain: the middleware unchanged and the last handler adapted with the group's renderer. On failure it reports the first bad middleware, or else the last handler's rejection. It returns the same group |
| Scenarios.GreetingHandler | example/main.go:12-17 | the example's greeting handler answers a bound request with its string and 200; a request the default bind rejects gets the 400 envelope with the bind error's text, and the handler is not called |
| Scenarios.ContextInputOutputSucceeds | wrapper.go:153-173 | a `(ctx, *In) (Out, error)` handler returning a nil error has its payload written with 200 and no envelope |
| Scenarios.ContextInputOutputFails | wrapper.go:156-166 | the same handler returning an error gets the 500 envelope with the error's text, whatever its payload |
| Scenarios.ValidationFailureIsServerError | wrapper.go:139-147 | a failing `Validate` keeps the handler from being called and, unwrapped, is answered with 500 |
| Scenarios.CustomBindFailureIsServerError | wrapper.go:126-137 | a failing custom `Bind` is not wrapped and is answered with 500 |
| Scenarios.NilPayloadRendersNothing | wrapper.go:168-173 | a nil payload with a nil error produces no response from the adapter at all |
| Scenarios.ContextOnlyNeverRendered | wrapper.go:41-44 | with the corrected fast path: a context-only handler, unnamed or a `gin.HandlerFunc`, is installed unchanged, is called with the context alone, and is never rendered for |
| Scenarios.NoResultsGetNoContent | wrapper.go:175-178 | a `func(*gin.Context, *In)` handler without results whose bind succeeds gets 200 with the success envelope exactly when it wrote nothing |
| Scenarios.HandlerFuncRejectedAsWritten | wrapper.go:41-44 | as written, a `gin.HandlerFunc` value has a legal signature but registration panics; the corrected `Wrap` puts it on the fast path |
| Scenarios.ChildGroupRenderPanicsAsWritten | router.go:36-41 | as written, any handler adapted on a child group, on any request for which it renders something, calls `Render` on a nil renderer and panics |
| Scenarios.GreetingOnChildGroupPanicsAsWritten | router.go:36-41 | the example of that finding: `func() string` on a child of a root with the default renderer panics on a request |
| Scenarios.NestedGroupsNeverPanic | router.go:36-41 | with the correction, no handler on any group under a root renders through a nil renderer |

## Left out

- Go reflection (`reflect.TypeOf`, `Implements`, `reflect.New`, `Call`) is replaced by the parameter and result kinds. A typed nil inside a non-nil interface is not distinguished from nil.
- The text of the signature error (`funcDesc`): `IllegalSignature` carries the abstract signature instead of the type's string.
- gin's `ctx.Bind` is an input: its success or error, not its decoding. The 400 response gin itself writes on a failed bind is not modelled.
- Calling the user handler is an input: the results it returns and whether it wrote a response (`ctx.Writer.Written()`).
- `ctx.JSON` serialisation: a payload is an opaque `Payload`, and a response is a status and a body, not bytes.
- `log.Printf` in the renderer.
- A custom renderer's behaviour: the model records which renderer receives which value.
- The routing engine's route tree, path joining, `Use`, `StaticFile`, `Static` and `StaticFS`: they pass straight through to gin.
- The middleware given to `Group`: it goes straight to gin.
- Concurrency: one request at a time. The shape is immutable after registration and the bind target is fresh per request.
- A zero `BindError{}` with a nil inner error (its `Error()` would panic): `GoError` has no nil inner error.
- An error result whose type cannot be nil (`IsNil` would panic).
- The type of a handler's results: a `Request` may put a non-error value in the error slot, which no Go handler can return. `Adapter.WellFormed` excludes it where a clause needs that (`Adapter.ErrorResultWins`); every other property holds for all requests.
- Func types other than `gin.HandlerFunc` that are named yet have the context-only signature: `FuncValue` stands for unnamed func types.
- Adapter.Adapt: registers through the corrected `Wrap`, so a `gin.HandlerFunc` value is installed unchanged where the code as written panics at wrapper.go:43 (see Findings; `Adapter.WrapAsWritten` models that panic).
- Router.Handlers: adapts the last element through the corrected `Adapt`, so a `gin.HandlerFunc` as the last element is accepted where router.go:124 as written panics.
- Router.Handle: registers through the corrected `Handlers`/`Adapt`, so a `gin.HandlerFunc` last handler is registered unchanged where router.go:124 as written panics.
- Scenarios.ContextOnlyNeverRendered: states the corrected acceptance of a `gin.HandlerFunc` value; as written only an unnamed `func(*gin.Context)` gets there.
- The demo server in `example/main.go` (`app.Run`): only its handler appears, in `Scenarios.GreetingHandler`.

## Findings

| source | as written | input that shows it | evidently intended | confidence | as-written member | corrected member |
|---|---|---|---|---|---|---|
| wrapper.go:41-44 | the fast path converts with `fun.(func(ctx *gin.Context))`, which fails for a value of the named type `gin.HandlerFunc` | registering a `gin.HandlerFunc` value (for example the result of `gin.WrapH`) as the last handler: registration panics | per the comment at line 41, a `gin.HandlerFunc` is accepted and installed unchanged | medium-high, not executed | Adapter.WrapAsWritten | Adapter.Wrap |
| router.go:36-41 | `Group` builds the child without its parent's renderer, so its `Renderer` interface is nil | `XRouter(engine, nil).Group("/v1").GET("/x", func() string { return "hi" })`, then a request to `/v1/x`: `r.Render` is called on a nil interface and panics | the child group renders like its parent | high, not executed | Router.ChildGroupAsWritten | Router.ChildGroup |
