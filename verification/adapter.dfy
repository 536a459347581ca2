/** The handler adapter of wrapper.go: the registration-time classification
    of a handler's signature into a `Shape`, and the request-time closure
    that binds, validates, calls the handler and hands its results to the
    renderer. Reflection is replaced by abstract kind descriptors. */
module Adapter {
  import opened Results
  import opened Render

  /** The kind of one declared parameter: `*gin.Context`, a pointer to a
      struct (with the two optional methods its method set may have), or
      anything else. */
  datatype ParamKind = Ctx | PtrStruct(implBinder: bool, implValidator: bool) | Other

  /** The kind of one declared result: a type implementing `error`, or not. */
  datatype ResultKind = Err | NonErr

  /** A value handed to registration: a value of the named type
      `gin.HandlerFunc`, a value of an unnamed func type, or not a func. */
  datatype Handler =
    | GinHandlerFunc(name: string)
    | FuncValue(name: string, ins: seq<ParamKind>, outs: seq<ResultKind>)
    | NonFunc(name: string)

  /** Why registration panics. */
  datatype RegistrationError =
    | NotAFunc(name: string)
    | IllegalSignature(ins: seq<ParamKind>, outs: seq<ResultKind>)
    | NotConvertible(name: string)
    | IllegalMiddleware(name: string)

  /** The flags `wrapper` derives once per handler. */
  datatype Shape = Shape(
    hasCtx: bool,
    needBind: bool,
    implBinder: bool,
    implValidator: bool,
    hasError: bool,
    needRender: bool,
    fastPath: bool)

  /** The shape of a handler that already is a `func(*gin.Context)`. */
  const FastPathShape := Shape(true, false, false, false, false, false, true)

  /** The declared signature of a handler value, if it is a func. */
  function Signature(h: Handler): Option<(seq<ParamKind>, seq<ResultKind>)>
  {
    match h
    case GinHandlerFunc(_) => Some(([Ctx], []))
    case FuncValue(_, ins, outs) => Some((ins, outs))
    case NonFunc(_) => None
  }

  // ---------------------------------------------------------------------
  // The grammar of accepted signatures, stated independently of `Classify`

  predicate LegalParams(ins: seq<ParamKind>)
  {
    || ins == []
    || ins == [Ctx]
    || (|ins| == 1 && ins[0].PtrStruct?)
    || (|ins| == 2 && ins[0] == Ctx && ins[1].PtrStruct?)
  }

  predicate LegalResults(outs: seq<ResultKind>)
  {
    outs == [] || outs == [Err] || outs == [NonErr] || outs == [NonErr, Err]
  }

  /** Legal parameters, legal results, and a handler without the context
      must return something. */
  predicate LegalSignature(ins: seq<ParamKind>, outs: seq<ResultKind>)
  {
    && LegalParams(ins)
    && LegalResults(outs)
    && (outs != [] || (|ins| > 0 && ins[0] == Ctx))
  }

  /** Number of arguments the adapter passes to the handler. */
  function ParamCount(s: Shape): nat
  {
    (if s.hasCtx then 1 else 0) + (if s.needBind then 1 else 0)
  }

  /** Number of results the handler returns. */
  function ResultCount(s: Shape): nat
  {
    (if s.needRender then 1 else 0) + (if s.hasError then 1 else 0)
  }

  /** Index of the error result: after the payload when there is one. */
  function ErrorSlot(s: Shape): nat
  {
    if s.needRender then 1 else 0
  }

  /** How a shape relates to the signature it was derived from. */
  predicate Describes(s: Shape, ins: seq<ParamKind>, outs: seq<ResultKind>)
  {
    && (s.fastPath <==> ins == [Ctx] && outs == [])
    && (s.hasCtx <==> |ins| > 0 && ins[0] == Ctx)
    && (s.needBind <==> |ins| > 0 && ins[|ins| - 1].PtrStruct?)
    && (s.needBind ==> s.implBinder == ins[|ins| - 1].implBinder)
    && (s.needBind ==> s.implValidator == ins[|ins| - 1].implValidator)
    && (!s.needBind ==> !s.implBinder && !s.implValidator)
    && (s.hasError <==> Err in outs)
    && (s.needRender <==> NonErr in outs)
    && ParamCount(s) == |ins|
    && ResultCount(s) == |outs|
  }

  // ---------------------------------------------------------------------
  // Registration

  /** The signature checks of `wrapper`, in the order the source makes
      them; each failed `assert` is an `IllegalSignature` failure. */
  function Classify(ins: seq<ParamKind>, outs: seq<ResultKind>): (r: Result<Shape, RegistrationError>)
    ensures r.Success? <==> LegalSignature(ins, outs)
    ensures r.Failure? ==> r.error == IllegalSignature(ins, outs)
    ensures r.Success? ==> Describes(r.value, ins, outs)
  {
    var sigErr := Failure(IllegalSignature(ins, outs));
    var cin := |ins|;
    var cout := |outs|;
    if !(cin <= 2 && cout <= 2 && !(cin == 0 && cout == 0)) then sigErr
    else if cin == 1 && cout == 0 && ins[0] == Ctx then Success(FastPathShape)
    else
      var hasCtx := cin > 0 && ins[0] == Ctx;
      if cin > 0 && !hasCtx && !ins[0].PtrStruct? then sigErr
      else if !(hasCtx || cout > 0) then sigErr
      else if cin == 2 && !(hasCtx && ins[1] != Ctx) then sigErr
      else if cin == 2 && !ins[1].PtrStruct? then sigErr
      else
        var needBind := (cin > 0 && !hasCtx) || cin == 2;
        var target := if hasCtx then 1 else 0;
        var implBinder := needBind && ins[target].implBinder;
        var implValidator := needBind && ins[target].implValidator;
        var firstIsErr := cout > 0 && outs[0] == Err;
        if firstIsErr && cout != 1 then sigErr
        else
          var needRender := cout > 0 && !firstIsErr;
          if cout == 2 && !(!firstIsErr && outs[1] == Err) then sigErr
          else
            var hasError := firstIsErr || cout == 2;
            Success(Shape(hasCtx, needBind, implBinder, implValidator, hasError, needRender, false))
  }

  /** `wrapper` as written: a handler on the fast path is converted with
      `fun.(func(ctx *gin.Context))`, an assertion that fails for a value
      of the named type `gin.HandlerFunc`. */
  function WrapAsWritten(h: Handler): (r: Result<Shape, RegistrationError>)
    ensures h.NonFunc? ==> r == Failure(NotAFunc(h.name))
    ensures h.FuncValue? ==> r == Classify(h.ins, h.outs)
    ensures h.GinHandlerFunc? ==> r == Failure(NotConvertible(h.name))
  {
    match h
    case NonFunc(name) => Failure(NotAFunc(name))
    case _ =>
      var sig := Signature(h).value;
      var c := Classify(sig.0, sig.1);
      if c.Success? && c.value.fastPath && h.GinHandlerFunc? then Failure(NotConvertible(h.name))
      else c
  }

  /** `wrapper` with the fast path accepting both spellings of a
      context-only handler, as the comment at the fast path intends. */
  function Wrap(h: Handler): (r: Result<Shape, RegistrationError>)
    ensures r.Success? <==> Signature(h).Some? && LegalSignature(Signature(h).value.0, Signature(h).value.1)
    ensures r.Success? ==> Describes(r.value, Signature(h).value.0, Signature(h).value.1)
    ensures h.NonFunc? ==> r == Failure(NotAFunc(h.name))
    ensures h.FuncValue? && r.Failure? ==> r.error == IllegalSignature(h.ins, h.outs)
  {
    match h
    case NonFunc(name) => Failure(NotAFunc(name))
    case _ => Classify(Signature(h).value.0, Signature(h).value.1)
  }

  /** A `gin.HandlerFunc` as the routing engine receives it: the handler
      itself, or the adapter closure over its shape and renderer. */
  datatype Canonical =
    | Unchanged(h: Handler)
    | Adapted(h: Handler, shape: Shape, renderer: Option<Renderer>)

  /** Registration of one handler with a renderer, through the corrected
      fast path of `Wrap`. */
  function Adapt(h: Handler, r: Option<Renderer>): (c: Result<Canonical, RegistrationError>)
    ensures c.Success? <==> Wrap(h).Success?
    ensures c.Failure? ==> c.error == Wrap(h).error
    ensures c.Success? && Wrap(h).value.fastPath ==> c.value == Unchanged(h)
    ensures c.Success? && !Wrap(h).value.fastPath ==> c.value == Adapted(h, Wrap(h).value, r)
    ensures c.Success? && c.value.Adapted? ==> !c.value.shape.fastPath
  {
    match Wrap(h)
    case Failure(e) => Failure(e)
    case Success(s) => if s.fastPath then Success(Unchanged(h)) else Success(Adapted(h, s, r))
  }

  // ---------------------------------------------------------------------
  // Request time

  /** One argument of the reflective call. */
  datatype Arg = CtxArg | TargetArg

  /** What one request's closure does, in order. */
  datatype Event =
    | CallBind(custom: bool)
    | CallValidate
    | Invoke(args: seq<Arg>)
    | CallRender(v: Value)

  /** The abstract inputs of one request: what binding (the default
      `ctx.Bind`, or the target's own `Bind`) returns, what `Validate`
      returns, the handler's results, and `ctx.Writer.Written()`. */
  datatype Request = Request(
    bindErr: Option<GoError>,
    validateErr: Option<GoError>,
    results: seq<Value>,
    written: bool)

  /** The values passed to the renderer, in order. */
  function Rendered(t: seq<Event>): seq<Value>
  {
    if t == [] then []
    else (if t[0].CallRender? then [t[0].v] else []) + Rendered(t[1..])
  }

  lemma {:induction false} RenderedAppend(a: seq<Event>, b: seq<Event>)
    ensures Rendered(a + b) == Rendered(a) + Rendered(b)
    decreases |a|
  {
    if a == [] {
      assert a + b == b;
    } else {
      var ab := a + b;
      assert ab[0] == a[0];
      assert ab[1..] == a[1..] + b;
      RenderedAppend(a[1..], b);
      assert Rendered(ab) == (if a[0].CallRender? then [a[0].v] else []) + Rendered(ab[1..]);
      assert Rendered(a) == (if a[0].CallRender? then [a[0].v] else []) + Rendered(a[1..]);
    }
  }

  predicate Invoked(t: seq<Event>)
  {
    exists e :: e in t && e.Invoke?
  }

  /** The arguments the closure builds: context first, then the target. */
  function Args(s: Shape): (a: seq<Arg>)
    ensures |a| == ParamCount(s)
    ensures s.hasCtx ==> a[0] == CtxArg
    ensures s.needBind ==> a[|a| - 1] == TargetArg
    ensures CtxArg in a <==> s.hasCtx
    ensures TargetArg in a <==> s.needBind
  {
    (if s.hasCtx then [CtxArg] else []) + (if s.needBind then [TargetArg] else [])
  }

  /** The error the bind phase ends with: a failed default bind is wrapped
      in `BindError`, a failed custom `Bind` and a failed `Validate` are not,
      and `Validate` runs only when binding succeeded. */
  function BindPhase(s: Shape, req: Request): (e: Option<GoError>)
    ensures req.bindErr.Some? && !s.implBinder ==> e == Some(BindError(req.bindErr.value))
    ensures req.bindErr.Some? && s.implBinder ==> e == req.bindErr
    ensures req.bindErr.None? ==> e == (if s.implValidator then req.validateErr else None)
  {
    var bound := if s.implBinder then req.bindErr
                 else if req.bindErr.Some? then Some(BindError(req.bindErr.value))
                 else None;
    if bound.None? && s.implValidator then req.validateErr else bound
  }

  /** Lines 156-178: the error result wins; otherwise a non-nil payload is
      rendered; a nil payload renders nothing; a handler without results
      gets NoContent unless it has written a response itself. */
  function Interpret(s: Shape, req: Request): (t: seq<Event>)
    requires |req.results| == ResultCount(s)
    ensures forall e :: e in t ==> e.CallRender?
    ensures |t| <= 1
    ensures t == [] <==>
      ErrorResult(s, req) == Nil && (if s.needRender then req.results[0] == Nil else req.written)
  {
    if s.hasError && req.results[ErrorSlot(s)] != Nil then [CallRender(req.results[ErrorSlot(s)])]
    else if s.needRender then (if req.results[0] != Nil then [CallRender(req.results[0])] else [])
    else if !req.written then [CallRender(Nil)]
    else []
  }

  /** The closure `wrapper` returns, run on one request (for a fast-path
      shape: the handler itself, called with the context). */
  function Serve(s: Shape, req: Request): (t: seq<Event>)
    requires |req.results| == ResultCount(s)
    ensures t != []
    ensures forall e :: e in t && e.Invoke? ==> e.args == (if s.fastPath then [CtxArg] else Args(s))
    ensures forall e :: e in t && e.CallBind? ==> !s.fastPath && s.needBind && e.custom == s.implBinder
    ensures CallValidate in t ==> s.implValidator && req.bindErr.None?
  {
    if s.fastPath then [Invoke([CtxArg])]
    else if !s.needBind then [Invoke(Args(s))] + Interpret(s, req)
    else
      var validated := req.bindErr.None? && s.implValidator;
      var prefix := [CallBind(s.implBinder)] + (if validated then [CallValidate] else []);
      var err := BindPhase(s, req);
      if err.Some? then prefix + [CallRender(ErrorValue(err.value))]
      else prefix + [Invoke(Args(s))] + Interpret(s, req)
  }

  /** The error result, when the handler declares one and the call is made. */
  function ErrorResult(s: Shape, req: Request): Value
    requires |req.results| == ResultCount(s)
  {
    if s.hasError then req.results[ErrorSlot(s)] else Nil
  }

  /** The results a Go handler can actually return: a value in the error
      slot has a type implementing `error`, so it is nil or an error. */
  predicate WellFormed(s: Shape, req: Request)
    requires |req.results| == ResultCount(s)
  {
    s.hasError ==> !req.results[ErrorSlot(s)].Data?
  }

  // ---------------------------------------------------------------------
  // Properties of the request-time closure

  lemma RenderedSingle(e: Event)
    ensures Rendered([e]) == (if e.CallRender? then [e.v] else [])
  { }

  /** What `Interpret` hands to the renderer. */
  lemma InterpretRendered(s: Shape, req: Request)
    requires |req.results| == ResultCount(s)
    ensures Rendered(Interpret(s, req)) ==
      if ErrorResult(s, req) != Nil then [ErrorResult(s, req)]
      else if s.needRender then (if req.results[0] != Nil then [req.results[0]] else [])
      else if !req.written then [Nil]
      else []
  { }

  /** The path of a shape without a bind target. */
  lemma ServeWithoutBind(s: Shape, req: Request)
    requires |req.results| == ResultCount(s)
    requires !s.fastPath && !s.needBind
    ensures Serve(s, req)[0] == Invoke(Args(s))
    ensures forall i :: 1 <= i < |Serve(s, req)| ==> Serve(s, req)[i].CallRender?
    ensures Rendered(Serve(s, req)) == Rendered(Interpret(s, req))
  { }

  /** The bind and validate calls that open the path of a shape with a
      bind target. */
  function BindCalls(s: Shape, req: Request): seq<Event>
  {
    [CallBind(s.implBinder)] + (if req.bindErr.None? && s.implValidator then [CallValidate] else [])
  }

  lemma BindCallsRenderNothing(s: Shape, req: Request)
    ensures Rendered(BindCalls(s, req)) == []
    ensures forall e :: e in BindCalls(s, req) ==> !e.Invoke? && !e.CallRender?
    ensures CallValidate in BindCalls(s, req) <==> req.bindErr.None? && s.implValidator
  {
    RenderedSingle(CallBind(s.implBinder));
    RenderedSingle(CallValidate);
    RenderedAppend([CallBind(s.implBinder)], if req.bindErr.None? && s.implValidator then [CallValidate] else []);
  }

  /** The path of a shape with a bind target whose bind phase fails. */
  lemma ServeBindFails(s: Shape, req: Request)
    requires |req.results| == ResultCount(s)
    requires !s.fastPath && s.needBind && BindPhase(s, req).Some?
    ensures Serve(s, req) == BindCalls(s, req) + [CallRender(ErrorValue(BindPhase(s, req).value))]
    ensures Rendered(Serve(s, req)) == [ErrorValue(BindPhase(s, req).value)]
    ensures !Invoked(Serve(s, req))
  {
    var last := CallRender(ErrorValue(BindPhase(s, req).value));
    BindCallsRenderNothing(s, req);
    RenderedSingle(last);
    RenderedAppend(BindCalls(s, req), [last]);
    assert forall e :: e in Serve(s, req) ==> e in BindCalls(s, req) || e == last;
  }

  /** The path of a shape with a bind target whose bind phase succeeds. */
  lemma ServeBindSucceeds(s: Shape, req: Request)
    requires |req.results| == ResultCount(s)
    requires !s.fastPath && s.needBind && BindPhase(s, req).None?
    ensures Serve(s, req) == BindCalls(s, req) + ([Invoke(Args(s))] + Interpret(s, req))
    ensures Rendered(Serve(s, req)) == Rendered(Interpret(s, req))
    ensures Invoked(Serve(s, req))
  {
    var rest := [Invoke(Args(s))] + Interpret(s, req);
    assert Serve(s, req) == BindCalls(s, req) + rest;
    BindCallsRenderNothing(s, req);
    RenderedAfterBind(BindCalls(s, req), Invoke(Args(s)), Interpret(s, req));
    assert Invoke(Args(s)) in Serve(s, req);
  }

  lemma RenderedAfterBind(pre: seq<Event>, call: Event, rest: seq<Event>)
    requires Rendered(pre) == [] && call.Invoke?
    ensures Rendered(pre + ([call] + rest)) == Rendered(rest)
  {
    RenderedSingle(call);
    RenderedAppend([call], rest);
    RenderedAppend(pre, [call] + rest);
  }

  /** Every path through the closure calls `Render` at most once. */
  lemma ServeRendersAtMostOnce(s: Shape, req: Request)
    requires |req.results| == ResultCount(s)
    ensures |Rendered(Serve(s, req))| <= 1
  {
    if s.fastPath {
      FastPathNeverRenders(s, req);
    } else {
      InterpretRendered(s, req);
      if !s.needBind {
        ServeWithoutBind(s, req);
      } else if BindPhase(s, req).Some? {
        ServeBindFails(s, req);
      } else {
        ServeBindSucceeds(s, req);
      }
    }
  }

  /** A handler on the fast path is called with the context alone and
      nothing is rendered for it, whether or not it wrote a response. */
  lemma FastPathNeverRenders(s: Shape, req: Request)
    requires |req.results| == ResultCount(s)
    requires s.fastPath
    ensures Serve(s, req)[0] == Invoke([CtxArg])
    ensures Rendered(Serve(s, req)) == []
  { }

  /** An adapted handler is called exactly when binding and validation let
      it through, with the context first and the bind target last. */
  lemma ServeInvokes(s: Shape, req: Request)
    requires |req.results| == ResultCount(s)
    requires !s.fastPath
    ensures Invoked(Serve(s, req)) <==> !s.needBind || BindPhase(s, req).None?
    ensures forall e :: e in Serve(s, req) && e.Invoke? ==> e.args == Args(s)
  {
    var t := Serve(s, req);
    if !s.needBind {
      assert t == [Invoke(Args(s))] + Interpret(s, req);
      assert t[0] in t;
    } else if BindPhase(s, req).Some? {
      ServeBindFails(s, req);
    } else {
      ServeBindSucceeds(s, req);
      BindCallsRenderNothing(s, req);
    }
  }

  /** A failed bind or validation renders that one error and never calls
      the handler. */
  lemma BindFailureSkipsHandler(s: Shape, req: Request)
    requires |req.results| == ResultCount(s)
    requires !s.fastPath && s.needBind && BindPhase(s, req).Some?
    ensures !Invoked(Serve(s, req))
    ensures Rendered(Serve(s, req)) ==
      [ErrorValue(if s.implBinder || req.bindErr.None? then BindPhase(s, req).value
                  else BindError(req.bindErr.value))]
  {
    ServeBindFails(s, req);
  }

  /** `Validate` is called only on a target that bound successfully, and
      right after the bind. */
  lemma ValidateOnlyAfterBind(s: Shape, req: Request)
    requires |req.results| == ResultCount(s)
    ensures CallValidate in Serve(s, req) <==>
              !s.fastPath && s.needBind && s.implValidator && req.bindErr.None?
    ensures CallValidate in Serve(s, req) ==>
              Serve(s, req)[0] == CallBind(s.implBinder) && Serve(s, req)[1] == CallValidate
  { }

  /** A non-nil error result is the only thing rendered: the payload is
      discarded. */
  lemma ErrorResultWins(s: Shape, req: Request)
    requires |req.results| == ResultCount(s)
    requires !s.fastPath && Invoked(Serve(s, req)) && ErrorResult(s, req) != Nil
    ensures Rendered(Serve(s, req)) == [ErrorResult(s, req)]
    ensures WellFormed(s, req) ==> DefaultRender(Rendered(Serve(s, req))[0]).status != StatusOK
  {
    InterpretRendered(s, req);
    if !s.needBind {
      ServeWithoutBind(s, req);
    } else if BindPhase(s, req).Some? {
      ServeBindFails(s, req);
    } else {
      ServeBindSucceeds(s, req);
    }
  }

  /** Without an error, a handler with a payload result has that payload
      rendered when it is non-nil, and nothing at all rendered when it is
      nil (no NoContent either). */
  lemma PayloadRendered(s: Shape, req: Request)
    requires |req.results| == ResultCount(s)
    requires !s.fastPath && s.needRender && Invoked(Serve(s, req)) && ErrorResult(s, req) == Nil
    ensures req.results[0] != Nil ==> Rendered(Serve(s, req)) == [req.results[0]]
    ensures req.results[0] == Nil ==> Rendered(Serve(s, req)) == []
  {
    InterpretRendered(s, req);
    if !s.needBind {
      ServeWithoutBind(s, req);
    } else if BindPhase(s, req).Some? {
      ServeBindFails(s, req);
    } else {
      ServeBindSucceeds(s, req);
    }
  }

  /** NoContent (`Render(ctx, nil)`) is rendered exactly for an adapted
      handler without a payload result that was called, returned no error
      and wrote nothing itself. */
  lemma NoContentOnlyWhenNothingWritten(s: Shape, req: Request)
    requires |req.results| == ResultCount(s)
    ensures Nil in Rendered(Serve(s, req)) <==>
              !s.fastPath && !s.needRender && Invoked(Serve(s, req))
              && ErrorResult(s, req) == Nil && !req.written
  {
    if s.fastPath {
      FastPathNeverRenders(s, req);
    } else {
      InterpretRendered(s, req);
      if !s.needBind {
        ServeWithoutBind(s, req);
      } else if BindPhase(s, req).Some? {
        ServeBindFails(s, req);
      } else {
        ServeBindSucceeds(s, req);
      }
    }
  }

  /** Arguments fit the declared parameters position by position. */
  predicate Fits(args: seq<Arg>, ins: seq<ParamKind>)
  {
    && |args| == |ins|
    && forall i :: 0 <= i < |args| ==>
         (args[i] == CtxArg <==> ins[i] == Ctx) && (args[i] == TargetArg <==> ins[i].PtrStruct?)
  }

  /** For an accepted signature the closure never mismatches it: the call
      gets one argument per declared parameter, of the declared kind, and
      the result slots it reads as error and payload are the declared
      error and non-error results. */
  lemma AcceptedShapeFitsSignature(ins: seq<ParamKind>, outs: seq<ResultKind>, req: Request)
    requires Classify(ins, outs).Success?
    requires |req.results| == |outs|
    ensures ResultCount(Classify(ins, outs).value) == |outs|
    ensures forall e :: e in Serve(Classify(ins, outs).value, req) && e.Invoke? ==> Fits(e.args, ins)
    ensures Classify(ins, outs).value.hasError ==> outs[ErrorSlot(Classify(ins, outs).value)] == Err
    ensures Classify(ins, outs).value.needRender ==> outs[0] == NonErr
  {
    var s := Classify(ins, outs).value;
    if s.fastPath {
      assert Serve(s, req) == [Invoke([CtxArg])];
    } else {
      ServeInvokes(s, req);
      assert Fits(Args(s), ins);
    }
  }

  /** The shape a canonical handler runs with: a handler installed
      unchanged behaves as the fast path. */
  function ShapeOf(c: Canonical): Shape
  {
    match c
    case Unchanged(_) => FastPathShape
    case Adapted(_, s, _) => s
  }

  /** The renderer a canonical handler captured; none for a handler
      installed unchanged. */
  function RendererOf(c: Canonical): Option<Renderer>
  {
    match c
    case Unchanged(_) => None
    case Adapted(_, _, r) => r
  }

  /** The handler called by the routing engine on one request. */
  function Run(c: Canonical, req: Request): seq<Event>
    requires |req.results| == ResultCount(ShapeOf(c))
  {
    Serve(ShapeOf(c), req)
  }

  /** What the renderer does with each value the closure hands it. */
  function Respond(c: Canonical, req: Request): (d: seq<Delivery>)
    requires |req.results| == ResultCount(ShapeOf(c))
    ensures c.Unchanged? ==> d == []
    ensures |d| == |Rendered(Run(c, req))| <= 1
    ensures forall i :: 0 <= i < |d| ==> d[i] == Deliver(RendererOf(c), Rendered(Run(c, req))[i])
  {
    ServeRendersAtMostOnce(ShapeOf(c), req);
    assert c.Unchanged? ==> Rendered(Run(c, req)) == [] by {
      if c.Unchanged? {
        FastPathNeverRenders(FastPathShape, req);
      }
    }
    var vs := Rendered(Run(c, req));
    seq(|vs|, i requires 0 <= i < |vs| => Deliver(RendererOf(c), vs[i]))
  }
}
