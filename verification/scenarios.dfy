/** End-to-end behaviour of registered handlers under the default renderer,
    and the two places where the code as written departs from what it
    evidently intends. */
module Scenarios {
  import opened Results
  import opened Render
  import opened Adapter
  import opened Router

  /** A request whose binding and validation succeed. */
  function Accepting(results: seq<Value>, written: bool): Request
  {
    Request(None, None, results, written)
  }

  /** `func(who *struct{ Name string `binding:"required"` }) string` on the
      root group with the default renderer: a bound request gets the
      handler's string back with 200; a request the default bind rejects
      gets the 400 envelope with the bind error's text, and the handler is
      never called. */
  lemma GreetingHandler(greeting: Payload, bindErr: GoError)
    requires bindErr.Plain?
    ensures var h := FuncValue("greeting", [PtrStruct(false, false)], [NonErr]);
      var g := XRouter(None);
      && Adapt(h, g.renderer).Success?
      && Respond(Adapt(h, g.renderer).value, Accepting([Data(greeting)], false))
           == [Written(Response(StatusOK, Raw(greeting)))]
      && !Invoked(Run(Adapt(h, g.renderer).value, Request(Some(bindErr), None, [Data(greeting)], false)))
      && Respond(Adapt(h, g.renderer).value, Request(Some(bindErr), None, [Data(greeting)], false))
           == [Written(Response(StatusBadRequest, Envelope("1", bindErr.text)))]
  {
    var h := FuncValue("greeting", [PtrStruct(false, false)], [NonErr]);
    assert Adapt(h, XRouter(None).renderer) == Success(Adapted(h, GreetingShape, Some(DefaultRenderer)));
    GreetingBound(h, greeting);
    GreetingRejected(h, greeting, bindErr);
  }

  /** The shape of `func(*In) string`. */
  const GreetingShape := Shape(false, true, false, false, false, true, false)

  lemma GreetingBound(h: Handler, greeting: Payload)
    ensures Respond(Adapted(h, GreetingShape, Some(DefaultRenderer)), Accepting([Data(greeting)], false))
              == [Written(Response(StatusOK, Raw(greeting)))]
  {
    var c := Adapted(h, GreetingShape, Some(DefaultRenderer));
    var ok := Accepting([Data(greeting)], false);
    InterpretRendered(GreetingShape, ok);
    ServeBindSucceeds(GreetingShape, ok);
    assert Rendered(Run(c, ok)) == [Data(greeting)];
    assert Respond(c, ok)[0] == Written(DefaultRender(Data(greeting)));
  }

  lemma GreetingRejected(h: Handler, greeting: Payload, bindErr: GoError)
    requires bindErr.Plain?
    ensures var c := Adapted(h, GreetingShape, Some(DefaultRenderer));
      var bad := Request(Some(bindErr), None, [Data(greeting)], false);
      && !Invoked(Run(c, bad))
      && Respond(c, bad) == [Written(Response(StatusBadRequest, Envelope("1", bindErr.text)))]
  {
    var c := Adapted(h, GreetingShape, Some(DefaultRenderer));
    var bad := Request(Some(bindErr), None, [Data(greeting)], false);
    ServeBindFails(GreetingShape, bad);
    assert Rendered(Run(c, bad)) == [ErrorValue(BindError(bindErr))];
    assert Respond(c, bad)[0] == Written(DefaultRender(ErrorValue(BindError(bindErr))));
  }

  /** The shape of `func(*gin.Context, *In) (Out, error)`. */
  const FullShape := Shape(true, true, false, false, true, true, false)

  lemma FullSignatureAdapted(h: Handler, r: Option<Renderer>)
    requires h == FuncValue("h", [Ctx, PtrStruct(false, false)], [NonErr, Err])
    ensures Adapt(h, r) == Success(Adapted(h, FullShape, r))
  { }

  /** `func(*gin.Context, *In) (Out, error)` returning a nil error: the
      payload is rendered with 200 and no envelope. */
  lemma ContextInputOutputSucceeds(out: Payload)
    ensures var h := FuncValue("h", [Ctx, PtrStruct(false, false)], [NonErr, Err]);
      var c := Adapt(h, XRouter(None).renderer);
      && c.Success?
      && Respond(c.value, Accepting([Data(out), Nil], false))
           == [Written(Response(StatusOK, Raw(out)))]
  {
    var h := FuncValue("h", [Ctx, PtrStruct(false, false)], [NonErr, Err]);
    var req := Accepting([Data(out), Nil], false);
    var c := Adapted(h, FullShape, Some(DefaultRenderer));
    FullSignatureAdapted(h, Some(DefaultRenderer));
    InterpretRendered(FullShape, req);
    ServeBindSucceeds(FullShape, req);
    assert Rendered(Run(c, req)) == [Data(out)];
    assert Respond(c, req)[0] == Written(DefaultRender(Data(out)));
  }

  /** The same handler returning a non-nil error: only the 500 envelope with
      the error's text is written, whatever the payload. */
  lemma ContextInputOutputFails(out: Value, e: GoError)
    requires e.Plain?
    ensures var h := FuncValue("h", [Ctx, PtrStruct(false, false)], [NonErr, Err]);
      var c := Adapt(h, XRouter(None).renderer);
      && c.Success?
      && Respond(c.value, Accepting([out, ErrorValue(e)], false))
           == [Written(Response(StatusInternalServerError, Envelope("500", e.text)))]
  {
    var h := FuncValue("h", [Ctx, PtrStruct(false, false)], [NonErr, Err]);
    var req := Accepting([out, ErrorValue(e)], false);
    var c := Adapted(h, FullShape, Some(DefaultRenderer));
    FullSignatureAdapted(h, Some(DefaultRenderer));
    InterpretRendered(FullShape, req);
    ServeBindSucceeds(FullShape, req);
    assert Rendered(Run(c, req)) == [ErrorValue(e)];
    assert Respond(c, req)[0] == Written(DefaultRender(ErrorValue(e)));
  }

  /** A target whose `Validate` fails after a successful default bind: the
      handler is not called, and since the error is passed on unwrapped the
      default renderer answers 500, not 400. */
  lemma ValidationFailureIsServerError(e: GoError)
    requires e.Plain?
    ensures var h := FuncValue("h", [PtrStruct(false, true)], [NonErr]);
      var c := Adapt(h, Some(DefaultRenderer));
      var req := Request(None, Some(e), [Data(Payload("unused"))], false);
      && c.Success?
      && !Invoked(Run(c.value, req))
      && Respond(c.value, req) == [Written(Response(StatusInternalServerError, Envelope("500", e.text)))]
  {
    var s := Classify([PtrStruct(false, true)], [NonErr]).value;
    ServeBindFails(s, Request(None, Some(e), [Data(Payload("unused"))], false));
  }

  /** A target with its own `Bind`: a failure of that `Bind` is not wrapped
      in `BindError` either, so it too is answered with 500. */
  lemma CustomBindFailureIsServerError(e: GoError)
    requires e.Plain?
    ensures var h := FuncValue("h", [Ctx, PtrStruct(true, false)], [Err]);
      var c := Adapt(h, Some(DefaultRenderer));
      var req := Request(Some(e), None, [Nil], false);
      && c.Success?
      && Respond(c.value, req) == [Written(Response(StatusInternalServerError, Envelope("500", e.text)))]
  {
    var s := Classify([Ctx, PtrStruct(true, false)], [Err]).value;
    ServeBindFails(s, Request(Some(e), None, [Nil], false));
  }

  /** A nil payload with a nil error renders nothing at all. */
  lemma NilPayloadRendersNothing(written: bool)
    ensures var h := FuncValue("h", [], [NonErr, Err]);
      var c := Adapt(h, Some(DefaultRenderer));
      && c.Success?
      && Respond(c.value, Accepting([Nil, Nil], written)) == []
  { }

  /** With the corrected fast path, a context-only handler (an unnamed
      `func(*gin.Context)` or a `gin.HandlerFunc`) is installed unchanged and
      nothing is ever rendered for it, even when it writes nothing. */
  lemma ContextOnlyNeverRendered(h: Handler, r: Option<Renderer>, req: Request)
    requires h.GinHandlerFunc? || (h.FuncValue? && h.ins == [Ctx] && h.outs == [])
    requires req.results == []
    ensures Adapt(h, r) == Success(Unchanged(h))
    ensures Run(Unchanged(h), req) == [Invoke([CtxArg])]
    ensures Respond(Unchanged(h), req) == []
  { }

  /** `func(*gin.Context, *In)` with no results: NoContent (200 with the
      success envelope) exactly when the handler wrote nothing itself. */
  lemma NoResultsGetNoContent(written: bool)
    ensures var h := FuncValue("h", [Ctx, PtrStruct(false, false)], []);
      var c := Adapt(h, Some(DefaultRenderer));
      && c.Success?
      && Respond(c.value, Accepting([], written))
           == (if written then [] else [Written(Response(StatusOK, Envelope("0", "success")))])
  {
    var s := Classify([Ctx, PtrStruct(false, false)], []).value;
    assert s == Shape(true, true, false, false, false, false, false);
    var h := FuncValue("h", [Ctx, PtrStruct(false, false)], []);
    var c := Adapted(h, s, Some(DefaultRenderer));
    var req := Accepting([], written);
    assert Adapt(h, Some(DefaultRenderer)) == Success(c);
    InterpretRendered(s, req);
    ServeBindSucceeds(s, req);
    assert Rendered(Run(c, req)) == (if written then [] else [Nil]);
    assert !written ==> Respond(c, req)[0] == Written(DefaultRender(Nil));
  }

  // ---------------------------------------------------------------------
  // Where the code as written departs from its evident intent

  /** As written, a value of the named type `gin.HandlerFunc` has a legal
      signature yet cannot be registered as the final handler: the fast
      path's conversion to `func(*gin.Context)` panics. The corrected
      `Wrap` accepts it on the fast path. */
  lemma HandlerFuncRejectedAsWritten(name: string)
    ensures LegalSignature([Ctx], [])
    ensures WrapAsWritten(GinHandlerFunc(name)) == Failure(NotConvertible(name))
    ensures Wrap(GinHandlerFunc(name)) == Success(FastPathShape)
  { }

  /** As written, a child group has no renderer, so a handler registered on
      it that renders anything calls `Render` on a nil interface. */
  lemma ChildGroupRenderPanicsAsWritten(g: Group, h: Handler, req: Request)
    requires Adapt(h, ChildGroupAsWritten(g).renderer).Success?
    requires |req.results| == ResultCount(ShapeOf(Adapt(h, ChildGroupAsWritten(g).renderer).value))
    requires Rendered(Run(Adapt(h, ChildGroupAsWritten(g).renderer).value, req)) != []
    ensures Respond(Adapt(h, ChildGroupAsWritten(g).renderer).value, req) == [Panicked]
  {
    var c := Adapt(h, ChildGroupAsWritten(g).renderer).value;
    assert c.Adapted?;
    assert RendererOf(c) == None;
  }

  /** The example of the finding: `func() string` on a child of a root with
      the default renderer panics on the first request. */
  lemma GreetingOnChildGroupPanicsAsWritten(greeting: Payload)
    ensures var child := ChildGroupAsWritten(XRouter(None));
      var h := FuncValue("hello", [], [NonErr]);
      && Adapt(h, child.renderer).Success?
      && Respond(Adapt(h, child.renderer).value, Accepting([Data(greeting)], false)) == [Panicked]
  {
    var s := Classify([], [NonErr]).value;
    InterpretRendered(s, Accepting([Data(greeting)], false));
    ServeWithoutBind(s, Accepting([Data(greeting)], false));
    ChildGroupRenderPanicsAsWritten(XRouter(None), FuncValue("hello", [], [NonErr]), Accepting([Data(greeting)], false));
  }

  /** With the child carrying its parent's renderer, no handler registered
      on any group under a root ever renders through a nil renderer. */
  lemma NestedGroupsNeverPanic(r: Option<Renderer>, depth: nat, h: Handler, req: Request)
    requires Adapt(h, Nested(XRouter(r), depth).renderer).Success?
    requires |req.results| == ResultCount(ShapeOf(Adapt(h, Nested(XRouter(r), depth).renderer).value))
    ensures Panicked !in Respond(Adapt(h, Nested(XRouter(r), depth).renderer).value, req)
  { }
}
