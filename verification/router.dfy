/** The router facade of router.go: a group holding the renderer its
    handlers are adapted with, the transformation of a registration's
    handler list, and the construction of root and child groups. The
    routing engine's own route tree is outside the model. */
module Router {
  import opened Results
  import opened Render
  import opened Adapter

  /** A router group; only the renderer it adapts handlers with matters
      here. `None` is a nil `Renderer` interface. */
  datatype Group = Group(renderer: Option<Renderer>)

  /** HTTP methods a route can be registered under (`Any` is all of them). */
  datatype Method = Any | GET | POST | DELETE | PATCH | PUT | OPTIONS | HEAD

  /** One registration handed to the routing engine. */
  datatype Route = Route(verb: Method, path: string, chain: seq<Canonical>)

  /** A successful registration: the group it returns, for chaining, and
      the route it installed. */
  datatype Registration = Registration(router: Group, route: Route)

  /** `XRouter`: the root group, with the default renderer when none is
      supplied. */
  function XRouter(r: Option<Renderer>): (g: Group)
    ensures g.renderer.Some?
    ensures r.Some? ==> g.renderer == r
    ensures r.None? ==> g.renderer == Some(DefaultRenderer)
  {
    Group(if r.None? then Some(DefaultRenderer) else r)
  }

  /** `Group` as written: the child is built without a renderer. */
  function ChildGroupAsWritten(g: Group): (c: Group)
    ensures c.renderer.None?
  {
    Group(None)
  }

  /** `Group` with the parent's renderer carried over to the child. */
  function ChildGroup(g: Group): (c: Group)
    ensures c.renderer == g.renderer
  {
    Group(g.renderer)
  }

  /** The group reached from `g` by `depth` nested `Group` calls. */
  function Nested(g: Group, depth: nat): Group
  {
    if depth == 0 then g else ChildGroup(Nested(g, depth - 1))
  }

  /** However deep groups are nested under a root, they adapt handlers with
      the root's renderer, so never with a nil one. */
  lemma {:induction false} NestedGroupsKeepRenderer(r: Option<Renderer>, depth: nat)
    ensures Nested(XRouter(r), depth).renderer == XRouter(r).renderer
    ensures Nested(XRouter(r), depth).renderer.Some?
  {
    if depth > 0 {
      NestedGroupsKeepRenderer(r, depth - 1);
    }
  }

  /** Every element but the last is already a `gin.HandlerFunc`. */
  predicate MiddlewareOnly(hs: seq<Handler>)
  {
    forall i :: 0 <= i < |hs| ==> hs[i].GinHandlerFunc?
  }

  /** What `handlers` promises of its result `r` for the list `hs`: an
      empty list stays empty; otherwise the list is accepted iff every
      element but the last is a `gin.HandlerFunc` and the last adapts; the
      first bad middleware is reported by name before the last element is
      looked at; the chain keeps the middleware and adapts the last
      element with the group's renderer. */
  predicate HandlersSpec(g: Group, hs: seq<Handler>, r: Result<seq<Canonical>, RegistrationError>)
  {
    && (hs == [] ==> r == Success([]))
    && (hs != [] ==>
          (r.Success? <==> MiddlewareOnly(hs[..|hs| - 1]) && Adapt(hs[|hs| - 1], g.renderer).Success?))
    && (hs != [] && !MiddlewareOnly(hs[..|hs| - 1]) ==>
          r.Failure? && r.error.IllegalMiddleware? &&
          exists i :: 0 <= i < |hs| - 1 && r.error.name == hs[i].name && !hs[i].GinHandlerFunc?
                      && forall j :: 0 <= j < i ==> hs[j].GinHandlerFunc?)
    && (hs != [] && MiddlewareOnly(hs[..|hs| - 1]) && r.Failure? ==>
          r == Failure(Adapt(hs[|hs| - 1], g.renderer).error))
    && (r.Success? ==> |r.value| == |hs|)
    && (r.Success? ==> forall i :: 0 <= i < |hs| - 1 ==> r.value[i] == Unchanged(hs[i]))
    && (r.Success? && hs != [] ==> r.value[|hs| - 1] == Adapt(hs[|hs| - 1], g.renderer).value)
  }

  /** `handlers`: the middleware pass through unchanged, the last element
      is adapted with the group's renderer; an empty list stays empty. */
  method Handlers(g: Group, hs: seq<Handler>) returns (r: Result<seq<Canonical>, RegistrationError>)
    ensures HandlersSpec(g, hs, r)
  {
    var n := |hs|;
    if n == 0 {
      return Success([]);
    }
    var chain: seq<Canonical> := [];
    var i := 0;
    while i < n - 1
      invariant 0 <= i <= n - 1
      invariant |chain| == i
      invariant MiddlewareOnly(hs[..i])
      invariant forall j :: 0 <= j < i ==> chain[j] == Unchanged(hs[j])
    {
      if !hs[i].GinHandlerFunc? {
        return Failure(IllegalMiddleware(hs[i].name));
      }
      chain := chain + [Unchanged(hs[i])];
      i := i + 1;
    }
    var last := Adapt(hs[n - 1], g.renderer);
    if last.Failure? {
      return Failure(last.error);
    }
    return Success(chain + [last.value]);
  }

  /** `GET`, `POST`, ..., `Any`: register the adapted chain and return the
      same group. */
  method Handle(g: Group, m: Method, path: string, hs: seq<Handler>) returns (r: Result<Registration, RegistrationError>)
    ensures HandlersSpec(g, hs, if r.Success? then Success(r.value.route.chain) else Failure(r.error))
    ensures r.Success? ==> r.value.router == g
    ensures r.Success? ==> r.value.route.verb == m && r.value.route.path == path
  {
    var chain := Handlers(g, hs);
    if chain.Failure? {
      return Failure(chain.error);
    }
    return Success(Registration(g, Route(m, path, chain.value)));
  }
}
