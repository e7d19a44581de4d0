/**
 * The router: compiles a controller's registered routes, then answers each
 * request with the first route whose verb and path match, running its handler
 * chain in continuation-passing style and falling back to error handlers.
 */
module Routing {
  import opened Wrappers
  import opened Http
  import RoutingMapping

  // ---------------------------------------------------------------------------
  // Path and verb normalisation
  // ---------------------------------------------------------------------------

  /** `s.replace(/\/+$/, '')`: every trailing `/` removed. */
  function StripTrailingSlashes(s: string): (r: string)
    ensures |r| <= |s| && r == s[..|r|]
    ensures r == [] || r[|r| - 1] != '/'
    ensures forall i :: |r| <= i < |s| ==> s[i] == '/'
    decreases |s|
  {
    if |s| > 0 && s[|s| - 1] == '/' then StripTrailingSlashes(s[..|s| - 1]) else s
  }

  /**
   * The three properties of `StripTrailingSlashes` determine its result: any
   * prefix that does not end in `/` and leaves only slashes behind is it.
   */
  lemma StripTrailingSlashesUnique(s: string, x: string)
    requires |x| <= |s| && x == s[..|x|]
    requires x == [] || x[|x| - 1] != '/'
    requires forall i :: |x| <= i < |s| ==> s[i] == '/'
    ensures x == StripTrailingSlashes(s)
  {
    var r := StripTrailingSlashes(s);
    assert r != [] ==> r[|r| - 1] == s[|r| - 1];
    assert x != [] ==> x[|x| - 1] == s[|x| - 1];
    assert |x| == |r|;
  }

  /** Stripping twice is stripping once. */
  lemma StripTrailingSlashesIdempotent(s: string)
    ensures StripTrailingSlashes(StripTrailingSlashes(s)) == StripTrailingSlashes(s)
  {
    var r := StripTrailingSlashes(s);
    StripTrailingSlashesUnique(r, r);
  }

  /** A declared path `/a/` under base path `/api` compiles to `/api/a`; a root route under no base path to the empty path. */
  lemma StripTrailingSlashesExamples()
    ensures StripTrailingSlashes("/api" + "/a/") == "/api/a"
    ensures StripTrailingSlashes("" + "/") == ""
  {
    StripTrailingSlashesUnique("/api" + "/a/", "/api/a");
    StripTrailingSlashesUnique("" + "/", "");
  }

  /** One character of `toUpperCase`, for the ASCII range. */
  function UpperChar(c: char): (u: char)
    ensures !('a' <= u <= 'z')
    ensures !('a' <= c <= 'z') ==> u == c
    ensures 'a' <= c <= 'z' ==> u as int == c as int - 32
  {
    if 'a' <= c <= 'z' then (c as int - 32) as char else c
  }

  /** `req.method.toUpperCase()`: each letter upper-cased, everything else kept, length unchanged. */
  function ToUpper(s: string): (r: string)
    ensures |r| == |s|
    ensures forall i :: 0 <= i < |s| ==> r[i] == UpperChar(s[i])
  {
    seq(|s|, i requires 0 <= i < |s| => UpperChar(s[i]))
  }

  /** Upper-casing an upper-cased string changes nothing; in particular every verb name is fixed. */
  lemma ToUpperIdempotent(s: string)
    ensures ToUpper(ToUpper(s)) == ToUpper(s)
  {
  }

  /** A request sent as `get` or `Get` is compared as `GET`. */
  lemma VerbComparedUpperCased()
    ensures ToUpper("get") == GET.Name()
    ensures ToUpper("Get") == GET.Name()
    ensures ToUpper("GET") == GET.Name()
    ensures ToUpper("delete") == DELETE.Name()
  {
    assert ToUpper("get") == "GET";
    assert ToUpper("Get") == "GET";
    assert ToUpper("GET") == "GET";
    assert ToUpper("delete") == "DELETE";
  }

  /** The pathname starts with the four characters `/api`. */
  predicate HasApiPrefix(p: string)
  {
    |p| >= 4 && p[..4] == "/api"
  }

  /** `pathname.replace(/^\/api/, '')`: one leading `/api` removed, otherwise the path is unchanged. */
  function StripApiPrefix(p: string): (r: string)
    ensures HasApiPrefix(p) ==> p == "/api" + r
    ensures !HasApiPrefix(p) ==> r == p
  {
    if HasApiPrefix(p) then p[4..] else p
  }

  /**
   * Only one prefix is removed, and the prefix is four characters rather than
   * a path segment: `/apiary` becomes `ary`.
   */
  lemma StripApiPrefixExamples()
    ensures StripApiPrefix("/api/users/42") == "/users/42"
    ensures StripApiPrefix("/api/api/x") == "/api/x"
    ensures StripApiPrefix("/apiary") == "ary"
    ensures StripApiPrefix("/users") == "/users"
    ensures StripApiPrefix("/api") == ""
  {
    assert "/api/users/42"[..4] == "/api";
    assert "/api/api/x"[..4] == "/api";
    assert "/apiary"[..4] == "/api";
    assert "/users"[..4] != "/api" by { assert "/users"[1] == 'u'; }
    assert "/api"[..4] == "/api";
  }

  // ---------------------------------------------------------------------------
  // Compiled routes
  // ---------------------------------------------------------------------------

  /** A route-level or instance-level error handler: the built-in one or one supplied by the user. */
  datatype ErrorHandler = DefaultErrorHandler | CustomErrorHandler(id: nat)

  /** `Route`: verb, full path (the matcher is the path compiled), handler chain and an optional error handler. */
  datatype CompiledRoute = CompiledRoute(verb: HttpMethod, path: string, handlers: seq<Middleware>, onError: Option<ErrorHandler>)

  /**
   * One pass of the constructor loop: the full path is base path plus declared
   * path without trailing slashes; the chain is the class middlewares, then the
   * handler's own middlewares, then the handler bound to the controller.
   */
  function CompileRoute(basePath: string, cls: ClassId, def: RoutingMapping.RouteDefinition,
                        classMws: seq<Middleware>, routeMws: map<string, seq<Middleware>>): CompiledRoute
  {
    var methodMws := RoutingMapping.MiddlewaresFor(routeMws, def.handlerName);
    CompiledRoute(def.verb, StripTrailingSlashes(basePath + def.path), classMws + methodMws + [BoundHandler(cls, def.handlerName)], None)
  }

  /**
   * A compiled route keeps the declared verb and has no error handler of its
   * own; its path never ends in `/`; its chain holds the class middlewares,
   * then the handler's own middlewares, then the bound handler, and nothing else.
   */
  lemma CompileRouteLayout(basePath: string, cls: ClassId, def: RoutingMapping.RouteDefinition,
                           classMws: seq<Middleware>, routeMws: map<string, seq<Middleware>>)
    ensures var r := CompileRoute(basePath, cls, def, classMws, routeMws);
            var methodMws := RoutingMapping.MiddlewaresFor(routeMws, def.handlerName);
            && r.verb == def.verb && r.onError == None
            && r.path == StripTrailingSlashes(basePath + def.path)
            && (r.path == [] || r.path[|r.path| - 1] != '/')
            && |r.handlers| == |classMws| + |methodMws| + 1
            && r.handlers[..|classMws|] == classMws
            && r.handlers[|classMws|..|r.handlers| - 1] == methodMws
            && r.handlers[|r.handlers| - 1] == BoundHandler(cls, def.handlerName)
  {
    var methodMws := RoutingMapping.MiddlewaresFor(routeMws, def.handlerName);
    var handlers := classMws + methodMws + [BoundHandler(cls, def.handlerName)];
    assert handlers[..|classMws|] == classMws;
    assert handlers[|classMws|..|handlers| - 1] == methodMws;
  }

  /** A handler with no `@Use` entry runs with the class middlewares and itself only. */
  lemma AbsentHandlerHasOnlyClassMiddlewares(basePath: string, cls: ClassId, def: RoutingMapping.RouteDefinition,
                                             classMws: seq<Middleware>, routeMws: map<string, seq<Middleware>>)
    requires def.handlerName !in routeMws
    ensures CompileRoute(basePath, cls, def, classMws, routeMws).handlers == classMws + [BoundHandler(cls, def.handlerName)]
  {
  }

  /**
   * The handler's middlewares as the constructor actually obtains them: the
   * map is a plain object, so a handler name without an own entry that names
   * an inherited member reads that member (a function or an object), and
   * spreading it into the chain throws a TypeError.
   */
  function MethodMiddlewaresAsWritten(routeMws: map<string, seq<Middleware>>, handlerName: string): (r: Result<seq<Middleware>, Error>)
    ensures handlerName in routeMws ==> r == Success(routeMws[handlerName])
    ensures handlerName !in routeMws && handlerName in RoutingMapping.ObjectPrototypeMembers ==> r == Failure(TypeError)
    ensures handlerName !in routeMws && handlerName !in RoutingMapping.ObjectPrototypeMembers ==> r == Success([])
  {
    if handlerName in routeMws then Success(routeMws[handlerName])
    else if handlerName in RoutingMapping.ObjectPrototypeMembers then Failure(TypeError)
    else Success([])
  }

  /**
   * A controller method named `toString` with no `@Use` makes construction
   * throw as written; the model's lookup gives it no route middlewares.
   */
  lemma InheritedHandlerNameBreaksCompilation()
    ensures MethodMiddlewaresAsWritten(map[], "toString") == Failure(TypeError)
    ensures RoutingMapping.MiddlewaresFor(map[], "toString") == []
  {
  }

  // ---------------------------------------------------------------------------
  // The handler chain
  // ---------------------------------------------------------------------------

  /** What a path matcher says about a request path. */
  datatype Match = NoMatch | Matched(params: Params) | DecodeFailed

  /**
   * Everything outside this core that the router calls: what each step does,
   * the path matcher compiled from a route's path, what each user error handler
   * does, and how many times the terminal step can re-enter itself before the
   * call stack overflows.
   */
  datatype Env = Env(
    act: (Middleware, Request, Params) -> Action,
    matchPath: (string, string) -> Match,
    onErr: (nat, Error, Request, Params) -> Outcome,
    maxReplays: nat)

  /** How a chain run settled, and the positions of the steps invoked, in order. */
  datatype Run = Run(outcome: Outcome, invoked: seq<nat>)

  /** How a step that does not continue settles the run; a terminal `next()` that is never answered overflows. */
  function Finish(a: Action): Outcome
  {
    match a
    case Respond(r) => Returned(r)
    case Throw(e) => Threw(e)
    case CallNext => Threw(RangeError)
  }

  /**
   * `execute(i)`: invokes `stack[i]` with `next = execute(i + 1)`, or, at the
   * last position, with `next = execute(i)` again. `replays` is the remaining
   * call-stack budget for those re-entries. An empty stack has no `stack[0]`
   * to call.
   */
  function Execute(stack: seq<Middleware>, i: nat, replays: nat, env: Env, req: Request, params: Params): Run
    decreases |stack| - i, replays
  {
    if i >= |stack| then Run(Threw(TypeError), [])
    else
      match env.act(stack[i], req, params)
      case Respond(resp) => Run(Returned(resp), [i])
      case Throw(e) => Run(Threw(e), [i])
      case CallNext =>
        if i < |stack| - 1 then
          var rest := Execute(stack, i + 1, replays, env, req, params);
          Run(rest.outcome, [i] + rest.invoked)
        else if replays == 0 then
          Run(Threw(RangeError), [i])
        else
          var rest := Execute(stack, i, replays - 1, env, req, params);
          Run(rest.outcome, [i] + rest.invoked)
  }

  /** The first position from `i` whose step does not call `next`, or the last position. */
  function StopIndex(stack: seq<Middleware>, i: nat, env: Env, req: Request, params: Params): (p: nat)
    requires i < |stack|
    ensures i <= p < |stack|
    ensures forall q :: i <= q < p ==> env.act(stack[q], req, params).CallNext?
    ensures p < |stack| - 1 ==> !env.act(stack[p], req, params).CallNext?
    decreases |stack| - i
  {
    if i == |stack| - 1 || !env.act(stack[i], req, params).CallNext? then i
    else StopIndex(stack, i + 1, env, req, params)
  }

  function Min(a: int, b: int): int
  {
    if a < b then a else b
  }

  /** The positions `lo`, `lo + 1`, ..., `hi - 1`. */
  function Range(lo: nat, hi: nat): (r: seq<nat>)
    requires lo <= hi
    ensures |r| == hi - lo
    ensures forall k :: 0 <= k < |r| ==> r[k] == lo + k
  {
    seq(hi - lo, k requires 0 <= k < hi - lo => lo + k)
  }

  /** `n` copies of position `x`. */
  function Repeat(x: nat, n: nat): (r: seq<nat>)
    ensures |r| == n
    ensures forall k :: 0 <= k < n ==> r[k] == x
  {
    seq(n, k => x)
  }

  /**
   * Closed form of a chain run from position `i`: steps run in order up to the
   * first one that does not call `next`, which settles the run; if every step
   * calls `next`, the terminal step is re-entered `replays` more times and the
   * run ends in a stack overflow.
   */
  lemma {:induction false} ExecuteClosedForm(stack: seq<Middleware>, i: nat, replays: nat, env: Env, req: Request, params: Params)
    requires i < |stack|
    ensures var p := StopIndex(stack, i, env, req, params);
            var a := env.act(stack[p], req, params);
            Execute(stack, i, replays, env, req, params) ==
              if a.CallNext? then Run(Threw(RangeError), Range(i, |stack|) + Repeat(|stack| - 1, replays))
              else Run(Finish(a), Range(i, p + 1))
    decreases |stack| - i, replays
  {
    if env.act(stack[i], req, params).CallNext? {
      if i < |stack| - 1 {
        ExecuteClosedForm(stack, i + 1, replays, env, req, params);
        var p := StopIndex(stack, i + 1, env, req, params);
        assert Range(i, p + 1) == [i] + Range(i + 1, p + 1);
        assert Range(i, |stack|) == [i] + Range(i + 1, |stack|);
      } else if replays > 0 {
        ExecuteClosedForm(stack, i, replays - 1, env, req, params);
        assert Repeat(|stack| - 1, replays) == [i] + Repeat(|stack| - 1, replays - 1);
        assert Range(i, |stack|) == [i];
      } else {
        assert Repeat(|stack| - 1, replays) == [];
        assert Range(i, |stack|) == [i];
      }
    } else {
      assert Range(i, i + 1) == [i];
    }
  }

  /** A whole chain run, as `handle` starts it. */
  function RunChain(stack: seq<Middleware>, env: Env, req: Request, params: Params): Run
  {
    Execute(stack, 0, env.maxReplays, env, req, params)
  }

  /**
   * A step that returns without calling `next`, reached because every earlier
   * step called `next`, settles the run with its own response (or error), and
   * no later step is invoked.
   */
  lemma ShortCircuit(stack: seq<Middleware>, k: nat, env: Env, req: Request, params: Params)
    requires k < |stack|
    requires forall q :: 0 <= q < k ==> env.act(stack[q], req, params).CallNext?
    requires !env.act(stack[k], req, params).CallNext?
    ensures RunChain(stack, env, req, params) == Run(Finish(env.act(stack[k], req, params)), Range(0, k + 1))
  {
    ExecuteClosedForm(stack, 0, env.maxReplays, env, req, params);
  }

  /**
   * Steps run in chain order (the m-th step run is at position m, or the last
   * position once the terminal step re-enters itself), and step `j` runs
   * exactly when every step before it called `next`.
   */
  lemma StepRunsIffPredecessorsCalledNext(stack: seq<Middleware>, env: Env, req: Request, params: Params)
    requires |stack| > 0
    ensures var run := RunChain(stack, env, req, params);
            && (forall m :: 0 <= m < |run.invoked| ==> run.invoked[m] == Min(m, |stack| - 1))
            && (forall j :: 0 <= j < |stack| ==>
                  (j in run.invoked <==> forall q :: 0 <= q < j ==> env.act(stack[q], req, params).CallNext?))
  {
    ExecuteClosedForm(stack, 0, env.maxReplays, env, req, params);
    var run := RunChain(stack, env, req, params);
    var p := StopIndex(stack, 0, env, req, params);
    forall j | 0 <= j < |stack|
      ensures j in run.invoked <==> forall q :: 0 <= q < j ==> env.act(stack[q], req, params).CallNext?
    {
      if env.act(stack[p], req, params).CallNext? {
        assert run.invoked[j] == j;
      } else if j <= p {
        assert run.invoked[j] == j;
      } else {
        assert !env.act(stack[p], req, params).CallNext?;
        assert forall m :: 0 <= m < |run.invoked| ==> run.invoked[m] <= p;
      }
    }
  }

  /**
   * When every step, the terminal one included, calls `next`, the terminal step
   * is re-entered until the call stack overflows.
   */
  lemma TerminalNextOverflows(stack: seq<Middleware>, env: Env, req: Request, params: Params)
    requires |stack| > 0
    requires forall q :: 0 <= q < |stack| ==> env.act(stack[q], req, params).CallNext?
    ensures RunChain(stack, env, req, params)
            == Run(Threw(RangeError), Range(0, |stack|) + Repeat(|stack| - 1, env.maxReplays))
  {
    ExecuteClosedForm(stack, 0, env.maxReplays, env, req, params);
  }

  /**
   * In a compiled chain, the class middlewares run first, in order, then the
   * handler's own middlewares, in order; the bound handler runs exactly when
   * every one of those middlewares called `next`.
   */
  lemma CompiledChainOrder(basePath: string, cls: ClassId, def: RoutingMapping.RouteDefinition,
                           classMws: seq<Middleware>, routeMws: map<string, seq<Middleware>>,
                           env: Env, req: Request, params: Params)
    ensures var route := CompileRoute(basePath, cls, def, classMws, routeMws);
            var methodMws := RoutingMapping.MiddlewaresFor(routeMws, def.handlerName);
            var run := RunChain(route.handlers, env, req, params);
            && (forall m :: 0 <= m < |run.invoked| ==> run.invoked[m] == Min(m, |route.handlers| - 1))
            && (forall m :: 0 <= m < |run.invoked| && m < |classMws| ==> route.handlers[run.invoked[m]] == classMws[m])
            && (forall m :: 0 <= m < |run.invoked| && |classMws| <= m < |classMws| + |methodMws| ==>
                  route.handlers[run.invoked[m]] == methodMws[m - |classMws|])
            && (forall m :: 0 <= m < |run.invoked| && |classMws| + |methodMws| <= m ==>
                  route.handlers[run.invoked[m]] == BoundHandler(cls, def.handlerName))
            && ((|classMws| + |methodMws|) in run.invoked <==>
                  && (forall q :: 0 <= q < |classMws| ==> env.act(classMws[q], req, params).CallNext?)
                  && (forall q :: 0 <= q < |methodMws| ==> env.act(methodMws[q], req, params).CallNext?))
  {
    var route := CompileRoute(basePath, cls, def, classMws, routeMws);
    var methodMws := RoutingMapping.MiddlewaresFor(routeMws, def.handlerName);
    var h := route.handlers;
    CompileRouteLayout(basePath, cls, def, classMws, routeMws);
    StepRunsIffPredecessorsCalledNext(h, env, req, params);
    var n := |classMws| + |methodMws|;
    assert (forall q :: 0 <= q < n ==> env.act(h[q], req, params).CallNext?) <==>
           && (forall q :: 0 <= q < |classMws| ==> env.act(classMws[q], req, params).CallNext?)
           && (forall q :: 0 <= q < |methodMws| ==> env.act(methodMws[q], req, params).CallNext?)
    by {
      assert forall q :: 0 <= q < |classMws| ==> h[q] == classMws[q];
      assert forall q :: 0 <= q < |methodMws| ==> h[|classMws| + q] == methodMws[q];
    }
  }

  // ---------------------------------------------------------------------------
  // Error fallback and fixed responses
  // ---------------------------------------------------------------------------

  /** The body `handle` returns when no route matches; its key is spelled `sucess`. */
  function NotFoundResponse(): (r: Response)
    ensures r.status == NOT_FOUND
    ensures r.body == map["sucess" := JBool(false), "message" := JString("Not Found")]
  {
    Response(NOT_FOUND, map["sucess" := JBool(false), "message" := JString("Not Found")])
  }

  /** The response when a chain throws and neither error handler exists. */
  function GenericServerError(): (r: Response)
    ensures r.status == INTERNAL_SERVER_ERROR
    ensures r.body == map["success" := JBool(false), "message" := JString(INTERNAL_SERVER_ERROR_PHRASE)]
  {
    Response(INTERNAL_SERVER_ERROR, map["success" := JBool(false), "message" := JString(INTERNAL_SERVER_ERROR_PHRASE)])
  }

  /** Invokes an error handler; the default one reports 500 with the request's original pathname. */
  function ApplyErrorHandler(h: ErrorHandler, err: Error, req: Request, params: Params, env: Env): Outcome
  {
    match h
    case DefaultErrorHandler =>
      Returned(Response(INTERNAL_SERVER_ERROR,
                        map["success" := JBool(false), "message" := JString(INTERNAL_SERVER_ERROR_PHRASE),
                            "path" := JString(req.pathname)]))
    case CustomErrorHandler(id) => env.onErr(id, err, req, params)
  }

  /** The default handler answers every error with 500 and the unstripped pathname, whatever was thrown. */
  lemma DefaultErrorHandlerReportsPath(err: Error, req: Request, params: Params, env: Env)
    ensures var out := ApplyErrorHandler(DefaultErrorHandler, err, req, params, env);
            && out.Returned?
            && out.response.status == INTERNAL_SERVER_ERROR
            && out.response.body["path"] == JString(req.pathname)
            && out.response.body["success"] == JBool(false)
  {
  }

  // ---------------------------------------------------------------------------
  // Dispatch
  // ---------------------------------------------------------------------------

  /** Result of the first-match scan. */
  datatype Search = Found(index: nat, params: Params) | DecodeFailedAt(index: nat) | NoRoute

  /** Every route in `[from, to)` declared with `verb` rejects `path`. */
  ghost predicate Misses(routes: seq<CompiledRoute>, verb: string, path: string,
                         matchPath: (string, string) -> Match, from: nat, to: nat)
  {
    forall j :: from <= j < to && j < |routes| && routes[j].verb.Name() == verb ==> matchPath(routes[j].path, path) == NoMatch
  }

  /**
   * The scan from position `from`: routes with another verb are skipped, the
   * first route whose matcher accepts the path wins, a matcher that fails to
   * decode stops the scan.
   */
  function FindRoute(routes: seq<CompiledRoute>, verb: string, path: string,
                     matchPath: (string, string) -> Match, from: nat): (r: Search)
    requires from <= |routes|
    ensures r.Found? ==>
              && from <= r.index < |routes|
              && routes[r.index].verb.Name() == verb
              && matchPath(routes[r.index].path, path) == Matched(r.params)
              && Misses(routes, verb, path, matchPath, from, r.index)
    ensures r.DecodeFailedAt? ==>
              && from <= r.index < |routes|
              && routes[r.index].verb.Name() == verb
              && matchPath(routes[r.index].path, path) == DecodeFailed
              && Misses(routes, verb, path, matchPath, from, r.index)
    ensures r.NoRoute? <==> Misses(routes, verb, path, matchPath, from, |routes|)
    decreases |routes| - from
  {
    if from == |routes| then NoRoute
    else if routes[from].verb.Name() != verb then FindRoute(routes, verb, path, matchPath, from + 1)
    else
      match matchPath(routes[from].path, path)
      case Matched(p) => Found(from, p)
      case DecodeFailed => DecodeFailedAt(from)
      case NoMatch => FindRoute(routes, verb, path, matchPath, from + 1)
  }

  /**
   * Routes declared with another verb are skipped without consulting their
   * matcher: two matchers that agree on the routes with the request's verb
   * give the same scan.
   */
  lemma {:induction false} OtherVerbsNotConsulted(routes: seq<CompiledRoute>, verb: string, path: string,
                                                  m1: (string, string) -> Match, m2: (string, string) -> Match, from: nat)
    requires from <= |routes|
    requires forall j :: from <= j < |routes| && routes[j].verb.Name() == verb ==> m1(routes[j].path, path) == m2(routes[j].path, path)
    ensures FindRoute(routes, verb, path, m1, from) == FindRoute(routes, verb, path, m2, from)
    decreases |routes| - from
  {
    if from < |routes| {
      OtherVerbsNotConsulted(routes, verb, path, m1, m2, from + 1);
    }
  }

  /** The matched route's chain, with the three-tier fallback when it throws. */
  function RunRoute(route: CompiledRoute, globalErrorHandler: Option<ErrorHandler>, req: Request, params: Params, env: Env): Outcome
  {
    var out := RunChain(route.handlers, env, req, params).outcome;
    if out.Returned? then out
    else if route.onError.Some? then ApplyErrorHandler(route.onError.value, out.error, req, params, env)
    else if globalErrorHandler.Some? then ApplyErrorHandler(globalErrorHandler.value, out.error, req, params, env)
    else Returned(GenericServerError())
  }

  /** What `handle(req)` settles to for a router in the given state. */
  function Dispatch(routes: seq<CompiledRoute>, globalErrorHandler: Option<ErrorHandler>, req: Request, env: Env): Outcome
  {
    match FindRoute(routes, ToUpper(req.verb), StripApiPrefix(req.pathname), env.matchPath, 0)
    case NoRoute => Returned(NotFoundResponse())
    case DecodeFailedAt(_) => Threw(URIError)
    case Found(k, params) => RunRoute(routes[k], globalErrorHandler, req, params, env)
  }

  /**
   * The first route in registration order whose verb equals the upper-cased
   * request verb and whose matcher accepts the stripped path handles the
   * request, with the parameters that matcher captured.
   */
  lemma DispatchFirstMatch(routes: seq<CompiledRoute>, globalErrorHandler: Option<ErrorHandler>, req: Request, env: Env,
                           k: nat, params: Params)
    requires k < |routes|
    requires routes[k].verb.Name() == ToUpper(req.verb)
    requires env.matchPath(routes[k].path, StripApiPrefix(req.pathname)) == Matched(params)
    requires Misses(routes, ToUpper(req.verb), StripApiPrefix(req.pathname), env.matchPath, 0, k)
    ensures Dispatch(routes, globalErrorHandler, req, env) == RunRoute(routes[k], globalErrorHandler, req, params, env)
  {
    var s := FindRoute(routes, ToUpper(req.verb), StripApiPrefix(req.pathname), env.matchPath, 0);
    assert !Misses(routes, ToUpper(req.verb), StripApiPrefix(req.pathname), env.matchPath, 0, |routes|);
    if s.Found? || s.DecodeFailedAt? {
      assert s.index <= k;
      assert s.index >= k;
    }
  }

  /**
   * When no route's verb and path both match, the answer is 404 with the body
   * `{sucess: false, message: "Not Found"}`; the correctly spelled key is absent.
   */
  lemma DispatchNotFound(routes: seq<CompiledRoute>, globalErrorHandler: Option<ErrorHandler>, req: Request, env: Env)
    requires Misses(routes, ToUpper(req.verb), StripApiPrefix(req.pathname), env.matchPath, 0, |routes|)
    ensures var out := Dispatch(routes, globalErrorHandler, req, env);
            && out == Returned(NotFoundResponse())
            && out.response.status == 404
            && out.response.body["sucess"] == JBool(false)
            && "success" !in out.response.body
  {
  }

  /**
   * A matcher that fails to decode the path (a malformed percent escape) is
   * called outside the `try`, so `handle` rejects with the URIError and no
   * error handler runs.
   */
  lemma DecodeErrorRejects(routes: seq<CompiledRoute>, globalErrorHandler: Option<ErrorHandler>, req: Request, env: Env, k: nat)
    requires k < |routes|
    requires routes[k].verb.Name() == ToUpper(req.verb)
    requires env.matchPath(routes[k].path, StripApiPrefix(req.pathname)) == DecodeFailed
    requires Misses(routes, ToUpper(req.verb), StripApiPrefix(req.pathname), env.matchPath, 0, k)
    ensures Dispatch(routes, globalErrorHandler, req, env) == Threw(URIError)
  {
    var s := FindRoute(routes, ToUpper(req.verb), StripApiPrefix(req.pathname), env.matchPath, 0);
    assert !Misses(routes, ToUpper(req.verb), StripApiPrefix(req.pathname), env.matchPath, 0, |routes|);
    if s.Found? || s.DecodeFailedAt? {
      assert s.index <= k;
      assert s.index >= k;
    }
  }

  /**
   * For compiled routes (which carry no error handler of their own) and an
   * instance handler that is set, a throwing chain is answered by the instance
   * handler with what was thrown; the generic 500 is never used.
   */
  lemma ThrowAnsweredByInstanceHandler(route: CompiledRoute, h: ErrorHandler, req: Request, params: Params, env: Env)
    requires route.onError.None?
    requires RunChain(route.handlers, env, req, params).outcome.Threw?
    ensures RunRoute(route, Some(h), req, params, env)
            == ApplyErrorHandler(h, RunChain(route.handlers, env, req, params).outcome.error, req, params, env)
  {
  }

  /**
   * For routes that all lack an error handler of their own, as `Create` builds
   * them, and an instance handler `h`: whenever the chain of the route that
   * handles the request throws, `h` answers with what was thrown.
   */
  lemma InstanceHandlerDecides(routes: seq<CompiledRoute>, h: ErrorHandler, req: Request, env: Env)
    requires forall k :: 0 <= k < |routes| ==> routes[k].onError.None?
    ensures var s := FindRoute(routes, ToUpper(req.verb), StripApiPrefix(req.pathname), env.matchPath, 0);
            var run := if s.Found? then RunChain(routes[s.index].handlers, env, req, s.params) else Run(Returned(NotFoundResponse()), []);
            s.Found? && run.outcome.Threw? ==>
              Dispatch(routes, Some(h), req, env) == ApplyErrorHandler(h, run.outcome.error, req, s.params, env)
  {
    var s := FindRoute(routes, ToUpper(req.verb), StripApiPrefix(req.pathname), env.matchPath, 0);
    if s.Found? && RunChain(routes[s.index].handlers, env, req, s.params).outcome.Threw? {
      ThrowAnsweredByInstanceHandler(routes[s.index], h, req, s.params, env);
    }
  }

  /** `GET /api/users/42` against a single route `GET /users/:id` with no middleware reaches the handler with `id = "42"`. */
  lemma SingleRouteScenario(cls: ClassId, env: Env, resp: Response)
    requires env.matchPath("/users/:id", "/users/42") == Matched(map["id" := "42"])
    requires env.act(BoundHandler(cls, "show"), Request("GET", "/api/users/42"), map["id" := "42"]) == Respond(resp)
    ensures var def := RoutingMapping.RouteDefinition("/users/:id", GET, "show");
            Dispatch([CompileRoute("", cls, def, [], map[])], Some(DefaultErrorHandler), Request("GET", "/api/users/42"), env)
            == Returned(resp)
  {
    var def := RoutingMapping.RouteDefinition("/users/:id", GET, "show");
    var route := CompileRoute("", cls, def, [], map[]);
    var req := Request("GET", "/api/users/42");
    StripTrailingSlashesUnique("" + "/users/:id", "/users/:id");
    VerbComparedUpperCased();
    StripApiPrefixExamples();
    DispatchFirstMatch([route], Some(DefaultErrorHandler), req, env, 0, map["id" := "42"]);
    ShortCircuit(route.handlers, 0, env, req, map["id" := "42"]);
  }

  // ---------------------------------------------------------------------------
  // The router object
  // ---------------------------------------------------------------------------

  /** The constructor's output for a list of definitions: one compiled route per definition, same order. */
  function CompileAll(basePath: string, cls: ClassId, defs: seq<RoutingMapping.RouteDefinition>,
                      classMws: seq<Middleware>, routeMws: map<string, seq<Middleware>>): (r: seq<CompiledRoute>)
    ensures |r| == |defs|
    ensures forall k :: 0 <= k < |defs| ==> r[k] == CompileRoute(basePath, cls, defs[k], classMws, routeMws)
  {
    seq(|defs|, k requires 0 <= k < |defs| => CompileRoute(basePath, cls, defs[k], classMws, routeMws))
  }

  /** The routes are the class's registered definitions compiled in registration order. */
  ghost predicate CompiledFrom(routes: seq<CompiledRoute>, basePath: string, cls: ClassId, tbl: RoutingMapping.Table)
  {
    routes == CompileAll(basePath, cls, RoutingMapping.GetRoutes(tbl, cls),
                         RoutingMapping.GetControllerMiddlewares(tbl, cls), RoutingMapping.GetRouteMiddlewares(tbl, cls))
  }

  class ApiRouter {
    var routes: seq<CompiledRoute>
    var basePath: string
    var globalErrorHandler: Option<ErrorHandler>

    /** The instance handler is always set and no compiled route has a handler of its own. */
    ghost predicate Valid()
      reads this
    {
      && globalErrorHandler.Some?
      && forall k :: 0 <= k < |routes| ==> routes[k].onError.None? && |routes[k].handlers| >= 1
    }

    /** Field initialisers and `this.basePath = basePath`. */
    constructor Init(basePath: string)
      ensures this.basePath == basePath && routes == [] && globalErrorHandler == Some(DefaultErrorHandler)
      ensures Valid()
    {
      this.basePath := basePath;
      routes := [];
      globalErrorHandler := Some(DefaultErrorHandler);
    }

    /**
     * `new ApiRouter(basePath, controller)`: one compiled route per registered
     * definition, in registration order; binding a handler name that is not a
     * function of the controller throws a TypeError and no router is produced.
     */
    static method Create(basePath: string, controller: Controller, md: RoutingMapping.Store) returns (res: Result<ApiRouter, Error>)
      ensures var defs := RoutingMapping.GetRoutes(md.store, controller.cls);
              res.Failure? <==> exists k :: 0 <= k < |defs| && defs[k].handlerName !in controller.methods
      ensures res.Failure? ==> res.error == TypeError
      ensures res.Success? ==> fresh(res.value) && res.value.Valid()
      ensures res.Success? ==> res.value.basePath == basePath && res.value.globalErrorHandler == Some(DefaultErrorHandler)
      ensures res.Success? ==> CompiledFrom(res.value.routes, basePath, controller.cls, md.store)
    {
      var router := new ApiRouter.Init(basePath);
      var controllerRoutes := RoutingMapping.GetRoutes(md.store, controller.cls);
      var classMiddlewares := RoutingMapping.GetControllerMiddlewares(md.store, controller.cls);
      var routeMwsMap := RoutingMapping.GetRouteMiddlewares(md.store, controller.cls);
      ghost var all := CompileAll(basePath, controller.cls, controllerRoutes, classMiddlewares, routeMwsMap);
      var i := 0;
      while i < |controllerRoutes|
        invariant 0 <= i <= |controllerRoutes|
        invariant forall k :: 0 <= k < i ==> controllerRoutes[k].handlerName in controller.methods
        invariant router.routes == all[..i]
        invariant router.basePath == basePath && router.globalErrorHandler == Some(DefaultErrorHandler)
      {
        var route := controllerRoutes[i];
        if route.handlerName !in controller.methods {
          assert controllerRoutes[i].handlerName !in controller.methods;
          return Failure(TypeError);
        }
        var compiled := CompileRoute(basePath, controller.cls, route, classMiddlewares, routeMwsMap);
        assert all[..i + 1] == all[..i] + [compiled];
        router.routes := router.routes + [compiled];
        i := i + 1;
      }
      assert router.routes == all;
      assert router.Valid();
      return Success(router);
    }

    /** `onError(handler)`: replaces the instance error handler and nothing else. */
    method OnError(handler: ErrorHandler)
      modifies this
      ensures globalErrorHandler == Some(handler)
      ensures routes == old(routes) && basePath == old(basePath)
      ensures old(Valid()) ==> Valid()
    {
      globalErrorHandler := Some(handler);
    }

    /**
     * `handle(req)`: scans the routes in order and settles as `Dispatch` says.
     * It changes nothing. For a router built by `Create` (and kept valid by
     * `OnError`), when the chain of the route that handles the request throws,
     * the instance error handler answers with what was thrown.
     */
    method Handle(req: Request, env: Env) returns (res: Outcome)
      ensures res == Dispatch(routes, globalErrorHandler, req, env)
      ensures Valid() ==>
              var s := FindRoute(routes, ToUpper(req.verb), StripApiPrefix(req.pathname), env.matchPath, 0);
              var run := if s.Found? then RunChain(routes[s.index].handlers, env, req, s.params) else Run(Returned(NotFoundResponse()), []);
              s.Found? && run.outcome.Threw? ==>
                res == ApplyErrorHandler(globalErrorHandler.value, run.outcome.error, req, s.params, env)
    {
      var reqVerb := ToUpper(req.verb);
      var reqPath := StripApiPrefix(req.pathname);
      var i := 0;
      while i < |routes|
        invariant 0 <= i <= |routes|
        invariant FindRoute(routes, reqVerb, reqPath, env.matchPath, 0) == FindRoute(routes, reqVerb, reqPath, env.matchPath, i)
      {
        var route := routes[i];
        if route.verb.Name() == reqVerb {
          var m := env.matchPath(route.path, reqPath);
          match m {
            case DecodeFailed =>
              return Threw(URIError);
            case Matched(params) =>
              var stack := route.handlers;
              var run := RunChain(stack, env, req, params);
              if run.outcome.Returned? {
                return run.outcome;
              }
              if route.onError.Some? {
                return ApplyErrorHandler(route.onError.value, run.outcome.error, req, params, env);
              }
              if globalErrorHandler.Some? {
                return ApplyErrorHandler(globalErrorHandler.value, run.outcome.error, req, params, env);
              }
              return Returned(GenericServerError());
            case NoMatch =>
          }
        }
        i := i + 1;
      }
      return Returned(NotFoundResponse());
    }
  }
}
