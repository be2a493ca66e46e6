/** The `Router` of `main.py`: a table keyed by the exact (method, path) pair,
    filled by the `get`/`post` decorators, and `handle`, which builds a fresh
    request, finds the handler, injects its arguments, calls it, and encodes
    the result with whatever serializer the response holds afterwards. */
module Routing {
  import opened Wrappers
  import opened Messages
  import opened Injection

  datatype RouteKey = RouteKey(httpMethod: string, path: string)

  /** What a handler did to `request.response` before returning: a new
      serializer and/or a new status, each optional. */
  datatype Edit = Edit(serializer: Option<Serializer>, status: Option<int>)

  /** A handler call either returns a value (having possibly edited the
      response through the request it was given) or raises. */
  datatype Outcome =
    | Returned(value: Value, edit: Edit)
    | Raised(reason: string)

  /** A handler: its declared parameters in order, standing for what
      `inspect.signature` reports, and its effect on the keyword arguments. */
  datatype Handler = Handler(params: seq<Param>, effect: seq<Binding> -> Outcome)

  datatype Router = Router(
    serializer: Serializer,
    injector: Injector,
    handlers: map<RouteKey, Handler>)

  function NoEdit(): Edit {
    Edit(None, None)
  }

  /** The response after the handler's edit has been applied. */
  function ApplyEdit(resp: Response, edit: Edit): Response {
    Response(
      if edit.serializer.Some? then edit.serializer.value else resp.serializer,
      if edit.status.Some? then edit.status.value else resp.status)
  }

  /** Edits are attribute assignments: assigning nothing changes nothing,
      repeating the same assignments changes nothing more, an edit that
      assigns both attributes leaves no trace of the earlier response, and
      of two edits in a row the later assignment to an attribute wins. */
  lemma ApplyEditLaws(resp: Response, other: Response, e1: Edit, e2: Edit)
    ensures ApplyEdit(resp, NoEdit()) == resp
    ensures ApplyEdit(ApplyEdit(resp, e1), e1) == ApplyEdit(resp, e1)
    ensures e1.serializer.Some? && e1.status.Some? ==> ApplyEdit(resp, e1) == ApplyEdit(other, e1)
    ensures ApplyEdit(ApplyEdit(resp, e1), e2)
         == ApplyEdit(resp, Edit(if e2.serializer.Some? then e2.serializer else e1.serializer,
                                 if e2.status.Some? then e2.status else e1.status))
  {
  }

  /** `Router(serializer=..., injector=...)`: no routes yet. */
  function NewRouter(serializer: Serializer, injector: Injector): Router {
    Router(serializer, injector, map[])
  }

  /** The request `handle` builds for each dispatch: the transport's body and
      a response holding the router's default serializer and status 200. */
  function FreshRequest(serializer: Serializer, body: Bytes): Request {
    Request(body, Response(serializer, 200))
  }

  /** `_decorate(method, path)(fn)`: `fn` becomes the handler for exactly this
      key, replacing any earlier one; no other key changes. */
  function Decorate(router: Router, httpMethod: string, path: string, fn: Handler): (r: Router)
    ensures RouteKey(httpMethod, path) in r.handlers && r.handlers[RouteKey(httpMethod, path)] == fn
    ensures r.handlers.Keys == router.handlers.Keys + {RouteKey(httpMethod, path)}
    ensures forall k :: k in router.handlers && k != RouteKey(httpMethod, path) ==> r.handlers[k] == router.handlers[k]
    ensures r.serializer == router.serializer && r.injector == router.injector
  {
    router.(handlers := router.handlers[RouteKey(httpMethod, path) := fn])
  }

  /** A router fresh from its constructor routes nothing: every dispatch
      raises the route-table `KeyError`. */
  lemma NewRouterRoutesNothing(serializer: Serializer, injector: Injector, codecs: Codecs,
                               httpMethod: string, path: string, body: Bytes)
    ensures Handle(NewRouter(serializer, injector), codecs, httpMethod, path, body) == Err(RouteNotFound(httpMethod, path))
  {
  }

  /** `router.get(path)`: registers under the method "GET". */
  function Get(router: Router, path: string, fn: Handler): (r: Router)
    ensures RouteKey("GET", path) in r.handlers && r.handlers[RouteKey("GET", path)] == fn
    ensures forall k :: k in router.handlers && k != RouteKey("GET", path) ==> k in r.handlers && r.handlers[k] == router.handlers[k]
    ensures forall k :: k in r.handlers && k != RouteKey("GET", path) ==> k in router.handlers
  {
    Decorate(router, "GET", path, fn)
  }

  /** `router.post(path)`: registers under the method "POST". */
  function Post(router: Router, path: string, fn: Handler): (r: Router)
    ensures RouteKey("POST", path) in r.handlers && r.handlers[RouteKey("POST", path)] == fn
    ensures forall k :: k in router.handlers && k != RouteKey("POST", path) ==> k in r.handlers && r.handlers[k] == router.handlers[k]
    ensures forall k :: k in r.handlers && k != RouteKey("POST", path) ==> k in router.handlers
  {
    Decorate(router, "POST", path, fn)
  }

  /** Steps 3 and 4 of `handle` for an already found handler: inject, call,
      then encode with the serializer the response holds after the call. */
  function Invoke(parsers: map<TypeTag, Parser>, handler: Handler, request: Request, codecs: Codecs): (r: Result<RouteResponse, Error>)
    ensures r.Ok? ==> r.value.body.Some? && r.value.headers.Keys == {"content-type"}
    ensures r.Ok? ==> r.value.headers["content-type"] in {ContentType(Text), ContentType(Json)}
    ensures r.Err? ==> !r.error.RouteNotFound?
  {
    var kwargs :- Inject(parsers, handler.params, request);
    match handler.effect(kwargs)
    case Raised(reason) => Err(HandlerFailed(reason))
    case Returned(value, edit) =>
      var response := ApplyEdit(request.response, edit);
      var body :- Encode(response.serializer, codecs, value);
      Ok(RouteResponse(Some(body), response.status, map["content-type" := ContentType(response.serializer)]))
  }

  /** `Router.handle(method, path, body)`. */
  function Handle(router: Router, codecs: Codecs, httpMethod: string, path: string, body: Bytes): (r: Result<RouteResponse, Error>)
    ensures r.Ok? ==> RouteKey(httpMethod, path) in router.handlers
    ensures r.Ok? ==> r.value.body.Some? && r.value.headers.Keys == {"content-type"}
    ensures r.Ok? ==> r.value.headers["content-type"] in {"text", "application/json"}
    ensures (r.Err? && r.error.RouteNotFound?) <==> RouteKey(httpMethod, path) !in router.handlers
  {
    var request := FreshRequest(router.serializer, body);
    var key := RouteKey(httpMethod, path);
    if key !in router.handlers then Err(RouteNotFound(httpMethod, path))
    else Invoke(router.injector.parsers, router.handlers[key], request, codecs)
  }

  /** After `_decorate(method, path)(fn)`, dispatching that exact key runs
      `fn` on a fresh request, whatever was registered there before. */
  lemma DispatchReachesRegistered(router: Router, codecs: Codecs, httpMethod: string, path: string, fn: Handler, body: Bytes)
    ensures Handle(Decorate(router, httpMethod, path, fn), codecs, httpMethod, path, body)
         == Invoke(router.injector.parsers, fn, FreshRequest(router.serializer, body), codecs)
  {
  }

  /** Registering a key leaves dispatch of every other key as it was, even
      one that differs from it in a single character of the path. */
  lemma DispatchOtherKeysUnchanged(router: Router, codecs: Codecs, httpMethod: string, path: string, fn: Handler,
                                   otherMethod: string, otherPath: string, body: Bytes)
    requires RouteKey(otherMethod, otherPath) != RouteKey(httpMethod, path)
    ensures Handle(Decorate(router, httpMethod, path, fn), codecs, otherMethod, otherPath, body)
         == Handle(router, codecs, otherMethod, otherPath, body)
  {
  }

  /** Last write wins: a second registration for the same key erases every
      trace of the first. */
  lemma LastRegistrationWins(router: Router, httpMethod: string, path: string, first: Handler, second: Handler)
    ensures Decorate(Decorate(router, httpMethod, path, first), httpMethod, path, second)
         == Decorate(router, httpMethod, path, second)
  {
  }

  /** Registrations for different keys do not interfere: their order does not matter. */
  lemma RegistrationsCommute(router: Router, m1: string, p1: string, h1: Handler, m2: string, p2: string, h2: Handler)
    requires RouteKey(m1, p1) != RouteKey(m2, p2)
    ensures Decorate(Decorate(router, m1, p1, h1), m2, p2, h2)
         == Decorate(Decorate(router, m2, p2, h2), m1, p1, h1)
  {
  }

  /** Dispatch depends on no handler but the one under its key: two routers
      that share the default serializer, the injector and that one entry
      (or both lack it) give the same result. */
  lemma DispatchUsesOnlyItsHandler(r1: Router, r2: Router, codecs: Codecs, httpMethod: string, path: string, body: Bytes)
    requires r1.serializer == r2.serializer && r1.injector == r2.injector
    requires RouteKey(httpMethod, path) in r1.handlers <==> RouteKey(httpMethod, path) in r2.handlers
    requires RouteKey(httpMethod, path) in r1.handlers ==>
               r1.handlers[RouteKey(httpMethod, path)] == r2.handlers[RouteKey(httpMethod, path)]
    ensures Handle(r1, codecs, httpMethod, path, body) == Handle(r2, codecs, httpMethod, path, body)
  {
  }

  /** An unregistered key raises `KeyError` before any handler runs. */
  lemma UnregisteredFails(router: Router, codecs: Codecs, httpMethod: string, path: string, body: Bytes)
    requires RouteKey(httpMethod, path) !in router.handlers
    ensures Handle(router, codecs, httpMethod, path, body) == Err(RouteNotFound(httpMethod, path))
  {
  }

  /** If injection fails, the handler is never called: its effect does not
      matter, and the injector's exception is the result. */
  lemma InjectionFailureSkipsHandler(router: Router, codecs: Codecs, httpMethod: string, path: string, body: Bytes,
                                     params: seq<Param>, effect1: seq<Binding> -> Outcome, effect2: seq<Binding> -> Outcome)
    requires Inject(router.injector.parsers, params, FreshRequest(router.serializer, body)).Err?
    ensures Handle(Decorate(router, httpMethod, path, Handler(params, effect1)), codecs, httpMethod, path, body)
         == Handle(Decorate(router, httpMethod, path, Handler(params, effect2)), codecs, httpMethod, path, body)
         == Err(Inject(router.injector.parsers, params, FreshRequest(router.serializer, body)).error)
  {
  }

  /** The serializer that counts is the one in `request.response` after the
      handler returns: it encodes the body and alone supplies the
      content-type header. Without an edit that is the router's default, and
      the status stays 200 unless the handler sets it. */
  lemma ResponseFollowsPostHandlerSerializer(router: Router, codecs: Codecs, httpMethod: string, path: string, body: Bytes,
                                             kwargs: seq<Binding>, value: Value, edit: Edit)
    requires RouteKey(httpMethod, path) in router.handlers
    requires Inject(router.injector.parsers, router.handlers[RouteKey(httpMethod, path)].params,
                    FreshRequest(router.serializer, body)) == Ok(kwargs)
    requires router.handlers[RouteKey(httpMethod, path)].effect(kwargs) == Returned(value, edit)
    ensures var s := edit.serializer.GetOr(router.serializer);
            var r := Handle(router, codecs, httpMethod, path, body);
            && (r.Ok? <==> Encode(s, codecs, value).Ok?)
            && (r.Ok? ==> r.value == RouteResponse(Some(Encode(s, codecs, value).value),
                                                   edit.status.GetOr(200),
                                                   map["content-type" := ContentType(s)]))
            && (r.Err? ==> r.error == EncodeFailed(s))
  {
  }

  /** A handler that raises makes the dispatch raise the same exception. */
  lemma HandlerFailurePropagates(router: Router, codecs: Codecs, httpMethod: string, path: string, body: Bytes,
                                 kwargs: seq<Binding>, reason: string)
    requires RouteKey(httpMethod, path) in router.handlers
    requires Inject(router.injector.parsers, router.handlers[RouteKey(httpMethod, path)].params,
                    FreshRequest(router.serializer, body)) == Ok(kwargs)
    requires router.handlers[RouteKey(httpMethod, path)].effect(kwargs) == Raised(reason)
    ensures Handle(router, codecs, httpMethod, path, body) == Err(HandlerFailed(reason))
  {
  }

  /** A handler with no parameters is called with an empty argument list,
      so the parser table plays no part in its dispatch. */
  lemma ZeroParamsGetNoArguments(router: Router, codecs: Codecs, httpMethod: string, path: string, body: Bytes,
                                 fn: Handler, other: Injector)
    requires fn.params == []
    ensures Inject(router.injector.parsers, fn.params, FreshRequest(router.serializer, body)) == Ok([])
    ensures Handle(Decorate(router, httpMethod, path, fn), codecs, httpMethod, path, body)
         == Handle(Decorate(router.(injector := other), httpMethod, path, fn), codecs, httpMethod, path, body)
  {
  }

  /** With the built-in identity entry in place, a `Request`-annotated
      parameter is bound to the very request this dispatch built: the
      transport's body, the router's default serializer and status 200. */
  lemma {:induction false} RequestParamIsFreshRequest(router: Router, body: Bytes, params: seq<Param>, i: int)
    requires RequestType in router.injector.parsers && router.injector.parsers[RequestType] == Identity
    requires 0 <= i < |params| && params[i].typ == RequestType
    requires Inject(router.injector.parsers, params, FreshRequest(router.serializer, body)).Ok?
    ensures var kwargs := Inject(router.injector.parsers, params, FreshRequest(router.serializer, body)).value;
            && kwargs[i].name == params[i].name
            && kwargs[i].value == ReqRef(Request(body, Response(router.serializer, 200)))
  {
  }
}
