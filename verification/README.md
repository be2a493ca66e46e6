# pyre request dispatch, modelled in Dafny

A model of the request-dispatch core of `main.py`:

- the **route table** of `Router`, keyed by the exact `(method, path)` pair and filled by the `get`/`post` decorators through `_decorate`, last registration winning;
- the **`Injector`**, a table from parameter annotation to parser. It starts with an identity entry for `Request` and is extended by `register`. Its call walks a handler's declared parameters in order and binds each name to what its parser makes of the request;
- **`Router.handle`**. It builds a fresh `Request` whose `Response` carries the router's default serializer and status 200. It then looks up the handler, injects the arguments and calls the handler. Finally it encodes the result with the serializer that `request.response` holds *after* the call, and that serializer's content type becomes the only header;
- the demo application at the bottom of the file (`Body.from_request`, and the routes `GET /`, `GET /text` and `POST /body`), as concrete scenarios.

Files and modules:

- `wrappers.dfy` (`Wrappers`): `Option` and `Result`. `Err` stands for a Python exception escaping a call.
- `messages.dfy` (`Messages`): bytes, Python values, `TypeTag` (a class used as an annotation), `Serializer` (`Text | Json`) with its content types, `Response`, `Request`, `RouteResponse`, the exceptions, `Lookup`, `Encode`, and the library guarantees `Printable`, `JsonData` and `StandardCodecs`.
- `injection.dfy` (`Injection`): `Parser`, `Param`, `Binding`, `Injector`, `Register`, `Resolve`, and `Inject`. `Inject` is the recursive definition. `InjectLoop` is the `for` loop, proved equal to it.
- `routing.dfy` (`Routing`): `Handler`, `Router`, `Decorate`/`Get`/`Post`, `Invoke`, `Handle`, and the dispatch lemmas.
- `demo.dfy` (`Demo`): the demo injector, router and handlers, and the scenario lemmas.

Modelling choices:

- **Handlers.** A handler is an explicit, ordered parameter manifest `seq<Param>` (what `inspect.signature` would report), plus an effect from the keyword arguments to an `Outcome`. The outcome either returns a value together with an `Edit` of the live response (an optional new serializer, an optional new status), or raises. The handler's assignment to `r.response.serializer` is this `Edit`. `Handle` applies the edit before it reads the serializer.
- **Object identity.** Identity is modelled as value equality. The identity parser binds `ReqRef(req)`, the very request value the dispatch built.
- **Library calls.** `str(v).encode()`, `json.dumps(v).encode()` and `json.loads(b)` are not defined here. They are the three function fields of a `Codecs` value passed to `Handle`. All three return `Option`, because each can raise. `StandardCodecs` is the model's assumption about them, limited to values nested at most `MaxNesting` (100) containers deep (`NestedWithin`). On such values, `str` does not raise on a `Printable` value, and `json.dumps` does not raise on `JsonData` (`None`, booleans, integers, strings, lists and dicts only). The depth bound keeps clear of CPython's default recursion limit of 1000. Both `repr` of containers and the C JSON encoder raise `RecursionError` past that limit.
- **Integers.** They are unbounded, like Python's, so no wrap-around is modelled. Since 3.11, CPython by default refuses to convert an integer of more than 4300 decimal digits to text, and this limit applies to `str` and `json.dumps` alike. `sys.set_int_max_str_digits` can change the limit, but `main.py` does not call it. `MaxStrDigits` and `IntPrintable` model the default.
- **Strings.** Dafny strings hold Unicode scalar values only. The lone surrogates on which Python's `.encode()` raises cannot occur in the model.
- **Annotations.** A `TypeTag` names an application class by its name (`Named("Body")`). Two distinct classes that share a `__name__` are therefore one key in the model, while Python's parser table would keep them apart.
- **Duplicate keys.** A decoded JSON object is a `Dict` whose fields may repeat a key. `Lookup` takes the last field with the key, as `json.loads` keeps the last value for a repeated name.
- **Exceptions.** The constructors of `Error` record where an exception arose: route table, parser table, parser, handler or serializer. A Python exception carries no such tag. For example, a handler that raises `KeyError(("GET", "/x"))` escapes from `handle` exactly like a missing route. The model reports it as `HandlerFailed`, so it tells apart cases that Python callers cannot.

Behaviour of `main.py` kept by the model:

- `handle` does not catch anything. Every failure (missing route, missing parser, a parser, handler or serializer raising) escapes as an exception. The model returns it as `Err`, not as a well-formed error `RouteResponse`.
- The missing-parser `KeyError` carries only the annotation (`NoParser(typ)`), not the handler.
- An exception raised by a registered parser escapes `handle` as it is, with no wrapping exception of the injector's own. `ParserFailed(reason)` only marks its origin, as described under "Exceptions".
- Parser lookup is by exact annotation. There is no subclass matching.
- The request is built before the route lookup (lines 110–111). Building it has no effect, so the order cannot be observed.

## Model

| member | source | states |
|---|---|---|
| Messages.Lookup | main.py:29-30 | A key is found exactly when some field has it, and the value found is that of the last field with the key. |
| Messages.ContentType | main.py:55-68 | The text serializer declares `"text"` and the JSON serializer declares `"application/json"`, and each value belongs to exactly one serializer. |
| Messages.Encode | main.py:55-68 | The body bytes are exactly those of the chosen serializer's library call: `str(v).encode()` for text, `json.dumps(v).encode()` for JSON. Either serializer can raise. A failure names the serializer that raised, and success depends only on that serializer's library call. Under `StandardCodecs`, JSON data nested at most `MaxNesting` deep encodes under both serializers, and such a printable value always encodes as text. |
| Messages.JsonDataIsPrintable | main.py:55-68 | Every value `json.dumps` accepts is also accepted by `str`, so switching a response from JSON to text cannot introduce a failure. |
| Messages.ContentTypeIdentifiesSerializer | main.py:59-68 | The two serializers declare different content types, so the header names the serializer that produced the body. |
| Injection.Parse | main.py:81-92 | The built-in parser returns the request object itself, and a registered parser is called on the request. Its properties are stated by `Injection.FreshInjectorResolves` and `Injection.RegisterResolves`. |
| Injection.DefaultParsers | main.py:81-83 | The default table has the single entry `Request`, mapped to the identity parser. `Injection.FreshInjectorResolves` states its behaviour. |
| Injection.NewInjector | main.py:78-79 | A new injector starts from the default table. `Injection.FreshInjectorResolves` states its behaviour. |
| Injection.Resolve | main.py:91-92 | A parameter fails with the `KeyError` for its annotation exactly when the annotation has no parser. When the annotation has a parser, resolution succeeds exactly when the parser does. A success is what the parser returned, and any other failure carries the parser's own exception. |
| Injection.Register | main.py:85-86 | `register(t, p)` makes `p` the entry for `t`, overwriting any earlier one. It adds no key except `t` and leaves every other entry unchanged. |
| Injection.RegisterResolves | main.py:85-92 | After `register(t, p)`, a parameter annotated `t` is produced by `p`, and parameters with other annotations resolve exactly as before. |
| Injection.FreshInjectorResolves | main.py:78-83 | A fresh injector binds a `Request`-annotated parameter to the request itself. Every other annotation, including a missing one, raises `KeyError`. |
| Injection.Inject | main.py:88-94 | Injection succeeds exactly when every declared parameter resolves. It then returns one binding per parameter, in declaration order, named after the parameter and holding its parser's result, so zero parameters give an empty list. On failure, the error is that of a parameter all of whose predecessors resolved. |
| Injection.InjectLoop | main.py:88-94 | The parameter-by-parameter loop stops at the first exception, and it computes exactly the result `Inject` specifies. |
| Injection.InjectIsFirstFailure | main.py:90-92 | When parameter `k` is the first that fails to resolve, injection raises that parameter's error and no later one. |
| Injection.MissingParserFails | main.py:90-91 | A parameter whose annotation is not in the table makes injection fail. If every earlier parameter resolved, the error is the `KeyError` for that annotation. |
| Routing.ApplyEditLaws | main.py:112-117 | Handler edits to `request.response` behave as attribute assignments. No assignment changes nothing. Repeating the same assignments changes nothing more. Assigning both attributes leaves no trace of the earlier values. Of two edits in a row, the later assignment to an attribute wins. |
| Routing.NewRouter | main.py:98-101 | A new router holds the given default serializer and injector and no routes. `Routing.NewRouterRoutesNothing` states its behaviour. |
| Routing.NewRouterRoutesNothing | main.py:97-111 | Before any decorator has run, every dispatch raises the route-table `KeyError`. |
| Routing.FreshRequest | main.py:110 | The request `handle` builds holds the transport's body and a response with the router's default serializer and status 200. `Routing.RequestParamIsFreshRequest` states what a handler sees of it. |
| Routing.Decorate | main.py:120-125 | `_decorate(method, path)(fn)` makes `fn` the handler for exactly that key. It adds only that key, leaves every other entry, the default serializer and the injector unchanged. |
| Routing.Get | main.py:103-104 | `get(path)` registers under the key `("GET", path)` and leaves every other key as it was. |
| Routing.Post | main.py:106-107 | `post(path)` registers under the key `("POST", path)` and leaves every other key as it was. |
| Routing.Invoke | main.py:112-118 | A successful call yields a body and exactly one header, `content-type`, whose value is one of the two serializers' content types. Nothing after the lookup produces a route-not-found error. |
| Routing.Handle | main.py:109-118 | A dispatch succeeds only for a registered key, and it fails with route-not-found exactly when the key is unregistered. On success it has a body and the single `content-type` header, with a value of `"text"` or `"application/json"`. |
| Routing.DispatchReachesRegistered | main.py:109-125 | After `fn` is registered under `(method, path)`, dispatching that exact key runs `fn` on a fresh request, whatever was registered there before. |
| Routing.DispatchOtherKeysUnchanged | main.py:109-125 | Registering one key leaves the dispatch of every other key unchanged, including keys that differ only by a trailing character. |
| Routing.LastRegistrationWins | main.py:120-125 | A second registration for the same key gives the same router as if the first had never happened. |
| Routing.RegistrationsCommute | main.py:120-125 | Registrations under distinct keys can be applied in either order with the same result. |
| Routing.DispatchUsesOnlyItsHandler | main.py:109-112 | A dispatch depends only on the handler under its own key, the default serializer and the injector. Routers that agree on these give the same result. |
| Routing.UnregisteredFails | main.py:110-111 | Dispatching an unregistered key raises the route-table `KeyError`, and no handler is involved. |
| Routing.InjectionFailureSkipsHandler | main.py:112 | When injection fails, the handler's effect does not matter. The dispatch raises the injector's error. |
| Routing.ResponseFollowsPostHandlerSerializer | main.py:110-118 | After the handler returns, the body is encoded by, and the only header is taken from, the serializer in `request.response`: the handler's replacement if it made one, else the router's default. The status is 200 unless the handler set it. |
| Routing.HandlerFailurePropagates | main.py:112 | An exception raised by the handler is the dispatch's exception. |
| Routing.ZeroParamsGetNoArguments | main.py:89-94 | A handler without parameters gets an empty argument list, so its dispatch does not depend on the parser table. |
| Routing.RequestParamIsFreshRequest | main.py:110-112 | While the built-in identity entry is in place, a `Request`-annotated parameter is bound to the request this dispatch built. That request has the transport's body, the default serializer and status 200. |
| Demo.BodyFromRequest | main.py:27-30 | `Body.from_request` decodes the body and calls `Body(**d)`. `Demo.BodyParsing` states when it succeeds and what it builds. |
| Demo.BodyParsing | main.py:27-30 | `Body.from_request` succeeds exactly when the body decodes to a dict whose keys are `a`, `b` and `c`. It then builds the record in the order `a`, `b`, `c`, each field holding the value of the dict's last entry with that key. Undecodable and non-dict bodies are refused. |
| Demo.RootHandler | main.py:133-135 | `a()` takes no arguments and returns `{"result": "test"}` without touching the response. `Demo.RootScenario` states its dispatch. |
| Demo.TextHandler | main.py:138-141 | `b(r: Request)` switches `r.response` to the text serializer and returns `{"result": r}`. `Demo.TextScenario` states its dispatch. |
| Demo.BodyHandler | main.py:144-146 | `c(body: Body)` returns `{"body": asdict(body)}`. `Demo.BodyScenario` states its dispatch. |
| Demo.DemoInjector | main.py:128-129 | The module-level injector has exactly two entries: the identity parser for `Request`, kept from the defaults, and `Body.from_request` for `Body`. |
| Demo.DemoRouter | main.py:130-146 | The module-level router uses JSON by default and the demo injector. It routes exactly `GET /`, `GET /text` and `POST /body`, each to its handler. |
| Demo.RootScenario | main.py:128-135 | `GET /` yields status 200, the content type `"application/json"` and the JSON encoding of `{"result": "test"}`. It fails only with the JSON serializer's error, and under `StandardCodecs` it succeeds. |
| Demo.TextScenario | main.py:138-141 | `GET /text` answers with status 200 and the content type `"text"`, its body being the text form of `{"result": r}`, because the handler's switch to the text serializer overrides the JSON default. It fails only with the text serializer's error, and under `StandardCodecs` it succeeds. |
| Demo.BodyScenario | main.py:144-146 | `POST /body` with a body decoding to `{"a": 1, "b": "x", "c": {}}` answers with status 200 and the JSON encoding of `{"body": {"a": 1, "b": "x", "c": {}}}`. Under `StandardCodecs` it succeeds. |
| Demo.MalformedBodyScenario | main.py:28-30 | `POST /body` with a body that `json.loads` rejects fails inside the parser, before the handler runs. |
| Demo.UnroutedScenarios | main.py:133-146 | In the demo router, `GET /missing`, `GET /text/`, `POST /` and `GET /body` all raise the route-table `KeyError`. Only the three exact registered keys are routed. |

## Left out

- The ASGI `application` coroutine and the `uvicorn.run` entry point (main.py:149-166): async transport and network I/O.
- The `Scope` typed dict (main.py:9-11): it only shapes the transport's input.
- The abstract base classes `Serializer` and `DependencyInjector` (main.py:33-40, 71-74): the model has the concrete serializers and the concrete `Injector` only.
- `inspect.signature`: a handler's parameters are an explicit manifest, not read off a Python function.
- The byte-level behaviour of `str(...).encode()`, `json.dumps` and `json.loads`. These are library code, so they are parameters of the model. JSON round-tripping is therefore not stated. `StandardCodecs` is an assumed sufficient condition for success. It is not derived from the library. It holds for CPython only while the call stack leaves room for `MaxNesting` further levels below the recursion limit, and while no program lowers that limit.
- Floats and tuples: `Value` has neither. `json.loads` turns `{"a": 1.5, "b": "x", "c": {}}` into a float, `Body(**d)` accepts it unchecked, and `json.dumps` echoes it back. The model's `loads` can only produce the value kinds listed.
- Shared injector: `Router` holds its `Injector` by value. In Python, `Router.__init__` keeps a reference (main.py:100), so an `injector.register(...)` made after the router is built would be visible to `handle`. `main.py` registers before building the router. In the model, the later case is written `router.(injector := Register(router.injector, t, p))`.
- `json.loads` failures: every exception `json.loads` raises becomes the one parser error `"json.loads raised"`. Malformed JSON, bytes that are not UTF-8 and deep nesting are not told apart.
- Exception identity: Python cannot tell a handler's own `KeyError` from a route miss, but the model's `Error` constructors can (see "Exceptions" above). The dispatch lemmas are stated over these tagged errors.
- Side effects of parsers on the request: a parser is a pure function of the request. The stock parsers (the identity and `Body.from_request`) have none.
- Handler edits are not tied to the handler having a `Request` parameter. Any handler outcome may carry an edit. The demo handlers edit only through their `Request` argument.
- Demo.TextScenario: the `ReqRef` inside the returned dict holds the request as it was passed in. In Python the same object already shows the text serializer by the time it is converted to text, but `str()` of that object prints only its class and address.
- `examples/echo.py`: it wires up the same three routes through modules that are not part of this model.
