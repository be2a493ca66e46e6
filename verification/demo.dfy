/** The application set up at the bottom of `main.py`: an injector that also
    parses `Body` from the JSON request body, a router whose default serializer
    is JSON, and three routes, `GET /`, `GET /text` and `POST /body`. */
module Demo {
  import opened Wrappers
  import opened Messages
  import opened Injection
  import opened Routing

  const BodyType: TypeTag := Named("Body")

  /** The keys of a dict, as a set. */
  function Keys(fields: seq<Field>): set<string> {
    set i | 0 <= i < |fields| :: fields[i].key
  }

  /** A three-entry dict has the three keys of its entries. */
  lemma KeysOfThree(fields: seq<Field>)
    requires |fields| == 3
    ensures Keys(fields) == {fields[0].key, fields[1].key, fields[2].key}
  {
  }

  /** `Body.from_request`: `json.loads` the request body, then `Body(**d)`.
      Whatever `json.loads` raises (malformed JSON, bytes that are not UTF-8,
      nesting past the recursion limit) escapes as one undistinguished error.
      The keyword call needs a mapping whose keys are exactly `a`, `b`, `c`;
      a dataclass does not check the field types. */
  function BodyFromRequest(loads: Bytes -> Option<Value>, req: Request): Result<Value, string> {
    match loads(req.body)
    case None => Err("json.loads raised")
    case Some(Dict(fields)) =>
      if Keys(fields) == {"a", "b", "c"} then
        assert "a" in Keys(fields) && "b" in Keys(fields) && "c" in Keys(fields);
        var a, b, c := Lookup(fields, "a"), Lookup(fields, "b"), Lookup(fields, "c");
        Ok(Obj("Body", [Field("a", a.value), Field("b", b.value), Field("c", c.value)]))
      else Err("TypeError: Body() needs exactly the keyword arguments a, b, c")
    case Some(_) => Err("TypeError: argument after ** must be a mapping")
  }

  /** `Body(**d)` succeeds exactly on a decoded dict whose keys are `a`, `b`
      and `c`, and builds the record from the dict's values for those keys,
      in field order, each taken from the last entry with that key; every
      other outcome of `json.loads` is refused. */
  lemma BodyParsing(loads: Bytes -> Option<Value>, req: Request)
    ensures BodyFromRequest(loads, req).Ok? <==>
      (loads(req.body).Some? && loads(req.body).value.Dict? && Keys(loads(req.body).value.fields) == {"a", "b", "c"})
    ensures BodyFromRequest(loads, req).Ok? ==>
      var fields := loads(req.body).value.fields;
      exists ia, ib, ic ::
        && LastWith(fields, "a", ia) && LastWith(fields, "b", ib) && LastWith(fields, "c", ic)
        && BodyFromRequest(loads, req).value
           == Obj("Body", [Field("a", fields[ia].value), Field("b", fields[ib].value), Field("c", fields[ic].value)])
  {
  }

  /** `dataclasses.asdict`: the fields of a dataclass instance as a dict, in
      declaration order; anything else raises `TypeError`. */
  function AsDict(v: Value): Option<Value> {
    match v
    case Obj(_, fields) => Some(Dict(fields))
    case _ => None
  }

  /** The value of keyword argument `name`. */
  function Arg(kwargs: seq<Binding>, name: string): Option<Value> {
    if |kwargs| == 0 then None
    else if kwargs[0].name == name then Some(kwargs[0].value)
    else Arg(kwargs[1..], name)
  }

  /** `a()`: returns `{"result": "test"}`. */
  function RootHandler(): Handler {
    Handler([], _ => Returned(Dict([Field("result", Str("test"))]), NoEdit()))
  }

  /** `b(r: Request)`: switches the response to the text serializer and
      returns `{"result": r}`; an argument without a `response` raises. */
  function TextHandler(): Handler {
    Handler([Param("r", RequestType)],
      kwargs =>
        match Arg(kwargs, "r")
        case Some(ReqRef(req)) => Returned(Dict([Field("result", ReqRef(req))]), Edit(Some(Text), None))
        case _ => Raised("AttributeError: no attribute 'response'"))
  }

  /** `c(body: Body)`: returns `{"body": asdict(body)}`. */
  function BodyHandler(): Handler {
    Handler([Param("body", BodyType)],
      kwargs =>
        match Arg(kwargs, "body")
        case None => Raised("TypeError: missing argument 'body'")
        case Some(v) =>
          match AsDict(v)
          case None => Raised("TypeError: asdict() should be called on dataclass instances")
          case Some(d) => Returned(Dict([Field("body", d)]), NoEdit()))
  }

  /** The module-level `injector`: the identity entry for `Request` kept,
      `Body.from_request` added for `Body`, nothing else. */
  function DemoInjector(codecs: Codecs): (inj: Injector)
    ensures inj.parsers.Keys == {RequestType, BodyType}
    ensures inj.parsers[RequestType] == Identity
    ensures forall req :: Parse(inj.parsers[BodyType], req) == BodyFromRequest(codecs.loads, req)
  {
    Register(NewInjector(), BodyType, Custom(req => BodyFromRequest(codecs.loads, req)))
  }

  /** The module-level `router` after the three decorators have run: JSON by
      default, the demo injector, and exactly the three routes. */
  function DemoRouter(codecs: Codecs): (r: Router)
    ensures r.serializer == Json && r.injector == DemoInjector(codecs)
    ensures r.handlers.Keys == {RouteKey("GET", "/"), RouteKey("GET", "/text"), RouteKey("POST", "/body")}
    ensures r.handlers[RouteKey("GET", "/")] == RootHandler()
    ensures r.handlers[RouteKey("GET", "/text")] == TextHandler()
    ensures r.handlers[RouteKey("POST", "/body")] == BodyHandler()
  {
    var router := NewRouter(Json, DemoInjector(codecs));
    var router := Get(router, "/", RootHandler());
    var router := Get(router, "/text", TextHandler());
    Post(router, "/body", BodyHandler())
  }

  /** `GET /` answers `{"result": "test"}` through the default JSON
      serializer, and with the standard library it does not fail. */
  lemma RootScenario(codecs: Codecs, body: Bytes)
    ensures var r := Handle(DemoRouter(codecs), codecs, "GET", "/", body);
            var expected := Dict([Field("result", Str("test"))]);
            && (r.Ok? <==> codecs.dumps(expected).Some?)
            && (r.Ok? ==> r.value == RouteResponse(codecs.dumps(expected), 200, map["content-type" := "application/json"]))
            && (r.Err? ==> r.error == EncodeFailed(Json))
            && (StandardCodecs(codecs) ==> r.Ok?)
  {
  }

  /** `GET /text` answers with content type "text": the handler's switch of
      serializer, not the router's default, decides the encoding. With the
      standard library it does not fail. */
  lemma TextScenario(codecs: Codecs, body: Bytes)
    ensures var r := Handle(DemoRouter(codecs), codecs, "GET", "/text", body);
            var returned := Dict([Field("result", ReqRef(Request(body, Response(Json, 200))))]);
            && (r.Ok? <==> codecs.textOf(returned).Some?)
            && (r.Ok? ==> r.value == RouteResponse(codecs.textOf(returned), 200, map["content-type" := "text"]))
            && (r.Err? ==> r.error == EncodeFailed(Text))
            && (StandardCodecs(codecs) ==> r.Ok?)
  {
    var returned := Dict([Field("result", ReqRef(Request(body, Response(Json, 200))))]);
    ReturnedIsPrintable(body, returned);
  }

  /** The dict `b` returns prints, and is shallow. */
  lemma ReturnedIsPrintable(body: Bytes, returned: Value)
    requires returned == Dict([Field("result", ReqRef(Request(body, Response(Json, 200))))])
    ensures Printable(returned) && NestedWithin(returned, MaxNesting)
  {
    assert Printable(ReqRef(Request(body, Response(Json, 200))));
    assert NestedWithin(ReqRef(Request(body, Response(Json, 200))), MaxNesting - 1);
  }

  /** `POST /body` with a body that decodes to `{"a": 1, "b": "x", "c": {}}`
      echoes the parsed record back as JSON. */
  lemma BodyScenario(codecs: Codecs, body: Bytes)
    requires codecs.loads(body) == Some(Dict([Field("a", Int(1)), Field("b", Str("x")), Field("c", Dict([]))]))
    ensures var r := Handle(DemoRouter(codecs), codecs, "POST", "/body", body);
            var echoed := Dict([Field("body", Dict([Field("a", Int(1)), Field("b", Str("x")), Field("c", Dict([]))]))]);
            && (r.Ok? <==> codecs.dumps(echoed).Some?)
            && (r.Ok? ==> r.value == RouteResponse(codecs.dumps(echoed), 200, map["content-type" := "application/json"]))
            && (r.Err? ==> r.error == EncodeFailed(Json))
            && (StandardCodecs(codecs) ==> r.Ok?)
  {
    var fields := [Field("a", Int(1)), Field("b", Str("x")), Field("c", Dict([]))];
    var router := DemoRouter(codecs);
    var kwargs := [Binding("body", Obj("Body", fields))];
    var echoed := Dict([Field("body", Dict(fields))]);
    BodyArgumentParsed(codecs, body, fields);
    assert router.handlers[RouteKey("POST", "/body")].effect(kwargs) == Returned(echoed, NoEdit());
    ResponseFollowsPostHandlerSerializer(router, codecs, "POST", "/body", body, kwargs, echoed, NoEdit());
    EchoIsJsonData(fields, echoed);
  }

  /** The echoed sample is shallow JSON data. */
  lemma EchoIsJsonData(fields: seq<Field>, echoed: Value)
    requires fields == [Field("a", Int(1)), Field("b", Str("x")), Field("c", Dict([]))]
    requires echoed == Dict([Field("body", Dict(fields))])
    ensures JsonData(echoed) && NestedWithin(echoed, MaxNesting)
  {
    assert NestedWithin(Dict([]), MaxNesting - 2);
    assert NestedWithin(Dict(fields), MaxNesting - 1);
  }

  /** The injection step of `POST /body`: a body decoding to a mapping with
      exactly the keys `a`, `b`, `c` becomes the single `body` argument. */
  lemma BodyArgumentParsed(codecs: Codecs, body: Bytes, fields: seq<Field>)
    requires fields == [Field("a", Int(1)), Field("b", Str("x")), Field("c", Dict([]))]
    requires codecs.loads(body) == Some(Dict(fields))
    ensures var router := DemoRouter(codecs);
            && RouteKey("POST", "/body") in router.handlers
            && Inject(router.injector.parsers, router.handlers[RouteKey("POST", "/body")].params, FreshRequest(Json, body))
               == Ok([Binding("body", Obj("Body", fields))])
  {
    var router := DemoRouter(codecs);
    var req := FreshRequest(Json, body);
    SampleBodyDecoded(codecs.loads, req, fields);
    assert Resolve(router.injector.parsers, Param("body", BodyType), req) == Ok(Obj("Body", fields));
    InjectOne(router.injector.parsers, Param("body", BodyType), req);
  }

  lemma SampleBodyDecoded(loads: Bytes -> Option<Value>, req: Request, fields: seq<Field>)
    requires fields == [Field("a", Int(1)), Field("b", Str("x")), Field("c", Dict([]))]
    requires loads(req.body) == Some(Dict(fields))
    ensures BodyFromRequest(loads, req) == Ok(Obj("Body", fields))
  {
    assert Lookup(fields, "c") == Some(Dict([]));
    assert fields[..2] == [Field("a", Int(1)), Field("b", Str("x"))];
    assert Lookup(fields, "b") == Some(Str("x"));
    assert fields[..2][..1] == fields[..1] == [Field("a", Int(1))];
    assert Lookup(fields[..1], "a") == Some(Int(1));
    assert Lookup(fields[..2], "a") == Some(Int(1));
    assert Lookup(fields, "a") == Some(Int(1));
    KeysOfThree(fields);
  }

  /** `POST /body` with a body `json.loads` rejects fails inside the parser,
      before the handler runs. */
  lemma MalformedBodyScenario(codecs: Codecs, body: Bytes)
    requires codecs.loads(body) == None
    ensures Handle(DemoRouter(codecs), codecs, "POST", "/body", body) == Err(ParserFailed("json.loads raised"))
  {
  }

  /** Only the three exact keys are routed: an unknown path, a path with a
      trailing slash, or a known path under the other method all raise
      `KeyError`. */
  lemma UnroutedScenarios(codecs: Codecs, body: Bytes)
    ensures Handle(DemoRouter(codecs), codecs, "GET", "/missing", body) == Err(RouteNotFound("GET", "/missing"))
    ensures Handle(DemoRouter(codecs), codecs, "GET", "/text/", body) == Err(RouteNotFound("GET", "/text/"))
    ensures Handle(DemoRouter(codecs), codecs, "POST", "/", body) == Err(RouteNotFound("POST", "/"))
    ensures Handle(DemoRouter(codecs), codecs, "GET", "/body", body) == Err(RouteNotFound("GET", "/body"))
  {
    var keys := DemoRouter(codecs).handlers.Keys;
    assert keys == {RouteKey("GET", "/"), RouteKey("GET", "/text"), RouteKey("POST", "/body")};
    assert "/text/" != "/text" by { assert |"/text/"| != |"/text"|; }
    assert "/missing" != "/" && "/missing" != "/text" && "/missing" != "/body" by {
      assert |"/missing"| == 8;
    }
    assert "POST" != "GET" by { assert |"POST"| != |"GET"|; }
  }
}
