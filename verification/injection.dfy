/** The `Injector` of `main.py`: a table from parameter annotation to parser,
    seeded with an identity entry for `Request`, and the walk over a handler's
    declared parameters that turns a request into keyword arguments. */
module Injection {
  import opened Wrappers
  import opened Messages

  /** A parser maps the live request to an argument value. `Identity` is the
      built-in `lambda r: r`; `Custom` is any registered callable, which may raise. */
  datatype Parser =
    | Identity
    | Custom(run: Request -> Result<Value, string>)

  /** One declared parameter of a handler: its name and its annotation. */
  datatype Param = Param(name: string, typ: TypeTag)

  /** One keyword argument produced for a handler call. */
  datatype Binding = Binding(name: string, value: Value)

  datatype Injector = Injector(parsers: map<TypeTag, Parser>)

  function Parse(p: Parser, req: Request): Result<Value, string> {
    match p
    case Identity => Ok(ReqRef(req))
    case Custom(run) => run(req)
  }

  /** The table a fresh injector starts from: only `Request`, parsed as itself. */
  function DefaultParsers(): map<TypeTag, Parser> {
    map[RequestType := Identity]
  }

  function NewInjector(): Injector {
    Injector(DefaultParsers())
  }

  /** `Injector.register`: the entry for `t` becomes `p`, whatever it was. */
  function Register(inj: Injector, t: TypeTag, p: Parser): (r: Injector)
    ensures t in r.parsers && r.parsers[t] == p
    ensures r.parsers.Keys == inj.parsers.Keys + {t}
    ensures forall u :: u in inj.parsers && u != t ==> r.parsers[u] == inj.parsers[u]
  {
    Injector(inj.parsers[t := p])
  }

  /** One step of the walk: look the annotation up (a miss is the `KeyError`)
      and run the parser found on the request. */
  function Resolve(parsers: map<TypeTag, Parser>, p: Param, req: Request): (r: Result<Value, Error>)
    ensures (r.Err? && r.error.NoParser?) <==> p.typ !in parsers
    ensures r.Err? ==> r.error == NoParser(p.typ) || r.error.ParserFailed?
    ensures r.Ok? ==> p.typ in parsers && Parse(parsers[p.typ], req) == Ok(r.value)
    ensures p.typ in parsers ==> (r.Ok? <==> Parse(parsers[p.typ], req).Ok?)
    ensures r.Err? && r.error.ParserFailed? ==>
              p.typ in parsers && Parse(parsers[p.typ], req) == Err(r.error.reason)
  {
    if p.typ !in parsers then Err(NoParser(p.typ))
    else
      match Parse(parsers[p.typ], req)
      case Ok(v) => Ok(v)
      case Err(reason) => Err(ParserFailed(reason))
  }

  /** Every declared parameter resolves. */
  ghost predicate Resolvable(parsers: map<TypeTag, Parser>, params: seq<Param>, req: Request) {
    forall i :: 0 <= i < |params| ==> Resolve(parsers, params[i], req).Ok?
  }

  /** `kwargs` holds one binding per parameter, in declaration order, named
      after it and carrying what its parser produced. */
  ghost predicate BindsInOrder(parsers: map<TypeTag, Parser>, params: seq<Param>, req: Request, kwargs: seq<Binding>) {
    && |kwargs| == |params|
    && forall i :: 0 <= i < |params| ==>
         kwargs[i].name == params[i].name && Resolve(parsers, params[i], req) == Ok(kwargs[i].value)
  }

  /** Parameter `k` is the first in declaration order that fails to resolve, with error `e`. */
  ghost predicate FirstFailure(parsers: map<TypeTag, Parser>, params: seq<Param>, req: Request, k: int, e: Error) {
    && 0 <= k < |params|
    && (forall j :: 0 <= j < k ==> Resolve(parsers, params[j], req).Ok?)
    && Resolve(parsers, params[k], req) == Err(e)
  }

  /** `Injector.__call__`: the keyword arguments for a handler declaring
      `params`, or the exception of the first parameter that fails. */
  function Inject(parsers: map<TypeTag, Parser>, params: seq<Param>, req: Request): (r: Result<seq<Binding>, Error>)
    ensures r.Ok? <==> Resolvable(parsers, params, req)
    ensures r.Ok? ==> BindsInOrder(parsers, params, req, r.value)
    ensures r.Err? ==> exists k :: FirstFailure(parsers, params, req, k, r.error)
  {
    if |params| == 0 then Ok([])
    else
      match Resolve(parsers, params[0], req)
      case Err(e) =>
        assert FirstFailure(parsers, params, req, 0, e);
        Err(e)
      case Ok(v) =>
        var rest := Inject(parsers, params[1..], req);
        assert forall i :: 1 <= i < |params| ==> params[i] == params[1..][i - 1];
        match rest
        case Err(e) =>
          FirstFailureShift(parsers, params, req, e);
          Err(e)
        case Ok(tail) =>
          Ok([Binding(params[0].name, v)] + tail)
  }

  /** A handler with a single parameter gets a single binding, or that parameter's error. */
  lemma InjectOne(parsers: map<TypeTag, Parser>, p: Param, req: Request)
    ensures Inject(parsers, [p], req) ==
      (match Resolve(parsers, p, req) case Ok(v) => Ok([Binding(p.name, v)]) case Err(e) => Err(e))
  {
    assert [p][0] == p && [p][1..] == [];
    assert Inject(parsers, [], req) == Ok([]);
    match Resolve(parsers, p, req)
    case Ok(v) =>
      assert [Binding(p.name, v)] + [] == [Binding(p.name, v)];
    case Err(e) =>
  }

  /** A first failure in the parameters after a resolvable head is a first
      failure of the whole list, one position later. */
  lemma FirstFailureShift(parsers: map<TypeTag, Parser>, params: seq<Param>, req: Request, e: Error)
    requires |params| > 0 && Resolve(parsers, params[0], req).Ok?
    requires exists k :: FirstFailure(parsers, params[1..], req, k, e)
    ensures exists k :: FirstFailure(parsers, params, req, k, e)
  {
    var k :| FirstFailure(parsers, params[1..], req, k, e);
    assert forall i :: 1 <= i < |params| ==> params[i] == params[1..][i - 1];
    assert FirstFailure(parsers, params, req, k + 1, e);
  }

  /** The binding list `BindsInOrder` describes is unique. */
  lemma BindsInOrderUnique(parsers: map<TypeTag, Parser>, params: seq<Param>, req: Request, a: seq<Binding>, b: seq<Binding>)
    requires BindsInOrder(parsers, params, req, a)
    requires BindsInOrder(parsers, params, req, b)
    ensures a == b
  {
  }

  /** The `for` loop of `Injector.__call__`, building the arguments one
      parameter at a time and stopping at the first exception; it computes
      exactly what `Inject` describes. */
  method InjectLoop(parsers: map<TypeTag, Parser>, params: seq<Param>, req: Request) returns (r: Result<seq<Binding>, Error>)
    ensures r == Inject(parsers, params, req)
  {
    var kwargs: seq<Binding> := [];
    var i := 0;
    while i < |params|
      invariant 0 <= i <= |params|
      invariant BindsInOrder(parsers, params[..i], req, kwargs)
    {
      var p := params[i];
      if p.typ !in parsers {
        r := Err(NoParser(p.typ));
        InjectIsFirstFailure(parsers, params, req, i, r.error);
        return;
      }
      match Parse(parsers[p.typ], req)
      case Err(reason) =>
        r := Err(ParserFailed(reason));
        InjectIsFirstFailure(parsers, params, req, i, r.error);
        return;
      case Ok(v) =>
        kwargs := kwargs + [Binding(p.name, v)];
        assert params[..i + 1] == params[..i] + [p];
      i := i + 1;
    }
    assert params[..i] == params;
    var expected := Inject(parsers, params, req);
    BindsInOrderUnique(parsers, params, req, expected.value, kwargs);
    r := Ok(kwargs);
  }

  /** When parameter `k` is the first to fail, `Inject` raises its error. */
  lemma InjectIsFirstFailure(parsers: map<TypeTag, Parser>, params: seq<Param>, req: Request, k: int, e: Error)
    requires FirstFailure(parsers, params, req, k, e)
    ensures Inject(parsers, params, req) == Err(e)
  {
  }

  /** A parameter whose annotation has no parser makes injection fail; if
      every earlier parameter resolved, with the `KeyError` for that annotation. */
  lemma MissingParserFails(parsers: map<TypeTag, Parser>, params: seq<Param>, req: Request, i: int)
    requires 0 <= i < |params| && params[i].typ !in parsers
    ensures Inject(parsers, params, req).Err?
    ensures (forall j :: 0 <= j < i ==> Resolve(parsers, params[j], req).Ok?) ==>
              Inject(parsers, params, req) == Err(NoParser(params[i].typ))
  {
  }

  /** A fresh injector binds a `Request`-annotated parameter to the request
      itself and raises `KeyError` for every other annotation. */
  lemma FreshInjectorResolves(p: Param, req: Request)
    ensures p.typ == RequestType ==> Resolve(NewInjector().parsers, p, req) == Ok(ReqRef(req))
    ensures p.typ != RequestType ==> Resolve(NewInjector().parsers, p, req) == Err(NoParser(p.typ))
  {
  }

  /** After `register(t, p)`, a parameter annotated `t` is produced by `p`,
      and parameters with any other annotation resolve as before. */
  lemma RegisterResolves(inj: Injector, t: TypeTag, parser: Parser, p: Param, req: Request)
    ensures p.typ == t ==>
      Resolve(Register(inj, t, parser).parsers, p, req) ==
        (match Parse(parser, req) case Ok(v) => Ok(v) case Err(reason) => Err(ParserFailed(reason)))
    ensures p.typ != t ==> Resolve(Register(inj, t, parser).parsers, p, req) == Resolve(inj.parsers, p, req)
  {
  }
}
