/** The plain data of the dispatch core in `main.py`: byte strings, the Python
    values handlers receive and return, the two stock serializers, the
    per-request `Response`/`Request` pair, the finished `RouteResponse`, and the
    exceptions a dispatch can end in. */
module Messages {
  import opened Wrappers

  newtype byte = b: int | 0 <= b < 256
  type Bytes = seq<byte>

  /** A class used as a parameter annotation; the injector's table is keyed by it. */
  datatype TypeTag =
    | RequestType          // the `Request` class itself
    | Unannotated          // `inspect.Parameter.empty`, the annotation of a bare parameter
    | Named(name: string)  // an application class such as `Body`; two classes
                           // sharing a `__name__` would share a tag here

  /** The Python values that flow through a dispatch. Dictionaries keep their
      insertion order (a `seq` of fields), since that order reaches the encoder. */
  datatype Value =
    | Null
    | Bool(b: bool)
    | Int(i: int)
    | Str(s: string)
    | List(items: seq<Value>)
    | Dict(fields: seq<Field>)
    | Obj(cls: string, fields: seq<Field>)  // a dataclass instance
    | ReqRef(req: Request)                  // the live request object itself

  datatype Field = Field(key: string, value: Value)

  /** `key`'s entry is at index `i`, and no later field repeats `key`. */
  ghost predicate LastWith(fields: seq<Field>, key: string, i: int) {
    && 0 <= i < |fields|
    && fields[i].key == key
    && forall j :: i < j < |fields| ==> fields[j].key != key
  }

  /** The value stored under `key`. When several fields share the key, the
      last one wins, as it does when `json.loads` reads an object with a
      repeated name. */
  function Lookup(fields: seq<Field>, key: string): (r: Option<Value>)
    ensures r.Some? <==> exists i :: 0 <= i < |fields| && fields[i].key == key
    ensures r.Some? ==> exists i :: LastWith(fields, key, i) && fields[i].value == r.value
  {
    if |fields| == 0 then None
    else
      var n := |fields| - 1;
      if fields[n].key == key then
        assert LastWith(fields, key, n);
        Some(fields[n].value)
      else
        var rest := Lookup(fields[..n], key);
        assert forall i :: 0 <= i < n ==> fields[..n][i] == fields[i];
        assert forall i :: LastWith(fields[..n], key, i) ==> LastWith(fields, key, i);
        rest
  }

  /** The library conversions a serializer or parser calls, which the model
      does not see into: `str(v).encode()`, `json.dumps(v).encode()` and
      `json.loads(b)`. Each returns `None` where the library raises. */
  datatype Codecs = Codecs(
    textOf: Value -> Option<Bytes>,
    dumps: Value -> Option<Bytes>,
    loads: Bytes -> Option<Value>)

  datatype Serializer = Text | Json

  /** The header value each serializer declares. */
  function ContentType(s: Serializer): (r: string)
    ensures r == "text" <==> s == Text
    ensures r == "application/json" <==> s == Json
  {
    match s
    case Text => "text"
    case Json => "application/json"
  }

  /** The response-in-progress a handler may mutate; status starts at 200. */
  datatype Response = Response(serializer: Serializer, status: int)

  datatype Request = Request(body: Bytes, response: Response)

  /** What `Router.handle` returns to the transport. */
  datatype RouteResponse = RouteResponse(
    body: Option<Bytes>,
    status: int,
    headers: map<string, string>)

  /** The exceptions that can escape `Router.handle`. */
  datatype Error =
    | RouteNotFound(httpMethod: string, path: string)  // KeyError from the route table
    | NoParser(typ: TypeTag)                       // KeyError from the parser table
    | ParserFailed(reason: string)                 // a registered parser raised
    | HandlerFailed(reason: string)                // the handler raised
    | EncodeFailed(serializer: Serializer)         // the serializer raised

  /** CPython's default cap (since 3.11) on the decimal digits of an `int`
      converted to text (`sys.int_info.default_max_str_digits`); longer ones
      raise `ValueError`. A program can change it with
      `sys.set_int_max_str_digits`; `main.py` does not. */
  const MaxStrDigits := 4300

  function DecimalDigits(n: nat): (d: nat)
    ensures d >= 1
  {
    if n < 10 then 1 else 1 + DecimalDigits(n / 10)
  }

  /** `str(i)` succeeds: the integer has at most `MaxStrDigits` digits. */
  predicate IntPrintable(i: int) {
    DecimalDigits(if i < 0 then -i else i) <= MaxStrDigits
  }

  /** `str(v)` succeeds: every integer inside `v` is printable. Requests and
      dataclass instances print through their `repr`. */
  predicate Printable(v: Value) {
    match v
    case Int(i) => IntPrintable(i)
    case List(items) => forall k :: 0 <= k < |items| ==> Printable(items[k])
    case Dict(fields) => forall k :: 0 <= k < |fields| ==> Printable(fields[k].value)
    case Obj(_, fields) => forall k :: 0 <= k < |fields| ==> Printable(fields[k].value)
    case _ => true
  }

  /** `json.dumps(v)` succeeds: `v` is built from `None`, booleans, printable
      integers, strings, lists and dicts only. A dataclass instance or a
      request is not JSON serializable. */
  predicate JsonData(v: Value) {
    match v
    case Null => true
    case Bool(_) => true
    case Int(i) => IntPrintable(i)
    case Str(_) => true
    case List(items) => forall k :: 0 <= k < |items| ==> JsonData(items[k])
    case Dict(fields) => forall k :: 0 <= k < |fields| ==> JsonData(fields[k].value)
    case Obj(_, _) => false
    case ReqRef(_) => false
  }

  /** A conservative nesting bound, well below CPython's default recursion
      limit of 1000, which `repr` of lists and dicts and the C JSON encoder
      both run into (`RecursionError`) on deeply nested containers. */
  const MaxNesting := 100

  /** No chain of containers (lists, dicts, dataclass instances) inside `v`
      is more than `d` deep. */
  predicate NestedWithin(v: Value, d: nat) {
    match v
    case List(items) => d > 0 && forall k :: 0 <= k < |items| ==> NestedWithin(items[k], d - 1)
    case Dict(fields) => d > 0 && forall k :: 0 <= k < |fields| ==> NestedWithin(fields[k].value, d - 1)
    case Obj(_, fields) => d > 0 && forall k :: 0 <= k < |fields| ==> NestedWithin(fields[k].value, d - 1)
    case _ => true
  }

  /** What the standard library guarantees of the conversions, for values
      nested at most `MaxNesting` deep: `str` of a printable value and
      `json.dumps` of JSON data do not raise. (Dafny strings hold no lone
      surrogates, so `.encode()` cannot fail either.) */
  ghost predicate StandardCodecs(codecs: Codecs) {
    && (forall v :: Printable(v) && NestedWithin(v, MaxNesting) ==> codecs.textOf(v).Some?)
    && (forall v :: JsonData(v) && NestedWithin(v, MaxNesting) ==> codecs.dumps(v).Some?)
  }

  /** Whatever `json.dumps` accepts, `str` accepts too. */
  lemma {:induction false} JsonDataIsPrintable(v: Value)
    ensures JsonData(v) ==> Printable(v)
  {
    match v
    case List(items) =>
      forall k | 0 <= k < |items| ensures JsonData(items[k]) ==> Printable(items[k]) {
        JsonDataIsPrintable(items[k]);
      }
    case Dict(fields) =>
      forall k | 0 <= k < |fields| ensures JsonData(fields[k].value) ==> Printable(fields[k].value) {
        JsonDataIsPrintable(fields[k].value);
      }
    case _ =>
  }

  /** Calls serializer `s` on `v`: the bytes are exactly those of the
      serializer's library call, and when that call raises, the error names
      the serializer. With the standard library, shallow JSON data encodes
      under both, and a shallow printable value always encodes as text. */
  function Encode(s: Serializer, codecs: Codecs, v: Value): (r: Result<Bytes, Error>)
    ensures r.Err? ==> r.error == EncodeFailed(s)
    ensures r.Ok? <==> (if s == Text then codecs.textOf(v).Some? else codecs.dumps(v).Some?)
    ensures r.Ok? ==> Some(r.value) == (if s == Text then codecs.textOf(v) else codecs.dumps(v))
    ensures StandardCodecs(codecs) && NestedWithin(v, MaxNesting) && (JsonData(v) || (s == Text && Printable(v)))
            ==> r.Ok?
  {
    match s
    case Text =>
      JsonDataIsPrintable(v);
      (match codecs.textOf(v)
       case Some(b) => Ok(b)
       case None => Err(EncodeFailed(Text)))
    case Json =>
      match codecs.dumps(v)
      case Some(b) => Ok(b)
      case None => Err(EncodeFailed(Json))
  }

  /** The content-type header tells which serializer produced the body. */
  lemma ContentTypeIdentifiesSerializer(s1: Serializer, s2: Serializer)
    ensures ContentType(s1) == ContentType(s2) <==> s1 == s2
  {
  }
}
