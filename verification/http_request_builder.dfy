/**
 * The HTTP request builder: an accumulator over method, path, query and
 * matrix parameters and cookies, on top of the headers and payload kept by
 * its base class, and the request value it builds.
 *
 * The builder is a value: each `with` step returns the updated builder
 * where the modelled class mutates itself and returns `this`.  Cookies,
 * headers and payload are opaque type parameters `K`, `H` and `P`.
 */
module HttpRequests {
  import opened Js

  /** The state kept by the base message builder, which this model does not look into. */
  datatype MessageParts<H, P> = MessageParts(headers: H, payload: P)

  datatype HttpRequestBuilder<K, H, P> = HttpRequestBuilder(
    httpMethod: Opt<string>,
    path: Opt<string>,
    queryParameters: map<string, string>,
    matrixParameters: map<string, string>,
    cookies: Opt<seq<K>>,
    message: MessageParts<H, P>)

  datatype HttpRequest<K, H, P> = HttpRequest(
    httpMethod: Opt<string>,
    path: Opt<string>,
    queryParameters: map<string, string>,
    matrixParameters: map<string, string>,
    headers: H,
    cookies: Opt<seq<K>>,
    payload: P)

  /** A freshly constructed builder over the base builder's initial state `base`. */
  function NewBuilder<K, H, P>(base: MessageParts<H, P>): (b: HttpRequestBuilder<K, H, P>)
    ensures b.httpMethod.Undefined? && b.path.Undefined? && b.cookies.Undefined?
    ensures |b.queryParameters| == 0 && |b.matrixParameters| == 0
    ensures b.message == base
  {
    HttpRequestBuilder(Undefined, Undefined, map[], map[], Undefined, base)
  }

  function WithMethod<K, H, P>(b: HttpRequestBuilder<K, H, P>, httpMethod: string): (r: HttpRequestBuilder<K, H, P>)
    ensures r.httpMethod == Defined(httpMethod)
    ensures r == b.(httpMethod := r.httpMethod)
  {
    b.(httpMethod := Defined(httpMethod))
  }

  function WithPath<K, H, P>(b: HttpRequestBuilder<K, H, P>, path: string): (r: HttpRequestBuilder<K, H, P>)
    ensures r.path == Defined(path)
    ensures r == b.(path := r.path)
  {
    b.(path := Defined(path))
  }

  /** Sets one query parameter; an existing value under the same name is replaced. */
  function WithQuery<K, H, P>(b: HttpRequestBuilder<K, H, P>, name: string, value: string): (r: HttpRequestBuilder<K, H, P>)
    ensures r.queryParameters.Keys == b.queryParameters.Keys + {name}
    ensures r.queryParameters[name] == value
    ensures forall n :: n in b.queryParameters && n != name ==> r.queryParameters[n] == b.queryParameters[n]
    ensures r == b.(queryParameters := r.queryParameters)
  {
    b.(queryParameters := b.queryParameters[name := value])
  }

  /** Sets one matrix parameter; an existing value under the same name is replaced. */
  function WithMatrix<K, H, P>(b: HttpRequestBuilder<K, H, P>, name: string, value: string): (r: HttpRequestBuilder<K, H, P>)
    ensures r.matrixParameters.Keys == b.matrixParameters.Keys + {name}
    ensures r.matrixParameters[name] == value
    ensures forall n :: n in b.matrixParameters && n != name ==> r.matrixParameters[n] == b.matrixParameters[n]
    ensures r == b.(matrixParameters := r.matrixParameters)
  {
    b.(matrixParameters := b.matrixParameters[name := value])
  }

  /** Appends cookies after those already held; an absent list first becomes
      an empty one, even when no cookie is given. */
  function WithCookies<K, H, P>(b: HttpRequestBuilder<K, H, P>, cookies: seq<K>): (r: HttpRequestBuilder<K, H, P>)
    ensures r.cookies.Defined?
    ensures |r.cookies.value| == |b.cookies.OrElse([])| + |cookies|
    ensures r.cookies.value[..|b.cookies.OrElse([])|] == b.cookies.OrElse([])
    ensures r.cookies.value[|b.cookies.OrElse([])|..] == cookies
    ensures r == b.(cookies := r.cookies)
  {
    b.(cookies := Defined(b.cookies.OrElse([]) + cookies))
  }

  /** Appends one cookie, through the variadic `withCookies`. */
  function WithCookie<K, H, P>(b: HttpRequestBuilder<K, H, P>, cookie: K): (r: HttpRequestBuilder<K, H, P>)
    ensures r.cookies.Defined? && r.cookies.value == b.cookies.OrElse([]) + [cookie]
    ensures r == b.(cookies := r.cookies)
  {
    WithCookies(b, [cookie])
  }

  /** A snapshot of the builder's current state; the builder itself is not changed. */
  function Build<K, H, P>(b: HttpRequestBuilder<K, H, P>): (req: HttpRequest<K, H, P>)
    ensures req.httpMethod == b.httpMethod && req.path == b.path
    ensures req.queryParameters == b.queryParameters && req.matrixParameters == b.matrixParameters
    ensures req.headers == b.message.headers && req.cookies == b.cookies && req.payload == b.message.payload
  {
    HttpRequest(b.httpMethod, b.path, b.queryParameters, b.matrixParameters, b.message.headers, b.cookies, b.message.payload)
  }

  /** A fresh builder with the method and path set. */
  function Of<K, H, P>(base: MessageParts<H, P>, httpMethod: string, path: string): (b: HttpRequestBuilder<K, H, P>)
    ensures b.httpMethod == Defined(httpMethod) && b.path == Defined(path)
    ensures |b.queryParameters| == 0 && |b.matrixParameters| == 0
    ensures b.cookies.Undefined? && b.message == base
  {
    WithPath(WithMethod(NewBuilder(base), httpMethod), path)
  }
}
