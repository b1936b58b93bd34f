/** What `generate_service_server!` emits: a route table made of a health
    route followed by one POST route per method, and handlers that turn the
    implementation's result into a reply. A route either answers a request
    or rejects it (`None`); rejections are warp's to turn into replies. */
module ServerGen {
  import opened Wrappers
  import opened ErrorModel
  import opened WarpCodes
  import opened WireFormat

  /** `content_length_limit(1024 * 16)`. */
  const BodyLimit: nat := 1024 * 16

  const HealthSegment: string := "_health"
  const HealthBody: string := "Healthy"

  /** The request method; every method other than GET and POST is `OtherVerb`. */
  datatype Verb = Get | Post | OtherVerb(name: string)

  /** An incoming request: method, path segments, the Content-Length header
      if any, and the body. */
  datatype Request<W> = Request(verb: Verb, path: seq<string>, contentLength: Option<nat>, body: W)

  /** The implementation of the service: method name and request value to
      the method's result. */
  type Service<!Req, Resp> = (string, Req) -> Result<Resp, ServiceError>

  /** One filter of the route table. */
  datatype Route = HealthRoute | MethodRoute(name: string, segment: string)

  /** `filters::mount`: `health()` then `.or(m(service))` for each method in
      declaration order, each method routed at its snake-case name. */
  function Mount(methods: seq<string>, snake: string -> string): (routes: seq<Route>)
    ensures |routes| == |methods| + 1
    ensures routes[0] == HealthRoute
    ensures forall i :: 0 <= i < |methods| ==> routes[i + 1] == MethodRoute(methods[i], snake(methods[i]))
  {
    if methods == [] then [HealthRoute]
    else
      var last := methods[|methods| - 1];
      Mount(methods[..|methods| - 1], snake) + [MethodRoute(last, snake(last))]
  }

  /** No method route is the health route, and every route but the first is
      a method route. */
  lemma MountShape(methods: seq<string>, snake: string -> string, i: nat)
    requires i < |Mount(methods, snake)|
    ensures Mount(methods, snake)[i] == HealthRoute <==> i == 0
  {
  }

  /** The length check: warp rejects a missing Content-Length and one above
      16384 bytes; a length of exactly 16384 passes. */
  predicate WithinLimit(contentLength: Option<nat>)
  {
    contentLength.Some? && contentLength.value <= BodyLimit
  }

  /** `handlers::<method>`: an `Ok` result is a 200 reply with the encoded
      response; an `Err` is a reply with the error's mapped code and the
      encoded error. The two cases cannot be confused by their code, and
      every result yields a reply (the handler's error type is
      `Infallible`). */
  function Handle<Req, Resp, W>(wire: Wire<Req, Resp, W>, result: Result<Resp, ServiceError>): (reply: HttpResponse<W>)
    ensures IsSuccess(reply.code) <==> result.Success?
    ensures result.Success? ==> reply == HttpResponse(200, wire.response.encode(result.value))
    ensures result.Failure? ==> reply.code == ToCode(result.error.status) && 400 <= reply.code < 600
    ensures result.Failure? ==> reply.body == wire.error.encode(result.error)
  {
    match result
    case Success(res) => HttpResponse(200, wire.response.encode(res))
    case Failure(e) => HttpResponse(ToCode(e.status), wire.error.encode(e))
  }

  /** One route's filter chain. The health route answers any GET whose first
      segment is `_health` (no `path::end()` follows), without the service. A
      method route answers a POST whose first segment is its own, whose
      length passes the limit and whose body decodes as a request; only then
      is the service called. */
  function Answer<Req, Resp, W>(route: Route, request: Request<W>, wire: Wire<Req, Resp, W>, service: Service<Req, Resp>): (r: Option<HttpResponse<W>>)
    ensures route.HealthRoute? ==>
      (r.Some? <==> request.verb == Get && |request.path| > 0 && request.path[0] == HealthSegment)
    ensures route.HealthRoute? && r.Some? ==> r.value == HttpResponse(200, wire.text(HealthBody))
    ensures route.MethodRoute? ==>
      (r.Some? <==> && request.verb == Post && |request.path| > 0 && request.path[0] == route.segment
                    && WithinLimit(request.contentLength) && wire.request.decode(request.body).Success?)
    ensures route.MethodRoute? && r.Some? ==>
      r.value == Handle(wire, service(route.name, wire.request.decode(request.body).value))
  {
    match route
    case HealthRoute =>
      if request.verb == Get && |request.path| > 0 && request.path[0] == HealthSegment
      then Some(HttpResponse(200, wire.text(HealthBody)))
      else None
    case MethodRoute(name, segment) =>
      if request.verb == Post && |request.path| > 0 && request.path[0] == segment && WithinLimit(request.contentLength)
      then
        match wire.request.decode(request.body)
        case Success(req) => Some(Handle(wire, service(name, req)))
        case Failure(_) => None
      else None
  }

  /** The chain of `.or`: the first route that answers decides the reply;
      the request is rejected exactly when every route rejects it. */
  function Dispatch<Req, Resp, W>(routes: seq<Route>, request: Request<W>, wire: Wire<Req, Resp, W>, service: Service<Req, Resp>): (r: Option<HttpResponse<W>>)
    ensures r.None? <==> forall i :: 0 <= i < |routes| ==> Answer(routes[i], request, wire, service).None?
    ensures forall i ::
      (0 <= i < |routes| && Answer(routes[i], request, wire, service).Some? &&
       forall j :: 0 <= j < i ==> Answer(routes[j], request, wire, service).None?) ==>
        r == Answer(routes[i], request, wire, service)
  {
    if routes == [] then None
    else
      match Answer(routes[0], request, wire, service)
      case Some(reply) => Some(reply)
      case None =>
        var rest := Dispatch(routes[1..], request, wire, service);
        assert forall i :: 1 <= i < |routes| ==> routes[1..][i - 1] == routes[i];
        rest
  }

  /** `GET /_health` always answers 200 with `"Healthy"`, for every method
      list and every implementation. */
  lemma HealthAlwaysAnswers<Req, Resp, W>(methods: seq<string>, snake: string -> string, request: Request<W>, wire: Wire<Req, Resp, W>, service: Service<Req, Resp>)
    requires request.verb == Get && |request.path| > 0 && request.path[0] == HealthSegment
    ensures Dispatch(Mount(methods, snake), request, wire, service) == Some(HttpResponse(200, wire.text(HealthBody)))
  {
  }

  /** A request whose length fails the limit never reaches the service:
      the outcome is the same whatever the implementation. */
  lemma {:induction false} OversizeNeverReachesService<Req, Resp, W>(routes: seq<Route>, request: Request<W>, wire: Wire<Req, Resp, W>, s1: Service<Req, Resp>, s2: Service<Req, Resp>)
    requires !WithinLimit(request.contentLength)
    ensures Dispatch(routes, request, wire, s1) == Dispatch(routes, request, wire, s2)
  {
    if routes != [] {
      assert Answer(routes[0], request, wire, s1) == Answer(routes[0], request, wire, s2);
      OversizeNeverReachesService(routes[1..], request, wire, s1, s2);
    }
  }

  /** An oversized or unsized POST is rejected by every mounted route. */
  lemma OversizePostRejected<Req, Resp, W>(methods: seq<string>, snake: string -> string, request: Request<W>, wire: Wire<Req, Resp, W>, service: Service<Req, Resp>)
    requires request.verb == Post && !WithinLimit(request.contentLength)
    ensures Dispatch(Mount(methods, snake), request, wire, service).None?
  {
  }

  /** A request that is neither GET nor POST is rejected by every mounted
      route. */
  lemma OtherVerbRejected<Req, Resp, W>(methods: seq<string>, snake: string -> string, request: Request<W>, wire: Wire<Req, Resp, W>, service: Service<Req, Resp>)
    requires request.verb.OtherVerb?
    ensures Dispatch(Mount(methods, snake), request, wire, service).None?
  {
  }

  /** A POST to method `methods[k]`'s segment, within the limit and with a
      body that decodes, is answered by that method's handler on the
      decoded request, provided no earlier method has the same segment. */
  lemma MethodRouteAnswers<Req, Resp, W>(methods: seq<string>, snake: string -> string, k: nat, request: Request<W>, wire: Wire<Req, Resp, W>, service: Service<Req, Resp>, req: Req)
    requires k < |methods|
    requires forall j :: 0 <= j < k ==> snake(methods[j]) != snake(methods[k])
    requires request.verb == Post && |request.path| > 0 && request.path[0] == snake(methods[k])
    requires WithinLimit(request.contentLength)
    requires wire.request.decode(request.body) == Success(req)
    ensures Dispatch(Mount(methods, snake), request, wire, service) == Some(Handle(wire, service(methods[k], req)))
  {
    var routes := Mount(methods, snake);
    assert routes[k + 1] == MethodRoute(methods[k], snake(methods[k]));
    forall j | 0 <= j < k + 1 ensures Answer(routes[j], request, wire, service).None? {
      if j > 0 {
        assert routes[(j - 1) + 1] == MethodRoute(methods[j - 1], snake(methods[j - 1]));
      }
    }
  }
}
