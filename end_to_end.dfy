/** A generated client talking to a generated server for the same
    descriptor. The network is a loopback transport: it reads the request
    path off the URL the client built, hands the request to the server's
    dispatcher, and returns the reply unchanged. */
module EndToEnd {
  import opened Wrappers
  import opened ErrorModel
  import opened WarpCodes
  import opened ReqwestAdapter
  import opened Naming
  import opened WireFormat
  import opened ClientGen
  import opened ServerGen

  /** The path segments of `s`, split at each `/`. */
  function Segments(s: string): (parts: seq<string>)
    ensures |parts| > 0
  {
    if s == [] then [""]
    else
      var rest := Segments(s[1..]);
      if s[0] == '/' then [""] + rest else [[s[0]] + rest[0]] + rest[1..]
  }

  lemma {:induction false} SegmentsOfPlain(s: string)
    requires '/' !in s
    ensures Segments(s) == [s]
  {
    if s != [] {
      assert '/' !in s[1..];
      SegmentsOfPlain(s[1..]);
      assert [s[0]] + s[1..] == s;
    }
  }

  /** The index of the first `c` in `s`, or `|s|` when there is none. */
  function IndexOf(s: string, c: char): (i: nat)
    ensures i <= |s|
    ensures c !in s[..i]
    ensures i < |s| ==> s[i] == c
  {
    if s == [] || s[0] == c then 0
    else
      var j := IndexOf(s[1..], c);
      assert s[..1 + j] == [s[0]] + s[1..][..j];
      1 + j
  }

  lemma {:induction false} IndexOfFoundInPrefix(a: string, b: string, c: char)
    requires IndexOf(a, c) < |a|
    ensures IndexOf(a + b, c) == IndexOf(a, c)
  {
    if a[0] != c {
      assert (a + b)[1..] == a[1..] + b;
      IndexOfFoundInPrefix(a[1..], b, c);
    }
  }

  lemma {:induction false} IndexOfAfterPrefix(a: string, b: string, c: char)
    requires c !in a
    ensures IndexOf(a + b, c) == |a| + IndexOf(b, c)
  {
    if a != [] {
      assert a[0] != c && c !in a[1..] by { assert a == [a[0]] + a[1..]; }
      assert (a + b)[0] == a[0] && (a + b)[1..] == a[1..] + b;
      assert IndexOf(a + b, c) == 1 + IndexOf(a[1..] + b, c);
      IndexOfAfterPrefix(a[1..], b, c);
    } else {
      assert a + b == b;
    }
  }

  /** Where the path of an absolute URL `scheme://authority/path` begins:
      at the first `/` after `://`, or at the end when there is none.
      `None` when the URL has no `://` after its scheme. */
  function OriginLength(url: string): (o: Option<nat>)
    ensures o.Some? ==> o.value <= |url|
  {
    var i := IndexOf(url, ':');
    if i + 3 <= |url| && url[i..i + 3] == "://"
    then Some(i + 3 + IndexOf(url[i + 3..], '/'))
    else None
  }

  /** A base URL that is a bare origin: `scheme://authority` with a
      non-empty scheme and authority, no path (not even a trailing `/`), and
      no query, fragment or backslash. */
  predicate BareOrigin(base: string)
  {
    && OriginLength(base) == Some(|base|)
    && 0 < IndexOf(base, ':')
    && IndexOf(base, ':') + 3 < |base|
    && base[..IndexOf(base, ':')] in {"http", "https"}
    && forall c :: c in base ==> c != '?' && c != '#' && c != '\\'
  }

  /** The path segments warp matches against for a request to `url`: the
      URL's path with its one leading `/` skipped, split at each `/`. An
      empty path is `/`. */
  function RequestPath(url: string): Option<seq<string>>
  {
    match OriginLength(url)
    case None => None
    case Some(o) =>
      var path := url[o..];
      Some(Segments(if path != [] && path[0] == '/' then path[1..] else path))
  }

  /** Whatever follows a bare origin, starting with `/`, is the request's
      path. */
  lemma PathAfterBareOrigin(base: string, tail: string)
    requires BareOrigin(base)
    requires tail != [] && tail[0] == '/'
    ensures RequestPath(base + tail) == Some(Segments(tail[1..]))
  {
    var url := base + tail;
    var i := IndexOf(base, ':');
    IndexOfFoundInPrefix(base, tail, ':');
    assert url[i..i + 3] == base[i..i + 3];
    var rest := base[i + 3..];
    assert url[i + 3..] == rest + tail;
    assert '/' !in rest by { assert rest[..|rest|] == rest; }
    IndexOfAfterPrefix(rest, tail, '/');
    assert OriginLength(url) == Some(|base|);
    assert url[|base|..] == tail;
  }

  /** For a bare-origin base, the URL the client builds has exactly the one
      path segment it was built from. */
  lemma TargetUrlRoundTrip(base: string, segment: string)
    requires BareOrigin(base)
    requires '/' !in segment
    ensures RequestPath(TargetUrl(base, segment)) == Some([segment])
  {
    var tail := "/" + segment;
    assert TargetUrl(base, segment) == base + tail;
    PathAfterBareOrigin(base, tail);
    assert tail[1..] == segment;
    SegmentsOfPlain(segment);
  }

  /** Regrouping of the URL built on a base that ends in `/`. */
  lemma DoubleSlash(a: string, c: string)
    ensures TargetUrl(a + "/", c) == a + ("//" + c)
    ensures ("//" + c)[0] == '/' && ("//" + c)[1..] == "/" + c
  {
    assert a + "/" + "/" + c == a + ("//" + c);
  }

  lemma SegmentsAfterSlash(c: string)
    requires '/' !in c
    ensures Segments("/" + c) == ["", c]
  {
    assert ("/" + c)[1..] == c;
    SegmentsOfPlain(c);
  }

  /** A base with a trailing `/` puts an empty segment first: the request
      for `segment` arrives with the path `["", segment]`, which no method
      route of a non-empty name matches. */
  lemma TrailingSlashBaseAddsEmptySegment(origin: string, segment: string)
    requires BareOrigin(origin)
    requires '/' !in segment
    ensures RequestPath(TargetUrl(origin + "/", segment)) == Some(["", segment])
  {
    DoubleSlash(origin, segment);
    PathAfterBareOrigin(origin, "//" + segment);
    SegmentsAfterSlash(segment);
  }

  /** A segment without `/` followed by `/` is the first of the segments. */
  lemma {:induction false} SegmentsOfJoin(x: string, y: string)
    requires '/' !in x
    ensures Segments(x + "/" + y) == [x] + Segments(y)
  {
    if x != [] {
      assert (x + "/" + y)[1..] == x[1..] + "/" + y;
      assert '/' !in x[1..];
      SegmentsOfJoin(x[1..], y);
      assert [x[0]] + x[1..] == x;
    } else {
      assert x + "/" + y == "/" + y;
      assert ("/" + y)[1..] == y;
    }
  }

  /** What the loopback network does beyond handing requests to the server:
      the error for a URL that is not absolute, and the reply warp
      sends when every route rejects. */
  datatype Network<W> = Network(unreachable: TransportError, rejection: HttpResponse<W>)

  /** A transport whose far end is the server mounted for `methods`. The
      server sees the URL's path; the request carries its body's length as
      Content-Length. */
  function Loopback<Req, Resp, W>(methods: seq<string>, snake: string -> string, wire: Wire<Req, Resp, W>, service: Service<Req, Resp>, network: Network<W>): Transport<W>
  {
    (post: HttpPost<W>) =>
      match RequestPath(post.url)
      case None => Failure(network.unreachable)
      case Some(path) =>
        match Dispatch(Mount(methods, snake), Request(Post, path, Some(wire.size(post.body)), post.body), wire, service)
        case Some(reply) => Success(reply)
        case None => Success(network.rejection)
  }

  /** The server answers the client's request for `methods[k]` with that
      method's handler on the very request value the client sent. */
  lemma {:induction false} LoopbackReachesHandler<Req, Resp, W>(base: string, methods: seq<string>, snake: string -> string, k: nat, wire: Wire<Req, Resp, W>, service: Service<Req, Resp>, network: Network<W>, req: Req)
    requires BareOrigin(base)
    requires k < |methods|
    requires forall j :: 0 <= j < k ==> snake(methods[j]) != snake(methods[k])
    requires Lower(snake(methods[k])) == snake(methods[k]) && '/' !in snake(methods[k])
    requires wire.size(wire.request.encode(req)) <= BodyLimit
    requires wire.request.decode(wire.request.encode(req)) == Success(req)
    ensures Loopback(methods, snake, wire, service, network)(Outgoing(base, wire, snake, methods[k], req))
      == Success(Handle(wire, service(methods[k], req)))
  {
    var post := Outgoing(base, wire, snake, methods[k], req);
    TargetUrlRoundTrip(base, snake(methods[k]));
    assert RequestPath(post.url) == Some([snake(methods[k])]);
    var request := Request(Post, [snake(methods[k])], Some(wire.size(post.body)), post.body);
    MethodRouteAnswers(methods, snake, k, request, wire, service, req);
  }

  /** Regrouping of the URL built on a base that ends in one more segment. */
  lemma SlashJoin(a: string, b: string, c: string)
    ensures TargetUrl(a + "/" + b, c) == a + ("/" + b + "/" + c)
    ensures ("/" + b + "/" + c)[0] == '/'
    ensures ("/" + b + "/" + c)[1..] == b + "/" + c
  {
    assert a + "/" + b + "/" + c == a + ("/" + b + "/" + c);
  }

  /** A base made of a bare origin and one segment `first` puts `first`
      ahead of whatever segment the client appends. */
  lemma BasePathRequestPath(origin: string, first: string, segment: string)
    requires BareOrigin(origin)
    requires '/' !in first
    ensures RequestPath(TargetUrl(origin + "/" + first, segment)) == Some([first] + Segments(segment))
  {
    SlashJoin(origin, first, segment);
    PathAfterBareOrigin(origin, "/" + first + "/" + segment);
    SegmentsOfJoin(first, segment);
  }

  /** A base with a path whose first segment is a method's name sends every
      call to that method's route: warp matches the first segment only, so
      the request for `methods[k]` runs the handler of `methods[j]` on the
      same body. */
  lemma BasePathSelectsRoute<Req, Resp, W>(origin: string, methods: seq<string>, snake: string -> string, j: nat, k: nat, wire: Wire<Req, Resp, W>, service: Service<Req, Resp>, network: Network<W>, req: Req)
    requires BareOrigin(origin)
    requires j < |methods| && k < |methods|
    requires forall i :: 0 <= i < j ==> snake(methods[i]) != snake(methods[j])
    requires '/' !in snake(methods[j])
    requires wire.size(wire.request.encode(req)) <= BodyLimit
    requires wire.request.decode(wire.request.encode(req)) == Success(req)
    ensures Loopback(methods, snake, wire, service, network)(Outgoing(origin + "/" + snake(methods[j]), wire, snake, methods[k], req))
      == Success(Handle(wire, service(methods[j], req)))
  {
    var first := snake(methods[j]);
    var post := Outgoing(origin + "/" + first, wire, snake, methods[k], req);
    BasePathRequestPath(origin, first, ClientSegment(snake, methods[k]));
    var path := [first] + Segments(ClientSegment(snake, methods[k]));
    assert RequestPath(post.url) == Some(path);
    var request := Request(Post, path, Some(wire.size(post.body)), post.body);
    MethodRouteAnswers(methods, snake, j, request, wire, service, req);
  }

  /** A server-side `Err(e)` reaches the client for the same method as
      exactly `Err(e)`: the reply's code is never 2xx, so the client decodes
      the body as a `ServiceError` and returns it untouched. */
  lemma ServerErrorReachesClient<Req, Resp, W>(base: string, methods: seq<string>, snake: string -> string, k: nat, wire: Wire<Req, Resp, W>, service: Service<Req, Resp>, network: Network<W>, req: Req, e: ServiceError)
    requires BareOrigin(base)
    requires k < |methods|
    requires forall j :: 0 <= j < k ==> snake(methods[j]) != snake(methods[k])
    requires Lower(snake(methods[k])) == snake(methods[k]) && '/' !in snake(methods[k])
    requires wire.size(wire.request.encode(req)) <= BodyLimit
    requires wire.request.decode(wire.request.encode(req)) == Success(req)
    requires wire.error.decode(wire.error.encode(e)) == Success(e)
    requires service(methods[k], req) == Failure(e)
    ensures CallOutcome(base, Loopback(methods, snake, wire, service, network), wire, snake, methods[k], req) == Failure(e)
  {
    LoopbackReachesHandler(base, methods, snake, k, wire, service, network, req);
  }

  /** A server-side `Ok(v)` reaches the client as exactly `Ok(v)`, over a
      reply with code 200. */
  lemma ServerResponseReachesClient<Req, Resp, W>(base: string, methods: seq<string>, snake: string -> string, k: nat, wire: Wire<Req, Resp, W>, service: Service<Req, Resp>, network: Network<W>, req: Req, v: Resp)
    requires BareOrigin(base)
    requires k < |methods|
    requires forall j :: 0 <= j < k ==> snake(methods[j]) != snake(methods[k])
    requires Lower(snake(methods[k])) == snake(methods[k]) && '/' !in snake(methods[k])
    requires wire.size(wire.request.encode(req)) <= BodyLimit
    requires wire.request.decode(wire.request.encode(req)) == Success(req)
    requires wire.response.decode(wire.response.encode(v)) == Success(v)
    requires service(methods[k], req) == Success(v)
    ensures var sent := Loopback(methods, snake, wire, service, network)(Outgoing(base, wire, snake, methods[k], req));
      sent.Success? && sent.value.code == 200
    ensures CallOutcome(base, Loopback(methods, snake, wire, service, network), wire, snake, methods[k], req) == Success(v)
  {
    LoopbackReachesHandler(base, methods, snake, k, wire, service, network, req);
  }
}
