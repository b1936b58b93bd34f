/** What `generate_service_client!` emits: a client holding a base URL and a
    transport handle, and, per method, a call that POSTs the JSON request to
    `<base>/<method>` and turns the reply into the method's response or a
    `ServiceError`. */
module ClientGen {
  import opened Wrappers
  import opened ErrorModel
  import opened ReqwestAdapter
  import opened Naming
  import opened WireFormat

  /** A POST request as handed to the transport: target URL and JSON body. */
  datatype HttpPost<W> = HttpPost(url: string, body: W)

  /** The HTTP client library's `send`: a response, or a transport error. */
  type Transport<!W> = HttpPost<W> -> Result<HttpResponse<W>, TransportError>

  /** `format!("{}/{}", base, segment)`. */
  function TargetUrl(base: string, segment: string): (url: string)
    ensures |url| == |base| + 1 + |segment|
    ensures url[..|base|] == base && url[|base|] == '/' && url[|base| + 1..] == segment
  {
    base + "/" + segment
  }

  /** The path segment the client uses for method `m`: its snake-case name,
      lower-cased. */
  function ClientSegment(snake: string -> string, m: string): (seg: string)
    ensures |seg| == |snake(m)|
    ensures forall i :: 0 <= i < |seg| ==> !('A' <= seg[i] <= 'Z')
    ensures Lower(seg) == seg
    ensures Lower(snake(m)) == snake(m) ==> seg == snake(m)
  {
    LowerIdempotent(snake(m));
    Lower(snake(m))
  }

  /** The one request a call sends: a POST to the method's URL whose body is
      the encoded request value. */
  function Outgoing<Req, Resp, W>(base: string, wire: Wire<Req, Resp, W>, snake: string -> string, m: string, req: Req): (post: HttpPost<W>)
    ensures |post.url| == |base| + 1 + |ClientSegment(snake, m)|
    ensures post.url[..|base|] == base && post.url[|base|] == '/'
    ensures post.url[|base| + 1..] == ClientSegment(snake, m)
    ensures post.body == wire.request.encode(req)
  {
    HttpPost(TargetUrl(base, ClientSegment(snake, m)), wire.request.encode(req))
  }

  /** The value-level meaning of one generated call. A send failure is
      adapted; on a 2xx reply the body is decoded as the response; on any
      other reply the body is decoded as a `ServiceError` and returned as it
      is, whatever the numeric code; a body that does not decode is adapted
      as a decode error. */
  function CallOutcome<Req, Resp, W>(base: string, transport: Transport<W>, wire: Wire<Req, Resp, W>, snake: string -> string, m: string, req: Req): (r: Result<Resp, ServiceError>)
    ensures var sent := transport(Outgoing(base, wire, snake, m, req));
      && (sent.Failure? ==> r == Failure(Adapt(sent.error)))
      && (r.Success? ==>
            sent.Success? && IsSuccess(sent.value.code) && wire.response.decode(sent.value.body) == Success(r.value))
      && (sent.Success? && IsSuccess(sent.value.code) && wire.response.decode(sent.value.body).Success? ==>
            r == Success(wire.response.decode(sent.value.body).value))
      && (sent.Success? && IsSuccess(sent.value.code) && wire.response.decode(sent.value.body).Failure? ==>
            r == Failure(Adapt(DecodeError(wire.response.decode(sent.value.body).error)))
            && r.error.status == DataCorruption)
      && (sent.Success? && !IsSuccess(sent.value.code) && wire.error.decode(sent.value.body).Success? ==>
            r == Failure(wire.error.decode(sent.value.body).value))
      && (sent.Success? && !IsSuccess(sent.value.code) && wire.error.decode(sent.value.body).Failure? ==>
            r == Failure(Adapt(DecodeError(wire.error.decode(sent.value.body).error)))
            && r.error.status == DataCorruption)
  {
    match transport(Outgoing(base, wire, snake, m, req))
    case Failure(te) => Failure(Adapt(te))
    case Success(response) =>
      if IsSuccess(response.code) then
        match wire.response.decode(response.body)
        case Success(res) => Success(res)
        case Failure(detail) => Failure(Adapt(DecodeError(detail)))
      else
        match wire.error.decode(response.body)
        case Success(err) => Failure(err)
        case Failure(detail) => Failure(Adapt(DecodeError(detail)))
  }

  /** The generated `<Name>Client`: the base URL exactly as given, and the
      transport handle. Neither changes after construction. */
  class ServiceClient<W> {
    const descriptor: Descriptor
    const url: string
    const transport: Transport<W>

    /** `new(url)`: stores the URL verbatim, with no validation or
        normalisation. The transport stands for `reqwest::Client::new()`. */
    constructor (descriptor: Descriptor, url: string, transport: Transport<W>)
      ensures this.descriptor == descriptor
      ensures this.url == url
      ensures this.transport == transport
    {
      this.descriptor := descriptor;
      this.url := url;
      this.transport := transport;
    }

    /** The body generated for method `m`: build the URL, send, then branch
        on the reply's status, returning early at each `?`. */
    method Call<Req, Resp>(wire: Wire<Req, Resp, W>, snake: string -> string, m: string, req: Req)
      returns (r: Result<Resp, ServiceError>)
      requires m in descriptor.methods
      ensures r == CallOutcome(url, transport, wire, snake, m, req)
    {
      var target := TargetUrl(url, Lower(snake(m)));
      var sent := transport(HttpPost(target, wire.request.encode(req)));
      if sent.Failure? {
        return Failure(Adapt(sent.error));
      }
      var response := sent.value;
      if IsSuccess(response.code) {
        var decoded := wire.response.decode(response.body);
        if decoded.Failure? {
          return Failure(Adapt(DecodeError(decoded.error)));
        }
        r := Success(decoded.value);
      } else {
        var decoded := wire.error.decode(response.body);
        if decoded.Failure? {
          return Failure(Adapt(DecodeError(decoded.error)));
        }
        r := Failure(decoded.value);
      }
    }
  }

  /** The numeric code of a non-success reply plays no part in the error a
      call returns: two replies with the same body and any two non-2xx codes
      give the same result. In particular a 500 reply carrying a `NotFound`
      error yields `NotFound`, not a status derived from 500. */
  lemma ErrorNotRederivedFromCode<Req, Resp, W>(base: string, t1: Transport<W>, t2: Transport<W>, wire: Wire<Req, Resp, W>, snake: string -> string, m: string, req: Req)
    requires var post := Outgoing(base, wire, snake, m, req);
      && t1(post).Success? && t2(post).Success?
      && t1(post).value.body == t2(post).value.body
      && !IsSuccess(t1(post).value.code) && !IsSuccess(t2(post).value.code)
    ensures CallOutcome(base, t1, wire, snake, m, req) == CallOutcome(base, t2, wire, snake, m, req)
  {
  }
}
