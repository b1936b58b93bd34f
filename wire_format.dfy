/** Values on the wire. JSON encoding is an external collaborator: a body is
    a value of the type parameter `W`, and each shape has a codec whose
    decoding can fail with a description. */
module WireFormat {
  import opened Wrappers
  import opened ErrorModel

  /** The serde encoding of one shape. Encoding is total; decoding fails
      with the decoder's description. */
  datatype Codec<!T, !W> = Codec(encode: T -> W, decode: W -> Result<T, string>)

  /** Everything a service's two sides agree on about bodies: the request,
      response and error codecs, how a plain-text body is written, and the
      byte length of a body. */
  datatype Wire<!Req, !Resp, !W> = Wire(
    request: Codec<Req, W>,
    response: Codec<Resp, W>,
    error: Codec<ServiceError, W>,
    text: string -> W,
    size: W -> nat)

  /** An HTTP response as both sides see it: a numeric status and a body. */
  datatype HttpResponse<W> = HttpResponse(code: u16, body: W)

  /** `StatusCode::is_success`: the 2xx range. 200 is a success; none of
      the codes the error table recognises is, so a success code always
      reads as `NotSpecified`. */
  predicate IsSuccess(code: u16): (ok: bool)
    ensures ok <==> 200 <= code < 300
    ensures code == 200 ==> ok
    ensures ok ==> code !in CodeTable && FromCode(code) == NotSpecified
  {
    200 <= code <= 299
  }
}
