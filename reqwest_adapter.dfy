/** `From<reqwest::Error> for ServiceError`: how a failure of the HTTP client
    library becomes a `ServiceError`. */
module ReqwestAdapter {
  import opened Wrappers
  import opened ErrorModel

  /** What the adaptation can observe of a transport error: its three kind
      tests, the status code it may carry, and its `Display` and `Debug`
      texts (both produced by the library). */
  datatype TransportError = TransportError(
    isDecode: bool,
    isBody: bool,
    isBuilder: bool,
    status: Option<u16>,
    display: string,
    debug: string)

  /** The kind tests that make an error a corruption: any one of decode,
      body or builder. The status code plays no part. */
  predicate Corrupt(e: TransportError)
  {
    e.isDecode || e.isBody || e.isBuilder
  }

  /** The fixed message of every adapted error. */
  const AdapterMessage: string := "reqwest http client error"

  /** The three-way classification: a decode, body or builder error is
      `DataCorruption` whatever code it carries; otherwise a carried code is
      mapped by `FromCode`; otherwise the status is `NotSpecified`. The
      message is always the fixed one; the cause is the display text, or the
      debug text when there is no code. */
  function Adapt(e: TransportError): (r: ServiceError)
    ensures r.message == Some(AdapterMessage)
    ensures r.cause.Some?
    ensures Corrupt(e) ==> r.status == DataCorruption && r.cause == Some(e.display)
    ensures !Corrupt(e) && e.status.Some? ==> r.status == FromCode(e.status.value) && r.cause == Some(e.display)
    ensures !Corrupt(e) && e.status.None? ==> r.status == NotSpecified && r.cause == Some(e.debug)
    ensures r.status == DataCorruption <==> Corrupt(e)
  {
    if Corrupt(e) then
      ServiceError(DataCorruption, Some(AdapterMessage), Some(e.display))
    else
      match e.status
      case Some(code) => ServiceError(FromCode(code), Some(AdapterMessage), Some(e.display))
      case None => ServiceError(NotSpecified, Some(AdapterMessage), Some(e.debug))
  }

  /** A corrupt error adapts the same whatever status code it carries: the
      kind tests are made before the code is looked at. */
  lemma CorruptIgnoresCode(e: TransportError, code: Option<u16>)
    requires Corrupt(e)
    ensures Adapt(e.(status := code)) == Adapt(e)
    ensures Adapt(e.(status := code)).status == DataCorruption
  {
  }

  /** The error the library raises when a response body does not decode as
      the expected JSON shape: a decode error with no status code, whose
      texts are the decoder's description. */
  function DecodeError(detail: string): (e: TransportError)
    ensures Corrupt(e)
    ensures Adapt(e) == ServiceError(DataCorruption, Some(AdapterMessage), Some(detail))
  {
    TransportError(true, false, false, None, detail, detail)
  }
}
