/** The symbolic-to-numeric direction of the status mapping, used by the
    server to pick the wire status of an error reply. */
module WarpCodes {
  import opened ErrorModel

  /** `From<Status> for StatusCode`. Total; the code table read backwards,
      except that `DataCorruption` and `NotSpecified` share 500 with
      `ServerError`. Every code is a client or server error (400..599). */
  function ToCode(s: Status): (code: u16)
    ensures s != DataCorruption && s != NotSpecified ==> code in CodeTable && CodeTable[code] == s
    ensures s == DataCorruption || s == NotSpecified ==> code == 500
    ensures 400 <= code < 600
  {
    match s
    case BadRequest => 400
    case Unauthorized => 401
    case Forbidden => 403
    case NotFound => 404
    case MethodNotAllowed => 405
    case VersionConflict => 409
    case RequestTooLarge => 413
    case TooManyRequests => 429
    case DataCorruption => 500
    case ServerError => 500
    case NotImplemented => 501
    case ServiceUnavailable => 503
    case NotSpecified => 500
  }

  /** No status is sent with a 2xx (success) code. */
  lemma NeverSuccessCode(s: Status)
    ensures !(200 <= ToCode(s) <= 299)
  {
  }

  /** Exactly three statuses share code 500. */
  lemma FiveHundredPreimage(s: Status)
    ensures ToCode(s) == 500 <==> s in {DataCorruption, ServerError, NotSpecified}
  {
  }

  /** Outside the 500 group the map is injective. */
  lemma ToCodeInjectiveOutside500(a: Status, b: Status)
    requires ToCode(a) == ToCode(b)
    requires ToCode(a) != 500
    ensures a == b
  {
  }

  /** Code to status and back: every listed code comes back unchanged. */
  lemma CodeRoundTrip(code: u16)
    requires code in CodeTable
    ensures ToCode(FromCode(code)) == code
  {
  }

  /** Every unlisted code, 418 included, becomes `NotSpecified` and goes
      back out as 500. */
  lemma UnknownCodeBecomes500(code: u16)
    requires code !in CodeTable
    ensures FromCode(code) == NotSpecified
    ensures ToCode(FromCode(code)) == 500
  {
  }

  /** Status to code and back: the identity except on `DataCorruption` and
      `NotSpecified`, which both return as `ServerError`. */
  lemma StatusRoundTrip(s: Status)
    ensures FromCode(ToCode(s)) == (if s == DataCorruption || s == NotSpecified then ServerError else s)
  {
  }

  /** The asymmetry: `DataCorruption` goes out as 500 but 500 comes back as
      `ServerError`, and no code at all comes back as `DataCorruption`. */
  lemma DataCorruptionNotRecovered(code: u16)
    ensures ToCode(DataCorruption) == 500 && FromCode(500) == ServerError
    ensures FromCode(code) != DataCorruption
  {
  }
}
