/** The error model shared by generated clients and servers: the closed
    status taxonomy, the numeric-code-to-status map, each status's phrase,
    and the diagnostic rendering of a `ServiceError`. */
module ErrorModel {
  import opened Wrappers

  /** Rust's `u16`, the width of an HTTP status code. */
  newtype u16 = x: int | 0 <= x < 0x1_0000

  /** The thirteen symbolic outcomes, in declaration order. */
  datatype Status =
    | BadRequest
    | Unauthorized
    | Forbidden
    | NotFound
    | MethodNotAllowed
    | VersionConflict
    | RequestTooLarge
    | TooManyRequests
    | DataCorruption
    | ServerError
    | NotImplemented
    | ServiceUnavailable
    | NotSpecified

  /** The one error value that crosses the wire. */
  datatype ServiceError = ServiceError(status: Status, message: Option<string>, cause: Option<string>)

  /** The table of recognised codes, written as a map: the reference against
      which both directions of the code mapping are stated. */
  const CodeTable: map<u16, Status> := map[
    400 := BadRequest,
    401 := Unauthorized,
    403 := Forbidden,
    404 := NotFound,
    405 := MethodNotAllowed,
    409 := VersionConflict,
    413 := RequestTooLarge,
    429 := TooManyRequests,
    500 := ServerError,
    501 := NotImplemented,
    503 := ServiceUnavailable
  ]

  /** `From<u16> for Status`: a listed code gets its status, every other
      code collapses to `NotSpecified`, and no code gives `DataCorruption`. */
  function FromCode(code: u16): (s: Status)
    ensures code in CodeTable ==> s == CodeTable[code]
    ensures code !in CodeTable ==> s == NotSpecified
    ensures s != DataCorruption
  {
    match code
    case 400 => BadRequest
    case 401 => Unauthorized
    case 403 => Forbidden
    case 404 => NotFound
    case 405 => MethodNotAllowed
    case 409 => VersionConflict
    case 413 => RequestTooLarge
    case 429 => TooManyRequests
    case 500 => ServerError
    case 501 => NotImplemented
    case 503 => ServiceUnavailable
    case _ => NotSpecified
  }

  /** `Status::message`: the fixed phrase of each status. Every phrase is
      non-empty and free of double quotes. */
  function Message(s: Status): (phrase: string)
    ensures phrase != []
    ensures '"' !in phrase
  {
    match s
    case BadRequest => "Bad Request"
    case Unauthorized => "Unauthorized"
    case Forbidden => "Forbidden"
    case NotFound => "Not Found"
    case MethodNotAllowed => "Method Not Allowed"
    case VersionConflict => "Version Conflict"
    case RequestTooLarge => "Request Too Large"
    case TooManyRequests => "Too Many Requests"
    case DataCorruption => "Data Corruption"
    case ServerError => "Server Error"
    case NotImplemented => "Not Implemented"
    case ServiceUnavailable => "Service Unavailable"
    case NotSpecified => "Not Specified"
  }

  /** Distinct statuses have distinct phrases. */
  lemma MessageInjective(a: Status, b: Status)
    requires Message(a) == Message(b)
    ensures a == b
  {
  }

  /** `Display for Status`: writes the phrase and nothing else, so the
      written text identifies the status. */
  function DisplayStatus(s: Status): (text: string)
    ensures text == Message(s)
    ensures forall t: Status :: Message(t) == text ==> t == s
  {
    assert forall t: Status :: Message(t) == Message(s) ==> t == s by {
      forall t: Status | Message(t) == Message(s) ensures t == s {
        MessageInjective(t, s);
      }
    }
    Message(s)
  }

  /** What `std::any::type_name::<ServiceError>()` yields for this crate. */
  const TypeName: string := "warp_rpc::error::ServiceError"

  /** One optional field of the rendering: empty exactly when the field is
      absent, otherwise a space, the field name, `=` and the value as `{:?}`
      writes it (`quote`). */
  function Fragment(field: string, v: Option<string>, quote: string -> string): (f: string)
    ensures f == [] <==> v.None?
    ensures v.Some? ==> |f| == |field| + 2 + |quote(v.value)|
    ensures v.Some? ==> f[..|field| + 2] == " " + field + "=" && f[|field| + 2..] == quote(v.value)
  {
    match v
    case None => ""
    case Some(str) => " " + field + "=" + quote(str)
  }

  /** The text that opens every rendering, up to the status phrase. */
  const RenderPrefix: string := TypeName + " status=\""

  /** `Display for ServiceError`, exactly as the format string writes it:
      type name, ` status="`, the phrase, `" `, the message fragment, a
      space, the cause fragment. Each fragment carries its own leading
      space, so present fragments are preceded by two spaces and a
      rendering with neither ends in two spaces. */
  function Render(e: ServiceError, quote: string -> string): (text: string)
    ensures |RenderPrefix| + |Message(e.status)| + 2 <= |text|
    ensures text[..|RenderPrefix| + |Message(e.status)| + 2] == RenderPrefix + Message(e.status) + "\" "
  {
    var head := RenderPrefix + DisplayStatus(e.status) + "\" ";
    var text := head + (Fragment("message", e.message, quote) + " " + Fragment("cause", e.cause, quote));
    assert text[..|head|] == head;
    text
  }

  /** The part of `t` before its first double quote. */
  function BeforeQuote(t: string): string
  {
    if t == [] || t[0] == '"' then [] else [t[0]] + BeforeQuote(t[1..])
  }

  lemma {:induction false} BeforeQuoteOfQuoted(p: string, rest: string)
    requires '"' !in p
    ensures BeforeQuote(p + "\"" + rest) == p
  {
    if p != [] {
      assert (p + "\"" + rest)[1..] == p[1..] + "\"" + rest;
      BeforeQuoteOfQuoted(p[1..], rest);
    }
  }

  /** Reads the status phrase back out of a rendering, if it has one. */
  function PhraseOf(text: string): Option<string>
  {
    if |RenderPrefix| <= |text| && text[..|RenderPrefix|] == RenderPrefix
    then Some(BeforeQuote(text[|RenderPrefix|..]))
    else None
  }

  /** The phrase in a rendering is the status's phrase, whatever the message
      and cause hold; together with `MessageInjective` the rendering loses
      nothing about the status. */
  lemma RenderShowsStatus(e: ServiceError, quote: string -> string)
    ensures PhraseOf(Render(e, quote)) == Some(Message(e.status))
  {
    var rest := " " + Fragment("message", e.message, quote) + " " + Fragment("cause", e.cause, quote);
    var text := Render(e, quote);
    assert text == RenderPrefix + (Message(e.status) + "\"" + rest);
    assert text[|RenderPrefix|..] == Message(e.status) + "\"" + rest;
    BeforeQuoteOfQuoted(Message(e.status), rest);
  }

  /** Two errors that render alike have the same status. */
  lemma RenderDeterminesStatus(e1: ServiceError, e2: ServiceError, quote: string -> string)
    requires Render(e1, quote) == Render(e2, quote)
    ensures e1.status == e2.status
  {
    RenderShowsStatus(e1, quote);
    RenderShowsStatus(e2, quote);
    MessageInjective(e1.status, e2.status);
  }

  /** The whole rendering: the opening text, the phrase, `" `, the message
      fragment, a space and the cause fragment. */
  lemma RenderTail(e: ServiceError, quote: string -> string)
    ensures Render(e, quote) == RenderPrefix + Message(e.status) + "\" "
                                + Fragment("message", e.message, quote) + " " + Fragment("cause", e.cause, quote)
  {
  }

  /** With neither message nor cause, the rendering is the prefix, the
      phrase, the closing quote and two spaces. */
  lemma RenderBare(s: Status, quote: string -> string)
    ensures Render(ServiceError(s, None, None), quote) == RenderPrefix + Message(s) + "\"  "
  {
  }
}
