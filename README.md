# warp_rpc: the error model and the generated client/server logic

`warp_rpc` turns a service description (a name and a list of methods) into
a typed HTTP/JSON client and a server dispatcher over warp. This project
models, in Dafny, the parts of it that make decisions:

- `ErrorModel` (`src/error.rs`): the 13-constructor `Status`, the
  `ServiceError` record, the total map from a `u16` code to a status (unknown
  codes become `NotSpecified`), the fixed phrase of each status, and the
  `Display` renderings.
- `WarpCodes` (`src/warp.rs`): the map from a status to an HTTP code. It is
  not injective: `DataCorruption`, `ServerError` and `NotSpecified` all map to 500.
- `ReqwestAdapter` (`src/reqwest.rs`): how a transport error becomes a
  `ServiceError`. It sorts the error three ways, and always sets the same
  message and a cause.
- `ClientGen` (`src/macros/client.rs`): the generated client. It is a class
  whose base URL and transport are set once. Its per-method `Call` builds
  `<base>/<snake name, lower-cased>`, POSTs the encoded request and branches
  on the reply status. A non-success body comes back as the `ServiceError`
  itself.
- `ServerGen` (`src/macros/server.rs`): the generated route table (health
  first, then one POST route per method, joined with `.or`), the 16384-byte
  body limit, and the handler that turns `Ok`/`Err` into a reply.
- `EndToEnd`: a loopback transport that joins the two generated sides. Over
  it, a server `Err(e)` reaches the client as exactly `Err(e)`, and a server
  `Ok(v)` as exactly `Ok(v)` with code 200.

Things outside the model are parameters:

- JSON encoding is a `Codec` per shape. Encoding is total; decoding may fail
  with a description.
- The body type is the parameter `W`. `Wire.text` writes a plain-text body
  and `Wire.size` gives a body's length.
- paste's snake-case conversion is the parameter `snake`.
- The HTTP transport is a function from a POST to a response or a
  `TransportError`.
- `{:?}` quoting is the parameter `quote`.

Three points of the source worth stating plainly:

- Code 500 maps to `ServerError` (src/error.rs:59). Of the 13 statuses,
  only `DataCorruption` is never produced from a code
  (`WarpCodes.StatusRoundTrip`, `WarpCodes.DataCorruptionNotRecovered`).
- The `ServiceError` rendering uses the format string `"{} status=\"{}\" {} {}"`.
  Each optional fragment already starts with a space. So a message follows
  two spaces; a cause follows two spaces after a message, and three when
  there is none. A rendering with neither ends in two spaces
  (`ErrorModel.RenderBare`). The model keeps this spacing.
- The client keeps its base URL verbatim. warp skips one leading `/` of
  the URL's path and matches only its first segment, since no
  `path::end()` follows. A bare-origin base (`http` or `https`, a
  non-empty authority, and no path, query or fragment, such as
  `http://host:8000`) reaches the route of the method called; the
  end-to-end lemmas assume one. A trailing `/` reaches no method route
  (`EndToEnd.TrailingSlashBaseAddsEmptySegment`). A base path whose first
  segment is a method's name sends every call to that method's route
  (`EndToEnd.BasePathSelectsRoute`).

## Model

| member | source | states |
|---|---|---|
| `ErrorModel.FromCode` | src/error.rs:48-64 | each of 400, 401, 403, 404, 405, 409, 413, 429, 500, 501, 503 gives its status from the code table; every other code gives `NotSpecified`; no code gives `DataCorruption` |
| `ErrorModel.Message` | src/error.rs:67-84 | every status has a phrase, which is non-empty and holds no double quote |
| `ErrorModel.MessageInjective` | src/error.rs:68-83 | distinct statuses have distinct phrases |
| `ErrorModel.DisplayStatus` | src/error.rs:87-91 | `Display for Status` writes exactly the phrase, and that text identifies the status |
| `ErrorModel.Fragment` | src/error.rs:13-20 | the message or cause fragment is empty exactly when the field is `None`; when it is `Some` it is a space, the field name, `=` and the quoted value |
| `ErrorModel.Render` | src/error.rs:11-26 | `Display for ServiceError` opens with the type name, ` status="`, the status phrase and `" ` |
| `ErrorModel.RenderTail` | src/error.rs:21-25 | the whole rendering is the opening text, the phrase, `" `, the message fragment, a space and the cause fragment |
| `ErrorModel.RenderBare` | src/error.rs:21-25 | with neither message nor cause, the rendering is the type name, ` status="`, the phrase, `"` and two spaces |
| `ErrorModel.RenderShowsStatus` | src/error.rs:11-26 | whatever the message and cause, the phrase can be read back from the rendering: it is the text between ` status="` and the next quote |
| `ErrorModel.RenderDeterminesStatus` | src/error.rs:11-26 | two errors that render alike have the same status |
| `WarpCodes.ToCode` | src/warp.rs:4-21 | total; every status except `DataCorruption` and `NotSpecified` gets the code the table gives it; those two get 500; every code is in 400..599 |
| `WarpCodes.NeverSuccessCode` | src/warp.rs:6-20 | no status maps to a 2xx code |
| `WarpCodes.FiveHundredPreimage` | src/warp.rs:15-19 | a status maps to 500 exactly when it is `DataCorruption`, `ServerError` or `NotSpecified` |
| `WarpCodes.ToCodeInjectiveOutside500` | src/warp.rs:6-20 | two statuses with the same code other than 500 are equal |
| `WarpCodes.CodeRoundTrip` | src/warp.rs:6-20 | for each of the 11 listed codes, code to status to code gives the code back |
| `WarpCodes.UnknownCodeBecomes500` | src/error.rs:62 | an unlisted code, such as 418, becomes `NotSpecified`, which maps to 500 |
| `WarpCodes.StatusRoundTrip` | src/warp.rs:15-19 | status to code to status is the identity, except that `DataCorruption` and `NotSpecified` come back as `ServerError` |
| `WarpCodes.DataCorruptionNotRecovered` | src/error.rs:49-64 | `DataCorruption` is sent as 500, 500 comes back as `ServerError`, and no code comes back as `DataCorruption` |
| `ReqwestAdapter.Adapt` | src/reqwest.rs:3-29 | a decode, body or builder error is `DataCorruption` whatever code it carries; otherwise a carried code is mapped by `FromCode`; otherwise the status is `NotSpecified`. The message is always "reqwest http client error". The cause is the display text in the first two cases and the debug text in the third. The status is `DataCorruption` exactly when one of the three flags is set (`Corrupt`) |
| `ReqwestAdapter.CorruptIgnoresCode` | src/reqwest.rs:5-10 | a decode, body or builder error adapts to the same `DataCorruption` error whatever status code it carries |
| `ReqwestAdapter.DecodeError` | src/macros/client.rs:109 | a response body that does not decode is a decode error, and adapts to `DataCorruption` with the decoder's description as cause |
| `Naming.Lower` | src/macros/client.rs:102 | the `:lower` step keeps the length and leaves no upper-case ASCII letter |
| `Naming.LowerFixedIff` | src/macros/client.rs:102 | lower-casing leaves a name unchanged exactly when it has no upper-case letter |
| `Naming.LowerIdempotent` | src/macros/client.rs:102 | lower-casing twice is lower-casing once |
| `WireFormat.IsSuccess` | src/macros/client.rs:108 | a success status is a 2xx code; 200 is one; no code in the error table is one, so a success code reads as `NotSpecified` |
| `ClientGen.TargetUrl` | src/macros/client.rs:102 | the URL is the base, then `/`, then the segment |
| `ClientGen.ClientSegment` | src/macros/client.rs:102 | `[<$method:snake:lower>]` keeps the snake name's length, holds no upper-case letter, is fixed by lower-casing, and equals the snake name when that is already lower-case |
| `ClientGen.Outgoing` | src/macros/client.rs:102-105 | a call sends one POST, to the base URL plus `/` plus the lower-cased snake name, whose body is the encoded request |
| `ClientGen.CallOutcome` | src/macros/client.rs:101-115 | a send failure is returned adapted; a 2xx reply whose body decodes as `v` gives `Ok(v)`, and `Ok` arises in no other way; a non-2xx body that decodes as a `ServiceError` is returned unchanged; a body that does not decode gives the adapted decode error, whose status is `DataCorruption` |
| `ClientGen.ServiceClient.constructor` | src/macros/client.rs:88-95 | `new` stores the base URL verbatim, with no validation |
| `ClientGen.ServiceClient.Call` | src/macros/client.rs:101-115 | the generated method body, with its early returns, computes `CallOutcome` |
| `ClientGen.ErrorNotRederivedFromCode` | src/macros/client.rs:111-113 | on a non-success reply the error returned does not depend on the numeric code |
| `ServerGen.Mount` | src/macros/server.rs:26-31 | the route table is the health route, then one POST route per method in declaration order, at the method's snake-case name |
| `ServerGen.MountShape` | src/macros/server.rs:26-31 | only the first route is the health route |
| `ServerGen.Answer` | src/macros/server.rs:33-47 | the health route answers exactly a GET whose first segment is `_health`, with 200 `"Healthy"`; a method route answers exactly a POST at its segment that passes the length check (`WithinLimit`: a Content-Length of at most 16384) and whose body decodes, with the handler's reply on the decoded request |
| `ServerGen.Handle` | src/macros/server.rs:66-80 | every result yields a reply; `Ok(res)` gives 200 with the encoded `res`; `Err(e)` gives the code mapped from `e.status` (in 400..599) with the encoded `e`; the reply code is 2xx exactly when the result is `Ok` |
| `ServerGen.Dispatch` | src/macros/server.rs:26-31 | under `.or` the first route that answers gives the reply, and a request is rejected exactly when every route rejects it |
| `ServerGen.HealthAlwaysAnswers` | src/macros/server.rs:33-37 | `GET /_health` answers 200 with `"Healthy"`, for every method list and every implementation |
| `ServerGen.OversizeNeverReachesService` | src/macros/server.rs:43 | a request with no Content-Length, or one above 16384, gets the same outcome whatever the implementation does |
| `ServerGen.OversizePostRejected` | src/macros/server.rs:40-47 | a POST that fails `WithinLimit`, having no Content-Length or one above 16384, is rejected by every route |
| `ServerGen.OtherVerbRejected` | src/macros/server.rs:33-47 | a request that is neither GET nor POST is rejected by every route |
| `ServerGen.MethodRouteAnswers` | src/macros/server.rs:40-47 | a POST to a method's segment that is within the limit and decodes is answered by that method's handler, unless an earlier method has the same segment |
| `EndToEnd.PathAfterBareOrigin` | src/macros/server.rs:42 | for a URL that is a bare origin followed by `/`, warp's path is what follows that `/`, split at each `/` |
| `EndToEnd.TargetUrlRoundTrip` | src/macros/client.rs:102 | for a bare-origin base, the URL the client builds has as its path exactly the one segment it was built from |
| `EndToEnd.TrailingSlashBaseAddsEmptySegment` | src/macros/client.rs:92-102 | a base kept verbatim with a trailing `/` gives the path `["", segment]`, so its first segment is empty |
| `EndToEnd.BasePathRequestPath` | src/macros/client.rs:102 | a base made of a bare origin and one segment puts that segment ahead of the one the client appends |
| `EndToEnd.BasePathSelectsRoute` | src/macros/server.rs:42 | with a base whose path is a method's name, a call for any method runs that method's handler on the same request value |
| `EndToEnd.LoopbackReachesHandler` | src/macros/server.rs:40-47 | for a bare-origin base, the client's request for a method reaches that method's handler with the same request value, given that the snake name is already lower-case |
| `EndToEnd.ServerErrorReachesClient` | src/macros/server.rs:74-79 | for a bare-origin base, a server-side `Err(e)` reaches the client for the same method as exactly `Err(e)` |
| `EndToEnd.ServerResponseReachesClient` | src/macros/server.rs:68-73 | for a bare-origin base, a server-side `Ok(v)` reaches the client as exactly `Ok(v)`, on a reply with code 200 |

## Left out

- Server startup (`server::start`, `warp::serve`, the port binding, `warp::log`) is left out. It is network I/O and logging.
- `async`/`.await` and the shared `Arc` are left out. A call is one sequential step over an immutable service value.
- The reply warp builds when every route rejects (404, 405, 411, 413 or 400) is not modelled. The loopback network takes it as a given value.
- warp's content-type check in `body::json()` is not modelled. The client always sets `application/json`.
- Request serialisation (`.json(&req)`) and response serialisation (`warp::reply::json`) are total in the model. A serde failure there (a builder error, or warp's 500 fallback) is not modelled.
- JSON encoding and decoding are abstract codecs. The end-to-end lemmas state the round trips they need as preconditions.
- The texts inside a reqwest error are inputs: its `Display` and `Debug` output, and, for a decode failure, the description that stands for both.
- paste's `:snake` and `:camel` conversions are not modelled. The snake conversion is a parameter. Client and server agree on a path only when that output is already lower-case, and the end-to-end lemmas require this.
- `Naming.Lower`: lower-cases ASCII letters only. paste's `:lower` is Unicode `to_lowercase`, but it is applied to `:snake` output, which is already lower-case, so it changes nothing there. Non-ASCII letters are not modelled.
- `{:?}` string escaping is the parameter `quote`. The type name is the constant `warp_rpc::error::ServiceError`, standing for the output of `std::any::type_name`.
- Each method's own request and response types are not modelled. One service uses a single request type and a single response type, and the method name selects the behaviour.
- reqwest is modelled only through what the core observes: `reqwest::Error`'s kind tests, status and texts (`ReqwestAdapter.TransportError`), `Response::json` failing with a decode error that carries no status (`ReqwestAdapter.DecodeError`), and `StatusCode::is_success` as the 2xx range. Sending itself is an abstract transport.
- The authority of a bare origin is taken to be a `host[:port]` that the URL parser accepts, with no spaces and a port below 65536. Host and port syntax is not checked, and reqwest's refusal of a malformed authority is not modelled.
- URL parsing covers only `scheme://authority/path`. Query strings, fragments, userinfo and percent-encoding are not modelled, and the method segments hold none of them.
- The `std::error::Error` marker impl is left out. It adds no behaviour.
