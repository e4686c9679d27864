# Webhook relay: endpoint registry and per-target request preparation

This project models the core of a webhook relay written in Rust (a single
`src/main.rs`, on actix-web and reqwest). The relay keeps a registry of
forwarding endpoints. Clients add, activate/deactivate and delete them over
HTTP. Each inbound webhook goes either to every active endpoint or, through a
static route, to one fixed staging URL. Each delivery rewrites the `Host`
header so that it names the target instead of the relay.

The model has these modules:

- `Registry` (registry.dfy): the `Endpoint` record, request validation, the
  default set of four staging endpoints, and the class `AppState`. Its field
  `endpoints` is the in-memory `Vec<WebhookEndpoint>`. Its field `saved` is
  the collection last written to `endpoints.json`. The methods
  `RegisterEndpoint`, `UpdateEndpoint` and `DeleteEndpoint` change the list
  in place the way the handlers do; `ListEndpoints` only reads it. `Position` is the
  front-to-back scan behind `iter().position`.
- `Routing` (routing.dfy): the active-endpoint filter of `receive_webhook`, the
  static routes of `handle_specific_webhook`, and the immediate answer each
  handler gives. That answer includes the job handed to the background task.
- `Forwarding` (forwarding.dfy): `forward_webhook` for one target. It builds
  the Host header (`host` or `host:port`), copies the inbound headers except
  any whose lowercased name is `host`, and classifies the answer (2xx is
  success).
- `Text`, `Seqs`, `Urls`, `Wrappers`: Rust's `trim` (Unicode `White_Space`),
  ASCII lowercasing, the decimal text of a port, an order-preserving filter,
  the abstract URL, and Option/Result.

External calls become parameters:

- `url::Url::parse` is a caller-supplied total function from the URL text to
  either a `Url` or the parser's error text. A `Url` is an optional host plus
  an optional `u16` port.
- The id made by `uuid::Uuid::new_v4` is a parameter of `RegisterEndpoint`.
- Whether `fs::write` of `endpoints.json` succeeds is a `writeOk` flag. A
  failed write is only logged: the in-memory change stays and `saved` keeps its
  previous value.
- What reading and parsing `endpoints.json` produced at startup is the
  `stored` parameter of `AppState.Load`.
- What sending the request produced (a transport error, or a status and a body
  that may not be readable) is the `reply` parameter of `ForwardOutcome`.

The inbound headers are a `HashMap<String, String>` in the source. Here they
are a sequence of headers in the map's iteration order. The source leaves that
order unspecified, so the model takes it as given.

## Model

| member | source | states |
|---|---|---|
| `Text.TrimStart` | src/main.rs:63 | the result is a suffix of the name, everything dropped is whitespace, it does not start with whitespace, and it is empty exactly when the name is all whitespace |
| `Text.TrimEnd` | src/main.rs:63 | the result is a prefix, everything dropped is whitespace, it does not end with whitespace, and it is empty exactly when the input is all whitespace |
| `Text.Trim` | src/main.rs:63 | `trim()` leaves no whitespace at either end, and `name.trim().is_empty()` holds exactly when every character of the name is whitespace |
| `Text.Decimal` | src/main.rs:157-158 | the port's text is a non-empty run of decimal digits without a leading zero |
| `Text.DecimalRoundTrip` | src/main.rs:157-158 | reading the port's decimal text back gives the port |
| `Seqs.Filter` | src/main.rs:269-270 | the filtered list holds only kept elements of the input and every kept element of it |
| `Seqs.FilterAppend` | src/main.rs:269-270 | filtering distributes over concatenation, so the kept elements stay in input order |
| `Seqs.FilterEmptyIff` | src/main.rs:272 | the filtered list is empty exactly when no element is to be kept |
| `Seqs.FilterAllKept` | src/main.rs:269-270 | a list whose elements are all kept is returned unchanged |
| `Registry.Validate` | src/main.rs:54-67 | a URL that does not parse gives "Invalid URL format" with the parser's message; otherwise a name that trims to empty gives "Name cannot be empty"; registration proceeds exactly when the URL parses and the name is not blank |
| `Registry.FindIndex` | src/main.rs:126 | `None` exactly when no record has the id; otherwise the index of a record with the id such that no earlier record has it |
| `Registry.RemoveAt` | src/main.rs:127 | `Vec::remove` leaves one record fewer, keeps those before and shifts those after down by one in order, and removes exactly that record from the multiset |
| `Registry.Defaults` | src/main.rs:349-374 | the default registry has four records, with distinct ids, all active, each pointing at the staging URL named by its id |
| `Registry.AppendKeepsIdsUnique` | src/main.rs:69-77 | appending a record whose id is not yet present keeps ids unique |
| `Registry.RemoveAtKeepsIdsUnique` | src/main.rs:126-127 | removing a record keeps ids unique, and with unique ids its id no longer occurs |
| `Registry.DeleteTwiceNotFound` | src/main.rs:120-137 | with unique ids, after a delete of an id a second delete of it finds nothing |
| `Registry.AppState.Load` | src/main.rs:334-382 | a readable stored collection becomes the registry; otherwise the four defaults do, and they are saved when the write succeeds |
| `Registry.AppState.Save` | src/main.rs:326-331 | a successful write records the current list as `saved`; after a failed one `saved`, the last successfully written collection, keeps its value; the list in memory is never touched |
| `Registry.AppState.RegisterEndpoint` | src/main.rs:50-85 | on a validation error the answer is that error and nothing changes; otherwise exactly one record (fresh id, the request's url, name and flag) is appended at the end, the whole list is returned, a failed save does not undo it, and a fresh id keeps ids unique |
| `Registry.AppState.ListEndpoints` | src/main.rs:88-91 | returns the whole current list |
| `Registry.AppState.Position` | src/main.rs:126 | the front-to-back scan returns the first index whose record has the id, or `None` |
| `Registry.AppState.UpdateEndpoint` | src/main.rs:94-117 | no matching id gives NotFound and no change; otherwise only the first matching record's flag is set, all other records and that record's id, url and name are unchanged, and the updated record is returned |
| `Registry.AppState.DeleteEndpoint` | src/main.rs:120-138 | no matching id gives NotFound and no change; otherwise exactly the first matching record is removed, the rest stay in order, the remaining list is returned, and with unique ids the id is gone |
| `Routing.ActiveTargets` | src/main.rs:269-270 | the targets are records of the registry that are active, every active record is a target, and there are none exactly when no record is active |
| `Routing.ActiveTargetsSplit` | src/main.rs:268-270 | targets follow registry order around any record; removing a record removes only that record from the targets |
| `Routing.ActiveTargetsAppend` | src/main.rs:76-77 | a registration adds its record at the end of the targets if it is active and leaves them unchanged if not |
| `Routing.DeactivatedNotDispatched` | src/main.rs:102-103 | with unique ids, after a record is deactivated no target carries its id |
| `Routing.DefaultTargets` | src/main.rs:349-374 | with the default registry all four records are targets, in order |
| `Routing.ReceiveWebhook` | src/main.rs:268-277 | `no_active_endpoints` (no job) exactly when no record is active; otherwise accepted with a job holding the active records in registry order and the event |
| `Routing.StaticRoute` | src/main.rs:205-211 | exactly the keys `fincra`, `splice`, `useorange`, `galoy` have a route, each to the staging URL ending in the key |
| `Routing.StaticRoutesDistinct` | src/main.rs:205-211 | different keys route to different URLs |
| `Routing.DefaultsAreStaticRoutes` | src/main.rs:349-374 | every default record's id is a static key routed to that record's URL, and every static key has a default record |
| `Routing.HandleSpecificWebhook` | src/main.rs:204-246 | an unknown key gives 404 with no job; a known key is accepted with a job for one active endpoint whose id is the key and whose url is the key's staging URL |
| `Forwarding.HostHeader` | src/main.rs:156-161 | the Host value starts with the URL's host; it is exactly the host when the URL has no port, and otherwise continues with ':' and the port in decimal digits with no leading zero, as `format!` writes it |
| `Forwarding.HostHeaderRoundTrip` | src/main.rs:156-161 | the Host value `host` or `host:port` can be read back into the URL's host and port |
| `Forwarding.IsHostName` | src/main.rs:169 | a header name lowercases to `host` exactly when it has four letters spelling h, o, s, t in any mix of upper and lower case |
| `Forwarding.ForwardedHeaders` | src/main.rs:166-172 | every forwarded header is an inbound header whose name does not lowercase to `host`, and every such inbound header is forwarded |
| `Forwarding.PrepareRequest` | src/main.rs:147-172 | an unparsable URL fails with the parser's message and a URL without host fails with "URL has no host", both before sending; otherwise the POST goes to the target URL with the inbound payload value, the target's Host header first, then the forwarded inbound headers |
| `Forwarding.HostRewrite` | src/main.rs:163-172 | among the headers added at lines 164-172 exactly one is named host (in any case); it comes first and names the target's authority; every other added header comes from the inbound request, and every inbound non-host header is added |
| `Forwarding.BuildRequest` | src/main.rs:147-172 | the header loop produces exactly the request of `PrepareRequest` |
| `Forwarding.ClassifyResponse` | src/main.rs:179-195 | success exactly for 2xx; otherwise an error carrying the status and the body, or the placeholder text when the body cannot be read |
| `Forwarding.ForwardOutcome` | src/main.rs:141-196 | a delivery succeeds exactly when the request can be prepared and the answer is 2xx; a preparation error or a transport error is reported as such, and any answer that arrives is classified by `ClassifyResponse`, so a non-2xx answer is an error carrying its status and body |
| `Forwarding.RegisteredUrlParses` | src/main.rs:55-60 | an endpoint that passed registration can fail preparation only for lacking a host, never for an unparsable URL |

## Left out

- The actix-web routing, request extraction, JSON response bodies, CORS, static file serving and `main`'s port and bind setup. They are framework plumbing.
- `rt::spawn`, `future::join_all`, the result logging and the `RwLock`. They exist for concurrency and fire-and-forget scheduling. A dispatch is modelled only as the job handed to the background task (targets and event). Each delivery's outcome is the pure `ForwardOutcome` of its target, so the order in which deliveries run does not change any outcome.
- Sending with reqwest, TLS settings and reading the response body are network I/O. Their result is the `reply` parameter.
- Serialising and parsing `endpoints.json` (serde_json, `fs::read_to_string`, `fs::write`). The file is modelled as the collection last written successfully. The save/load round trip rests on serde and is not modelled.
- The internals of `url::Url::parse` and `uuid::Uuid::new_v4`, which are library calls. The parser is a parameter, and the new id is a parameter with no uniqueness check, as in the source.
- Capturing the inbound headers from `req.headers()`, including dropping non-UTF-8 values. This is framework-specific.
- Registry.AppState.RegisterEndpoint: id uniqueness is promised only when the supplied id is absent and ids were unique before. The source never checks this.
- Text.Lower: only ASCII letters are lowercased. Rust's `to_lowercase` is Unicode-wide, but no other character lowercases to a letter of `host`, so the names skipped are the same: those `Forwarding.IsHostName` lists.
- Forwarding.ClassifyResponse: the error keeps the numeric status. The source's message prints the status with its reason phrase (`404 Not Found`), and the log message texts are not modelled.
- The outbound header list holds only the headers added by lines 164-172 of `src/main.rs`. The `Content-Type: application/json` header that `.json(..)` sets at line 147 is not in it. Because `.header(..)` appends, an inbound `content-type` header would become a second value of that header; this is not modelled either.
- The request body is modelled as the inbound payload value. Its re-serialisation by `.json(..)` is not modelled, so the body is the same value, not necessarily the same text.
- A header name or value that reqwest rejects when it is added to the builder is not modelled.
- `println!` logging.
