# API share broker: registry and handlers in Dafny

This project models the direct-fetch broker of `main.go`. The broker lets
an operator publish a locally reachable API under a short public key and
lets anyone call that API through `/api/<key>`. Three things are modelled:

- The in-process API store (`apiStore`). It is a map from public key to local
  API URL, and it only ever grows. `registerAPI` adds to it: each registration
  takes the key `fmt.Sprintf("%d", len(apiStore)+1)` and answers
  `{"public_api":"/api/<key>"}`.
- The decision `proxyRequest` makes. An `OPTIONS` request gets a 204
  preflight reply. An unknown key gets 404 "API not found". A failed outbound
  GET gets 502. Otherwise the upstream body is copied with
  `Content-Type: application/json`.
- `enableCORS` and `handleOptions`, which every reply passes through.

Modules:

- `Decimal` (decimal.dfy) models Go's `%d` formatting of a natural number and
  its inverse. It proves that formatting is injective, and that the strings
  `%d` prints are exactly the canonical digit strings.
- `Http` (http.dfy) models the part of Go's `net/http` that the handlers
  use. The `ResponseWriter` class updates its header map in place. Its status
  is fixed by the first `WriteHeader` or `Write`, and the header map is frozen
  at that same moment. A writer that nothing has fixed is sent with status 200
  when the handler returns. `Error` follows the documented behaviour of Go's
  `http.Error`: it deletes Content-Length, sets a plain-text Content-Type and
  `X-Content-Type-Options: nosniff`, writes the status, then writes the
  message and a newline. Status codes are those of RFC 9110 section 15:
  204 (15.3.5), 400 (15.5.1), 404 (15.5.5) and 502 (15.6.3).
- `Registry` (registry.dfy) holds the key allocation rule as pure
  functions. `Issued(store)` is the store invariant: a store of n entries
  has exactly the keys "1".."n". `Registered(urls)` is the store after a
  sequence of registrations on an empty store.
- `Broker` (broker.dfy) holds the class `ApiStore`, whose map field
  `entries` is `apiStore`. Its methods `RegisterApi` and `ProxyRequest` are
  the two handlers, and each is proved against a pure specification:
  `RegisterDecision`/`StoreAfter`/`RegisterReply` for registration, and
  `Dispatch`/`ProxyReply` for proxying. The lemmas about those
  specifications state the promised properties: a fresh key, nothing
  overwritten, the register-then-lookup round trip, and the exact 404
  condition.

Several things the handlers depend on are inputs to the model:

- The request method is a string parameter.
- The JSON decoding of the registration body is an `Option<string>`: `None`
  when decoding fails, otherwise the `local_api` field.
- The outbound `http.Get` plus `io.Copy` is a function `fetch` from URL to
  `FetchFailed | Fetched(body)`.

What the relay does not do:

- The code always issues a plain GET to the stored URL. It forwards neither
  the caller's method nor its headers nor its body.
- The code does not copy the upstream status or headers. The relayed reply
  has status 200 (no `WriteHeader` call is made) and
  `Content-Type: application/json`, whatever the upstream sent.

## Model

| member | source | states |
|---|---|---|
| `Decimal.FormatCanonical` | main.go:48 | `%d` output is non-empty, all digits, with no leading zero; it starts with '0' only for 0 |
| `Decimal.ParseFormat` | main.go:48 | reading the decimal text of n back gives n |
| `Decimal.FormatInjective` | main.go:48 | two naturals format to the same key exactly when they are equal |
| `Decimal.FormatParse` | main.go:48 | every canonical digit string is the `%d` text of its value, so the keys are exactly the canonical decimals |
| `Decimal.Format` | main.go:48 | definition, no contract: the text `fmt.Sprintf("%d", n)` prints for a natural n; its properties are the Decimal lemmas above |
| `Registry.NextKey` | main.go:48 | definition, no contract: the key a registration takes, the decimal text of the store size plus one |
| `Registry.PublicUrl` | main.go:53 | definition, no contract: the public URL answered for a key, "/api/" followed by the key |
| `Broker.KeyOf` | main.go:65 | definition, no contract: the proxy key, the request path with its first five characters ("/api/") removed |
| `Broker.Dispatch` | main.go:57-79 | definition, no contract: the proxy decision (Preflight for OPTIONS, NotFound for a key not in the store, Unreachable when the GET of the stored URL fails, otherwise Relayed with the fetched body); its properties are ProxyNotFoundExactly, ProxyReplies, RegisterThenProxy and RegisteredUrlsReachable |
| `Broker.RegisterDecision` | main.go:33-53 | definition, no contract: the registration decision (preflight for OPTIONS, InvalidInput when decoding failed, otherwise Published under NextKey); its properties are RegisterOutcomes and RegisterThenProxy |
| `Broker.StoreAfter` | main.go:48-51 | definition, no contract: the store after a registration, extended by NextKey mapped to the decoded URL only when the request is not OPTIONS and the body decoded |
| `Broker.PublishedBody` | main.go:53-54 | definition, no contract: the JSON line `{"public_api":"/api/<key>"}` followed by a newline, as Go's encoder writes it |
| `Registry.IssuedKeysMember` | main.go:48 | a string is one of the first n keys exactly when it is a canonical decimal from 1 to n; "", "01" and "1/x" never are |
| `Registry.NextKeyFresh` | main.go:48-50 | the key taken by the (n+1)-th registration is not among keys "1".."n", and it extends them to "1".."n+1" |
| `Registry.RegisterStep` | main.go:48-51 | one registration on a store whose keys are "1".."n" uses a fresh key, grows the store by one, overwrites no existing mapping and keeps the invariant |
| `Registry.RegisteredExactly` | main.go:18-51 | after n registrations from the empty store the keys are exactly "1".."n", and key "i" maps to the i-th registered URL |
| `Broker.WithCors` | main.go:22-26 | the header map after enableCORS carries the three fixed CORS values |
| `Broker.WithCorsKeepsOthers` | main.go:22-26 | enableCORS adds only the three CORS fields and leaves every other field unchanged |
| `Broker.EnableCors` | main.go:22-26 | the writer's header map becomes WithCors of the old one; status and body are unchanged |
| `Broker.HandleOptions` | main.go:28-31 | the CORS headers are set and status 204 is fixed with no body written |
| `Broker.ProxyReply` | main.go:57-84 | every reply of the proxy handler, whichever branch, carries the CORS headers |
| `Broker.RegisterReply` | main.go:33-55 | every reply of the register handler, whichever branch, carries the CORS headers |
| `Broker.ApiStore.constructor` | main.go:17-20 | the store starts empty and satisfies the key invariant |
| `Broker.ApiStore.RegisterApi` | main.go:33-55 | the store becomes StoreAfter of the old store, the key invariant is kept, and the client receives RegisterReply of the decision |
| `Broker.ApiStore.ProxyRequest` | main.go:57-84 | the client receives ProxyReply of Dispatch on the current store; the store is not modified (the method may modify only the writer) |
| `Broker.RegisterOutcomes` | main.go:33-55 | OPTIONS gives 204 and an undecodable body gives 400 "Invalid input", both with the store unchanged. A decoded body is stored under the fresh key `Format(n+1)`, the store grows by one, nothing else changes, and the 200 reply body is `{"public_api":"/api/<key>"}` |
| `Broker.ProxyNotFoundExactly` | main.go:65-73 | a non-OPTIONS proxy request gets 404 exactly when the path minus "/api/" is not a canonical decimal from 1 to the store size |
| `Broker.ProxyReplies` | main.go:57-84 | 204 exactly for OPTIONS; otherwise 404 exactly for an unknown key, 502 exactly when the GET fails, and 200 with `Content-Type: application/json` exactly when it succeeds; a 200 reply's body is the upstream body verbatim |
| `Broker.RegisterThenProxy` | main.go:48-83 | after registering URL u, a request for the published path "/api/" + key finds u and relays what fetching u yields |
| `Broker.RegisteredUrlsReachable` | main.go:48-83 | after n registrations from the empty store, "/api/i" reaches the i-th registered URL |

## Left out

- Concurrency and the `sync.Mutex`: the store is modelled sequentially. `len(apiStore)` is read outside the lock (main.go:48), so two concurrent registrations could take the same key and one would overwrite the other. The uniqueness results hold only for registrations that run one after another.
- Server wiring, route registration, the `PORT` lookup and `ListenAndServe` (main.go:86-99) are process I/O. The route "/api/" is only reflected in the requirement that a non-OPTIONS proxy path is at least as long as "/api/", because the source slices it unconditionally. ServeMux path cleaning and redirects are not modelled.
- JSON decoding of the registration body is an `Option<string>` input. Unknown fields, or a body such as `{}` that decodes to an empty `local_api`, are whatever the decoder yields.
- The outbound `http.Get` and the `io.Copy` streaming are the `fetch` input, which yields the whole body or an error. A copy that fails part-way, closing the upstream body, and the upstream status and headers (which the code ignores) are not modelled.
- Headers that Go's server adds by itself are not modelled: Date, Content-Length, and the Content-Type it sniffs for the registration reply. Header keys are limited to the six fields the handlers touch, each with one value.
- Bodies are modelled as character strings, not bytes.
- `Http.ResponseWriter.Sent`: for a HEAD request Go's server sends no body, so the client then receives none of the bytes the handler wrote; `Sent().body` (and the body of every `Reply` built by `ProxyReply` and `RegisterReply`) is what the handler wrote, not what a HEAD client receives.
- `Broker.ApiStore.RegisterApi`, `Broker.ApiStore.ProxyRequest`: both require a new writer (empty header map, nothing written), which is how the server hands writers to handlers.
- Integer width: `len(apiStore)+1` is a Go `int`, and the model uses unbounded naturals, so overflow after 2^63-1 registrations is not modelled.
