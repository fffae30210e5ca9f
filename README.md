# Service-mesh demo services: header propagation and reply mapping

The repository holds three small HTTP services used to check request routing
and identity/trace propagation through a service mesh: a client (in a mesh
variant and a variant deployed without the mesh), a proxy, and a target.
Almost all of their code is network plumbing. This project models the two
pieces of logic in them that can be stated precisely, and proves what they
promise:

- **The trace-header allow-list filter** `get_trace_headers`, which the mesh
  client and the proxy each carry. It keeps an inbound header exactly when
  its ASCII-lower-cased name is one of nine fixed tracing names (Google Cloud
  trace context, the W3C Trace Context `traceparent`/`tracestate`, the B3
  `x-b3-*` names, `x-request-id`). A kept header keeps its own spelling and
  its value. Names are matched case-insensitively, as section 5.1 of RFC 9110
  says field names are. Later duplicates overwrite earlier ones, because the
  result is built by a dict comprehension. Modelled as a left fold over the
  inbound `seq<(string, string)>` into a `map` (module `TraceHeaders`).
- **Each route, from the outcome of its one outbound call to its reply.**
  The httpx result and the DNS lookup become inputs: `Http.Outcome`
  (a usable 2xx body, a rejected error status, a transport failure, any other
  exception) and `Http.Resolution` (address, `gaierror`, other exception).
  Each route is a pure function from the app name, the hostnames, the inbound
  headers and that outcome. It returns the outbound GET it builds (URL and
  header map) and its reply: a JSON object, an `HTTPException`
  (status and detail), or an exception that escapes the route.
  `Http.Forward` is the `try`/`except` shape the five forwarding routes
  share. The `except` clauses are tried in source order: an upstream error
  status gives 502 carrying that status and body unchanged, a transport
  failure gives 503, and anything else gives 500. "Anything else" includes
  a 2xx body that is not JSON, is not an object, or has no `"message"`.
  One module per service file keeps one function per route, so each can be
  compared with its source: `ClientService` (app_client), `ClientWithoutMeshService`
  (app2_client_without_csm) and `ProxyService` (app_proxy).

Each route also has a partner. The `Url` module reads a URL back into
scheme, authority (ended by `/`, `?` or `#`, as section 3.2 of RFC 3986
says) and the rest. With it, lemmas show that the mesh routes use plain
`http` and the non-mesh routes use `https`, and that a hostname holding none
of `/`, `?`, `#` becomes the whole authority of the URL. The hostname is a
path parameter and arrives percent-decoded, so it can hold a `?`
(`/call/a%3Fb`); `ClientService.QueryInHostnameLeavesHost` shows that the
route then calls only the part before it and sends the rest as a query. `ClientWithoutMeshService.BearerToken` reads the Authorization
value back as a section 2.1 of RFC 6750 Bearer credential. The `Chain`
module composes the services as they are deployed
(client → proxy → target). A successful two-hop call answers
`CLIENT <- PROXY <- TARGET`, and a direct call from the client outside the
mesh answers `CLIENT <- TARGET`. The filter depends only on the allow-listed
headers, in order. So if the allow-listed headers the proxy receives are
exactly the ones the client sent, in any order and among any other headers,
it forwards the same mapping; a sidecar that adds or rewrites allow-listed
headers on the way is outside this statement. Any failure at the proxy reaches the client as
a 502 that names the proxy and carries the proxy's status.

The `/` greeting route of every service (and the whole target service,
app2_target_without_csm) only returns `{"message": APP_NAME}`. It is modelled
once, as `Http.Greeting`, and used by the chain lemmas.

Under an ASGI server, header names arrive already lower-cased. The model
takes names as given, so the "original spelling" that the code preserves is
modelled for any spelling.

## Model

| member | source | states |
|---|---|---|
| `TraceHeaders.ToLower` | app_client/main.py:151 | ASCII lower-casing keeps the length, maps each upper-case letter `A`-`Z` to its lower-case letter (code point + 32), leaves no upper-case letter and changes no other character |
| `TraceHeaders.ToLowerIdempotent` | app_client/main.py:151 | lower-casing twice is lower-casing once |
| `TraceHeaders.AllowListIsLowerCase` | app_client/main.py:134-144 | every one of the nine allow-listed names is already lower-case, so its exact spelling is recognised |
| `TraceHeaders.MixedCaseTraceParent` | app_proxy/main.py:79 | a mixed-case spelling (`TraceParent`) of an allow-listed name is recognised |
| `TraceHeaders.FilterExample` | app_proxy/main.py:75-80 | on `TraceParent`, `cookie` and two `x-b3-sampled` headers the filter keeps `TraceParent` as spelled and the later `x-b3-sampled` value, and drops the cookie |
| `TraceHeaders.GetTraceHeaders` | app_client/main.py:147-152 | every kept name is allow-listed (after lower-casing), and every kept entry is one of the inbound (name, value) pairs |
| `TraceHeaders.KeptExactly` | app_client/main.py:148-151 | a name is in the result if and only if it arrived and its lower-cased form is allow-listed: nothing else is kept, nothing allow-listed is dropped |
| `TraceHeaders.LastValueWins` | app_proxy/main.py:76-80 | a kept name maps to the value of its last inbound occurrence, unchanged |
| `TraceHeaders.CaseDoesNotChangeMembership` | app_client/main.py:151 | re-spelling one inbound name with different case never changes whether it is kept |
| `TraceHeaders.Idempotent` | app_proxy/main.py:75-80 | filtering any duplicate-free listing of the filter's output returns the same mapping |
| `TraceHeaders.TraceOnly` | app_client/main.py:148-151 | the allow-listed inbound headers: a header is in the result exactly when it arrived and its name is allow-listed |
| `TraceHeaders.DependsOnlyOnTraceHeaders` | app_client/main.py:148-151 | the result is the filter of the allow-listed headers alone, in arrival order: headers not on the allow-list change nothing wherever they stand |
| `Http.MessageOf` | app_client/main.py:37 | `response.json()["message"]` yields the message exactly for a JSON object holding that key; every other body raises a non-httpx exception, and a JSON object without the key raises the KeyError whose text is `'message'` |
| `Http.TryBlock` | app_client/main.py:29-38 | the try block yields a message exactly for a usable body, an HTTPStatusError exactly for a rejected status, a RequestError exactly for a transport failure; the message is the delivered one, and each exception carries the upstream status and body, or the failure's reason, unchanged; a 2xx body raises exactly what `response.json()["message"]` raises (the KeyError `'message'` when the key is missing) |
| `Http.Catch` | app_client/main.py:40-60 | the except chain always raises an HTTPException: 502 exactly for HTTPStatusError, 503 exactly for RequestError, 500 exactly for any other exception; the 502 detail names the host and carries the upstream status and body, the 503 and 500 details are the reason texts naming the host or the failure |
| `Http.Greeting` | app2_target_without_csm/main.py:11-16 | the `/` route answers a JSON object whose only key `"message"` holds the service's name |
| `Http.Forward` | app_client/main.py:29-60 | never lets an exception escape; JSON `{"message": app + " <- " + m}` exactly when a message was delivered; 502 with the upstream status and body unchanged exactly for an error status; 503 exactly for a transport failure; 500 exactly for other exceptions or an unusable 2xx body, with the detail naming that exception's text |
| `ClientService.CallTarget` | app_client/main.py:22-60 | GETs `"http://" + target` with exactly the filtered trace headers; success message format; 502 and 503 details name the target; 500 exactly for any other exception or an unusable 2xx body, with the detail naming that exception's text; no exception escapes |
| `ClientService.CallProxy` | app_client/main.py:63-101 | GETs `"http://" + proxy + "/call/" + target` with exactly the filtered trace headers; success message format; 502 and 503 details name the proxy; 500 exactly for any other exception or an unusable 2xx body, with the detail naming that exception's text; no exception escapes |
| `ClientService.CallUrlsReadBack` | app_client/main.py:27-68 | for hostnames holding none of `/`, `?`, `#`, both call URLs read back as scheme `http`; the authority is the target (nothing after it) or the proxy (path `/call/<target>`) |
| `ClientService.QueryInHostnameLeavesHost` | app_client/main.py:22-27 | a hostname `h?q` (a percent-decoded `%3F` in the path) makes the route call authority `h` with query `?q` |
| `ClientService.CallProxyReplyIgnoresTarget` | app_client/main.py:81-101 | the proxy route's reply does not depend on the target hostname: its errors name only the proxy |
| `ClientService.ResolveIp` | app_client/main.py:104-131 | never an HTTP error; always echoes the hostname; status `Success` with `resolved_ip` exactly on resolution, `Failed` exactly on gaierror, `Error` exactly on other exceptions, with `error` and `detail` present exactly when not resolved; the `error` text is `Name resolution failed (socket.gaierror)` on gaierror and `An unexpected error occurred` otherwise; no other key appears |
| `ClientWithoutMeshService.CallTarget` | app2_client_without_csm/main.py:25-63 | GETs `"https://" + target` with no headers of its own; success message format; 502 and 503 details name the target; 500 exactly for any other exception or an unusable 2xx body, with the detail naming that exception's text; no exception escapes |
| `ClientWithoutMeshService.CallTargetAuthheader` | app2_client_without_csm/main.py:66-108 | asks a token for audience `"https://" + target`; sends a request exactly when the token was fetched, over https, with the single header `Authorization: Bearer <token>`; a fetch failure escapes unconverted and sends nothing; otherwise replies exactly as the unauthenticated route |
| `ClientWithoutMeshService.AuthorizationCarriesToken` | app2_client_without_csm/main.py:75 | the Authorization value reads back as a Bearer credential carrying exactly the fetched token |
| `ClientWithoutMeshService.CallUrlsReadBack` | app2_client_without_csm/main.py:71-74 | for a hostname holding none of `/`, `?`, `#`, the request URL and the token audience read back as scheme `https` with the target hostname as the whole authority |
| `ClientWithoutMeshService.ResolveIp` | app2_client_without_csm/main.py:111-138 | the same never-raising three-state result as the mesh client's diagnostic route, with the same fixed `error` texts and no other key |
| `ProxyService.CallTarget` | app_proxy/main.py:21-59 | GETs `"http://" + target` with exactly the filtered trace headers; success message format; 502 and 503 details name the target; 500 exactly for any other exception or an unusable 2xx body, with the detail naming that exception's text; no exception escapes |
| `ProxyService.CallUrlReadsBack` | app_proxy/main.py:26 | for a hostname holding none of `/`, `?`, `#`, the proxy's call URL reads back as scheme `http` with the target hostname as the whole authority |
| `Chain.ThreeHopMessage` | app_client/main.py:78-79 | client → proxy → target answers `client <- proxy <- target` |
| `Chain.DefaultNamesThreeHop` | app2_target_without_csm/main.py:6 | with the default names `CLIENT`, `PROXY` and `TARGET`, a successful two-hop call answers `CLIENT <- PROXY <- TARGET` |
| `Chain.DefaultNamesDirectCall` | app2_client_without_csm/main.py:12 | with the default names `CLIENT` and `TARGET`, both direct routes of the client outside the mesh answer `CLIENT <- TARGET` |
| `Chain.TraceHeadersSurviveHop` | app_proxy/main.py:31-33 | if the allow-listed headers the proxy receives enumerate the headers the client sent (any order, among any other headers), it forwards the same mapping, which is the filter of the client's inbound headers |
| `Chain.ProxyFailureIsBadGateway` | app_client/main.py:81-89 | any failure at the proxy is an HTTP error with status 502, 503 or 500, and reaches the client as a 502 naming the proxy and carrying the proxy's status |

## Left out

- The httpx client itself: client lifecycle, the 5-second timeout, and
  exactly which statuses `raise_for_status` rejects. These are foreign
  library behaviour; the model takes the result as an `Http.Outcome` input.
- `socket.gethostbyname` and real DNS resolution, which are foreign I/O.
  The result is the `Http.Resolution` input, and the address is not checked
  for syntax.
- `fetch_id_token` and the token's contents, a foreign call. The token is
  an opaque string, and the fetch result is the
  `ClientWithoutMeshService.TokenFetch` input.
- FastAPI routing, serialising `HTTPException`, uvicorn, and async
  concurrency. An exception that escapes a route is modelled as
  `Http.Reply.Raised`; how the framework answers it is left out.
  `Chain.Received` takes the serialised error body as an opaque input.
- The text of `str(exc)` in 503 and 500 details, in DNS `detail` fields, and
  in JSON decoding or type errors. These are opaque reason strings. The one
  exception is the KeyError for a missing `"message"`, whose text
  `'message'` is fixed.
- How Python formats a non-string JSON `"message"` value in an f-string.
  That text is opaque (`Http.JsonValue.JOther`).
- Reading environment variables and `int(PORT)`. The app name is a
  parameter; the source's defaults are kept as `DefaultAppName` constants
  and `Chain.TargetDefaultAppName`, which `Chain.DefaultNamesThreeHop` and
  `Chain.DefaultNamesDirectCall` use.
- Userinfo and port inside the authority. A hostname holding `@` or `:`
  reads back as the whole authority, but the HTTP client would take the
  part after `@` as the host, or the part after `:` as a port; the model
  does not split the authority further.
- Unicode `str.lower()` beyond ASCII. Only ASCII lower-casing is modelled.
