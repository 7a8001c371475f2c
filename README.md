# ShipKit request layer, feature reducers and helpers in Dafny

This project models the sequential core of ShipKit, a Swift toolkit for iOS apps, and
proves properties of that model. It covers five parts:

- **Request building** (`Request`, `Wire`, `Multipart`, `MutableDataBuffer`, `Base64`, `Bytes`).
  - A `Request` descriptor becomes a wire request (`URLRequest`): URL resolution,
    authentication, JSON body and header defaults, the first-write-wins merge of caller
    headers, the timeout, and the multipart/form-data body.
  - The multipart body is built in place in a byte buffer. Its format follows section 4 of
    RFC 7578, and its boundary delimiters follow section 5.1.1 of RFC 2046.
  - Field payloads are Base64-encoded as in section 4 of RFC 4648. This encoding is
    written out and proved to round-trip.
- **The client's dispatch and retry loop** (`ApiClient`, `RetryStrategy`, `RetryPolicy`,
  `Authentication`, `HttpMethod`, `Errors`).
  - Each round builds the request afresh, fetches a response from the URL cache or the
    transport, and classifies it.
  - The classification yields one of: invalid response, success, recovery after 401/403
    and go again, retry, or failure.
  - `send`, `upload`, `data(for: Request)` and `data(for: URL)` are one state machine. An
    `Operation` tells them apart.
  - `Run` is the imperative loop against a `Session` (the transport) and a `ResponseCache`
    (URLCache). It is proved equal to the functional specification `Dispatch`.
- **The hex colour initialisers** (`HexColor`). `Color(hex:)` and `UIColor(hex:)` are
  modelled as trim, scan and a switch on the length.
- **The paywall and settings reducers** (`Paywall`, `Settings`, `Purchases`). Each action
  yields the next state and the effects, as tags.
- **The bundle info accessors** (`BundleInfo`).

Foundation services the code calls but does not define are parameters of the model. They
are bundled in `Request.Foundation`:

- URL path appending;
- URL component parsing and reassembly, which may fail;
- the JSON encoder, which may throw;
- the UUID source.

`ApiClient.Client.decodes` stands for the response decoder. An authentication provider is
either `NoAuthProvider` or a custom provider given as two functions: `authenticate` and the
recovery query. Both take the round number, so a provider may act differently once it has
refreshed a token.

Some behaviour of the code is easy to misread. The model follows the code as written:

- **The default retry strategy never retries an HTTP status.** `DefaultRetryStrategy`
  stores a set of retryable status codes
  (`Sources/ShipKitNetworking/Retry/RetryStrategy.swift:11,16`). It consults that set only
  for the underlying response of a `URLError`
  (`Sources/ShipKitNetworking/Retry/RetryStrategy.swift:24-26,32-33`). The client hands it
  an `APIError.httpError` and never a `URLError`
  (`Sources/ShipKitNetworking/APIClient.swift:46,75,104,144`). That branch of the strategy
  is therefore never reached from the client, and the default policy makes one attempt
  (`RetryStrategy.DefaultDeclinesNonUrlErrors`, `ApiClient.DefaultAndNoneMakeOneAttempt`).
  - Repeated attempts need a strategy that itself decides by the attempt number
    (`ApiClient.RetriesUntilStrategyDeclines`, `ApiClient.FourFetchesForThreeRetries`).
  - `RetryPolicy.maxRetries` (`Sources/ShipKitNetworking/Retry/RetryPolicy.swift:5`) is
    never read by the client.
- **The recovery call has two names.** The client calls
  `handleAuthenticationFailure(response)` (`Sources/ShipKitNetworking/APIClient.swift:51,80,149`).
  `AuthenticationProvider` declares `attemptAuthenticationRecovery(for:responseData:)`
  (`Sources/ShipKitNetworking/Authentication/AuthenticationPolicy.swift:23`). Both are the
  single recovery query `Authentication.AttemptRecovery`.
- **The multipart branch of `asURLRequest()` drops the authentication policy.** It does
  not forward the request's policy to `MultipartData.asURLRequest`
  (`Sources/ShipKitNetworking/Request/Request.swift:82-88`), so multipart requests are built
  with `AuthenticationPolicy.none` (`Request.MultipartIgnoresAuthenticationPolicy`).
- **A retried `upload` sends the previous response body.** By the time of the recursive
  call, the name `data` is bound to the response body
  (`Sources/ShipKitNetworking/APIClient.swift:39,52,56`). The retry therefore sends that
  body as its payload (`ApiClient.RetriedUploadSendsResponseBody`).
- **Caller headers come last in the JSON branch.** The provider authenticates, then the
  `Content-Type` and `Accept` defaults are set, and only then are the caller's headers
  merged, first write wins (`Sources/ShipKitNetworking/Request/Request.swift:98-116`).
  - A caller's `Accept` never survives.
  - With a body, a caller's `Content-Type` never survives.
  - A caller's `Authorization` never survives when the provider set one.
  - See `Request.JsonHeaderDefaults` and `Request.JsonKeepsAuthenticationHeaders`.

## Model

| member | source | states |
|---|---|---|
| Wire.NewWireRequest | Sources/ShipKitNetworking/Request/Request.swift:93 | `URLRequest(url:)` is a GET for that URL with no header and no body, URLRequest's default timeout and the protocol cache policy |
| Wire.HeaderValue | Sources/ShipKitNetworking/Request/Request.swift:103 | a header lookup finds a value exactly when the case-folded name is present |
| Wire.SetHeader | Sources/ShipKitNetworking/Request/Request.swift:104 | after setting a header, looking it up gives the new value; only that name is added, and every other field keeps its value |
| Wire.MergeHeaders | Sources/ShipKitNetworking/Request/Request.swift:112-116 | the caller-header loop leaves the request as before except for its headers, which become the first-write-wins merge of the caller headers in iteration order |
| Wire.MergedKeys | Sources/ShipKitNetworking/Request/Request.swift:112-116 | after the merge, the header names are exactly the previous names plus the caller's names |
| Wire.MergedHeaders | Sources/ShipKitNetworking/Request/Request.swift:112-116 | the first-write-wins merge never replaces a header that was already set: every earlier name keeps its value |
| Wire.MergedFirstWins | Sources/ShipKitNetworking/Request/Request.swift:112-116 | a name that was absent gets the value of the first caller header with that name |
| Request.PathRequest | Sources/ShipKitNetworking/Request/Request.swift:16-39 | the public initialiser keeps the base URL and path it is given and sets no absolute URL, so exactly one URL source is in use |
| Request.AbsoluteRequest | Sources/ShipKitNetworking/Request/Request.swift:41-63 | the internal initialiser sets the absolute URL, no base URL and an empty path |
| Request.WithQuery | Sources/ShipKitNetworking/Request/Request.swift:140-142 | the query items replace the parsed ones only for a non-nil, non-empty query; otherwise the components are unchanged |
| Request.BuildUrl | Sources/ShipKitNetworking/Request/Request.swift:125-149 | `buildURL` only ever throws `missingBaseURL` or `invalidURL`, and throws `missingBaseURL` whenever there is no base URL |
| Request.ResolveUrl | Sources/ShipKitNetworking/Request/Request.swift:66-70 | an absolute URL is taken as it is and cannot fail; a failure comes from `buildURL` and is a request error |
| Request.JsonRequest | Sources/ShipKitNetworking/Request/Request.swift:92-123 | the JSON branch fails only when the provider throws (with the provider's error) or when there is a body and its encoding throws |
| Request.WireRequestSpec | Sources/ShipKitNetworking/Request/Request.swift:65-90 | a request error arises only without an absolute URL; an encoding error only for a JSON request with a body; a multipart request is built exactly when its URL resolves |
| Request.MultipartFormRequest | Sources/ShipKitNetworking/Request/Request.swift:75-88 | the multipart branch always builds a request, for the resolved URL and with the request's method |
| Request.BuildUrlOutcomes | Sources/ShipKitNetworking/Request/Request.swift:125-149 | `buildURL` fails with `missingBaseURL` iff there is no base URL, and with `invalidURL` iff parsing or reassembly fails; otherwise it returns the reassembled URL |
| Request.EmptyQueryIsNoQuery | Sources/ShipKitNetworking/Request/Request.swift:140-142 | a nil query and an empty query build the same URL |
| Request.AbsoluteUrlUsedVerbatim | Sources/ShipKitNetworking/Request/Request.swift:65-70 | an absolute URL is used as given; the base URL, the path and the query play no part in the built request |
| Request.JsonUrlRequest | Sources/ShipKitNetworking/Request/Request.swift:92-123 | the step-by-step JSON builder returns exactly the specified request; a throwing provider or encoder gives the corresponding error |
| Request.JsonKeepsAuthenticationHeaders | Sources/ShipKitNetworking/Request/Request.swift:98-116 | every header the provider set is still present, with its value, in the finished JSON request |
| Request.JsonHeaderDefaults | Sources/ShipKitNetworking/Request/Request.swift:100-110 | `Accept` is the provider's value, else `application/json`; with a body, `Content-Type` is the provider's value, else `application/json`, and the body is the encoded body |
| Request.JsonNoBodyNoContentType | Sources/ShipKitNetworking/Request/Request.swift:100-116 | without a body, and with no `Content-Type` from the provider or the caller, the JSON request has no `Content-Type` |
| Request.JsonCallerHeaderFirstWins | Sources/ShipKitNetworking/Request/Request.swift:112-116 | a caller header whose name is still free is added with its value, unless an earlier caller header has the same name |
| Request.JsonCopiesRequestSettings | Sources/ShipKitNetworking/Request/Request.swift:93-120 | URL, method and cache policy are those in place after authentication (the request's own under `NoAuthProvider`); the timeout is the request's when it has one, else the one in place after authentication (URLRequest's default under `NoAuthProvider`) |
| Request.NoAuthJsonBuildIgnoresRound | Sources/ShipKitNetworking/Request/Request.swift:92-123 | without a provider, a JSON request is built the same in every round |
| Request.AsUrlRequest | Sources/ShipKitNetworking/Request/Request.swift:65-90 | `asURLRequest()` resolves the URL, then builds by content type, and returns exactly the specified request or error |
| Request.MultipartUrlRequest | Sources/ShipKitNetworking/Request/Request.swift:75-88 | the multipart branch adds the fields in order to a fresh builder and returns that builder's request, built without authentication |
| Request.MultipartIgnoresAuthenticationPolicy | Sources/ShipKitNetworking/Request/Request.swift:82-88 | changing the request's authentication policy does not change a multipart request |
| Request.MultipartRequestBuilt | Sources/ShipKitNetworking/Request/Request.swift:75-88 | a multipart request with a resolvable URL is built; its body is every field in order followed by the close delimiter, its `Content-Type` names the boundary, and method, cache policy and timeout come from the request |
| Multipart.BoundaryFor | Sources/ShipKitNetworking/Request/MultipartData.swift:16 | the boundary is `Boundary-` followed by the lower-cased UUID string |
| Multipart.FieldBytes | Sources/ShipKitNetworking/Request/MultipartData.swift:56-76 | the bytes of a field open with the boundary delimiter and close with CRLF |
| Multipart.MultipartRequest | Sources/ShipKitNetworking/Request/MultipartData.swift:23-54 | `asURLRequest` throws exactly when the provider throws, and then with the provider's error |
| Multipart.MultipartData.constructor | Sources/ShipKitNetworking/Request/MultipartData.swift:15-17 | a new builder has the boundary of its UUID and a fresh, empty body buffer |
| Multipart.MultipartData.DataFormField | Sources/ShipKitNetworking/Request/MultipartData.swift:56-76 | the field's bytes, assembled in a scratch buffer, are delimiter, disposition with one `; k="v"` per parameter, optional type line, blank line, Base64 payload and line break |
| Multipart.MultipartData.AddDataField | Sources/ShipKitNetworking/Request/MultipartData.swift:19-21 | the field's bytes are appended at the end of the body; earlier bytes are unchanged |
| Multipart.MultipartData.AsURLRequest | Sources/ShipKitNetworking/Request/MultipartData.swift:23-54 | the built request is the specified one over the body so far; on success, the close delimiter is appended to the shared body; after a provider failure the body is unchanged |
| Multipart.FieldBytesSplit | Sources/ShipKitNetworking/Request/MultipartData.swift:59-73 | a field's bytes are its pieces' UTF-8 bytes in the order they are appended |
| Multipart.FieldFraming | Sources/ShipKitNetworking/Request/MultipartData.swift:59-73 | a part starts with the boundary delimiter and ends with CRLF |
| Multipart.FieldHeaderEndsWithBlankLine | Sources/ShipKitNetworking/Request/MultipartData.swift:59-71 | the headers of a part end in a blank line (CRLF CRLF) |
| Multipart.ContentTypeLineIffMimeType | Sources/ShipKitNetworking/Request/MultipartData.swift:68-70 | a `Content-Type:` line follows the disposition line iff the field has a MIME type |
| Multipart.PayloadDecodes | Sources/ShipKitNetworking/Request/MultipartData.swift:71-73 | the text between a part's headers and its final CRLF decodes back to the field's data |
| Multipart.FieldsBytesAppend | Sources/ShipKitNetworking/Request/MultipartData.swift:19-21 | adding fields in two batches gives the same body as adding them all in call order |
| Multipart.MultipartRequestShape | Sources/ShipKitNetworking/Request/MultipartData.swift:32-51 | after a successful authentication: the method is the request's; URL and cache policy are those after authentication; the timeout applies when given; `Content-Type` is always `multipart/form-data; boundary=B`; the provider's other headers are kept; the body is the buffer plus the close delimiter |
| Multipart.SecondBuildAppendsAgain | Sources/ShipKitNetworking/Request/MultipartData.swift:46-47 | building twice appends a second close delimiter, so the second request differs from the first |
| MutableDataBuffer.MutableData.constructor | Sources/ShipKitNetworking/Request/MultipartData.swift:17 | a new buffer is empty |
| MutableDataBuffer.MutableData.Append | Sources/ShipKitNetworking/Extensions/NSMutableData+Extension.swift:6 | `append(_:)` puts the bytes at the end of the buffer |
| MutableDataBuffer.MutableData.AppendString | Sources/ShipKitNetworking/Extensions/NSMutableData+Extension.swift:4-7 | `append(string:)` appends exactly the string's UTF-8 bytes; earlier bytes are unchanged, the length grows by that byte count, and `""` changes nothing |
| Bytes.Utf8Append | Sources/ShipKitNetworking/Extensions/NSMutableData+Extension.swift:5 | UTF-8 encoding maps string concatenation to byte concatenation |
| Bytes.Utf8Ascii | Sources/ShipKitNetworking/Request/MultipartData.swift:72 | ASCII text, such as Base64 output, encodes as one byte per character, equal to its code |
| Bytes.Lower | Sources/ShipKitNetworking/Request/MultipartData.swift:16 | lower-casing keeps the length and maps each character through ASCII lower-casing |
| Bytes.LowerIdempotent | Sources/ShipKitNetworking/Request/MultipartData.swift:16 | lower-casing a lower-cased string changes nothing |
| Base64.Encode | Sources/ShipKitNetworking/Request/MultipartData.swift:72 | the encoding of n bytes has 4·⌈n/3⌉ characters |
| Base64.RoundTrip | Sources/ShipKitNetworking/Request/MultipartData.swift:72 | decoding the encoding of any bytes gives them back |
| Base64.EncodeAlphabet | Sources/ShipKitNetworking/Request/MultipartData.swift:72 | every character of an encoding is in the Base64 alphabet or is the `=` pad |
| Base64.EncodeIsAscii | Sources/ShipKitNetworking/Request/MultipartData.swift:72 | an encoding is ASCII text |
| HttpMethod.RawValue | Sources/ShipKitNetworking/HTTPMethod.swift:4-12 | every raw value is an upper-case token of at least three letters |
| HttpMethod.Parse | Sources/ShipKitNetworking/HTTPMethod.swift:3 | a string that parses is the raw value of the method it parses to |
| HttpMethod.NineMethods | Sources/ShipKitNetworking/HTTPMethod.swift:4-12 | there are exactly nine distinct methods |
| HttpMethod.ParseRawValue | Sources/ShipKitNetworking/HTTPMethod.swift:3-12 | parsing a method's raw value gives back that method |
| HttpMethod.RawValueInjective | Sources/ShipKitNetworking/HTTPMethod.swift:4-12 | distinct methods have distinct raw values |
| HttpMethod.ParseExactly | Sources/ShipKitNetworking/HTTPMethod.swift:3-12 | a string parses iff it is one of the nine tokens |
| HttpMethod.LowerCaseGetIsNotAMethod | Sources/ShipKitNetworking/HTTPMethod.swift:3-12 | lower-case `get` is not a method |
| Authentication.NoAuthentication | Sources/ShipKitNetworking/Authentication/AuthenticationPolicy.swift:10-12 | `AuthenticationPolicy.none` is backed by `NoAuthProvider` |
| Authentication.Authenticate | Sources/ShipKitNetworking/Authentication/AuthenticationPolicy.swift:29 | `NoAuthProvider.authenticate` leaves the request unchanged and does not throw |
| Authentication.AttemptRecovery | Sources/ShipKitNetworking/Authentication/AuthenticationPolicy.swift:31-33 | `NoAuthProvider` recovery answers false |
| RetryStrategy.NewDefaultRetryStrategy | Sources/ShipKitNetworking/Retry/RetryStrategy.swift:13-21 | the default strategy's retryable set is exactly {408, 500, 502, 503, 504} |
| RetryStrategy.ShouldRetry | Sources/ShipKitNetworking/Retry/RetryStrategy.swift:23-37 | of the built-in strategies only the default one ever retries, and only a `URLError` |
| RetryStrategy.DefaultDeclinesNonUrlErrors | Sources/ShipKitNetworking/Retry/RetryStrategy.swift:24-26 | the default strategy declines every error that is not a `URLError`, the client's `httpError` included |
| RetryStrategy.DefaultRetriesTransientErrors | Sources/ShipKitNetworking/Retry/RetryStrategy.swift:29-30 | time-outs and lost connections are always retried |
| RetryStrategy.DefaultRetriesRetryableStatus | Sources/ShipKitNetworking/Retry/RetryStrategy.swift:31-35 | any other `URLError` is retried iff its underlying HTTP response has a retryable status |
| RetryStrategy.BuiltInIgnoresAttempt | Sources/ShipKitNetworking/Retry/RetryStrategy.swift:23 | the built-in strategies give the same answer on every attempt |
| RetryStrategy.NoRetryNeverRetries | Sources/ShipKitNetworking/Retry/RetryStrategy.swift:47-49 | `NoRetryStrategy` never retries |
| RetryPolicy.NewRetryPolicy | Sources/ShipKitNetworking/Retry/RetryPolicy.swift:8-15 | a new policy starts at attempt 0 with the given `maxRetries` |
| RetryPolicy.NoRetries | Sources/ShipKitNetworking/Retry/RetryPolicy.swift:19-21 | `.none` is `NoRetryStrategy` with `maxRetries` 0 at attempt 0 |
| RetryPolicy.DefaultRetries | Sources/ShipKitNetworking/Retry/RetryPolicy.swift:23-25 | `.default` is the default strategy with `maxRetries` 3 at attempt 0, the same as the initialiser's defaults |
| RetryPolicy.NextAttempt | Sources/ShipKitNetworking/APIClient.swift:147-148 | the client's copy is one attempt further on, with strategy and `maxRetries` unchanged |
| ApiClient.CallFor | Sources/ShipKitNetworking/APIClient.swift:39 | a round's transport call carries the round's wire request, and is an upload exactly for `upload` |
| ApiClient.BuildFor | Sources/ShipKitNetworking/APIClient.swift:66-95 | `data(for: URL)` always builds `URLRequest(url:)`; every other operation builds with `asURLRequest()` |
| ApiClient.Fetch | Sources/ShipKitNetworking/APIClient.swift:128-137 | a fetch consumes one scripted answer per logged call, logs at most one call and that one carries the round's request; after a cached `send` that got a response, the response is cached under the request |
| ApiClient.Classify | Sources/ShipKitNetworking/APIClient.swift:139-160 | only a 2xx returns a body, and it is the response's body; `invalidResponse` is thrown exactly for a non-HTTP response; a single response never ends a call with `OutOfRounds` |
| ApiClient.Round | Sources/ShipKitNetworking/APIClient.swift:123-160 | a round whose build throws ends the call with that error and touches neither transport nor cache; no round ends with `OutOfRounds` |
| ApiClient.Dispatch | Sources/ShipKitNetworking/APIClient.swift:118-161 | a call takes at most `fuel` rounds |
| ApiClient.OutOfRoundsUsesEveryRound | Sources/ShipKitNetworking/APIClient.swift:118-161 | a call takes at least one round when it may take any, and ends with `OutOfRounds` only after using every round |
| ApiClient.ClientCall | Sources/ShipKitNetworking/APIClient.swift:118-161 | a whole call takes at most `fuel` rounds, runs out only after all of them, and leaves the cache alone unless it is a cached `send` |
| ApiClient.NextOperation | Sources/ShipKitNetworking/APIClient.swift:52-56 | a retried `upload` carries the received body as its payload; every other operation is repeated as it was |
| ApiClient.Delivered | Sources/ShipKitNetworking/APIClient.swift:160 | a 2xx body is returned unchanged, except that `send` and `upload` throw when it does not decode |
| ApiClient.Session.Transfer | Sources/ShipKitNetworking/APIClient.swift:132 | a transport call consumes the next scripted answer and is logged; when the script is over, nothing changes |
| ApiClient.ResponseCache.CachedResponse | Sources/ShipKitNetworking/APIClient.swift:128 | a cache lookup finds a response iff the request is cached, and returns the cached one |
| ApiClient.ResponseCache.StoreCachedResponse | Sources/ShipKitNetworking/APIClient.swift:134-136 | storing records the response under the request and changes no other entry |
| ApiClient.PerformRound | Sources/ShipKitNetworking/APIClient.swift:123-158 | one round against the session and the cache gives exactly the specified step, script, cache and call log |
| ApiClient.Run | Sources/ShipKitNetworking/APIClient.swift:118-161 | the retry loop gives exactly the specified result, final script, cache, call log and round count |
| ApiClient.Perform | Sources/ShipKitNetworking/APIClient.swift:118-161 | each of the four entry points, started at round 0, gives exactly the specified client call |
| ApiClient.NonHttpIsInvalidResponse | Sources/ShipKitNetworking/APIClient.swift:139-141 | a non-HTTP response ends every operation with `invalidResponse`, under every policy |
| ApiClient.SuccessSkipsRetryPolicy | Sources/ShipKitNetworking/APIClient.swift:143-160 | a 2xx status ends the call with the delivered body, and the retry policy plays no part |
| ApiClient.DeclinedRecoveryThrowsOriginalError | Sources/ShipKitNetworking/APIClient.swift:145-149 | a retryable 401/403 that the provider cannot recover from throws the original `httpError` and is not tried again |
| ApiClient.DeclinedRetryThrowsHttpError | Sources/ShipKitNetworking/APIClient.swift:143-157 | a non-2xx status the strategy declines throws `httpError` with that status and body |
| ApiClient.GoesAgainExactlyWhen | Sources/ShipKitNetworking/APIClient.swift:143-155 | a round goes again iff: the status is HTTP and not 2xx; the strategy retries it; and, in the 401/403 branch, the provider recovers. The next operation is the same one, except that an upload carries the received body |
| ApiClient.DataForUrlHasNoRecovery | Sources/ShipKitNetworking/APIClient.swift:94-112 | `data(for: URL)` sends `URLRequest(url:)`; its 401/403 handling ignores every authentication policy and goes again iff the strategy retries |
| ApiClient.BuiltInStrategiesNeverGoAgain | Sources/ShipKitNetworking/APIClient.swift:145-155 | under the default and the no-retry strategy, no round goes again |
| ApiClient.CacheHitMakesNoTransportCall | Sources/ShipKitNetworking/APIClient.swift:128-130 | a cached `send` that hits makes no transport call and changes nothing |
| ApiClient.CacheMissStoresResponse | Sources/ShipKitNetworking/APIClient.swift:131-136 | a cached `send` that misses makes exactly one transport call and stores the response before classifying it |
| ApiClient.UncachedFetchLeavesCache | Sources/ShipKitNetworking/APIClient.swift:131-137 | every other fetch goes to the transport, consumes one answer, logs one call and leaves the cache alone |
| ApiClient.RoundKeepsOperation | Sources/ShipKitNetworking/APIClient.swift:150-154 | going again repeats `send` and `data` unchanged; an upload stays an upload |
| ApiClient.RoundCallsAtMostOnce | Sources/ShipKitNetworking/APIClient.swift:123-137 | a round makes at most one transport call, with that round's request, and only appends to the log; a round that goes again without the cache made exactly one |
| ApiClient.DispatchLeavesCacheAlone | Sources/ShipKitNetworking/APIClient.swift:128-137 | a whole call that is not a cached `send` leaves the cache unchanged |
| ApiClient.DispatchExtendsLog | Sources/ShipKitNetworking/APIClient.swift:132 | a whole call only appends to the transport log |
| ApiClient.EveryCallIsARebuild | Sources/ShipKitNetworking/APIClient.swift:123-154 | the calls a non-cached call makes are, in order, the requests built in its successive rounds |
| ApiClient.CallsCarryBuildsOfRisingRounds | Sources/ShipKitNetworking/APIClient.swift:123-154 | for every operation, a cached `send` included, a call keeps the log it was given as a prefix, and its new calls carry the requests built in later-or-current rounds, successive calls from strictly rising rounds |
| ApiClient.RisingBuildsEveryEntry | Sources/ShipKitNetworking/APIClient.swift:123-154 | spelled out entry by entry: each new call i carries the request built in round ks[i], no earlier than the call's first round, and the rounds strictly rise |
| ApiClient.CallsCarryFreshBuilds | Sources/ShipKitNetworking/APIClient.swift:123-154 | from round 0, call k of a client call carries the request that `asURLRequest()` builds in round k, so every attempt is rebuilt and re-authenticated |
| ApiClient.CallsCarryRisingBuilds | Sources/ShipKitNetworking/APIClient.swift:123-154 | the calls of any whole client call, a cached `send` included, carry the builder's requests of strictly rising rounds from round 0 |
| ApiClient.BuiltCallsAreSpecified | Sources/ShipKitNetworking/APIClient.swift:123 | outside `data(for: URL)`, the request a client call builds in round k is the specified `asURLRequest()` request of round k |
| ApiClient.BuiltInStrategiesMakeOneAttempt | Sources/ShipKitNetworking/APIClient.swift:145-157 | under the default or the no-retry strategy, a call takes at most one round and one transport call |
| ApiClient.DefaultAndNoneMakeOneAttempt | Sources/ShipKitNetworking/APIClient.swift:145-157 | `RetryPolicy.default` and `RetryPolicy.none` make at most one attempt |
| ApiClient.RetriesUntilStrategyDeclines | Sources/ShipKitNetworking/APIClient.swift:103-111 | under a strategy that retries below a limit, a persistent error is fetched once per remaining attempt plus one and then thrown, whatever `maxRetries` says |
| ApiClient.FourFetchesForThreeRetries | Sources/ShipKitNetworking/APIClient.swift:103-111 | a strategy retrying attempts 0-2 on a URL that keeps answering 503 fetches four times and throws that 503, even with `maxRetries` 0 |
| ApiClient.RecoveredAuthenticationFailureGoesAgain | Sources/ShipKitNetworking/APIClient.swift:145-150 | a recovered 401/403 is sent again with the next round's request, and a following 2xx ends the call with its body after two calls |
| ApiClient.RetriedUploadSendsResponseBody | Sources/ShipKitNetworking/APIClient.swift:39-56 | a retried upload sends, as its payload, the body of the response it is retrying |
| ApiClient.CachedFailureSpinsWithoutTransport | Sources/ShipKitNetworking/APIClient.swift:128-154 | a cached failure that the strategy always retries goes round without ever calling the transport until the round bound is exhausted |
| ApiClient.CachedJsonFailureSpins | Sources/ShipKitNetworking/APIClient.swift:128-154 | the same holds for a cached JSON `send` without a provider, whose request never changes |
| HexColor.TrimOffset | Sources/ShipKitCore/Extensions/Color+Extension.swift:13 | the trim removes exactly the leading run of non-alphanumeric characters |
| HexColor.TrimKept | Sources/ShipKitCore/Extensions/Color+Extension.swift:13 | the trim keeps everything up to the last alphanumeric character |
| HexColor.TrimStart | Sources/ShipKitCore/Extensions/Color+Extension.swift:13 | after trimming the front, the text is empty or starts with an alphanumeric character |
| HexColor.TrimEnd | Sources/ShipKitCore/Extensions/Color+Extension.swift:13 | after trimming the back, the text is empty or ends with an alphanumeric character |
| HexColor.TrimKeepsInterior | Sources/ShipKitCore/Extensions/Color+Extension.swift:13 | the trimmed text is a contiguous slice of the input; everything cut off is non-alphanumeric, and the slice starts and ends alphanumeric |
| HexColor.TrimIdempotent | Sources/ShipKitCore/Extensions/Color+Extension.swift:13 | trimming twice is trimming once |
| HexColor.Trim | Sources/ShipKitCore/Extensions/Color+Extension.swift:13 | the trim never lengthens the text, and what is left is empty or starts and ends with an alphanumeric character |
| HexColor.HexValue | Sources/ShipKitCore/Extensions/Color+Extension.swift:15 | n hex digits denote a number below 16^n |
| HexColor.HexRun | Sources/ShipKitCore/Extensions/Color+Extension.swift:15 | the scanner reads exactly the maximal leading run of hex digits |
| HexColor.ScanHex | Sources/ShipKitCore/Extensions/Color+Extension.swift:15 | the scanned value fits in a `UInt64` |
| HexColor.ScanHexBound | Sources/ShipKitCore/Extensions/Color+Extension.swift:15 | the scanned value of n characters is below 16^n |
| HexColor.ScanAllHex | Sources/ShipKitCore/Extensions/Color+Extension.swift:15 | at most 16 hex digits scan to exactly the number they denote |
| HexColor.Channels | Sources/ShipKitCore/Extensions/Color+Extension.swift:17-22 | for lengths 3, 6 and 8 every channel is a byte; 3 and 6 are opaque; any other length gives (a, r, g, b) = (1, 1, 1, 0) |
| HexColor.ThreeDigitsAreScaledNibbles | Sources/ShipKitCore/Extensions/Color+Extension.swift:18 | three hex digits: alpha 255, each channel its digit times 17 |
| HexColor.SixCharactersAreRgbBytes | Sources/ShipKitCore/Extensions/Color+Extension.swift:19 | six characters: r·65536 + g·256 + b is the scanned value |
| HexColor.SixDigitsArePairs | Sources/ShipKitCore/Extensions/Color+Extension.swift:19 | six hex digits: alpha 255 and r, g, b are the digit pairs in order |
| HexColor.EightCharactersAreArgbBytes | Sources/ShipKitCore/Extensions/Color+Extension.swift:20 | eight characters: a·2^24 + r·65536 + g·256 + b is the scanned value, alpha being the top byte |
| HexColor.EightDigitsArePairs | Sources/ShipKitCore/Extensions/Color+Extension.swift:20 | eight hex digits: a, r, g, b are the digit pairs in order |
| HexColor.HexRgbRoundTrip | Sources/ShipKitCore/Extensions/Color+Extension.swift:13-22 | reading back a `#rrggbb` string gives its three bytes, fully opaque |
| HexColor.InteriorPunctuationCounts | Sources/ShipKitCore/Extensions/Color+Extension.swift:13-19 | interior punctuation survives the trim and counts toward the length: `#12-345` reads as (255, 0, 0, 0x12) |
| HexColor.ColorFromHex | Sources/ShipKitCore/Extensions/Color+Extension.swift:24-30 | `Color(hex:)` is sRGB, with components in [0, 1] for lengths 3, 6 and 8, and (1/255, 1/255, 0, 1/255) for red, green, blue and opacity otherwise |
| HexColor.UIColorFromHex | Sources/ShipKitCore/Extensions/Color+Extension.swift:98-103 | `UIColor(hex:)`, with its own trim, scan and switch: components in [0, 1] for lengths 3, 6 and 8, and (1/255, 1/255, 0, 1/255) for red, green, blue and alpha otherwise |
| HexColor.UIColorAgreesWithColor | Sources/ShipKitCore/Extensions/Color+Extension.swift:86-104 | the two separately written initialisers, `UIColor(hex:)` and `Color(hex:)`, give the same components for every input, case by case over the switch |
| Purchases.IsEntitled | Sources/ShipKitUI/PaywallView.swift:191 | a customer is entitled iff the entitlement is present and active |
| Paywall.NewState | Sources/ShipKitUI/PaywallView.swift:89-113 | the initialiser's defaults: badge shown, no offering, no package, no destination, nothing loading, so the package list is empty |
| Paywall.IsPackagesEmpty | Sources/ShipKitUI/PaywallView.swift:68-70 | `isPackagesEmpty` iff there is no offering or it has no packages |
| Paywall.CompletePurchase | Sources/ShipKitUI/PaywallView.swift:187-213 | a successful purchase or restore clears both loading flags and sets premium status from the entitlement; an inactive one adds the `noActiveEntitlement` alert; the status change is sent before `purchaseCompleted`; nothing else changes |
| Paywall.Reduce | Sources/ShipKitUI/PaywallView.swift:154-226 | the next state and effects of every action (on appear, package selection, subscribe with and without a package, restore, offering loaded or failed, purchase/restore success and failure, dismissal, delegate); the constants never change; a selection is never lost; a premium change is always reported |
| Settings.DefaultSettingsItems | Sources/ShipKitUI/SettingsView.swift:164-170 | five items with distinct types; an item has the `arrowUpRight` symbol iff it is a legal item; the restore item is third, under the purchase section |
| Settings.NewState | Sources/ShipKitUI/SettingsView.swift:164-191 | the declared defaults: the default items, not premium, nothing presented |
| Settings.ShownItems | Sources/ShipKitUI/SettingsView.swift:195-200 | the filter keeps each item's occurrences exactly when it is shown; a premium user is not shown the restore item |
| Settings.ItemsIn | Sources/ShipKitUI/SettingsView.swift:201 | a section's group holds exactly the items of that section, with their multiplicity |
| Settings.GroupedSettingsItems | Sources/ShipKitUI/SettingsView.swift:194-202 | a section is a key only with a non-empty group, and each group holds only items of its own section |
| Settings.GroupingPlacesEveryShownItem | Sources/ShipKitUI/SettingsView.swift:194-202 | every shown item appears under its own section as often as in the list; a hidden item appears nowhere; every group holds only shown items of its own section |
| Settings.DefaultGroupingDropsRestoreIffPremium | Sources/ShipKitUI/SettingsView.swift:194-202 | on the default list, the restore item is listed iff the user is not premium, and every other item appears exactly once under its own section |
| Settings.FindItem | Sources/ShipKitUI/SettingsView.swift:258 | the search returns the first position holding the item type, and returns nothing iff there is none |
| Settings.ReviewUrl | Sources/ShipKitUI/SettingsView.swift:306 | the review URL is the App Store prefix, the app id and the write-review suffix |
| Settings.ReviewAppId | Sources/ShipKitUI/SettingsView.swift:306 | an app id read back from a URL rebuilds that URL |
| Settings.ReviewUrlRoundTrip | Sources/ShipKitUI/SettingsView.swift:306 | every app id is recovered from its review URL |
| Settings.Reduce | Sources/ShipKitUI/SettingsView.swift:222-288 | the next state and effects of every action: unknown item ignored; each item type's effect; only the restore item's indicator set to progress; mail composer or `failedToCompose` alert; restore result resets the indicator and sets status, alert and delegate; dismissal. Items, ids and constants are preserved; a premium change is always reported |
| BundleInfo.InfoString | Sources/ShipKit/Extensions/Bundle+Extension.swift:5 | the Info.plist string under the key, else `Unknown` |
| BundleInfo.AppName | Sources/ShipKit/Extensions/Bundle+Extension.swift:4-6 | `CFBundleName` if it is a string, else `Unknown` |
| BundleInfo.AppVersionShort | Sources/ShipKit/Extensions/Bundle+Extension.swift:8-10 | `CFBundleShortVersionString` if it is a string, else `Unknown` |
| BundleInfo.AppVersionBuild | Sources/ShipKit/Extensions/Bundle+Extension.swift:12-14 | `CFBundleVersion` if it is a string, else `Unknown` |
| BundleInfo.AppVersionLong | Sources/ShipKit/Extensions/Bundle+Extension.swift:16-18 | exactly the short version, ` (`, the build and `)` |
| BundleInfo.NoInfoDictionary | Sources/ShipKit/Extensions/Bundle+Extension.swift:4-18 | a bundle without Info.plist reports `Unknown (Unknown)` and the name `Unknown` |
| BundleInfo.VersionLongDeterminesParts | Sources/ShipKit/Extensions/Bundle+Extension.swift:16-18 | when the short versions contain no `(`, equal long versions have equal short versions and equal builds |

## Left out

- **Transport and URL cache internals.** `URLSession` is a scripted sequence of answers,
  consumed one per call, together with a log of calls. `URLCache` is a map from request to
  response, with no eviction and no cache-policy semantics.
  - A call for which the script has no answer ends with `ScriptExhausted`.
  - The transport's `URLError`s are answers of the script. They end the call, as a thrown
    error does in the code.
- ApiClient.Dispatch: runs at most `fuel` rounds. The Swift recursion has no bound. With a
  cached failure and a strategy that always retries, it never ends
  (`ApiClient.CachedFailureSpinsWithoutTransport`). The model reports `OutOfRounds` when
  the bound runs out.
- **Decoding.** The response decoder and the request body's JSON encoder are parameters:
  a predicate and a partial function. Decoded values are not modelled; a successful
  `send`/`upload` returns the body bytes it decoded.
- **Foundation URL handling.** URL path appending, `URLComponents` parsing and reassembly
  are parameters, and may fail. `URL(string:)!` for the review URL is the string itself.
- **`UUID()`.** A parameter that gives the UUID string of each round's multipart builder.
- **Header-name case.** The header map is keyed by the ASCII-lower-cased name, because
  `URLRequest` looks names up case-insensitively. The spelling of a name as first written
  is not kept.
- **Dictionary order.** Swift dictionaries that are iterated are sequences of pairs in
  iteration order, which the caller picks: caller headers, query items and multipart
  parameters. Swift leaves that order unspecified.
- RetryStrategy.ShouldRetry: a custom strategy is a pure function of (error, attempt).
  `RetryStrategy` is an open protocol, so a conforming class may keep state. On a failing
  round the client may ask `shouldRetry` twice. It asks once in the 401/403 test
  (`Sources/ShipKitNetworking/APIClient.swift:47,76,145`). When that combined test fails, it
  asks again (`Sources/ShipKitNetworking/APIClient.swift:53,82,151`). The model asks once and
  assumes the second query gives the same answer. A strategy whose answer depends on how
  often it was asked is not modelled.
- Request.PathRequest: the default base URL is not modelled. The Swift default
  `APIClient.configuration.baseURL` (`Sources/ShipKitNetworking/Request/Request.swift:18`)
  reads global configuration, so the model takes the base URL as an explicit argument.
- **`DefaultRetryStrategy.delay` and `NoRetryStrategy.delay`.** They are floating point,
  and the client never calls them.
- **Time-outs.** Time-out intervals are opaque reals, only ever copied.
- **Colour components.** They are exact rationals (channel / 255), not `Double` or
  `CGFloat`.
- HexColor.TrimOffset: the trim's character set is ASCII. `CharacterSet.alphanumerics` also
  contains non-ASCII letters and digits. The model's trim treats only ASCII letters and
  digits as alphanumeric.
- HexColor.Channels: length is counted in characters. `hex.count` counts grapheme clusters; the
  model counts characters.
- HexColor.ScanHex: no `0x` prefix. The model ignores the scanner's handling of an
  optional `0x`, and of leading whitespace.
- **Effects.** Concurrency, actor isolation and the asynchronous execution of effects are
  left out. Reducer effects are tags: RevenueCat calls, `openURL`, the mail check and
  delegate sends. What they produce comes back as actions.
- **Presented content.** Alert texts and the mail composer's own reducer are not modelled.
  A presentation action is only its dismissal.
- **`Color(light:dark:)` and the SwiftUI views.** These are platform glue with no logic to
  verify.
- MutableDataBuffer.MutableData.AppendString: conversion always succeeds. The UTF-8 conversion in `append(string:)` cannot
  fail on a Dafny string, so its early return is not modelled.
