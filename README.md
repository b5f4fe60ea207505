# Secure HTTP client for React Native: a Dafny model

This project models the sequential logic of a React Native HTTP library whose
requests can be wrapped in an encrypted and signed envelope. It covers seven
parts:

- **Request pipeline** (`SecureHttpClient`): URL resolution, header merging,
  method normalisation, `create`, and the optional crypto envelope (encrypt
  first, then sign). Then the ordered request, response and error
  interceptors, status classification, rejection shapes, CRLF header parsing
  and `isCancel`. Over `fetch` or `XMLHttpRequest`, the platform transport is
  an input: a response, a network failure, or silence until the timeout.
- **Telemetry buffer** (`Telemetry`): an in-place event buffer with an enabled
  flag, a size-threshold flush, and a flush that swaps out the buffer before
  sending it. A failed delivery only warns.
- **Performance correlator** (`Performance`): a span map from operation id to
  start time, plus the Request and Dependency events derived from one HTTP
  exchange.
- **Monitoring facade** (`Monitoring`): the idempotent singleton and its three
  interceptors. They stamp the config, close spans, emit events, and always
  re-reject the original error.
- **JavaScript crypto helpers** (`CryptoUtils`): the provider-presence guard
  and the UUID-version-4-shaped nonce, following section 4.4 of RFC 4122
  (version nibble 4, variant bits `10`).
- **Native crypto library** (`RustCrypto`): the integrity-key gate,
  `derive_key`, `detect_tampering`, `verify_timestamp`, the replay log with
  its 60-second pruning and its more-than-10-per-second rule, the
  nonce-then-ciphertext framing, and the encrypted key/value store.
- **Security verdict** (`SecurityValidator`): the `secure` conjunction of
  three native probes, and the ordered failure-reason message.

## How the source's form is kept

- **Classes.** Code that updates state in place is a Dafny `class` whose
  methods carry `modifies` clauses:
  - `TelemetryClient`, with its `buffer`, `enabled` flag and timer.
  - `PerformanceMonitor`, with its `metrics` map.
  - `MonitoringManager` and the holder of its static `instance`.
  - `CryptoModule`, whose fields are the native library's three globals. The
    mutexes are left out.
- **Loops.** The interceptor loops, the header-parsing loop, `derive_key`'s
  copy, and the replay log's `retain`/count are methods with `while` loops.
  Each is proved equal to a specification function, and the properties are
  proved about that function.
- **Straight-line updates.** `validateSecurityOrThrow` makes up to three
  conditional pushes onto its error list, with no loop. Its method does the
  same and is proved equal to `Validation`.
- **Time and randomness.** `Date.now()`, `SystemTime::now()`, `Math.random()`
  and `SystemRandom` are parameters.
- **Foreign code.** The transport, the native crypto provider, JSON
  parse/stringify, `new URL(..).hostname`, AES-256-GCM, HMAC-SHA256 and base64
  are function-typed parameters. Nothing is assumed about them, except where a
  lemma says so in its `requires` (the `Sound` predicate).

The client's interceptors are function values (`RequestInterceptor`,
`ResponseInterceptor`, `ErrorInterceptor`): a registered interceptor is any
function of that type. The monitoring facade's interceptors change the
facade's state, so they are methods of `MonitoringManager`. They have the
same types as the client's: `InterceptResponse` yields
`Result<Response, Failure>`, and `InterceptError` yields an `Err` of the
error it was given, in the form `Result<Failure, Failure>`.

Facts about the code that the model keeps:

- The client counts only `200 <= status < 300` as success
  (src/SecureHttpClient.js:119 and :167; `StatusBoundaries`). The correlator
  uses `200 <= status < 400` (src/monitoring/PerformanceMonitor.js:28;
  `SuccessRanges`), so the two rules differ on every 3xx status.
- `isCancel` does not recognise the XMLHttpRequest rejection "Request
  timeout" (src/SecureHttpClient.js:32-34 and :141-144;
  `XhrTimeoutIsNotCancel`).
- Over `fetch` without an `AbortController`, no timer is set, so a silent
  transport leaves the call pending (src/SecureHttpClient.js:86-90;
  `TransportFailureHasNoResponse`).
- Transport errors carry no duration; `duration` stays unset.

## Model

| member | source | states |
|---|---|---|
| SecureHttpClient.Configure | src/SecureHttpClient.js:8-13 | each setting is the option or its default: base URL "", empty headers, timeout 30000, no key, crypto off |
| SecureHttpClient.NewClient | src/SecureHttpClient.js:8-19 | a new client holds the configured settings and three empty interceptor chains |
| SecureHttpClient.Create | src/SecureHttpClient.js:21-30 | a created client starts with three empty interceptor chains |
| SecureHttpClient.CreateMerges | src/SecureHttpClient.js:21-30 | in a created client, every override header wins and every other parent header is kept, with no other keys; `enableCrypto` is the parent's unless the override defines it; base URL and timeout fall back to the parent's; the chains start empty |
| SecureHttpClient.CreateWithoutOverrides | src/SecureHttpClient.js:21-30 | `create({})` on a constructed client reproduces its settings |
| SecureHttpClient.IsCancel | src/SecureHttpClient.js:32-34 | only an error can be a cancellation; `IsCancelIff` gives the exact rule |
| SecureHttpClient.IsCancelIff | src/SecureHttpClient.js:32-34 | `isCancel` holds exactly when the error is named "AbortError" or its message contains "abort" |
| SecureHttpClient.XhrTimeoutIsNotCancel | src/SecureHttpClient.js:141-144 | the XMLHttpRequest timeout rejection is not classified as a cancellation |
| SecureHttpClient.BuildURL | src/SecureHttpClient.js:237-240 | the resolved URL ends with the given URL: the URL itself when it starts with "http", otherwise the base URL followed by it |
| SecureHttpClient.BuildURLIdempotent | src/SecureHttpClient.js:237-240 | with a base URL starting with "http", the result starts with "http", and resolving it again changes nothing |
| SecureHttpClient.NormalizeMethod | src/SecureHttpClient.js:43 | the method sent is never empty |
| SecureHttpClient.NormalizeMethodProperties | src/SecureHttpClient.js:43 | the method defaults to "GET" for an absent or empty method; it holds no lower-case ASCII letter; normalising twice is normalising once |
| SecureHttpClient.Seal | src/SecureHttpClient.js:48-55 | building the envelope makes one or two crypto calls, the first an encryption and none a decryption |
| SecureHttpClient.SealOrder | src/SecureHttpClient.js:48-55 | the first crypto call encrypts the serialised body; a sign call follows exactly when encryption succeeded, over its ciphertext and the time in whole seconds; a sealed config is the base config with the body replaced by `{data, timestamp, signature, nonce}` |
| SecureHttpClient.SealWithoutProvider | src/CryptoUtils.js:6-11 | without a crypto provider, sealing fails with "Rust crypto module not available" after the single encrypt attempt |
| SecureHttpClient.SealStep | src/SecureHttpClient.js:41-55 | unless crypto is on and the body is truthy, the base config goes on unchanged and no crypto call is made; no sealing call is a decryption |
| SecureHttpClient.RequestChain | src/SecureHttpClient.js:58-68 | with no request interceptors the config passes through unchanged |
| SecureHttpClient.RequestChainStops | src/SecureHttpClient.js:58-68 | once the request chain has failed, later interceptors change nothing |
| SecureHttpClient.RequestChainFirst | src/SecureHttpClient.js:58-68 | the first interceptor receives the caller's config, and the rest run on its output |
| SecureHttpClient.RequestChainNothing | src/SecureHttpClient.js:60-63 | an interceptor that returns nothing fails the whole chain with "Request interceptor returned undefined config" |
| SecureHttpClient.Chain | src/SecureHttpClient.js:115-117 | with no response or error interceptors the value passes through unchanged |
| SecureHttpClient.ChainStops | src/SecureHttpClient.js:115-117 | once the response or error chain has failed, later interceptors change nothing |
| SecureHttpClient.ChainFirst | src/SecureHttpClient.js:115-117 | the response and error chains run in registration order, each function on the previous result |
| SecureHttpClient.RunRequestInterceptors | src/SecureHttpClient.js:58-68 | the loop over the request interceptors yields exactly the request chain's result |
| SecureHttpClient.RunChain | src/SecureHttpClient.js:115-130 | the loop over the response or error interceptors yields exactly the chain's result |
| SecureHttpClient.ParseHeaders | src/SecureHttpClient.js:203-215 | the loop builds the object the specification gives, and an empty header text yields an empty object |
| SecureHttpClient.ParsedHeaders | src/SecureHttpClient.js:203-215 | an empty header text gives an empty object; `HeadersOfOrigin` and `ParsedHeadersClean` give the object of any other text |
| SecureHttpClient.HeadersOfNames | src/SecureHttpClient.js:207-211 | a name is in the header object exactly when some line splits into that name and a value |
| SecureHttpClient.LastSetter | src/SecureHttpClient.js:207-211 | a present name's value is that of a line setting it, and no later line sets it again |
| SecureHttpClient.HeadersOfOrigin | src/SecureHttpClient.js:207-211 | a name is present exactly when some CRLF line splits into exactly that name and a value on ": "; its value is that of the last such line |
| SecureHttpClient.ParsedHeadersClean | src/SecureHttpClient.js:207-211 | no parsed name or value contains ": " or CRLF |
| SecureHttpClient.StatusBoundaries | src/SecureHttpClient.js:119 | the client's success status range is [200, 300): 200 and 299 pass; 199, 300, 399 and 400 fail |
| SecureHttpClient.Classify | src/SecureHttpClient.js:115-132 | after the response chain the call always settles; it resolves exactly when that chain resolved and the status is in [200, 300), and then with the transformed response |
| SecureHttpClient.FetchAdapter | src/SecureHttpClient.js:85-135 | the fetch transport leaves the call pending exactly when the transport stays silent and there is no AbortController; it resolves only on an answered success status |
| SecureHttpClient.XhrAdapter | src/SecureHttpClient.js:137-201 | the corrected XMLHttpRequest transport always settles, and resolves only on an answered success status |
| SecureHttpClient.XhrAdapterAsWritten | src/SecureHttpClient.js:146-184 | as written, only an answered call can stay pending, and it resolves on exactly the inputs on which the corrected transport resolves |
| SecureHttpClient.XhrRejectingErrorInterceptorHangs | src/SecureHttpClient.js:146-184 | as written, over XMLHttpRequest a 404 with an error interceptor that rejects with its error never settles |
| SecureHttpClient.XhrAlwaysSettles | src/SecureHttpClient.js:137-201 | the corrected XMLHttpRequest transport always settles; in the scenario above it rejects with the response-bearing error |
| SecureHttpClient.FetchRequest | src/SecureHttpClient.js:85-135 | the fetch transport's decoding, response chain, status check and error chain equal `FetchAdapter` |
| SecureHttpClient.XhrRequest | src/SecureHttpClient.js:137-201 | the XMLHttpRequest transport, with its headers parsed from the raw header text, equals the corrected `XhrAdapter` |
| SecureHttpClient.Settle | src/SecureHttpClient.js:119-132 | the status check and the error interceptor loop yield exactly `Classify`: a rejected response chain rejects, a success status resolves with the transformed response, and a failing status never resolves (what it rejects with is `StatusFailureCarriesResponse`) |
| SecureHttpClient.Normalize | src/SecureHttpClient.js:79-82 | a rejection keeps a response-bearing error as is; any other error is reduced to its message and the config |
| SecureHttpClient.Finish | src/SecureHttpClient.js:70-82 | the sent config is the final one; the call is pending exactly when the transport left it pending; at most one crypto call is added, and only after a fulfilled answer |
| SecureHttpClient.Pipeline | src/SecureHttpClient.js:36-83 | a call that never reaches the transport is rejected; a request makes at most three crypto calls |
| SecureHttpClient.Request | src/SecureHttpClient.js:36-83 | the method's outcome, sent config and crypto calls equal the `Pipeline` specification |
| SecureHttpClient.NullConfigRejected | src/SecureHttpClient.js:37-39 | a missing config is rejected with "Request config is required"; nothing is sent and no crypto call is made |
| SecureHttpClient.NoCryptoWhenDisabled | src/SecureHttpClient.js:48 | with crypto disabled no crypto helper is ever called |
| SecureHttpClient.EncryptBeforeSign | src/SecureHttpClient.js:48-55 | in a request with crypto on and a body, the first crypto call encrypts the body; the second signs that ciphertext at the time in seconds |
| SecureHttpClient.InterceptorsSeeEnvelope | src/SecureHttpClient.js:54-58 | the request chain receives the envelope `{data, timestamp, signature, nonce}` in place of the body; with no interceptors, that config is what the transport receives |
| SecureHttpClient.FailureBeforeTransport | src/SecureHttpClient.js:48-68 | a failing envelope or request interceptor rejects before any transport call |
| SecureHttpClient.SentConfig | src/SecureHttpClient.js:41-45 | without interceptors or envelope, the transport receives the resolved URL, the normalised method, the merged headers (per-call winning) and the caller's body |
| SecureHttpClient.GetUsersScenario | src/SecureHttpClient.js:217-219 | `get('/users')` on base URL https://api.example.com sends a GET of https://api.example.com/users |
| SecureHttpClient.Get | src/SecureHttpClient.js:217-219 | the options carry the URL, the method "GET", and the config's body and headers |
| SecureHttpClient.Post | src/SecureHttpClient.js:221-223 | the options carry the URL, the method "POST", the given body and the config's headers |
| SecureHttpClient.Put | src/SecureHttpClient.js:225-227 | the options carry the URL, the method "PUT", the given body and the config's headers |
| SecureHttpClient.Delete | src/SecureHttpClient.js:229-231 | the options carry the URL, the method "DELETE", and the config's body and headers |
| SecureHttpClient.Patch | src/SecureHttpClient.js:233-235 | the options carry the URL, the method "PATCH", the given body and the config's headers |
| SecureHttpClient.MethodSent | src/SecureHttpClient.js:43-45 | an upper-case method reaches the transport unchanged, with the resolved URL and the caller's body |
| SecureHttpClient.VerbsSendTheirMethod | src/SecureHttpClient.js:217-235 | each verb helper sends its own method and the resolved URL; POST, PUT and PATCH send the given body, while GET and DELETE keep the config's |
| SecureHttpClient.ObservingChainKeepsError | src/SecureHttpClient.js:125-129 | a chain of error interceptors that each resolve or reject with the error they were given ends with that same error |
| SecureHttpClient.StatusFailureCarriesResponse | src/SecureHttpClient.js:119-131 | with any envelope and any error interceptors, a failing status builds "Request failed with status N" from the transformed response and the final config, runs the whole error chain on it, and rejects with what the chain ended with; when every error interceptor resolves or rejects with the error it was given (as the monitoring one does), the caller receives that very error |
| SecureHttpClient.TransportFailureHasNoResponse | src/SecureHttpClient.js:71-81 | with or without the sealed envelope and after any request interceptors, a timed-out or unreachable call never rejects with a response but with `{message, config}` for the final config; over XMLHttpRequest the message is "Request timeout" or "Network error" (lines 141-144 and 186-189); the call stays pending exactly when fetch runs without an AbortController and the transport is silent |
| SecureHttpClient.FinishShapes | src/SecureHttpClient.js:74-82 | whatever the adapter answered, the catch turns any rejection into a response-bearing error or `{message, config}`, and a response-bearing rejection adds no decrypt call |
| SecureHttpClient.RejectionShapes | src/SecureHttpClient.js:74-82 | a rejection after the transport has the response-bearing or the `{message, config}` shape; a response-bearing rejection never follows a decryption |
| SecureHttpClient.DecryptOnlyOnEnvelope | src/SecureHttpClient.js:70-77 | a decrypt call is made exactly when the transport fulfilled the call, crypto is on and the body has a truthy `data` field; it is then the one call after the sealing calls, with that field and the key |
| Telemetry.EnabledFlag | src/monitoring/TelemetryClient.js:6 | telemetry is disabled exactly when the option is the value `false` |
| Telemetry.Threshold | src/monitoring/TelemetryClient.js:59 | the flush threshold is the buffer size when that is at least 1 |
| Telemetry.TelemetryClient.constructor | src/monitoring/TelemetryClient.js:4-18 | defaults "1.0.0", "anonymous", 100 and 30000; the session id from time and random digits; an empty buffer; the timer running |
| Telemetry.TelemetryClient.Flush | src/monitoring/TelemetryClient.js:64-79 | with an empty buffer or no endpoint nothing changes; otherwise exactly the buffer, in order, is sent and the buffer is empty even if delivery fails, which only warns; the history is unchanged |
| Telemetry.TelemetryClient.Track | src/monitoring/TelemetryClient.js:49-62 | disabled: no change; enabled: one event `{type, timestamp, context, data}` is appended after the earlier ones, and reaching the threshold with an endpoint sends the whole buffer; from a valid state that batch holds exactly `Threshold` events |
| Telemetry.TelemetryClient.TrackEvent | src/monitoring/TelemetryClient.js:20-22 | tracks an Event with name, properties and measurements |
| Telemetry.TelemetryClient.TrackMetric | src/monitoring/TelemetryClient.js:24-26 | tracks a Metric with name, value and properties |
| Telemetry.TelemetryClient.TrackException | src/monitoring/TelemetryClient.js:28-35 | tracks an Exception with the error's message and name |
| Telemetry.TelemetryClient.TrackRequest | src/monitoring/TelemetryClient.js:37-39 | tracks a Request with its six fields |
| Telemetry.TelemetryClient.TrackDependency | src/monitoring/TelemetryClient.js:41-43 | tracks a Dependency with its seven fields |
| Telemetry.TelemetryClient.TrackTrace | src/monitoring/TelemetryClient.js:45-47 | tracks a Trace; the severity defaults to "Information" only when absent |
| Telemetry.TelemetryClient.TimerTick | src/monitoring/TelemetryClient.js:81-83 | a tick of the running interval is one flush; once stopped, a tick changes nothing |
| Telemetry.TelemetryClient.Dispose | src/monitoring/TelemetryClient.js:85-88 | the timer stops, then one flush runs |
| Performance.MetricName | src/monitoring/PerformanceMonitor.js:18 | the metric name starts with "operation." and carries the operation id |
| Performance.MetricProps | src/monitoring/PerformanceMonitor.js:18-21 | the properties hold `success` as a string unless the metadata overrides it, plus every metadata entry |
| Performance.RequestEvent | src/monitoring/PerformanceMonitor.js:27-41 | the Request event's success is the [200,400) rule, its name the method or "GET"; duration and status are 0 without a response |
| Performance.DependencyEvent | src/monitoring/PerformanceMonitor.js:43-51 | the Dependency event has name and type "HTTP", targets the host, and shares success, duration and status with the Request event |
| Performance.EndEvents | src/monitoring/PerformanceMonitor.js:11-24 | ending an operation emits one Metric for a known span and none otherwise |
| Performance.HttpEvents | src/monitoring/PerformanceMonitor.js:26-52 | one exchange emits a Request event, then a Dependency event exactly when the host parses |
| Performance.SuccessRanges | src/monitoring/PerformanceMonitor.js:28 | the correlator's success rule is [200,400); it agrees with the client's on 2xx and differs exactly on 3xx |
| Performance.ErrorNeverSucceeds | src/monitoring/PerformanceMonitor.js:28 | an exchange with an error is never a success |
| Performance.PerformanceMonitor.constructor | src/monitoring/PerformanceMonitor.js:2-5 | the monitor reports to the given client and starts with no spans |
| Performance.PerformanceMonitor.StartOperation | src/monitoring/PerformanceMonitor.js:7-9 | the id maps to the current time, overwriting any earlier span |
| Performance.PerformanceMonitor.EndOperation | src/monitoring/PerformanceMonitor.js:11-24 | an unknown id changes nothing, emits nothing and returns nothing; a known id is removed alone, its duration returned and one Metric tracked |
| Performance.PerformanceMonitor.TrackHttpRequest | src/monitoring/PerformanceMonitor.js:26-52 | one Request event, then one Dependency event, or a TypeError "Invalid URL" after the Request event when the URL does not parse; without a client nothing happens |
| Monitoring.RequestId | src/monitoring/index.js:29 | the request id starts with "req_" |
| Monitoring.RequestIdInjective | src/monitoring/index.js:29 | two request ids are equal only for the same time and the same random digits |
| Monitoring.StampedConfig | src/monitoring/index.js:28-29 | the stamped config carries the start time and the request id, and nothing else changes |
| Monitoring.StampedResponse | src/monitoring/index.js:37-39 | the response's duration is now minus the config's start when there is one; nothing else changes |
| Monitoring.StampedError | src/monitoring/index.js:58-60 | the error's duration is now minus the config's start when there is one; message, config and response are kept |
| Monitoring.MonitoringManager.constructor | src/monitoring/index.js:19-24 | a fresh telemetry client and monitor sharing it; screenshots are on unless the option is the value `false` |
| Monitoring.MonitoringManager.CloseSpan | src/monitoring/index.js:41-46 | the config's span is closed and its Metric tracked |
| Monitoring.MonitoringManager.InterceptRequest | src/monitoring/index.js:26-33 | returns the stamped config, with an id starting with "req_", and opens a span under that id |
| Monitoring.MonitoringManager.InterceptResponse | src/monitoring/index.js:35-51 | stamps the duration, closes the span with success `true`, tracks the exchange once and returns the same response |
| Monitoring.MonitoringManager.ReportFailure | src/monitoring/index.js:74-82 | tracks the exchange and one Exception, then rejects with the error |
| Monitoring.MonitoringManager.InterceptError | src/monitoring/index.js:53-84 | always rejects; with the same error unless the URL fails to parse; a screenshot is taken exactly when enabled and available; span, exchange and Exception are tracked in this order |
| Monitoring.MonitoringManager.Flush | src/monitoring/index.js:106-108 | delegates to the telemetry client's flush |
| Monitoring.MonitoringManager.Dispose | src/monitoring/index.js:110-112 | delegates to the telemetry client's dispose and leaves the singleton in place |
| Monitoring.MonitoringRegistry.constructor | src/monitoring/index.js:6 | there is no instance before the first `initialize` |
| Monitoring.MonitoringRegistry.Initialize | src/monitoring/index.js:8-13 | the first call creates the instance from its options; later calls return the same instance and ignore their options |
| Monitoring.MonitoringRegistry.GetInstance | src/monitoring/index.js:15-17 | returns the stored instance, null before `initialize` |
| CryptoUtils.Encrypt | src/CryptoUtils.js:6-11 | without a provider, "Rust crypto module not available"; otherwise the provider's answer |
| CryptoUtils.Decrypt | src/CryptoUtils.js:13-18 | without a provider, "Rust crypto module not available"; otherwise the provider's answer |
| CryptoUtils.Sign | src/CryptoUtils.js:20-25 | without a provider, "Rust crypto module not available"; otherwise the provider's answer |
| CryptoUtils.NoProviderNoFallback | src/CryptoUtils.js:6-25 | without a provider no helper ever yields a value |
| CryptoUtils.TemplateText | src/CryptoUtils.js:28 | the position-wise template is `xxxxxxxx-xxxx-4xxx-yxxx-xxxxxxxxxxxx` |
| CryptoUtils.GenerateNonce | src/CryptoUtils.js:27-33 | the nonce has 36 characters |
| CryptoUtils.HexDigit | src/CryptoUtils.js:31 | one nibble prints as a digit or a lower-case letter a-f |
| CryptoUtils.Fill | src/CryptoUtils.js:28-32 | the replacement keeps the template's length |
| CryptoUtils.FillAt | src/CryptoUtils.js:28-32 | each output position is its template character, or the digit of the draw numbered by the placeholders before it |
| CryptoUtils.VariantBits | src/CryptoUtils.js:30 | the variant value is `r % 4 + 8`, always 8 to 11 |
| CryptoUtils.VariantDigit | src/CryptoUtils.js:30-31 | the character printed for the variant position is one of '8', '9', 'a', 'b' |
| CryptoUtils.DrawIndexCounts | src/CryptoUtils.js:28-29 | the draw used at position i is the count of placeholders before i |
| CryptoUtils.NonceChars | src/CryptoUtils.js:27-33 | the nonce is 36 characters, each its template character or the hex digit of its draw |
| CryptoUtils.NonceLayout | src/CryptoUtils.js:27-33 | dashes at 8, 13, 18 and 23, '4' at 14, one of '8', '9', 'a', 'b' at 19, and a lower-case hex digit of one draw everywhere else |
| CryptoUtils.DistinctDraws | src/CryptoUtils.js:29 | distinct random positions consume distinct draws |
| RustCrypto.DerivedKey | rust-crypto/src/lib.rs:299-305 | 32 bytes: the first min(len, 32) key bytes, then zeros |
| RustCrypto.DerivedKeyTruncates | rust-crypto/src/lib.rs:301-303 | key texts that agree on their first 32 bytes derive the same key |
| RustCrypto.DerivedKeyRecovers | rust-crypto/src/lib.rs:301-303 | a key text of at most 32 bytes is a prefix of its derived key |
| RustCrypto.DeriveKey | rust-crypto/src/lib.rs:299-305 | the copy into a fresh zeroed array equals the derived key |
| RustCrypto.DetectTampering | rust-crypto/src/lib.rs:203-208 | tampering exactly when "<script>", "javascript:" or "eval(" occurs or the input exceeds 1000000 bytes |
| RustCrypto.VerifyTimestamp | rust-crypto/src/lib.rs:194-201 | accepted exactly when the timestamp is within 300 seconds of now |
| RustCrypto.WrapI64 | rust-crypto/src/lib.rs:199 | the two's-complement 64-bit reduction of an integer |
| RustCrypto.TimestampWrapAccepted | rust-crypto/src/lib.rs:194-201 | as compiled with wrapping arithmetic, a timestamp 2^63 seconds before now is accepted, which the intended rule refuses |
| RustCrypto.TimestampOnlyWrapDiffers | rust-crypto/src/lib.rs:194-201 | for clocks below 2^62 seconds, that timestamp is the only one on which the two rules differ |
| RustCrypto.VerifyTimestampAsWritten | rust-crypto/src/lib.rs:194-201 | as compiled with wrapping arithmetic, every timestamp the intended rule accepts is accepted too |
| RustCrypto.Age | rust-crypto/src/lib.rs:222-226 | `now - time` on u64 wraps around when the entry is in the future |
| RustCrypto.Pruned | rust-crypto/src/lib.rs:222 | pruning never lengthens the log and keeps only entries under 60 seconds old |
| RustCrypto.RecentCount | rust-crypto/src/lib.rs:224-227 | the replay count never exceeds the length of the log |
| RustCrypto.PrunedMembers | rust-crypto/src/lib.rs:222 | pruning keeps exactly the entries younger than 60 seconds |
| RustCrypto.PrunedConcat | rust-crypto/src/lib.rs:222 | pruning distributes over concatenation, so the kept entries keep their order |
| RustCrypto.PrunedIdempotent | rust-crypto/src/lib.rs:222 | pruning twice is pruning once |
| RustCrypto.PruningKeepsRecent | rust-crypto/src/lib.rs:222-227 | pruning never removes an entry the replay count looks at |
| RustCrypto.RecentMeansThisSecond | rust-crypto/src/lib.rs:222-226 | with a clock that never ran backwards, "less than a second old" means "logged this second" |
| RustCrypto.RetainYoung | rust-crypto/src/lib.rs:222 | the `retain` loop yields exactly the pruned log |
| RustCrypto.CountRecent | rust-crypto/src/lib.rs:224-227 | the counting loop yields exactly the replay count |
| RustCrypto.Frame | rust-crypto/src/lib.rs:266-268 | the frame is 12 bytes longer than the ciphertext and starts with the nonce |
| RustCrypto.Unframe | rust-crypto/src/lib.rs:279-283 | a split keeps the first 12 bytes as the nonce and the rest as the ciphertext |
| RustCrypto.FrameRoundTrip | rust-crypto/src/lib.rs:266-268 | splitting a framed value returns the original nonce and ciphertext |
| RustCrypto.UnframeRoundTrip | rust-crypto/src/lib.rs:279-283 | data shorter than 12 bytes is refused; any other splits and re-frames to itself |
| RustCrypto.EncryptInternal | rust-crypto/src/lib.rs:253-269 | encryption fails exactly when the generator or the cipher fails, with "RNG failure" or "Encryption failed" |
| RustCrypto.DecryptInternal | rust-crypto/src/lib.rs:271-289 | decryption fails with one of "Invalid base64", "Invalid data", "Decryption failed" and "Invalid UTF-8", and with the first when base64 does not decode; a plaintext returned is valid UTF-8 |
| RustCrypto.EncryptDecryptRoundTrip | rust-crypto/src/lib.rs:253-289 | with primitives that behave as their standards require, decrypting an encryption under the same key text returns the plaintext |
| RustCrypto.ShortDataRejected | rust-crypto/src/lib.rs:279-281 | decoded data shorter than 12 bytes fails with "Invalid data" |
| RustCrypto.SignInternal | rust-crypto/src/lib.rs:291-297 | the signature is the base64 text of the HMAC of the data and the timestamp under the derived key |
| RustCrypto.SignKeyTruncates | rust-crypto/src/lib.rs:291-305 | `sign_internal` under key texts that share their first 32 bytes gives the same signature |
| RustCrypto.MasterKey | rust-crypto/src/lib.rs:245-251 | with the integrity key set, the master key is its base64 text |
| RustCrypto.StoreThenGet | rust-crypto/src/lib.rs:110-141 | storing a value and reading it back under the same master key gives the value; other names are unaffected |
| RustCrypto.RemoveThenGet | rust-crypto/src/lib.rs:152-158 | a removed name is no longer found; other names are unaffected |
| RustCrypto.CryptoModule.constructor | rust-crypto/src/lib.rs:17-19 | the three globals start empty |
| RustCrypto.CryptoModule.VerifyIntegrity | rust-crypto/src/lib.rs:189-192 | `verify_integrity` holds exactly when the integrity key is set |
| RustCrypto.CryptoModule.Init | rust-crypto/src/lib.rs:21-33 | the key is set only when none exists and the generator succeeds; a second call returns false |
| RustCrypto.CryptoModule.LogRequest | rust-crypto/src/lib.rs:232-243 | appends one entry at the end of the log, creating it if need be |
| RustCrypto.CryptoModule.DetectReplayAttack | rust-crypto/src/lib.rs:210-230 | the log becomes its pruned form; the result is whether more than 10 entries of the operation are under a second old |
| RustCrypto.CryptoModule.Encrypt | rust-crypto/src/lib.rs:35-55 | null without the integrity key or on tampered input; otherwise the internal encryption, logged on success |
| RustCrypto.CryptoModule.Decrypt | rust-crypto/src/lib.rs:57-77 | null without the integrity key or on a replay; otherwise the internal decryption, logged on success |
| RustCrypto.CryptoModule.Sign | rust-crypto/src/lib.rs:79-99 | a signature exactly when the key is set and the timestamp is within 300 seconds; logged then |
| RustCrypto.CryptoModule.StoreKey | rust-crypto/src/lib.rs:101-122 | the value is stored encrypted under the master key, other names unchanged; false without the key or when encryption fails |
| RustCrypto.CryptoModule.GetKey | rust-crypto/src/lib.rs:124-142 | the decrypted stored value when the key is set, logged then; null otherwise |
| RustCrypto.CryptoModule.RemoveKey | rust-crypto/src/lib.rs:144-159 | false when the key is unset or the map was never created; otherwise that name alone is removed |
| SecurityValidator.Probe | src/SecurityValidator.js:19-29 | a probe reports `true` only when its module is present and answers `true` |
| SecurityValidator.IsRooted | src/SecurityValidator.js:19-29 | rooted exactly on Android when the root probe answers `true` |
| SecurityValidator.HasProxyEnabled | src/SecurityValidator.js:31-41 | a proxy exactly on Android when the proxy probe answers `true` |
| SecurityValidator.IsCertificateTampered | src/SecurityValidator.js:43-50 | tampered on any platform when the TLS probe answers `true` |
| SecurityValidator.IsDeviceSecure | src/SecurityValidator.js:6-17 | `secure` exactly when not rooted, no proxy and no tampered certificate |
| SecurityValidator.VerdictByPlatform | src/SecurityValidator.js:6-50 | off Android only the certificate probe matters; with no module answering `true` the device is secure |
| SecurityValidator.Reasons | src/SecurityValidator.js:62-66 | one reason per failed check, each present exactly when its check failed, in the order rooted, proxy, certificate |
| SecurityValidator.Validation | src/SecurityValidator.js:59-72 | `true` exactly for a secure device; otherwise "Security check failed: " followed by the reasons joined with ", " |
| SecurityValidator.ValidateSecurityOrThrow | src/SecurityValidator.js:59-72 | the conditional pushes and the join yield exactly `Validation` of the device's report |
| SecurityValidator.RootedAndProxyMessage | src/SecurityValidator.js:62-68 | a rooted Android device with a proxy fails with "Security check failed: Device is rooted/jailbroken, Proxy detected" |
| SecurityValidator.BlockInsecureDevice | src/SecurityValidator.js:52-56 | always throws, with a non-empty message |
| Text.ContainsIffOccurs | rust-crypto/src/lib.rs:205-207 | the recursive substring test agrees with the positional one |
| Text.JoinSplit | src/SecureHttpClient.js:207-208 | joining the pieces of a split gives back the text |
| Text.SplitStep | src/SecureHttpClient.js:207-208 | the first piece of a split is the text before the first separator, and the other pieces are those of the text after it |
| Text.SplitPiecesAvoidSeparator | src/SecureHttpClient.js:207-208 | no piece of a split holds the separator |
| Text.ToUpper | src/SecureHttpClient.js:43 | upper-casing keeps the length and maps each ASCII letter |
| Text.DecimalRoundTrip | src/monitoring/TelemetryClient.js:91 | reading back a rendered number gives the number |
| Text.NatToStringInjective | src/monitoring/index.js:29 | distinct times render as distinct decimal texts (used by `RequestIdInjective`) |

## Left out

- Real I/O and scheduling. `fetch`, `XMLHttpRequest`, `AbortController`, `setTimeout` and `setInterval` become transport results and explicit timer ticks (`TimerTick`). The delivery POST is recorded in the outbox, and its failure is a parameter.
- The request timer's race against a late answer. An answer arrives before the timeout or not at all.
- `Monitoring.MonitoringManager.InterceptRequest`: the source reads `Date.now()` three times: for the start time (src/monitoring/index.js:28), for the request id (:29) and for the span start inside `startOperation` (src/monitoring/PerformanceMonitor.js:8). The model uses one reading for all three.
- `Monitoring.MonitoringManager.InterceptResponse`: the source reads `Date.now()` for the duration (src/monitoring/index.js:38) and again inside `endOperation` (src/monitoring/PerformanceMonitor.js:15). The model uses one `now` for both. Each `_track` also takes its own `new Date().toISOString()` (src/monitoring/TelemetryClient.js:54); the model gives every event of one interceptor call the same timestamp.
- `Monitoring.MonitoringManager.InterceptError`: as for the response interceptor, one `now` stands for the readings at src/monitoring/index.js:59 and src/monitoring/PerformanceMonitor.js:15, and one timestamp for all its events.
- `Monitoring.MonitoringManager.CloseSpan`: the span's duration uses the `now` of the stamp, not a reading of its own.
- `SecureHttpClient.XhrRequest` follows the corrected `XhrAdapter` of the Findings: a rejection in an interceptor rejects the call. As written (src/SecureHttpClient.js:177-182) such a call never settles, which `XhrAdapterAsWritten` models.
- `SecureHttpClient.Request` and its specification `SecureHttpClient.Pipeline` use the corrected XMLHttpRequest rule too. Without fetch, with a 404 answer and one error interceptor that rejects with its error, the model rejects with the response-bearing error; the source never settles.
- `RustCrypto.CryptoModule.Sign` uses the intended `VerifyTimestamp`. A release build of rust-crypto/src/lib.rs:92-98 also signs for the timestamp `nowSecs - 2^63`, which this method refuses (see Findings).
- `RustCrypto.CryptoModule.Decrypt`: `detect_replay_attack` and `log_request` each read `SystemTime::now()` (rust-crypto/src/lib.rs:216-219 and :238-241). The model uses one `now` for both.
- `RustCrypto.Age` models `now - time` with wrapping, as in a release build. The repository ships no Cargo profile, and in a debug build this subtraction panics for an entry logged in the future (rust-crypto/src/lib.rs:222 and :226). That panic is not modelled.
- `config.metadata` spread into the Request event, and `response.tlsVersion`, are not modelled: the metadata is empty and the TLS version is undefined.
- Error stacks in Exception events, and the `console.warn` text of a failed flush.
- `toUpperCase` is modelled on the ASCII letters only.
- The JSON serialisation of a body and the parse of a response are parameters. So are `new URL(url).hostname` and `Math.random().toString(36)`, as digit strings.
- A missing `url` rejects with a TypeError whose text depends on the JavaScript engine. The model uses one fixed message.
- A response interceptor that resolves with a falsy value is not modelled: the chain always passes a response on.
- The FFI layer of the native library is not part of this model: C strings, pointers, `unwrap` panics, `crypto_generate_key`, `crypto_free_string` and `crypto_verify_integrity`. Byte strings stand for the C strings.
- The global mutexes. Each global is a field, and calls are sequential. `get_master_key`'s fallback key is reachable only when the integrity key is unset, which `verify_integrity` excludes before every call of it.
- `RustCrypto.VerifyTimestamp` is the intended rule on unbounded integers. Its release-build behaviour is `RustCrypto.VerifyTimestampAsWritten` (see Findings). The `as i64` cast of the clock reading is not modelled: the clock is given as a 64-bit signed value.
- AES-256-GCM, HMAC-SHA256, base64 and the system random generator are parameters. The store/get and encrypt/decrypt round trips assume, through `Sound`, that decryption undoes encryption.
- The screenshot module is an input: availability is a flag and the capture an optional string. The facade's `trackEvent`, `trackMetric`, `trackException`, `setScreenshotView` and `captureScreenshot` are one-line delegations and are not modelled.
- `src/index.js`, `src/SecureStorage.js`, `createSecureHttpClient`, the native bridge modules and the examples are not part of this model.
- The native security probes themselves (file-system and proxy checks) are inputs: absent, answering or throwing.

## Findings

| source | as written | input that shows it | evidently intended | confidence | as-written member | corrected member |
|---|---|---|---|---|---|---|
| src/SecureHttpClient.js:146-184 | over XMLHttpRequest, the response and error interceptors run inside the `onload` callback and a detached async function; a rejection there reaches neither `resolve` nor `reject`, and the timeout is already cleared | a 404 answer with one error interceptor that rejects with the error it was given (as the monitoring facade's does) | the call rejects with that error, as the fetch transport does | not executed | SecureHttpClient.XhrAdapterAsWritten (SecureHttpClient.XhrRejectingErrorInterceptorHangs) | SecureHttpClient.XhrAdapter (SecureHttpClient.XhrAlwaysSettles) |
| rust-crypto/src/lib.rs:194-201 | `(now - timestamp).abs()` on i64, in a release build with wrapping arithmetic: `now - (now - 2^63)` wraps to -2^63, whose `abs` is again -2^63 <= 300 | timestamp = now - 2^63 for any non-negative clock reading | only timestamps within 300 seconds of now are accepted | not executed | RustCrypto.VerifyTimestampAsWritten (RustCrypto.TimestampWrapAccepted) | RustCrypto.VerifyTimestamp (RustCrypto.TimestampOnlyWrapDiffers) |
