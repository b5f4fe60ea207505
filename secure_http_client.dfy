/** The request pipeline of `SecureHttpClient`: URL resolution, header and
    method normalisation, the optional crypto envelope, the three ordered
    interceptor chains, the two transports (fetch and XMLHttpRequest) with
    their status classification, and the reduction of rejections to
    `{response, message, config}` or `{message, config}`.

    The transport, the crypto provider, `JSON.parse`/`JSON.stringify`, the
    clock and `Math.random` are parameters; an interceptor is a function
    value that resolves with a value or rejects. */
module SecureHttpClient {
  import opened Wrappers
  import opened Text
  import opened HttpTypes
  import CryptoUtils

  const DefaultTimeout := 30000
  const ConfigRequired := "Request config is required"
  const NoConfigReturned := "Request interceptor returned undefined config"
  const RequestTimeout := "Request timeout"
  const NetworkError := "Network error"
  /** The TypeError `_buildURL` raises on a config without `url`. */
  const UrlMissing := "Cannot read properties of undefined (reading 'startsWith')"

  // ---------------------------------------------------------------------
  // Client configuration

  /** The options object given to the constructor or to `create`; `None` is
      a property that is absent (undefined). */
  datatype ClientOptions = ClientOptions(
    baseURL: Option<string>,
    headers: Option<Headers>,
    timeout: Option<int>,
    cryptoKey: Option<string>,
    enableCrypto: Option<bool>)

  /** The scalar state a client holds after its constructor ran. */
  datatype Settings = Settings(
    baseURL: string,
    headers: Headers,
    timeout: int,
    cryptoKey: Option<string>,
    enableCrypto: bool)

  /** A request interceptor resolves with a config (`Some`), with nothing
      (`None`, a falsy return), or rejects. */
  type RequestInterceptor = RequestConfig -> Result<Option<RequestConfig>, Failure>
  /** A response interceptor resolves with the next response or rejects. */
  type ResponseInterceptor = Response -> Result<Response, Failure>
  /** An error interceptor resolves, leaving the shared error object as
      `Ok` says, or rejects with a value. */
  type ErrorInterceptor = Failure -> Result<Failure, Failure>

  datatype Client = Client(
    settings: Settings,
    requestInterceptors: seq<RequestInterceptor>,
    responseInterceptors: seq<ResponseInterceptor>,
    errorInterceptors: seq<ErrorInterceptor>)

  /** `a || d` for a string property. */
  function OrString(a: Option<string>, d: string): string {
    if a.Some? && a.value != "" then a.value else d
  }

  /** `a || d` for a numeric property. */
  function OrInt(a: Option<int>, d: int): int {
    if a.Some? && a.value != 0 then a.value else d
  }

  /** `a || null` for the opaque crypto key. */
  function OrNull(a: Option<string>): Option<string> {
    if a.Some? && a.value != "" then a else None
  }

  /** The constructor: each option, or its default when absent or falsy. */
  function Configure(o: ClientOptions): (s: Settings)
    ensures s.baseURL == OrString(o.baseURL, "")
    ensures s.headers == o.headers.GetOr(map[])
    ensures s.timeout == OrInt(o.timeout, DefaultTimeout)
    ensures s.cryptoKey == OrNull(o.cryptoKey)
    ensures s.enableCrypto == o.enableCrypto.GetOr(false)
  {
    Settings(
      OrString(o.baseURL, ""),
      o.headers.GetOr(map[]),
      OrInt(o.timeout, DefaultTimeout),
      OrNull(o.cryptoKey),
      o.enableCrypto.GetOr(false))
  }

  /** `new SecureHttpClient(config)`: the settings, and three empty chains. */
  function NewClient(o: ClientOptions): (c: Client)
    ensures c.settings == Configure(o)
    ensures c.requestInterceptors == [] && c.responseInterceptors == [] && c.errorInterceptors == []
  {
    Client(Configure(o), [], [], [])
  }

  /** What a constructed client's settings satisfy: no falsy timeout, no
      empty key. */
  predicate Normalized(s: Settings) {
    s.timeout != 0 && s.cryptoKey != Some("")
  }

  /** `create(config)`: a new client whose options are the overrides, each
      falling back to this client's value; headers are merged with the
      override winning. The interceptor chains are not carried over. */
  function Create(c: Client, o: ClientOptions): (r: Client)
    ensures r.requestInterceptors == [] && r.responseInterceptors == [] && r.errorInterceptors == []
  {
    var s := c.settings;
    NewClient(ClientOptions(
      Some(OrString(o.baseURL, s.baseURL)),
      Some(s.headers + o.headers.GetOr(map[])),
      Some(OrInt(o.timeout, s.timeout)),
      if OrNull(o.cryptoKey).Some? then o.cryptoKey else s.cryptoKey,
      if o.enableCrypto.Some? then o.enableCrypto else Some(s.enableCrypto)))
  }

  /** The headers of a created client: every override wins, every other
      header of the parent is kept, and nothing else appears. `enableCrypto`
      is the parent's unless the override defines it. */
  lemma CreateMerges(c: Client, o: ClientOptions)
    ensures var r := Create(c, o).settings;
      && (forall k :: k in o.headers.GetOr(map[]) ==> k in r.headers && r.headers[k] == o.headers.GetOr(map[])[k])
      && (forall k :: k !in o.headers.GetOr(map[]) && k in c.settings.headers ==> k in r.headers && r.headers[k] == c.settings.headers[k])
      && r.headers.Keys == c.settings.headers.Keys + o.headers.GetOr(map[]).Keys
      && (o.enableCrypto.None? ==> r.enableCrypto == c.settings.enableCrypto)
      && (o.enableCrypto.Some? ==> r.enableCrypto == o.enableCrypto.value)
      && r.baseURL == OrString(o.baseURL, c.settings.baseURL)
      && r.timeout == OrInt(o.timeout, OrInt(Some(c.settings.timeout), DefaultTimeout))
    ensures Create(c, o).requestInterceptors == [] && Create(c, o).responseInterceptors == [] && Create(c, o).errorInterceptors == []
  {
  }

  /** `create({})` on a constructed client reproduces its settings. */
  lemma CreateWithoutOverrides(c: Client)
    requires Normalized(c.settings)
    ensures Create(c, ClientOptions(None, None, None, None, None)).settings == c.settings
  {
    var s := c.settings;
    assert s.headers + map[] == s.headers;
    if s.cryptoKey.Some? {
      assert OrNull(s.cryptoKey) == s.cryptoKey;
    }
  }

  // ---------------------------------------------------------------------
  // Small pure steps

  /** `isCancel(error)`: the error is named "AbortError" or its message
      mentions "abort". The two plain-object shapes carry no name. */
  function IsCancel(e: Option<Failure>): (b: bool)
    ensures b ==> e.Some?
  {
    match e
    case None => false
    case Some(Thrown(name, message)) => name == "AbortError" || Contains(message, "abort")
    case Some(f) => Contains(f.message, "abort")
  }

  /** `isCancel` is true exactly when the error is named "AbortError" or
      the word "abort" starts at some position of its message. */
  lemma IsCancelIff(f: Failure)
    ensures IsCancel(Some(f)) <==>
      (f.Thrown? && f.name == "AbortError") || exists i :: OccursAt(f.message, "abort", i)
  {
    ContainsIffOccurs(f.message, "abort");
  }

  /** The timeout rejection of the XMLHttpRequest transport is not
      classified as a cancellation: its message lacks "abort". */
  lemma XhrTimeoutIsNotCancel(cfg: RequestConfig)
    ensures !IsCancel(Some(WithoutResponse(RequestTimeout, cfg, None)))
  {
    assert forall i :: 0 <= i < |RequestTimeout| ==> RequestTimeout[i] != 'a';
    LeadAbsentNotContained(RequestTimeout, "abort");
  }

  /** `_buildURL(url)`: an absolute URL passes through, anything else is
      appended to the base URL. */
  function BuildURL(baseURL: string, url: string): (r: string)
    ensures IsPrefix("http", url) ==> r == url
    ensures !IsPrefix("http", url) ==> r == baseURL + url
    ensures |url| <= |r| && r[|r| - |url|..] == url
  {
    if IsPrefix("http", url) then url else baseURL + url
  }

  /** With a base URL that itself starts with "http", resolving twice is
      resolving once, and the result always starts with "http". */
  lemma BuildURLIdempotent(baseURL: string, url: string)
    requires IsPrefix("http", baseURL)
    ensures IsPrefix("http", BuildURL(baseURL, url))
    ensures BuildURL(baseURL, BuildURL(baseURL, url)) == BuildURL(baseURL, url)
  {
    if !IsPrefix("http", url) {
      assert (baseURL + url)[..4] == baseURL[..4];
    }
  }

  /** `(config.method || "GET").toUpperCase()`. */
  function NormalizeMethod(m: Option<string>): (r: string)
    ensures |r| >= 1
  {
    ToUpper(OrString(m, "GET"))
  }

  /** The method defaults to "GET", never holds a lower-case ASCII letter,
      and normalising again changes nothing. */
  lemma NormalizeMethodProperties(m: Option<string>)
    ensures NormalizeMethod(None) == "GET" && NormalizeMethod(Some("")) == "GET"
    ensures forall i :: 0 <= i < |NormalizeMethod(m)| ==> !('a' <= NormalizeMethod(m)[i] <= 'z')
    ensures NormalizeMethod(Some(NormalizeMethod(m))) == NormalizeMethod(m)
  {
    UpperIdentity("GET");
    var n := NormalizeMethod(m);
    assert |n| == |OrString(m, "GET")| > 0;
    forall i | 0 <= i < |n| ensures !('a' <= n[i] <= 'z') {
      assert n[i] == UpperChar(OrString(m, "GET")[i]);
    }
    UpperIdentity(n);
    assert OrString(Some(n), "GET") == n;
  }

  // ---------------------------------------------------------------------
  // Per-call configuration

  /** The config object given to `request`; `None` is an absent property. */
  datatype RequestOptions = RequestOptions(
    url: Option<string>,
    httpMethod: Option<string>,
    headers: Option<Headers>,
    data: Option<Json>)

  const NoOptions := RequestOptions(None, None, None, None)

  /** `{...config, url, headers, method}` before the envelope and the
      interceptors: the resolved URL, the merged headers (per-call wins)
      and the normalised method. */
  function BaseConfig(s: Settings, o: RequestOptions, url: string): RequestConfig {
    RequestConfig(BuildURL(s.baseURL, url), NormalizeMethod(o.httpMethod),
                  s.headers + o.headers.GetOr(map[]), o.data, None, None)
  }

  /** The verb helpers: `{...config, url, method: VERB}`, and for the three
      with a body also `data`. */
  function Get(url: string, o: RequestOptions): (r: RequestOptions)
    ensures r.url == Some(url) && r.httpMethod == Some("GET") && r.data == o.data && r.headers == o.headers
  {
    o.(url := Some(url), httpMethod := Some("GET"))
  }

  function Post(url: string, data: Option<Json>, o: RequestOptions): (r: RequestOptions)
    ensures r.url == Some(url) && r.httpMethod == Some("POST") && r.data == data && r.headers == o.headers
  {
    o.(url := Some(url), httpMethod := Some("POST"), data := data)
  }

  function Put(url: string, data: Option<Json>, o: RequestOptions): (r: RequestOptions)
    ensures r.url == Some(url) && r.httpMethod == Some("PUT") && r.data == data && r.headers == o.headers
  {
    o.(url := Some(url), httpMethod := Some("PUT"), data := data)
  }

  function Delete(url: string, o: RequestOptions): (r: RequestOptions)
    ensures r.url == Some(url) && r.httpMethod == Some("DELETE") && r.data == o.data && r.headers == o.headers
  {
    o.(url := Some(url), httpMethod := Some("DELETE"))
  }

  function Patch(url: string, data: Option<Json>, o: RequestOptions): (r: RequestOptions)
    ensures r.url == Some(url) && r.httpMethod == Some("PATCH") && r.data == data && r.headers == o.headers
  {
    o.(url := Some(url), httpMethod := Some("PATCH"), data := data)
  }

  // ---------------------------------------------------------------------
  // The crypto envelope

  /** A call made to the crypto helpers, in the order made. */
  datatype CryptoCall =
    | EncryptCall(plaintext: string, key: string)
    | SignCall(data: string, timestamp: int, key: string)
    | DecryptCall(ciphertext: Json, key: string)

  /** The environment of one request. */
  datatype Env = Env(
    hasFetch: bool,                       // `typeof fetch !== "undefined"` at load time
    hasAbortController: bool,             // `typeof AbortController !== "undefined"`
    nowMs: nat,                           // `Date.now()` when the envelope is built
    draws: nat -> CryptoUtils.Nibble,     // the `Math.random` draws of `generateNonce`
    provider: Option<CryptoUtils.Provider>,
    parse: string -> Result<Json, string>, // `JSON.parse`: the value, or the SyntaxError message
    stringify: Json -> string,            // `JSON.stringify`
    abortMessage: string)                 // the message of the AbortError `fetch` rejects with

  /** The wire body `{data, timestamp, signature, nonce}`. */
  function Envelope(ciphertext: string, timestamp: int, signature: string, nonce: string): Json {
    JObject(map["data" := JString(ciphertext), "timestamp" := JNumber(timestamp),
                "signature" := JString(signature), "nonce" := JString(nonce)])
  }

  /** The key when it is truthy and crypto is enabled. */
  predicate CryptoOn(s: Settings) {
    s.enableCrypto && s.cryptoKey.Some? && s.cryptoKey.value != ""
  }

  datatype SealResult =
    | Sealed(config: RequestConfig, calls: seq<CryptoCall>)
    | SealFailed(error: Failure, calls: seq<CryptoCall>)

  /** Build the envelope: timestamp in whole seconds, a fresh nonce, then
      encrypt the serialised body and sign the ciphertext. */
  function Seal(base: RequestConfig, body: Json, key: string, env: Env): (r: SealResult)
    ensures 1 <= |r.calls| <= 2 && r.calls[0].EncryptCall?
    ensures forall i :: 0 <= i < |r.calls| ==> !r.calls[i].DecryptCall?
  {
    var timestamp := env.nowMs / 1000;
    var nonce := CryptoUtils.GenerateNonce(env.draws);
    var plaintext := env.stringify(body);
    var encryptCall := EncryptCall(plaintext, key);
    match CryptoUtils.Encrypt(env.provider, plaintext, key)
    case Err(m) => SealFailed(Thrown("Error", m), [encryptCall])
    case Ok(ciphertext) =>
      var signCall := SignCall(ciphertext, timestamp, key);
      match CryptoUtils.Sign(env.provider, ciphertext, timestamp, key)
      case Err(m) => SealFailed(Thrown("Error", m), [encryptCall, signCall])
      case Ok(signature) =>
        Sealed(base.(data := Some(Envelope(ciphertext, timestamp, signature, nonce))), [encryptCall, signCall])
  }

  /** Encryption comes first and receives the serialised body; signing
      happens only after a successful encryption and receives exactly its
      ciphertext and the timestamp in seconds; on success the body is
      replaced by the envelope and nothing else of the config changes. */
  lemma SealOrder(base: RequestConfig, body: Json, key: string, env: Env)
    ensures var r := Seal(base, body, key, env);
      && 1 <= |r.calls| <= 2
      && r.calls[0] == EncryptCall(env.stringify(body), key)
      && (|r.calls| == 2 <==> CryptoUtils.Encrypt(env.provider, env.stringify(body), key).Ok?)
      && (|r.calls| == 2 ==>
            r.calls[1] == SignCall(CryptoUtils.Encrypt(env.provider, env.stringify(body), key).value, env.nowMs / 1000, key))
      && (r.Sealed? ==>
            |r.calls| == 2
            && CryptoUtils.Sign(env.provider, r.calls[1].data, env.nowMs / 1000, key).Ok?
            && r.config == base.(data := Some(Envelope(r.calls[1].data, env.nowMs / 1000,
                   CryptoUtils.Sign(env.provider, r.calls[1].data, env.nowMs / 1000, key).value,
                   CryptoUtils.GenerateNonce(env.draws)))))
  {
  }

  /** Without a provider the envelope cannot be built, and the request
      never goes out with the plaintext instead. */
  lemma SealWithoutProvider(base: RequestConfig, body: Json, key: string, env: Env)
    requires env.provider.None?
    ensures Seal(base, body, key, env) == SealFailed(Thrown("Error", CryptoUtils.Unavailable), [EncryptCall(env.stringify(body), key)])
  {
  }

  // ---------------------------------------------------------------------
  // Interceptor chains

  /** The request chain: interceptors run in registration order, each on
      the previous one's config; the first that rejects or returns nothing
      ends the chain. */
  function RequestChain(c: RequestConfig, fs: seq<RequestInterceptor>): (r: Result<RequestConfig, Failure>)
    ensures fs == [] ==> r == Ok(c)
    decreases |fs|
  {
    if |fs| == 0 then Ok(c)
    else match RequestChain(c, fs[..|fs| - 1])
      case Err(e) => Err(e)
      case Ok(prev) =>
        match fs[|fs| - 1](prev)
        case Ok(Some(next)) => Ok(next)
        case Ok(None) => Err(Thrown("Error", NoConfigReturned))
        case Err(e) => Err(e)
  }

  /** Once the request chain has failed, later interceptors change nothing. */
  lemma {:induction false} RequestChainStops(c: RequestConfig, fs: seq<RequestInterceptor>, k: nat)
    requires k <= |fs| && RequestChain(c, fs[..k]).Err?
    ensures RequestChain(c, fs) == RequestChain(c, fs[..k])
    decreases |fs| - k
  {
    if k < |fs| {
      assert fs[..k + 1][..k] == fs[..k];
      RequestChainStops(c, fs, k + 1);
    } else {
      assert fs[..k] == fs;
    }
  }

  /** Registration order: the first interceptor sees the caller's config and
      the rest run on what it returned. */
  lemma {:induction false} RequestChainFirst(c: RequestConfig, f: RequestInterceptor, fs: seq<RequestInterceptor>)
    ensures RequestChain(c, [f] + fs) ==
      match f(c)
      case Ok(Some(next)) => RequestChain(next, fs)
      case Ok(None) => Err(Thrown("Error", NoConfigReturned))
      case Err(e) => Err(e)
    decreases |fs|
  {
    if |fs| == 0 {
      assert ([f] + fs)[..0] == [];
    } else {
      var all := [f] + fs;
      assert all[..|all| - 1] == [f] + fs[..|fs| - 1];
      assert all[|all| - 1] == fs[|fs| - 1];
      RequestChainFirst(c, f, fs[..|fs| - 1]);
    }
  }

  /** An interceptor that returns nothing fails the whole request chain with
      "Request interceptor returned undefined config". */
  lemma RequestChainNothing(c: RequestConfig, fs: seq<RequestInterceptor>, k: nat, ck: RequestConfig)
    requires k < |fs| && RequestChain(c, fs[..k]) == Ok(ck) && fs[k](ck) == Ok(None)
    ensures RequestChain(c, fs) == Err(Thrown("Error", NoConfigReturned))
  {
    assert fs[..k + 1][..k] == fs[..k];
    RequestChainStops(c, fs, k + 1);
  }

  /** The response and error chains: each function runs on the previous
      one's value; the first rejection ends the chain. */
  function Chain<T>(x: T, fs: seq<T -> Result<T, Failure>>): (r: Result<T, Failure>)
    ensures fs == [] ==> r == Ok(x)
    decreases |fs|
  {
    if |fs| == 0 then Ok(x)
    else match Chain(x, fs[..|fs| - 1])
      case Err(e) => Err(e)
      case Ok(prev) => fs[|fs| - 1](prev)
  }

  lemma {:induction false} ChainStops<T>(x: T, fs: seq<T -> Result<T, Failure>>, k: nat)
    requires k <= |fs| && Chain(x, fs[..k]).Err?
    ensures Chain(x, fs) == Chain(x, fs[..k])
    decreases |fs| - k
  {
    if k < |fs| {
      assert fs[..k + 1][..k] == fs[..k];
      ChainStops(x, fs, k + 1);
    } else {
      assert fs[..k] == fs;
    }
  }

  lemma {:induction false} ChainFirst<T>(x: T, f: T -> Result<T, Failure>, fs: seq<T -> Result<T, Failure>>)
    ensures Chain(x, [f] + fs) == match f(x) case Ok(y) => Chain(y, fs) case Err(e) => Err(e)
    decreases |fs|
  {
    if |fs| == 0 {
      assert ([f] + fs)[..0] == [];
    } else {
      var all := [f] + fs;
      assert all[..|all| - 1] == [f] + fs[..|fs| - 1];
      assert all[|all| - 1] == fs[|fs| - 1];
      ChainFirst(x, f, fs[..|fs| - 1]);
    }
  }

  /** `for (const interceptor of this.interceptors.request)` in `request`. */
  method RunRequestInterceptors(c: RequestConfig, fs: seq<RequestInterceptor>) returns (r: Result<RequestConfig, Failure>)
    ensures r == RequestChain(c, fs)
  {
    var config := c;
    var i := 0;
    while i < |fs|
      invariant 0 <= i <= |fs|
      invariant RequestChain(c, fs[..i]) == Ok(config)
    {
      assert fs[..i + 1][..i] == fs[..i];
      var step := fs[i](config);
      match step {
        case Ok(Some(next)) =>
          config := next;
        case Ok(None) =>
          RequestChainStops(c, fs, i + 1);
          return Err(Thrown("Error", NoConfigReturned));
        case Err(e) =>
          RequestChainStops(c, fs, i + 1);
          return Err(e);
      }
      i := i + 1;
    }
    assert fs[..i] == fs;
    return Ok(config);
  }

  /** The `for (const interceptor of ...)` loops over the response and the
      error interceptors in both transports. */
  method RunChain<T>(x: T, fs: seq<T -> Result<T, Failure>>) returns (r: Result<T, Failure>)
    ensures r == Chain(x, fs)
  {
    var current := x;
    var i := 0;
    while i < |fs|
      invariant 0 <= i <= |fs|
      invariant Chain(x, fs[..i]) == Ok(current)
    {
      assert fs[..i + 1][..i] == fs[..i];
      var step := fs[i](current);
      if step.Err? {
        ChainStops(x, fs, i + 1);
        return step;
      }
      current := step.value;
      i := i + 1;
    }
    assert fs[..i] == fs;
    return Ok(current);
  }

  // ---------------------------------------------------------------------
  // Header parsing

  /** One line of `getAllResponseHeaders()`: kept only when it splits into
      exactly two parts on ": ". */
  function HeaderLine(line: string): Option<(string, string)> {
    var parts := Split(line, ": ");
    if |parts| == 2 then Some((parts[0], parts[1])) else None
  }

  /** The header object built from `lines`, a later line overwriting an
      earlier one with the same name. */
  function HeadersOf(lines: seq<string>): Headers
    decreases |lines|
  {
    if |lines| == 0 then map[]
    else
      var m := HeadersOf(lines[..|lines| - 1]);
      match HeaderLine(lines[|lines| - 1])
      case None => m
      case Some((k, v)) => m[k := v]
  }

  /** What `_parseHeaders(text)` returns. */
  function ParsedHeaders(text: string): (h: Headers)
    ensures text == "" ==> h == map[]
  {
    if text == "" then map[] else HeadersOf(Split(text, "\r\n"))
  }

  /** `_parseHeaders`: split on CRLF and fill the object line by line. */
  method ParseHeaders(text: string) returns (headers: Headers)
    ensures headers == ParsedHeaders(text)
    ensures text == "" ==> headers == map[]
  {
    headers := map[];
    if text == "" {
      return;
    }
    var lines := Split(text, "\r\n");
    var i := 0;
    while i < |lines|
      invariant 0 <= i <= |lines|
      invariant headers == HeadersOf(lines[..i])
    {
      assert lines[..i + 1][..i] == lines[..i];
      var parts := Split(lines[i], ": ");
      if |parts| == 2 {
        headers := headers[parts[0] := parts[1]];
      }
      i := i + 1;
    }
    assert lines[..i] == lines;
  }

  /** Header line `line` sets the name `k`. */
  predicate SetsName(line: string, k: string) {
    HeaderLine(line).Some? && HeaderLine(line).value.0 == k
  }

  /** A name is present exactly when some line sets it. */
  lemma {:induction false} HeadersOfNames(lines: seq<string>, k: string)
    ensures k in HeadersOf(lines) <==> exists i :: 0 <= i < |lines| && SetsName(lines[i], k)
    decreases |lines|
  {
    if |lines| > 0 {
      var init := lines[..|lines| - 1];
      HeadersOfNames(init, k);
      forall i | 0 <= i < |init| ensures init[i] == lines[i] {}
      assert !SetsName(lines[|lines| - 1], k) ==> (k in HeadersOf(lines) <==> k in HeadersOf(init));
    }
  }

  /** The value of a present name comes from the last line that sets it. */
  lemma {:induction false} LastSetter(lines: seq<string>, k: string) returns (i: nat)
    requires k in HeadersOf(lines)
    ensures i < |lines| && HeaderLine(lines[i]) == Some((k, HeadersOf(lines)[k]))
    ensures forall j :: i < j < |lines| ==> !SetsName(lines[j], k)
    decreases |lines|
  {
    assert |lines| > 0;
    var init := lines[..|lines| - 1];
    var last := |lines| - 1;
    if SetsName(lines[last], k) {
      i := last;
      assert HeaderLine(lines[last]) == Some((k, HeadersOf(lines)[k]));
    } else {
      assert k in HeadersOf(init) && HeadersOf(lines)[k] == HeadersOf(init)[k];
      i := LastSetter(init, k);
      assert lines[i] == init[i];
      forall j | i < j < |lines| ensures !SetsName(lines[j], k) {
        if j < last {
          assert lines[j] == init[j];
        }
      }
    }
  }

  /** A name is present exactly when some line splits into that name and a
      value, and its value is the one of the last such line. */
  lemma HeadersOfOrigin(lines: seq<string>, k: string)
    ensures k in HeadersOf(lines) <==> exists i :: 0 <= i < |lines| && SetsName(lines[i], k)
    ensures k in HeadersOf(lines) ==>
      exists i :: (0 <= i < |lines| && HeaderLine(lines[i]) == Some((k, HeadersOf(lines)[k]))
                   && forall j :: i < j < |lines| ==> !SetsName(lines[j], k))
  {
    HeadersOfNames(lines, k);
    if k in HeadersOf(lines) {
      var i := LastSetter(lines, k);
      assert 0 <= i < |lines| && HeaderLine(lines[i]) == Some((k, HeadersOf(lines)[k]));
    }
  }

  /** The parsed names and values never contain ": " or CRLF. */
  lemma ParsedHeadersClean(text: string, k: string)
    requires k in ParsedHeaders(text)
    ensures !Contains(k, ": ") && !Contains(ParsedHeaders(text)[k], ": ")
    ensures !Contains(k, "\r\n") && !Contains(ParsedHeaders(text)[k], "\r\n")
  {
    var lines := Split(text, "\r\n");
    HeadersOfOrigin(lines, k);
    var i :| 0 <= i < |lines| && HeaderLine(lines[i]) == Some((k, ParsedHeaders(text)[k]));
    SplitPiecesAvoidSeparator(lines[i], ": ", 0);
    SplitPiecesAvoidSeparator(lines[i], ": ", 1);
    SplitPiecesAvoidSeparator(text, "\r\n", i);
    SplitPiecesAvoidOthers(lines[i], ": ", "\r\n", 0);
    SplitPiecesAvoidOthers(lines[i], ": ", "\r\n", 1);
  }

  // ---------------------------------------------------------------------
  // Transports

  /** What the platform's transport reports: both its header forms are
      given, `headerMap` for fetch's `Headers` object and `headerText` for
      `getAllResponseHeaders()`. */
  datatype RawResponse = RawResponse(
    status: int,
    statusText: string,
    text: string,
    headerMap: Headers,
    headerText: string)

  /** The transport's answer to one call: a response before the timeout,
      a network failure (with the platform's message), or silence until the
      timeout fires. */
  datatype TransportResult = Answered(raw: RawResponse) | Unreachable(reason: string) | Silent

  /** `response.ok` and `200 <= xhr.status < 300`. */
  predicate IsSuccessStatus(status: int) {
    200 <= status < 300
  }

  lemma StatusBoundaries()
    ensures IsSuccessStatus(200) && IsSuccessStatus(299)
    ensures !IsSuccessStatus(199) && !IsSuccessStatus(300) && !IsSuccessStatus(399) && !IsSuccessStatus(400)
  {
  }

  function StatusMessage(status: int): string {
    "Request failed with status " + IntToString(status)
  }

  /** The body as parsed JSON, or the raw text when it does not parse. */
  function Decode(text: string, parse: string -> Result<Json, string>): Body {
    match parse(text)
    case Ok(j) => Parsed(j)
    case Err(_) => RawText(text)
  }

  /** After the response chain: a success status resolves with the
      transformed response; any other status builds the response-bearing
      error from the transformed response and the raw status, and runs the
      error chain on it before rejecting. A rejection inside either chain
      rejects with that value. */
  function Classify(chained: Result<Response, Failure>, status: int, cfg: RequestConfig, errs: seq<ErrorInterceptor>): (o: Outcome)
    ensures o != Unsettled
    ensures o.Fulfilled? <==> chained.Ok? && IsSuccessStatus(status)
    ensures o.Fulfilled? ==> o.response == chained.value
  {
    match chained
    case Err(x) => Rejected(x)
    case Ok(result) =>
      if IsSuccessStatus(status) then Fulfilled(result)
      else match Chain(WithResponse(result, StatusMessage(status), cfg, None), errs)
        case Ok(e) => Rejected(e)
        case Err(x) => Rejected(x)
  }

  /** `_fetchRequest`. Without an AbortController no timer is set, so a
      silent transport leaves the call pending. */
  function FetchAdapter(c: Client, cfg: RequestConfig, env: Env, t: TransportResult): (o: Outcome)
    ensures o.Unsettled? <==> t.Silent? && !env.hasAbortController
    ensures o.Fulfilled? ==> t.Answered? && IsSuccessStatus(t.raw.status)
  {
    match t
    case Silent => if env.hasAbortController then Rejected(Thrown("AbortError", env.abortMessage)) else Unsettled
    case Unreachable(reason) => Rejected(Thrown("TypeError", reason))
    case Answered(raw) =>
      var initial := Response(Decode(raw.text, env.parse), raw.status, raw.statusText, raw.headerMap, cfg, None);
      Classify(Chain(initial, c.responseInterceptors), raw.status, cfg, c.errorInterceptors)
  }

  /** `_xhrRequest` with its interceptor rejections propagated, as the
      fetch transport does (see `XhrAdapterAsWritten`). */
  function XhrAdapter(c: Client, cfg: RequestConfig, env: Env, t: TransportResult): (o: Outcome)
    ensures o != Unsettled
    ensures o.Fulfilled? ==> t.Answered? && IsSuccessStatus(t.raw.status)
  {
    match t
    case Silent => Rejected(WithoutResponse(RequestTimeout, cfg, None))
    case Unreachable(_) => Rejected(WithoutResponse(NetworkError, cfg, None))
    case Answered(raw) =>
      var initial := Response(Decode(raw.text, env.parse), raw.status, raw.statusText, ParsedHeaders(raw.headerText), cfg, None);
      Classify(Chain(initial, c.responseInterceptors), raw.status, cfg, c.errorInterceptors)
  }

  /** `_xhrRequest` as written: the interceptors run inside the `onload`
      callback and inside a detached async function, so a rejection there
      never reaches `resolve` or `reject`, and the timer is already
      cleared: the call never settles. */
  function XhrAdapterAsWritten(c: Client, cfg: RequestConfig, env: Env, t: TransportResult): (o: Outcome)
    ensures o.Unsettled? ==> t.Answered?
    ensures o.Fulfilled? <==> XhrAdapter(c, cfg, env, t).Fulfilled?
  {
    match t
    case Silent => Rejected(WithoutResponse(RequestTimeout, cfg, None))
    case Unreachable(_) => Rejected(WithoutResponse(NetworkError, cfg, None))
    case Answered(raw) =>
      var initial := Response(Decode(raw.text, env.parse), raw.status, raw.statusText, ParsedHeaders(raw.headerText), cfg, None);
      match Chain(initial, c.responseInterceptors)
      case Err(_) => Unsettled
      case Ok(result) =>
        if IsSuccessStatus(raw.status) then Fulfilled(result)
        else match Chain(WithResponse(result, StatusMessage(raw.status), cfg, None), c.errorInterceptors)
          case Ok(e) => Rejected(e)
          case Err(_) => Unsettled
  }

  /** An error interceptor that rejects with the error it was given (as
      the monitoring error interceptor does) leaves an HTTP 404 answered
      over XMLHttpRequest pending forever. */
  lemma XhrRejectingErrorInterceptorHangs(cfg: RequestConfig, env: Env, raw: RawResponse)
    requires raw.status == 404
    ensures var c := Client(Configure(ClientOptions(None, None, None, None, None)), [], [], [(e: Failure) => Err(e)]);
      XhrAdapterAsWritten(c, cfg, env, Answered(raw)) == Unsettled
  {
    var c := Client(Configure(ClientOptions(None, None, None, None, None)), [], [], [(e: Failure) => Err(e)]);
    var initial := Response(Decode(raw.text, env.parse), raw.status, raw.statusText, ParsedHeaders(raw.headerText), cfg, None);
    assert Chain(initial, c.responseInterceptors) == Ok(initial);
    var err := WithResponse(initial, StatusMessage(404), cfg, None);
    assert c.errorInterceptors[..0] == [];
    assert Chain(err, c.errorInterceptors) == Err(err);
  }

  /** The corrected transport rejects in that case with the error, and in
      general settles whenever the transport answers or stays silent past
      the timeout. */
  lemma XhrAlwaysSettles(c: Client, cfg: RequestConfig, env: Env, t: TransportResult)
    ensures XhrAdapter(c, cfg, env, t) != Unsettled
    ensures t.Answered? && !IsSuccessStatus(t.raw.status) && c.errorInterceptors == [(e: Failure) => Err(e)]
      && Chain(Response(Decode(t.raw.text, env.parse), t.raw.status, t.raw.statusText, ParsedHeaders(t.raw.headerText), cfg, None), c.responseInterceptors).Ok?
      ==> XhrAdapter(c, cfg, env, t).Rejected? && XhrAdapter(c, cfg, env, t).failure.WithResponse?
  {
    if t.Answered? && !IsSuccessStatus(t.raw.status) && c.errorInterceptors == [(e: Failure) => Err(e)] {
      var initial := Response(Decode(t.raw.text, env.parse), t.raw.status, t.raw.statusText, ParsedHeaders(t.raw.headerText), cfg, None);
      var chained := Chain(initial, c.responseInterceptors);
      if chained.Ok? {
        var err := WithResponse(chained.value, StatusMessage(t.raw.status), cfg, None);
        assert c.errorInterceptors[..0] == [];
        assert Chain(err, c.errorInterceptors) == Err(err);
      }
    }
  }

  /** `_fetchRequest`: decode, run the response interceptors, classify, and
      run the error interceptors before rejecting. */
  method FetchRequest(c: Client, cfg: RequestConfig, env: Env, t: TransportResult) returns (o: Outcome)
    ensures o == FetchAdapter(c, cfg, env, t)
  {
    match t {
      case Silent =>
        o := if env.hasAbortController then Rejected(Thrown("AbortError", env.abortMessage)) else Unsettled;
      case Unreachable(reason) =>
        o := Rejected(Thrown("TypeError", reason));
      case Answered(raw) =>
        var initial := Response(Decode(raw.text, env.parse), raw.status, raw.statusText, raw.headerMap, cfg, None);
        var chained := RunChain(initial, c.responseInterceptors);
        o := Settle(chained, raw.status, cfg, c.errorInterceptors);
    }
  }

  /** `_xhrRequest`, with the header text parsed by `_parseHeaders`. */
  method XhrRequest(c: Client, cfg: RequestConfig, env: Env, t: TransportResult) returns (o: Outcome)
    ensures o == XhrAdapter(c, cfg, env, t)
  {
    match t {
      case Silent =>
        o := Rejected(WithoutResponse(RequestTimeout, cfg, None));
      case Unreachable(_) =>
        o := Rejected(WithoutResponse(NetworkError, cfg, None));
      case Answered(raw) =>
        var headers := ParseHeaders(raw.headerText);
        var initial := Response(Decode(raw.text, env.parse), raw.status, raw.statusText, headers, cfg, None);
        var chained := RunChain(initial, c.responseInterceptors);
        o := Settle(chained, raw.status, cfg, c.errorInterceptors);
    }
  }

  /** The status check and the error interceptor loop shared by both
      transports. */
  method Settle(chained: Result<Response, Failure>, status: int, cfg: RequestConfig, errs: seq<ErrorInterceptor>) returns (o: Outcome)
    ensures o == Classify(chained, status, cfg, errs)
  {
    if chained.Err? {
      return Rejected(chained.error);
    }
    var result := chained.value;
    if IsSuccessStatus(status) {
      return Fulfilled(result);
    }
    var error := WithResponse(result, StatusMessage(status), cfg, None);
    var observed := RunChain(error, errs);
    o := if observed.Ok? then Rejected(observed.value) else Rejected(observed.error);
  }

  // ---------------------------------------------------------------------
  // The request

  /** `throw error.response ? error : { message: error.message, config }`. */
  function Normalize(x: Failure, cfg: RequestConfig): (r: Failure)
    ensures r.WithResponse? || r.WithoutResponse?
    ensures r.message == x.message
    ensures x.WithResponse? ==> r == x
  {
    if x.WithResponse? then x else WithoutResponse(x.message, cfg, None)
  }

  /** The envelope field `result.data?.data`, when it is truthy. */
  function EnvelopeField(b: Body): Option<Json> {
    if b.Parsed? && b.json.JObject? && "data" in b.json.fields && Truthy(b.json.fields["data"])
    then Some(b.json.fields["data"]) else None
  }

  /** One request: its outcome, the config handed to the transport (if the
      transport was called), and the crypto calls made, in order. */
  datatype Run = Run(outcome: Outcome, sent: Option<RequestConfig>, calls: seq<CryptoCall>)

  function Adapt(c: Client, cfg: RequestConfig, env: Env, t: TransportResult): Outcome {
    if env.hasFetch then FetchAdapter(c, cfg, env, t) else XhrAdapter(c, cfg, env, t)
  }

  /** After the transport: reduce a rejection, or decrypt an enveloped
      response body when crypto is on. */
  function Finish(c: Client, cfg: RequestConfig, env: Env, adapted: Outcome, calls: seq<CryptoCall>): (r: Run)
    ensures r.sent == Some(cfg)
    ensures r.outcome.Unsettled? <==> adapted.Unsettled?
    ensures r.calls == calls || (adapted.Fulfilled? && |r.calls| == |calls| + 1 && r.calls[..|calls|] == calls)
  {
    match adapted
    case Unsettled => Run(Unsettled, Some(cfg), calls)
    case Rejected(x) => Run(Rejected(Normalize(x, cfg)), Some(cfg), calls)
    case Fulfilled(result) =>
      var field := EnvelopeField(result.data);
      if CryptoOn(c.settings) && field.Some? then
        var key := c.settings.cryptoKey.value;
        var calls' := calls + [DecryptCall(field.value, key)];
        match CryptoUtils.Decrypt(env.provider, field.value, key)
        case Err(m) => Run(Rejected(Normalize(Thrown("Error", m), cfg)), Some(cfg), calls')
        case Ok(text) =>
          match env.parse(text)
          case Err(m) => Run(Rejected(Normalize(Thrown("SyntaxError", m), cfg)), Some(cfg), calls')
          case Ok(j) => Run(Fulfilled(result.(data := Parsed(j))), Some(cfg), calls')
      else Run(Fulfilled(result), Some(cfg), calls)
  }

  /** The crypto condition of the request side: crypto on and a truthy body. */
  predicate SealsBody(s: Settings, o: RequestOptions) {
    CryptoOn(s) && o.data.Some? && Truthy(o.data.value)
  }

  /** The request side before the interceptors: the base config, sealed
      in the envelope when crypto is on and the body is truthy. */
  function SealStep(c: Client, o: RequestOptions, env: Env): (r: SealResult)
    requires o.url.Some?
    ensures !SealsBody(c.settings, o) ==> r == Sealed(BaseConfig(c.settings, o, o.url.value), [])
    ensures forall i :: 0 <= i < |r.calls| ==> !r.calls[i].DecryptCall?
  {
    var base := BaseConfig(c.settings, o, o.url.value);
    if SealsBody(c.settings, o) then Seal(base, o.data.value, c.settings.cryptoKey.value, env) else Sealed(base, [])
  }

  /** `request(config)` from start to end. */
  function Pipeline(c: Client, call: Option<RequestOptions>, env: Env, transport: RequestConfig -> TransportResult): (r: Run)
    ensures r.sent.None? ==> r.outcome.Rejected?
    ensures |r.calls| <= 3
  {
    if call.None? then Run(Rejected(Thrown("Error", ConfigRequired)), None, [])
    else if call.value.url.None? then Run(Rejected(Thrown("TypeError", UrlMissing)), None, [])
    else
      match SealStep(c, call.value, env)
      case SealFailed(e, calls) => Run(Rejected(e), None, calls)
      case Sealed(cfg, calls) =>
        match RequestChain(cfg, c.requestInterceptors)
        case Err(e) => Run(Rejected(e), None, calls)
        case Ok(final) => Finish(c, final, env, Adapt(c, final, env, transport(final)), calls)
  }

  /** `request(config)`. */
  method Request(c: Client, call: Option<RequestOptions>, env: Env, transport: RequestConfig -> TransportResult) returns (run: Run)
    ensures run == Pipeline(c, call, env, transport)
  {
    if call.None? {
      return Run(Rejected(Thrown("Error", ConfigRequired)), None, []);
    }
    var o := call.value;
    if o.url.None? {
      return Run(Rejected(Thrown("TypeError", UrlMissing)), None, []);
    }
    var requestConfig := BaseConfig(c.settings, o, o.url.value);
    var calls: seq<CryptoCall> := [];
    if SealsBody(c.settings, o) {
      var sealed := Seal(requestConfig, o.data.value, c.settings.cryptoKey.value, env);
      calls := sealed.calls;
      if sealed.SealFailed? {
        return Run(Rejected(sealed.error), None, calls);
      }
      requestConfig := sealed.config;
    }
    var chained := RunRequestInterceptors(requestConfig, c.requestInterceptors);
    if chained.Err? {
      return Run(Rejected(chained.error), None, calls);
    }
    requestConfig := chained.value;
    var adapted;
    if env.hasFetch {
      adapted := FetchRequest(c, requestConfig, env, transport(requestConfig));
    } else {
      adapted := XhrRequest(c, requestConfig, env, transport(requestConfig));
    }
    run := Finish(c, requestConfig, env, adapted, calls);
  }

  // ---------------------------------------------------------------------
  // Properties of a request

  /** A missing config is rejected before any other work. */
  lemma NullConfigRejected(c: Client, env: Env, transport: RequestConfig -> TransportResult)
    ensures Pipeline(c, None, env, transport) == Run(Rejected(Thrown("Error", ConfigRequired)), None, [])
  {
  }

  /** With crypto disabled, no crypto helper is ever called. */
  lemma NoCryptoWhenDisabled(c: Client, call: Option<RequestOptions>, env: Env, transport: RequestConfig -> TransportResult)
    requires !c.settings.enableCrypto
    ensures Pipeline(c, call, env, transport).calls == []
  {
  }

  /** With crypto on and a body present, the first crypto call is the
      encryption of the serialised body and the second (if any) the
      signature over its ciphertext; decryption never comes before them. */
  lemma EncryptBeforeSign(c: Client, o: RequestOptions, env: Env, transport: RequestConfig -> TransportResult)
    requires SealsBody(c.settings, o) && o.url.Some?
    ensures var calls := Pipeline(c, Some(o), env, transport).calls;
      && |calls| >= 1
      && calls[0] == EncryptCall(env.stringify(o.data.value), c.settings.cryptoKey.value)
      && (|calls| >= 2 ==>
            (calls[1].SignCall? && calls[1].timestamp == env.nowMs / 1000
             && Ok(calls[1].data) == CryptoUtils.Encrypt(env.provider, env.stringify(o.data.value), c.settings.cryptoKey.value)))
  {
    var base := BaseConfig(c.settings, o, o.url.value);
    SealOrder(base, o.data.value, c.settings.cryptoKey.value, env);
  }

  /** The first request interceptor sees the envelope in place of the body:
      the config entering the chain is the base config with `data` replaced. */
  lemma InterceptorsSeeEnvelope(c: Client, o: RequestOptions, env: Env, transport: RequestConfig -> TransportResult)
    requires SealsBody(c.settings, o) && o.url.Some? && env.provider.Some?
    requires env.provider.value.encrypt(env.stringify(o.data.value), c.settings.cryptoKey.value).Ok?
    requires env.provider.value.sign(env.provider.value.encrypt(env.stringify(o.data.value), c.settings.cryptoKey.value).value,
                                     env.nowMs / 1000, c.settings.cryptoKey.value).Ok?
    ensures var sealed := Seal(BaseConfig(c.settings, o, o.url.value), o.data.value, c.settings.cryptoKey.value, env);
      && sealed.config.data.Some? && sealed.config.data.value.JObject?
      && sealed.config.data.value.fields.Keys == {"data", "timestamp", "signature", "nonce"}
      && sealed.config.data.value.fields["timestamp"] == JNumber(env.nowMs / 1000)
      && sealed.config.data.value.fields["nonce"] == JString(CryptoUtils.GenerateNonce(env.draws))
      && (c.requestInterceptors == [] ==> Pipeline(c, Some(o), env, transport).sent == Some(sealed.config))
  {
    SealOrder(BaseConfig(c.settings, o, o.url.value), o.data.value, c.settings.cryptoKey.value, env);
  }

  /** A failing request interceptor, or a failing envelope, stops the
      request before the transport is called. */
  lemma FailureBeforeTransport(c: Client, o: RequestOptions, env: Env, transport: RequestConfig -> TransportResult)
    requires o.url.Some?
    ensures var sealed := SealStep(c, o, env);
      (sealed.SealFailed? || RequestChain(sealed.config, c.requestInterceptors).Err?) ==>
        var run := Pipeline(c, Some(o), env, transport);
        run.sent.None? && run.outcome.Rejected?
  {
  }

  /** Without request interceptors and without an envelope, the transport
      receives the resolved URL, the normalised method, the merged headers
      and the caller's body. */
  lemma SentConfig(c: Client, o: RequestOptions, env: Env, transport: RequestConfig -> TransportResult)
    requires o.url.Some? && c.requestInterceptors == [] && !SealsBody(c.settings, o)
    ensures Pipeline(c, Some(o), env, transport).sent ==
      Some(RequestConfig(BuildURL(c.settings.baseURL, o.url.value), NormalizeMethod(o.httpMethod),
                         c.settings.headers + o.headers.GetOr(map[]), o.data, None, None))
  {
    var base := BaseConfig(c.settings, o, o.url.value);
    assert RequestChain(base, []) == Ok(base);
    var run := Pipeline(c, Some(o), env, transport);
    assert run == Finish(c, base, env, Adapt(c, base, env, transport(base)), []);
  }

  /** `get('/users')` on a client with base URL https://api.example.com
      reaches the transport as a GET of https://api.example.com/users. */
  lemma GetUsersScenario(env: Env, transport: RequestConfig -> TransportResult)
    ensures var c := NewClient(ClientOptions(Some("https://api.example.com"), None, None, None, None));
      Pipeline(c, Some(Get("/users", NoOptions)), env, transport).sent ==
        Some(RequestConfig("https://api.example.com/users", "GET", map[], None, None, None))
  {
    var c := NewClient(ClientOptions(Some("https://api.example.com"), None, None, None, None));
    var o := Get("/users", NoOptions);
    assert o.url == Some("/users") && o.httpMethod == Some("GET") && o.headers == None && o.data == None;
    assert c.settings.baseURL == "https://api.example.com" && c.settings.headers == map[] && !c.settings.enableCrypto;
    NotPrefixAt("http", "/users", 0);
    assert BuildURL(c.settings.baseURL, "/users") == "https://api.example.com/users";
    UpperIdentity("GET");
    assert NormalizeMethod(Some("GET")) == "GET";
    assert c.settings.headers + map[] == map[];
    SentConfig(c, o, env, transport);
  }

  /** A method already in upper case reaches the transport unchanged,
      with the caller's URL resolved and the caller's body. */
  lemma MethodSent(c: Client, o: RequestOptions, m: string, env: Env, transport: RequestConfig -> TransportResult)
    requires o.url.Some? && o.httpMethod == Some(m) && m != ""
    requires forall i :: 0 <= i < |m| ==> !('a' <= m[i] <= 'z')
    requires c.requestInterceptors == [] && !c.settings.enableCrypto
    ensures var sent := Pipeline(c, Some(o), env, transport).sent;
      sent.Some? && sent.value.httpMethod == m && sent.value.data == o.data
      && sent.value.url == BuildURL(c.settings.baseURL, o.url.value)
  {
    SentConfig(c, o, env, transport);
    UpperIdentity(m);
  }

  /** The five verb helpers. */
  datatype Verb = GetVerb | PostVerb | PutVerb | DeleteVerb | PatchVerb

  function VerbName(v: Verb): string {
    match v
    case GetVerb => "GET"
    case PostVerb => "POST"
    case PutVerb => "PUT"
    case DeleteVerb => "DELETE"
    case PatchVerb => "PATCH"
  }

  /** The options a verb helper passes to `request`. */
  function VerbCall(v: Verb, url: string, data: Option<Json>, o: RequestOptions): RequestOptions {
    match v
    case GetVerb => Get(url, o)
    case PostVerb => Post(url, data, o)
    case PutVerb => Put(url, data, o)
    case DeleteVerb => Delete(url, o)
    case PatchVerb => Patch(url, data, o)
  }

  /** Each verb helper sends its own method and the resolved URL; POST, PUT
      and PATCH send the given body, while GET and DELETE keep a body given
      in the config. */
  lemma VerbsSendTheirMethod(c: Client, v: Verb, url: string, data: Option<Json>, o: RequestOptions, env: Env, transport: RequestConfig -> TransportResult)
    requires c.requestInterceptors == [] && !c.settings.enableCrypto
    ensures var sent := Pipeline(c, Some(VerbCall(v, url, data, o)), env, transport).sent;
      && sent.Some? && sent.value.httpMethod == VerbName(v)
      && sent.value.url == BuildURL(c.settings.baseURL, url)
      && sent.value.data == (if v == GetVerb || v == DeleteVerb then o.data else data)
  {
    var call := VerbCall(v, url, data, o);
    assert call.httpMethod == Some(VerbName(v));
    MethodSent(c, call, VerbName(v), env, transport);
  }

  /** An error interceptor that resolves or rejects with the very error it
      was given (as the monitoring error interceptor does) only observes it. */
  predicate Observes(f: ErrorInterceptor, e: Failure) {
    f(e) == Ok(e) || f(e) == Err(e)
  }

  /** A chain of observing error interceptors ends with the error it
      started from, resolved or rejected. */
  lemma {:induction false} ObservingChainKeepsError(e: Failure, fs: seq<ErrorInterceptor>)
    requires forall i :: 0 <= i < |fs| ==> Observes(fs[i], e)
    ensures Chain(e, fs) == Ok(e) || Chain(e, fs) == Err(e)
    decreases |fs|
  {
    if |fs| > 0 {
      ObservingChainKeepsError(e, fs[..|fs| - 1]);
      assert Observes(fs[|fs| - 1], e);
    }
  }

  /** An answered call with a failing status, whose response interceptors
      all resolve, builds "Request failed with status N" from the
      transformed response and the final config, runs every error
      interceptor on it, and only then rejects with what the error chain
      ended with (resolved or rejected). When every error interceptor only
      observes the error, the caller receives that very error. */
  lemma StatusFailureCarriesResponse(c: Client, o: RequestOptions, env: Env, transport: RequestConfig -> TransportResult, final: RequestConfig, raw: RawResponse, result: Response)
    requires o.url.Some? && SealStep(c, o, env).Sealed?
    requires RequestChain(SealStep(c, o, env).config, c.requestInterceptors) == Ok(final)
    requires transport(final) == Answered(raw) && !IsSuccessStatus(raw.status)
    requires Chain(Response(Decode(raw.text, env.parse), raw.status, raw.statusText,
                            if env.hasFetch then raw.headerMap else ParsedHeaders(raw.headerText), final, None),
                   c.responseInterceptors) == Ok(result)
    ensures var err := WithResponse(result, StatusMessage(raw.status), final, None);
      var observed := Chain(err, c.errorInterceptors);
      Pipeline(c, Some(o), env, transport).outcome ==
        Rejected(Normalize(if observed.Ok? then observed.value else observed.error, final))
    ensures var err := WithResponse(result, StatusMessage(raw.status), final, None);
      (forall i :: 0 <= i < |c.errorInterceptors| ==> Observes(c.errorInterceptors[i], err)) ==>
        Pipeline(c, Some(o), env, transport).outcome == Rejected(err)
  {
    var err := WithResponse(result, StatusMessage(raw.status), final, None);
    if forall i :: 0 <= i < |c.errorInterceptors| ==> Observes(c.errorInterceptors[i], err) {
      ObservingChainKeepsError(err, c.errorInterceptors);
    }
  }

  /** A timed-out or unreachable call never rejects with a response: it
      rejects with `{message, config}` or, over fetch without an
      AbortController, stays pending. Over XMLHttpRequest the messages are
      "Request timeout" and "Network error". This holds whether or not the
      body was sealed into an envelope first. */
  lemma TransportFailureHasNoResponse(c: Client, o: RequestOptions, env: Env, transport: RequestConfig -> TransportResult, final: RequestConfig)
    requires o.url.Some? && SealStep(c, o, env).Sealed?
    requires RequestChain(SealStep(c, o, env).config, c.requestInterceptors) == Ok(final)
    requires !transport(final).Answered?
    ensures var out := Pipeline(c, Some(o), env, transport).outcome;
      && (out.Rejected? ==> out.failure.WithoutResponse? && out.failure.config == final)
      && (out.Unsettled? <==> env.hasFetch && !env.hasAbortController && transport(final).Silent?)
      && (!env.hasFetch && transport(final).Silent? ==> out == Rejected(WithoutResponse(RequestTimeout, final, None)))
      && (!env.hasFetch && transport(final).Unreachable? ==> out == Rejected(WithoutResponse(NetworkError, final, None)))
  {
    var sealed := SealStep(c, o, env);
    var adapted := Adapt(c, final, env, transport(final));
    assert Pipeline(c, Some(o), env, transport) == Finish(c, final, env, adapted, sealed.calls);
  }

  /** After the transport, a rejection is never a bare thrown error, and a
      response-bearing rejection adds no crypto call. */
  lemma FinishShapes(c: Client, cfg: RequestConfig, env: Env, adapted: Outcome, calls: seq<CryptoCall>)
    ensures var run := Finish(c, cfg, env, adapted, calls);
      run.outcome.Rejected? ==> !run.outcome.failure.Thrown?
    ensures var run := Finish(c, cfg, env, adapted, calls);
      run.outcome.Rejected? && run.outcome.failure.WithResponse? ==> run.calls == calls
  {
    var run := Finish(c, cfg, env, adapted, calls);
    if adapted.Fulfilled? {
      var field := EnvelopeField(adapted.response.data);
      if CryptoOn(c.settings) && field.Some? {
        assert run.outcome.Fulfilled? || run.outcome.failure.WithoutResponse?;
      } else {
        assert run.outcome.Fulfilled?;
      }
    } else {
      assert run.calls == calls;
    }
  }

  /** Every rejection after the transport has one of the two documented
      shapes, and a response-bearing rejection never follows a decryption. */
  lemma RejectionShapes(c: Client, call: Option<RequestOptions>, env: Env, transport: RequestConfig -> TransportResult)
    ensures var run := Pipeline(c, call, env, transport);
      run.sent.Some? && run.outcome.Rejected? ==> !run.outcome.failure.Thrown?
    ensures var run := Pipeline(c, call, env, transport);
      run.outcome.Rejected? && run.outcome.failure.WithResponse? ==> forall i :: 0 <= i < |run.calls| ==> !run.calls[i].DecryptCall?
  {
    var run := Pipeline(c, call, env, transport);
    if call.Some? && call.value.url.Some? {
      var sealed := SealStep(c, call.value, env);
      if sealed.Sealed? && RequestChain(sealed.config, c.requestInterceptors).Ok? {
        var final := RequestChain(sealed.config, c.requestInterceptors).value;
        var adapted := Adapt(c, final, env, transport(final));
        assert run == Finish(c, final, env, adapted, sealed.calls);
        FinishShapes(c, final, env, adapted, sealed.calls);
      }
    }
  }

  /** The response is decrypted exactly when the transport fulfilled the
      call and, with crypto on, its body carries a truthy `data` field. */
  predicate DecryptsResponse(c: Client, call: Option<RequestOptions>, env: Env, transport: RequestConfig -> TransportResult) {
    && call.Some? && call.value.url.Some?
    && SealStep(c, call.value, env).Sealed?
    && RequestChain(SealStep(c, call.value, env).config, c.requestInterceptors).Ok?
    && var final := RequestChain(SealStep(c, call.value, env).config, c.requestInterceptors).value;
       && Adapt(c, final, env, transport(final)).Fulfilled?
       && CryptoOn(c.settings)
       && EnvelopeField(Adapt(c, final, env, transport(final)).response.data).Some?
  }

  /** A decrypt call is made exactly on a fulfilled, enveloped answer with
      crypto on, and then it is the single call after the sealing calls;
      a rejected or pending call never decrypts. */
  lemma DecryptOnlyOnEnvelope(c: Client, call: Option<RequestOptions>, env: Env, transport: RequestConfig -> TransportResult)
    ensures var run := Pipeline(c, call, env, transport);
      (exists i :: 0 <= i < |run.calls| && run.calls[i].DecryptCall?) <==> DecryptsResponse(c, call, env, transport)
    ensures DecryptsResponse(c, call, env, transport) ==>
      var final := RequestChain(SealStep(c, call.value, env).config, c.requestInterceptors).value;
      var field := EnvelopeField(Adapt(c, final, env, transport(final)).response.data).value;
      Pipeline(c, call, env, transport).calls == SealStep(c, call.value, env).calls + [DecryptCall(field, c.settings.cryptoKey.value)]
  {
    var run := Pipeline(c, call, env, transport);
    if call.Some? && call.value.url.Some? {
      var sealed := SealStep(c, call.value, env);
      if sealed.Sealed? && RequestChain(sealed.config, c.requestInterceptors).Ok? {
        var final := RequestChain(sealed.config, c.requestInterceptors).value;
        var adapted := Adapt(c, final, env, transport(final));
        assert run == Finish(c, final, env, adapted, sealed.calls);
        if DecryptsResponse(c, call, env, transport) {
          var field := EnvelopeField(adapted.response.data).value;
          assert run.calls == sealed.calls + [DecryptCall(field, c.settings.cryptoKey.value)];
          assert run.calls[|sealed.calls|].DecryptCall?;
        } else {
          assert run.calls == sealed.calls;
        }
      }
    }
  }
}
