/** Request: the descriptor of one HTTP call and how it becomes a wire request. */
module Request {
  import opened Wrappers
  import opened Bytes
  import opened Wire
  import opened Errors
  import opened HttpMethod
  import opened Authentication
  import opened Multipart

  datatype ContentType = Json | MultipartForm(fields: seq<MultipartDataField>)

  /** A request whose JSON body, if any, has type B. Dictionaries (query, headers) are
      sequences of pairs in their iteration order. */
  datatype Request<B> = Request(
    httpMethod: Method,
    baseURL: Option<Url>,
    path: string,
    absoluteURL: Option<Url>,
    contentType: ContentType,
    query: Option<seq<(string, string)>>,
    headers: Option<seq<(string, string)>>,
    body: Option<B>,
    timeoutInterval: Option<TimeInterval>,
    cachePolicy: CachePolicy,
    authenticationPolicy: AuthenticationPolicy)

  /** What URLComponents holds: the URL without its query, and the query items. */
  datatype UrlComponents = UrlComponents(rest: string, queryItems: Option<seq<(string, string)>>)

  /** The Foundation services the request layer relies on, as functions: appending a path
      to a URL, parsing a URL into components (None when it fails), assembling components
      back into a URL (None when it fails), the request JSON encoder (None when it throws),
      and the UUID string drawn for the multipart builder of the n-th build in a call. */
  datatype Foundation<!B> = Foundation(
    appendPath: (Url, string) -> Url,
    components: Url -> Option<UrlComponents>,
    assemble: UrlComponents -> Option<Url>,
    encode: B -> Option<Bytes>,
    uuid: nat -> string)

  /** Why a wire request could not be built. */
  datatype BuildError =
    | RequestFailed(error: RequestError)
    | AuthenticationFailed(fault: ExternalFault)
    | EncodingFailed

  const DefaultTimeoutInterval: TimeInterval := 30.0

  /** Exactly one of the two URL sources is in use. */
  predicate OneUrlSource<B>(r: Request<B>) {
    r.absoluteURL.Some? ==> r.baseURL.None? && r.path == ""
  }

  /** The public initialiser: a path relative to a base URL, no absolute URL. The Swift
      default base URL, `APIClient.configuration.baseURL`, is global configuration; here the
      caller passes the base URL it stands for. */
  function PathRequest<B>(
    m: Method, baseURL: Option<Url>, path: string, contentType: ContentType,
    query: Option<seq<(string, string)>> := None, headers: Option<seq<(string, string)>> := None,
    body: Option<B> := None, timeoutInterval: Option<TimeInterval> := Some(DefaultTimeoutInterval),
    cachePolicy: CachePolicy := ReloadIgnoringLocalAndRemoteCacheData,
    authenticationPolicy: AuthenticationPolicy := NoAuthentication()
  ): (r: Request<B>)
    ensures r.absoluteURL.None? && r.baseURL == baseURL && r.path == path
    ensures OneUrlSource(r)
  {
    Request(m, baseURL, path, None, contentType, query, headers, body, timeoutInterval, cachePolicy, authenticationPolicy)
  }

  /** The internal initialiser: an absolute URL, no base URL and an empty path. */
  function AbsoluteRequest<B>(
    m: Method, absoluteURL: Url, contentType: ContentType,
    query: Option<seq<(string, string)>> := None, headers: Option<seq<(string, string)>> := None,
    body: Option<B> := None, timeoutInterval: Option<TimeInterval> := Some(DefaultTimeoutInterval),
    cachePolicy: CachePolicy := ReloadIgnoringLocalAndRemoteCacheData,
    authenticationPolicy: AuthenticationPolicy := NoAuthentication()
  ): (r: Request<B>)
    ensures r.absoluteURL == Some(absoluteURL) && r.baseURL.None? && r.path == ""
    ensures OneUrlSource(r)
  {
    Request(m, None, "", Some(absoluteURL), contentType, query, headers, body, timeoutInterval, cachePolicy, authenticationPolicy)
  }

  /** The components handed to assembly: the query items replace the parsed ones only when
      a non-empty query was given. */
  function WithQuery(c: UrlComponents, query: Option<seq<(string, string)>>): (r: UrlComponents)
    ensures r.rest == c.rest
    ensures query.Some? && |query.value| > 0 ==> r.queryItems == query
    ensures !(query.Some? && |query.value| > 0) ==> r == c
  {
    if query.Some? && |query.value| > 0 then c.(queryItems := query) else c
  }

  /** `buildURL()`. */
  function BuildUrl<B>(req: Request<B>, env: Foundation<B>): (r: Result<Url, BuildError>)
    ensures r.Failure? ==> r.error == RequestFailed(MissingBaseURL) || r.error == RequestFailed(InvalidURL)
    ensures req.baseURL.None? ==> r == Failure(RequestFailed(MissingBaseURL))
  {
    match req.baseURL
    case None => Failure(RequestFailed(MissingBaseURL))
    case Some(base) =>
      match env.components(env.appendPath(base, req.path))
      case None => Failure(RequestFailed(InvalidURL))
      case Some(c) =>
        match env.assemble(WithQuery(c, req.query))
        case None => Failure(RequestFailed(InvalidURL))
        case Some(url) => Success(url)
  }

  /** The URL of the request: the absolute URL verbatim, else the built one. */
  function ResolveUrl<B>(req: Request<B>, env: Foundation<B>): (r: Result<Url, BuildError>)
    ensures req.absoluteURL.Some? ==> r == Success(req.absoluteURL.value)
    ensures r.Failure? ==> req.absoluteURL.None? && r.error.RequestFailed?
  {
    if req.absoluteURL.Some? then Success(req.absoluteURL.value) else BuildUrl(req, env)
  }

  /** The first JSON-branch request: the URL, the cache policy and the method. */
  function JsonInitial<B>(req: Request<B>, url: Url): WireRequest {
    NewWireRequest(url).(cachePolicy := req.cachePolicy, httpMethod := RawValue(req.httpMethod))
  }

  /** The JSON-branch request after authentication, the body and the two header defaults,
      before the caller's headers are merged. */
  function JsonPrepared<B>(req: Request<B>, url: Url, env: Foundation<B>, round: nat): Result<WireRequest, BuildError> {
    match Authenticate(req.authenticationPolicy.provider, round, JsonInitial(req, url))
    case Failure(f) => Failure(AuthenticationFailed(f))
    case Success(w1) =>
      if req.body.Some? && env.encode(req.body.value).None? then Failure(EncodingFailed)
      else
        var w2 :=
          if req.body.None? then w1
          else
            var wb := w1.(body := env.encode(req.body.value));
            if HeaderValue(wb.headers, "Content-Type") == None
            then wb.(headers := SetHeader(wb.headers, "Content-Type", "application/json"))
            else wb;
        Success(
          if HeaderValue(w2.headers, "Accept") == None
          then w2.(headers := SetHeader(w2.headers, "Accept", "application/json"))
          else w2)
  }

  /** The request `asURLRequest(url:)` builds in the JSON branch. */
  function JsonRequest<B>(req: Request<B>, url: Url, env: Foundation<B>, round: nat): (r: Result<WireRequest, BuildError>)
    ensures r.Failure? ==> r.error.AuthenticationFailed? || (r.error.EncodingFailed? && req.body.Some?)
    ensures r.Failure? && r.error.AuthenticationFailed? ==>
              Authenticate(req.authenticationPolicy.provider, round, JsonInitial(req, url)) == Failure(r.error.fault)
  {
    match JsonPrepared(req, url, env, round)
    case Failure(e) => Failure(e)
    case Success(w3) =>
      var w4 := w3.(headers := MergedHeaders(w3.headers, req.headers.GetOr([])));
      Success(if req.timeoutInterval.Some? then w4.(timeout := req.timeoutInterval.value) else w4)
  }

  /** The request `asURLRequest()` builds in round `round` of a client call. The multipart
      branch hands the builder neither the request's authentication policy nor any other,
      so the builder runs with `AuthenticationPolicy.none`. */
  function WireRequestSpec<B>(req: Request<B>, env: Foundation<B>, round: nat): (r: Result<WireRequest, BuildError>)
    ensures r.Failure? && r.error.RequestFailed? ==> req.absoluteURL.None?
    ensures r.Failure? && r.error.EncodingFailed? ==> req.contentType.Json? && req.body.Some?
    ensures req.contentType.MultipartForm? ==> (r.Success? <==> ResolveUrl(req, env).Success?)
  {
    match ResolveUrl(req, env)
    case Failure(e) => Failure(e)
    case Success(url) =>
      match req.contentType
      case Json => JsonRequest(req, url, env, round)
      case MultipartForm(fields) => MultipartFormRequest(req, url, fields, env, round)
  }

  /** The multipart branch: every field added to a fresh builder, then its request. */
  function MultipartFormRequest<B>(req: Request<B>, url: Url, fields: seq<MultipartDataField>, env: Foundation<B>, round: nat)
    : (r: Result<WireRequest, BuildError>)
    ensures r.Success? && r.value.url == url && r.value.httpMethod == RawValue(req.httpMethod)
  {
    var b := BoundaryFor(env.uuid(round));
    match MultipartRequest(b, FieldsBytes(b, fields), url, req.httpMethod, req.headers,
                           req.cachePolicy, req.timeoutInterval, NoAuthentication(), round)
    case Failure(f) => Failure(AuthenticationFailed(f))
    case Success(w) => Success(w)
  }

  /** `asURLRequest(url:)`: the JSON request assembled step by step. */
  method JsonUrlRequest<B>(req: Request<B>, url: Url, env: Foundation<B>, round: nat) returns (r: Result<WireRequest, BuildError>)
    ensures r == JsonRequest(req, url, env, round)
  {
    var w := NewWireRequest(url);
    w := w.(cachePolicy := req.cachePolicy);
    w := w.(httpMethod := RawValue(req.httpMethod));
    var authenticated := Authenticate(req.authenticationPolicy.provider, round, w);
    if authenticated.Failure? {
      return Failure(AuthenticationFailed(authenticated.error));
    }
    w := authenticated.value;
    if req.body.Some? {
      var encoded := env.encode(req.body.value);
      if encoded.None? {
        return Failure(EncodingFailed);
      }
      w := w.(body := encoded);
      if HeaderValue(w.headers, "Content-Type") == None {
        w := w.(headers := SetHeader(w.headers, "Content-Type", "application/json"));
      }
    }
    if HeaderValue(w.headers, "Accept") == None {
      w := w.(headers := SetHeader(w.headers, "Accept", "application/json"));
    }
    w := MergeHeaders(w, req.headers);
    if req.timeoutInterval.Some? {
      w := w.(timeout := req.timeoutInterval.value);
    }
    r := Success(w);
  }

  /** `asURLRequest()`: resolve the URL, then build the JSON request, or add the fields to a
      fresh multipart builder one by one and let it build the request. */
  method AsUrlRequest<B>(req: Request<B>, env: Foundation<B>, round: nat) returns (r: Result<WireRequest, BuildError>)
    ensures r == WireRequestSpec(req, env, round)
  {
    var resolved := ResolveUrl(req, env);
    if resolved.Failure? {
      return Failure(resolved.error);
    }
    var url := resolved.value;
    match req.contentType {
      case Json =>
        r := JsonUrlRequest(req, url, env, round);
      case MultipartForm(fields) =>
        r := MultipartUrlRequest(req, url, fields, env, round);
    }
  }

  /** The multipart branch of `asURLRequest()`. */
  method MultipartUrlRequest<B>(req: Request<B>, url: Url, fields: seq<MultipartDataField>, env: Foundation<B>, round: nat)
    returns (r: Result<WireRequest, BuildError>)
    ensures r == MultipartFormRequest(req, url, fields, env, round)
  {
    var multipartData := new MultipartData(env.uuid(round));
    for i := 0 to |fields|
      invariant fresh(multipartData.httpBody)
      invariant multipartData.httpBody.bytes == FieldsBytes(multipartData.boundary, fields[..i])
    {
      assert fields[..i + 1][..i] == fields[..i];
      multipartData.AddDataField(fields[i]);
    }
    assert fields[..|fields|] == fields;
    var built := multipartData.AsURLRequest(url, req.httpMethod, req.headers, req.cachePolicy,
                                            req.timeoutInterval, NoAuthentication(), round);
    match built {
      case Success(w) => r := Success(w);
      case Failure(f) => r := Failure(AuthenticationFailed(f));
    }
  }

  /** An absolute URL is used as given: the base URL, the path and the query play no part
      in the request that is built. */
  lemma AbsoluteUrlUsedVerbatim<B>(req: Request<B>, env: Foundation<B>, round: nat,
                                   baseURL: Option<Url>, path: string, query: Option<seq<(string, string)>>)
    requires req.absoluteURL.Some?
    ensures ResolveUrl(req, env) == Success(req.absoluteURL.value)
    ensures WireRequestSpec(req.(baseURL := baseURL, path := path, query := query), env, round)
            == WireRequestSpec(req, env, round)
  {
  }

  /** `buildURL()` fails with `missingBaseURL` exactly when there is no base URL, with
      `invalidURL` exactly when parsing or reassembly fails, and otherwise gives the
      reassembled URL. */
  lemma BuildUrlOutcomes<B>(req: Request<B>, env: Foundation<B>)
    ensures BuildUrl(req, env) == Failure(RequestFailed(MissingBaseURL)) <==> req.baseURL.None?
    ensures BuildUrl(req, env) == Failure(RequestFailed(InvalidURL))
            <==> req.baseURL.Some? &&
                 (env.components(env.appendPath(req.baseURL.value, req.path)).None? ||
                  env.assemble(WithQuery(env.components(env.appendPath(req.baseURL.value, req.path)).value, req.query)).None?)
    ensures BuildUrl(req, env).Success? ==>
              BuildUrl(req, env).value
              == env.assemble(WithQuery(env.components(env.appendPath(req.baseURL.value, req.path)).value, req.query)).value
  {
  }

  /** A missing or empty query leaves the URL as parsed. */
  lemma EmptyQueryIsNoQuery<B>(req: Request<B>, env: Foundation<B>)
    requires req.query.None? || req.query.value == []
    ensures BuildUrl(req, env) == BuildUrl(req.(query := None), env)
  {
  }

  /** The JSON request keeps every header the provider set: neither the defaults nor the
      caller's headers replace one. */
  lemma JsonKeepsAuthenticationHeaders<B>(req: Request<B>, url: Url, env: Foundation<B>, round: nat)
    requires JsonRequest(req, url, env, round).Success?
    ensures Authenticate(req.authenticationPolicy.provider, round, JsonInitial(req, url)).Success?
    ensures var w1 := Authenticate(req.authenticationPolicy.provider, round, JsonInitial(req, url)).value;
            var r := JsonRequest(req, url, env, round).value;
            forall k :: k in w1.headers ==> k in r.headers && r.headers[k] == w1.headers[k]
  {
    var w1 := Authenticate(req.authenticationPolicy.provider, round, JsonInitial(req, url)).value;
    var w3 := JsonPrepared(req, url, env, round).value;
    assert forall k :: k in w1.headers ==> k in w3.headers && w3.headers[k] == w1.headers[k];
  }

  /** `Accept` is the provider's, else `application/json`; with a body, `Content-Type` is
      the provider's, else `application/json`. The caller's headers change neither. The
      body is the encoded request body when there is one. */
  lemma JsonHeaderDefaults<B>(req: Request<B>, url: Url, env: Foundation<B>, round: nat)
    requires JsonRequest(req, url, env, round).Success?
    ensures Authenticate(req.authenticationPolicy.provider, round, JsonInitial(req, url)).Success?
    ensures var w1 := Authenticate(req.authenticationPolicy.provider, round, JsonInitial(req, url)).value;
            var r := JsonRequest(req, url, env, round).value;
            && HeaderValue(r.headers, "Accept")
               == (if HeaderValue(w1.headers, "Accept").Some? then HeaderValue(w1.headers, "Accept") else Some("application/json"))
            && (req.body.Some? ==>
                  HeaderValue(r.headers, "Content-Type")
                  == (if HeaderValue(w1.headers, "Content-Type").Some? then HeaderValue(w1.headers, "Content-Type")
                      else Some("application/json")))
            && r.body == (if req.body.Some? then env.encode(req.body.value) else w1.body)
  {
    assert |HeaderKey("Accept")| != |HeaderKey("Content-Type")|;
  }

  /** Without a body and without a `Content-Type` from the provider or the caller, the JSON
      request names no content type. */
  lemma JsonNoBodyNoContentType<B>(req: Request<B>, url: Url, env: Foundation<B>, round: nat)
    requires JsonRequest(req, url, env, round).Success? && req.body.None?
    requires HeaderValue(Authenticate(req.authenticationPolicy.provider, round, JsonInitial(req, url)).value.headers, "Content-Type").None?
    requires HeaderKey("Content-Type") !in HeaderKeys(req.headers.GetOr([]))
    ensures HeaderValue(JsonRequest(req, url, env, round).value.headers, "Content-Type").None?
  {
    var w3 := JsonPrepared(req, url, env, round).value;
    assert |HeaderKey("Accept")| != |HeaderKey("Content-Type")|;
    MergedKeys(w3.headers, req.headers.GetOr([]));
  }

  /** A caller header whose name is still free after the defaults is added with its value
      unless an earlier caller header had the same name. */
  lemma JsonCallerHeaderFirstWins<B>(req: Request<B>, url: Url, env: Foundation<B>, round: nat, i: nat)
    requires JsonRequest(req, url, env, round).Success?
    requires req.headers.Some? && i < |req.headers.value|
    requires HeaderKey(req.headers.value[i].0) !in JsonPrepared(req, url, env, round).value.headers
    requires forall j :: 0 <= j < i ==> HeaderKey(req.headers.value[j].0) != HeaderKey(req.headers.value[i].0)
    ensures HeaderValue(JsonRequest(req, url, env, round).value.headers, req.headers.value[i].0) == Some(req.headers.value[i].1)
  {
    MergedFirstWins(JsonPrepared(req, url, env, round).value.headers, req.headers.value, i);
  }

  /** The URL, method and cache policy are the ones in place after authentication (the
      request's own, unless the provider changed them), and the timeout is the request's
      when it has one. */
  lemma JsonCopiesRequestSettings<B>(req: Request<B>, url: Url, env: Foundation<B>, round: nat)
    requires JsonRequest(req, url, env, round).Success?
    ensures Authenticate(req.authenticationPolicy.provider, round, JsonInitial(req, url)).Success?
    ensures var w1 := Authenticate(req.authenticationPolicy.provider, round, JsonInitial(req, url)).value;
            var r := JsonRequest(req, url, env, round).value;
            && r.url == w1.url && r.httpMethod == w1.httpMethod && r.cachePolicy == w1.cachePolicy
            && r.timeout == (if req.timeoutInterval.Some? then req.timeoutInterval.value else w1.timeout)
    ensures req.authenticationPolicy.provider.NoAuthProvider? ==>
              var r := JsonRequest(req, url, env, round).value;
              && r.url == url && r.httpMethod == RawValue(req.httpMethod) && r.cachePolicy == req.cachePolicy
              && r.timeout == (if req.timeoutInterval.Some? then req.timeoutInterval.value else DefaultTimeout)
  {
  }

  /** Without a provider, a JSON request is the same in every round. */
  lemma NoAuthJsonBuildIgnoresRound<B>(req: Request<B>, env: Foundation<B>, r1: nat, r2: nat)
    requires req.contentType.Json? && req.authenticationPolicy.provider.NoAuthProvider?
    ensures WireRequestSpec(req, env, r1) == WireRequestSpec(req, env, r2)
  {
  }

  /** The multipart branch builds the same request whatever the authentication policy. */
  lemma MultipartIgnoresAuthenticationPolicy<B>(req: Request<B>, env: Foundation<B>, round: nat, p: AuthenticationPolicy)
    requires req.contentType.MultipartForm?
    ensures WireRequestSpec(req.(authenticationPolicy := p), env, round) == WireRequestSpec(req, env, round)
  {
  }

  /** A multipart request whose URL resolves is built: its body is every field in order
      and then the close delimiter, its `Content-Type` names the boundary, and method,
      cache policy and timeout come from the request. */
  lemma MultipartRequestBuilt<B>(req: Request<B>, env: Foundation<B>, round: nat)
    requires req.contentType.MultipartForm? && ResolveUrl(req, env).Success?
    ensures var b := BoundaryFor(env.uuid(round));
            var r := WireRequestSpec(req, env, round);
            && r.Success?
            && r.value.url == ResolveUrl(req, env).value
            && r.value.body == Some(FieldsBytes(b, req.contentType.fields) + Utf8(CloseDelimiter(b)))
            && HeaderValue(r.value.headers, "Content-Type") == Some(MultipartContentType(b))
            && r.value.httpMethod == RawValue(req.httpMethod) && r.value.cachePolicy == req.cachePolicy
            && r.value.timeout == (if req.timeoutInterval.Some? then req.timeoutInterval.value else DefaultTimeout)
  {
    var b := BoundaryFor(env.uuid(round));
    var url := ResolveUrl(req, env).value;
    MultipartRequestShape(b, FieldsBytes(b, req.contentType.fields), url, req.httpMethod, req.headers,
                          req.cachePolicy, req.timeoutInterval, NoAuthentication(), round);
  }
}
