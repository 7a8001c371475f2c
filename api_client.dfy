/** APIClient: build the wire request, hand it to the transport (or the response cache),
    classify the response, and either finish, recover authentication and go again, or retry. */
module ApiClient {
  import opened Wrappers
  import opened Bytes
  import opened Wire
  import opened Errors
  import opened Authentication
  import opened RetryStrategy
  import opened RetryPolicy
  import opened Request

  /** The four entry points: `send(_:cached:retryPolicy:)` (through `defaultSend`),
      `upload(for:from:retryPolicy:)` with the payload of the current round,
      `data(for: Request)` and `data(for: URL)`. */
  datatype Operation =
    | Send(cached: bool)
    | Upload(payload: Bytes)
    | DataForRequest
    | DataForUrl(url: Url)

  /** What the transport answered: a response that is not an HTTPURLResponse, or an HTTP
      status with the body bytes. */
  datatype Response = NonHttp(body: Bytes) | Http(status: int, body: Bytes)

  /** One scripted transport answer: a response, or a thrown URLError. */
  datatype Outcome = Responded(response: Response) | TransportThrew(code: UrlErrorCode)

  /** A transport call as the client made it. */
  datatype Call = DataCall(request: WireRequest) | UploadCall(request: WireRequest, payload: Bytes)

  /** Everything outside the client that a call reads or changes: the transport answers
      still to come, the URL cache, and the transport calls made so far. */
  datatype World = World(script: seq<Outcome>, cache: map<WireRequest, Response>, calls: seq<Call>)

  /** Why a client call threw. `ScriptExhausted` marks a transport call the script has no
      answer for; `OutOfRounds` marks a call still going when the round bound ran out. */
  datatype CallError =
    | BuildFailed(build: BuildError)
    | ApiFailed(api: ApiError)
    | TransportFailed(code: UrlErrorCode)
    | RecoveryFailed(fault: ExternalFault)
    | DecodingFailed
    | ScriptExhausted
    | OutOfRounds

  /** The end of a client call: the body bytes it returned (decoded, for `send` and
      `upload`), or the error it threw. */
  datatype CallResult = Returned(body: Bytes) | Threw(error: CallError)

  /** The end of one round: the call is over, or it goes again with this operation. */
  datatype Step = Finish(result: CallResult) | Again(next: Operation)

  /** What the cache or the transport gave back for the round's request. */
  datatype Fetched = Fetched(response: Response) | FetchFailed(error: CallError)

  /** The Foundation services of the request layer, and whether the client's JSON decoder
      accepts a body as the expected response type. */
  datatype Client<!B> = Client(env: Foundation<B>, decodes: Bytes -> bool)

  /** The wire request of a round: `URLRequest(url:)` for `data(for: URL)`, otherwise
      `request.asURLRequest()`. */
  function BuildFor<B>(client: Client<B>, req: Request<B>, op: Operation, round: nat): (r: Result<WireRequest, BuildError>)
    ensures op.DataForUrl? ==> r == Success(NewWireRequest(op.url))
  {
    if op.DataForUrl? then Success(NewWireRequest(op.url)) else WireRequestSpec(req, client.env, round)
  }

  /** The wire request of each round of one call, by round. */
  type Builds = nat -> Result<WireRequest, BuildError>

  /** The builds of a call: the request is built afresh in every round. */
  function BuilderFor<B>(client: Client<B>, req: Request<B>, op: Operation): (builds: Builds) {
    (k: nat) => BuildFor(client, req, op, k)
  }

  /** The transport call a round makes with its wire request. */
  function CallFor(op: Operation, w: WireRequest): (c: Call)
    ensures c.request == w
    ensures c.UploadCall? <==> op.Upload?
  {
    if op.Upload? then UploadCall(w, op.payload) else DataCall(w)
  }

  /** One transport call: it consumes the next scripted answer and is logged. */
  function Transport(c: Call, world: World): (Fetched, World) {
    if world.script == [] then (FetchFailed(ScriptExhausted), world)
    else
      var after := world.(script := world.script[1..], calls := world.calls + [c]);
      match world.script[0]
      case TransportThrew(code) => (FetchFailed(TransportFailed(code)), after)
      case Responded(resp) => (Fetched(resp), after)
  }

  /** The response of a round: from the cache on a cached `send` that hits, otherwise from
      the transport, stored in the cache afterwards on a cached `send`. */
  function Fetch(op: Operation, w: WireRequest, world: World): (r: (Fetched, World))
    ensures |r.1.calls| - |world.calls| == |world.script| - |r.1.script|
    ensures |r.1.calls| == |world.calls| || r.1.calls == world.calls + [CallFor(op, w)]
    ensures op == Send(true) && r.0.Fetched? ==> w in r.1.cache && r.1.cache[w] == r.0.response
  {
    if op == Send(true) && w in world.cache then (Fetched(world.cache[w]), world)
    else
      var (f, after) := Transport(CallFor(op, w), world);
      if op == Send(true) && f.Fetched? then (f, after.(cache := after.cache[w := f.response])) else (f, after)
  }

  /** The operation of the next round. A retried upload passes on the body of the response
      it received, because that is what the name `data` is bound to by then. */
  function NextOperation(op: Operation, body: Bytes): (next: Operation)
    ensures !op.Upload? ==> next == op
    ensures op.Upload? ==> next == Upload(body)
  {
    if op.Upload? then Upload(body) else op
  }

  /** What a 2xx body becomes: `send` and `upload` decode it, `data` returns it as is. */
  function Delivered<B>(client: Client<B>, op: Operation, body: Bytes): (r: CallResult)
    ensures r.Returned? ==> r.body == body
    ensures r.Threw? <==> (op.Send? || op.Upload?) && !client.decodes(body)
  {
    if (op.Send? || op.Upload?) && !client.decodes(body) then Threw(DecodingFailed) else Returned(body)
  }

  /** True when the 401/403 recovery branch applies: a retryable authentication failure in
      an operation that has a request (and so an authentication policy). */
  predicate AuthenticationBranch(op: Operation, status: int, retry: bool) {
    retry && (status == 403 || status == 401) && !op.DataForUrl?
  }

  /** Classify a response: invalid, successful, recover and go again, retry, or fail. */
  function Classify<B>(client: Client<B>, req: Request<B>, op: Operation, policy: RetryPolicy, round: nat, resp: Response): (r: Step)
    ensures r.Finish? && r.result.Returned? ==> resp.Http? && 200 <= resp.status <= 299 && r.result.body == resp.body
    ensures r == Finish(Threw(ApiFailed(InvalidResponse))) <==> resp.NonHttp?
    ensures r.Finish? ==> r.result != Threw(OutOfRounds)
  {
    match resp
    case NonHttp(_) => Finish(Threw(ApiFailed(InvalidResponse)))
    case Http(status, body) =>
      if 200 <= status <= 299 then Finish(Delivered(client, op, body))
      else
        var error := HttpError(status, body);
        var retry := ShouldRetry(policy.strategy, Api(error), policy.currentAttempt);
        if AuthenticationBranch(op, status, retry) then
          match AttemptRecovery(req.authenticationPolicy.provider, round, status, body)
          case Failure(f) => Finish(Threw(RecoveryFailed(f)))
          case Success(recovered) =>
            if recovered then Again(NextOperation(op, body)) else Finish(Threw(ApiFailed(error)))
        else if retry then Again(NextOperation(op, body))
        else Finish(Threw(ApiFailed(error)))
  }

  /** One round of a client call: build, fetch, classify. */
  function Round<B>(client: Client<B>, builds: Builds, req: Request<B>, op: Operation, policy: RetryPolicy, round: nat, world: World)
    : (r: (Step, World))
    ensures builds(round).Failure? ==> r == (Finish(Threw(BuildFailed(builds(round).error))), world)
    ensures r.0.Finish? ==> r.0.result != Threw(OutOfRounds)
  {
    match builds(round)
    case Failure(e) => (Finish(Threw(BuildFailed(e))), world)
    case Success(w) =>
      var (f, after) := Fetch(op, w, world);
      match f
      case FetchFailed(e) => (Finish(Threw(e)), after)
      case Fetched(resp) => (Classify(client, req, op, policy, round, resp), after)
  }

  /** A client call from round `round` on, with at most `fuel` rounds: its result, the
      world after it and the number of rounds it took. */
  function Dispatch<B>(client: Client<B>, builds: Builds, req: Request<B>, op: Operation, policy: RetryPolicy,
                       round: nat, world: World, fuel: nat): (r: (CallResult, World, nat))
    ensures r.2 <= fuel
    decreases fuel
  {
    if fuel == 0 then (Threw(OutOfRounds), world, 0)
    else
      var (step, after) := Round(client, builds, req, op, policy, round, world);
      match step
      case Finish(result) => (result, after, 1)
      case Again(next) =>
        var (result, last, rounds) := Dispatch(client, builds, req, next, NextAttempt(policy), round + 1, after, fuel - 1);
        (result, last, rounds + 1)
  }

  /** A whole client call, from round 0. */
  function ClientCall<B>(client: Client<B>, req: Request<B>, op: Operation, policy: RetryPolicy, world: World, fuel: nat)
    : (r: (CallResult, World, nat))
    ensures r.2 <= fuel && (r.0 == Threw(OutOfRounds) ==> r.2 == fuel)
    ensures op != Send(true) ==> r.1.cache == world.cache
  {
    var r := Dispatch(client, BuilderFor(client, req, op), req, op, policy, 0, world, fuel);
    OutOfRoundsUsesEveryRound(client, BuilderFor(client, req, op), req, op, policy, 0, world, fuel);
    assert op != Send(true) ==> r.1.cache == world.cache by {
      if op != Send(true) {
        DispatchLeavesCacheAlone(client, BuilderFor(client, req, op), req, op, policy, 0, world, fuel);
      }
    }
    r
  }

  /** The transport: scripted answers, consumed one per call, and the log of calls. */
  class Session {
    var script: seq<Outcome>
    var calls: seq<Call>

    constructor(script: seq<Outcome>)
      ensures this.script == script && calls == []
    {
      this.script := script;
      calls := [];
    }

    /** `session.data(for:)` or `session.upload(for:from:)`; None when the script is over. */
    method Transfer(c: Call) returns (o: Option<Outcome>)
      modifies this
      ensures old(script) == [] ==> o == None && script == old(script) && calls == old(calls)
      ensures old(script) != [] ==>
                o == Some(old(script)[0]) && script == old(script)[1..] && calls == old(calls) + [c]
    {
      if script == [] {
        return None;
      }
      o := Some(script[0]);
      script := script[1..];
      calls := calls + [c];
    }
  }

  /** URLCache: responses keyed by request. */
  class ResponseCache {
    var entries: map<WireRequest, Response>

    constructor(entries: map<WireRequest, Response>)
      ensures this.entries == entries
    {
      this.entries := entries;
    }

    /** `cachedResponse(for:)`. */
    method CachedResponse(w: WireRequest) returns (r: Option<Response>)
      ensures r.Some? <==> w in entries
      ensures r.Some? ==> r.value == entries[w]
    {
      r := if w in entries then Some(entries[w]) else None;
    }

    /** `storeCachedResponse(_:for:)`. */
    method StoreCachedResponse(resp: Response, w: WireRequest)
      modifies this
      ensures entries == old(entries)[w := resp]
    {
      entries := entries[w := resp];
    }
  }

  /** One round against the session and the cache. */
  method PerformRound<B>(client: Client<B>, ghost builds: Builds, session: Session, cache: ResponseCache,
                         req: Request<B>, op: Operation, policy: RetryPolicy, round: nat)
    returns (step: Step)
    requires builds(round) == BuildFor(client, req, op, round)
    modifies session, cache
    ensures (step, World(session.script, cache.entries, session.calls))
            == Round(client, builds, req, op, policy, round, World(old(session.script), old(cache.entries), old(session.calls)))
  {
    var built: Result<WireRequest, BuildError>;
    if op.DataForUrl? {
      built := Success(NewWireRequest(op.url));
    } else {
      built := AsUrlRequest(req, client.env, round);
    }
    if built.Failure? {
      return Finish(Threw(BuildFailed(built.error)));
    }
    var w := built.value;
    var resp: Response;
    var hit: Option<Response> := None;
    if op == Send(true) {
      hit := cache.CachedResponse(w);
    }
    if hit.Some? {
      resp := hit.value;
    } else {
      var outcome := session.Transfer(CallFor(op, w));
      match outcome {
        case None =>
          return Finish(Threw(ScriptExhausted));
        case Some(TransportThrew(code)) =>
          return Finish(Threw(TransportFailed(code)));
        case Some(Responded(received)) =>
          resp := received;
      }
      if op == Send(true) {
        cache.StoreCachedResponse(resp, w);
      }
    }
    step := Classify(client, req, op, policy, round, resp);
  }

  /** A dispatch result with `k` more rounds counted. */
  function Later(r: (CallResult, World, nat), k: nat): (CallResult, World, nat) {
    (r.0, r.1, r.2 + k)
  }

  /** Unfolding one round of `Dispatch`, given that round's step and world. */
  lemma DispatchUnfold<B>(client: Client<B>, builds: Builds, req: Request<B>, op: Operation, policy: RetryPolicy, round: nat,
                          world: World, fuel: nat, step: Step, after: World)
    requires fuel > 0
    requires (step, after) == Round(client, builds, req, op, policy, round, world)
    ensures step.Finish? ==> Dispatch(client, builds, req, op, policy, round, world, fuel) == (step.result, after, 1)
    ensures step.Again? ==>
              Dispatch(client, builds, req, op, policy, round, world, fuel)
              == Later(Dispatch(client, builds, req, step.next, NextAttempt(policy), round + 1, after, fuel - 1), 1)
  {
  }

  /** The client call from round `round` on. As in the client itself, going again is a
      recursive call with a copy of the policy one attempt further on; the round index
      only tells the providers and the UUID source which round it is. */
  method Run<B>(client: Client<B>, ghost builds: Builds, session: Session, cache: ResponseCache,
                req: Request<B>, op: Operation, policy: RetryPolicy, round: nat, fuel: nat)
    returns (result: CallResult, rounds: nat)
    requires forall k: nat {:trigger BuildFor(client, req, op, k)} :: builds(k) == BuildFor(client, req, op, k)
    modifies session, cache
    ensures (result, World(session.script, cache.entries, session.calls), rounds)
            == Dispatch(client, builds, req, op, policy, round, World(old(session.script), old(cache.entries), old(session.calls)), fuel)
    decreases fuel
  {
    if fuel == 0 {
      return Threw(OutOfRounds), 0;
    }
    ghost var before := World(session.script, cache.entries, session.calls);
    var step := PerformRound(client, builds, session, cache, req, op, policy, round);
    ghost var mid := World(session.script, cache.entries, session.calls);
    DispatchUnfold(client, builds, req, op, policy, round, before, fuel, step, mid);
    match step {
      case Finish(r) =>
        return r, 1;
      case Again(next) =>
        RoundKeepsOperation(client, builds, req, op, policy, round, before);
        forall k: nat
          ensures BuildFor(client, req, next, k) == BuildFor(client, req, op, k)
        {
        }
        result, rounds := Run(client, builds, session, cache, req, next, NextAttempt(policy), round + 1, fuel - 1);
        rounds := rounds + 1;
    }
  }

  /** `send`, `upload`, `data(for:)` or `data(for: URL)` against the session and the cache,
      with at most `fuel` rounds. */
  method Perform<B>(client: Client<B>, session: Session, cache: ResponseCache,
                    req: Request<B>, op: Operation, policy: RetryPolicy, fuel: nat)
    returns (result: CallResult, rounds: nat)
    modifies session, cache
    ensures (result, World(session.script, cache.entries, session.calls), rounds)
            == ClientCall(client, req, op, policy, World(old(session.script), old(cache.entries), old(session.calls)), fuel)
  {
    result, rounds := Run(client, BuilderFor(client, req, op), session, cache, req, op, policy, 0, fuel);
  }

  /* ---------------------------------------------------------------------------------
     Properties of one round
     --------------------------------------------------------------------------------- */

  /** A response that is not HTTP ends the call with `invalidResponse`, in every operation
      and under every policy. */
  lemma NonHttpIsInvalidResponse<B>(client: Client<B>, req: Request<B>, op: Operation, policy: RetryPolicy, round: nat, body: Bytes)
    ensures Classify(client, req, op, policy, round, NonHttp(body)) == Finish(Threw(ApiFailed(InvalidResponse)))
  {
  }

  /** A 2xx status ends the call with its body (decoded for `send` and `upload`) and does
      not consult the retry policy. */
  lemma SuccessSkipsRetryPolicy<B>(client: Client<B>, req: Request<B>, op: Operation, p1: RetryPolicy, p2: RetryPolicy,
                                   round: nat, status: int, body: Bytes)
    requires 200 <= status <= 299
    ensures Classify(client, req, op, p1, round, Http(status, body)) == Finish(Delivered(client, op, body))
    ensures Classify(client, req, op, p1, round, Http(status, body)) == Classify(client, req, op, p2, round, Http(status, body))
  {
  }

  /** A retryable 401 or 403 asks the provider to recover; when it reports failure, the
      original `httpError` is thrown and nothing is tried again. */
  lemma DeclinedRecoveryThrowsOriginalError<B>(client: Client<B>, req: Request<B>, op: Operation, policy: RetryPolicy,
                                               round: nat, status: int, body: Bytes)
    requires status == 401 || status == 403
    requires !op.DataForUrl?
    requires ShouldRetry(policy.strategy, Api(HttpError(status, body)), policy.currentAttempt)
    requires AttemptRecovery(req.authenticationPolicy.provider, round, status, body) == Success(false)
    ensures Classify(client, req, op, policy, round, Http(status, body)) == Finish(Threw(ApiFailed(HttpError(status, body))))
  {
  }

  /** A non-2xx status that the strategy does not retry ends the call with an `httpError`
      carrying that status and body. */
  lemma DeclinedRetryThrowsHttpError<B>(client: Client<B>, req: Request<B>, op: Operation, policy: RetryPolicy,
                                        round: nat, status: int, body: Bytes)
    requires !(200 <= status <= 299)
    requires !ShouldRetry(policy.strategy, Api(HttpError(status, body)), policy.currentAttempt)
    ensures Classify(client, req, op, policy, round, Http(status, body)) == Finish(Threw(ApiFailed(HttpError(status, body))))
  {
  }

  /** A round goes again exactly when the response is an HTTP error the strategy retries
      and, in the 401/403 branch, the provider recovered. The next round runs the same
      operation, except that an upload carries the received body as its payload. */
  lemma GoesAgainExactlyWhen<B>(client: Client<B>, req: Request<B>, op: Operation, policy: RetryPolicy, round: nat, resp: Response)
    ensures Classify(client, req, op, policy, round, resp).Again? <==>
              && resp.Http? && !(200 <= resp.status <= 299)
              && ShouldRetry(policy.strategy, Api(HttpError(resp.status, resp.body)), policy.currentAttempt)
              && (AuthenticationBranch(op, resp.status, true) ==>
                    AttemptRecovery(req.authenticationPolicy.provider, round, resp.status, resp.body) == Success(true))
    ensures Classify(client, req, op, policy, round, resp).Again? ==>
              Classify(client, req, op, policy, round, resp).next == NextOperation(op, resp.body)
  {
  }

  /** `data(for: URL)` builds no request and has no recovery branch: its builds ignore the
      request, and a 401 or 403 goes again exactly when the strategy says so, whatever the
      authentication policy. */
  lemma DataForUrlHasNoRecovery<B>(client: Client<B>, req1: Request<B>, req2: Request<B>, url: Url, policy: RetryPolicy,
                                   round: nat, status: int, body: Bytes)
    requires status == 401 || status == 403
    ensures BuildFor(client, req1, DataForUrl(url), round) == Success(NewWireRequest(url))
    ensures Classify(client, req1, DataForUrl(url), policy, round, Http(status, body))
            == Classify(client, req2, DataForUrl(url), policy, round, Http(status, body))
    ensures Classify(client, req1, DataForUrl(url), policy, round, Http(status, body)).Again?
            <==> ShouldRetry(policy.strategy, Api(HttpError(status, body)), policy.currentAttempt)
  {
  }

  /** DefaultRetryStrategy and NoRetryStrategy never send a round again. */
  lemma BuiltInStrategiesNeverGoAgain<B>(client: Client<B>, req: Request<B>, op: Operation, policy: RetryPolicy, round: nat, resp: Response)
    requires policy.strategy.DefaultRetryStrategy? || policy.strategy.NoRetryStrategy?
    ensures !Classify(client, req, op, policy, round, resp).Again?
  {
    if resp.Http? && policy.strategy.DefaultRetryStrategy? {
      DefaultDeclinesNonUrlErrors(policy.strategy.retryableStatusCodes, Api(HttpError(resp.status, resp.body)), policy.currentAttempt);
    }
  }

  /** A cached `send` whose request is in the cache makes no transport call and changes
      nothing. */
  lemma CacheHitMakesNoTransportCall(w: WireRequest, world: World)
    requires w in world.cache
    ensures Fetch(Send(true), w, world) == (Fetched(world.cache[w]), world)
  {
  }

  /** A cached `send` that misses makes exactly one transport call and stores its response
      before it is classified. */
  lemma CacheMissStoresResponse(w: WireRequest, world: World, resp: Response)
    requires w !in world.cache && world.script != [] && world.script[0] == Responded(resp)
    ensures Fetch(Send(true), w, world)
            == (Fetched(resp), World(world.script[1..], world.cache[w := resp], world.calls + [DataCall(w)]))
  {
  }

  /** Every other fetch goes to the transport and leaves the cache alone. */
  lemma UncachedFetchLeavesCache(op: Operation, w: WireRequest, world: World)
    requires op != Send(true)
    ensures Fetch(op, w, world).1.cache == world.cache
    ensures world.script == [] ==> Fetch(op, w, world) == (FetchFailed(ScriptExhausted), world)
    ensures world.script != [] ==>
              Fetch(op, w, world).1 == world.(script := world.script[1..], calls := world.calls + [CallFor(op, w)])
  {
  }

  /** Going again keeps the kind of operation: `send`, `data` and `data(for: URL)` are
      repeated as they are, an upload stays an upload. */
  lemma RoundKeepsOperation<B>(client: Client<B>, builds: Builds, req: Request<B>, op: Operation, policy: RetryPolicy, round: nat, world: World)
    ensures var step := Round(client, builds, req, op, policy, round, world).0;
            step.Again? ==> (!op.Upload? ==> step.next == op) && (op.Upload? ==> step.next.Upload?)
  {
  }

  /** One round makes at most one transport call and only appends to the log; a round that
      goes again without the cache made exactly one, with the round's request. */
  lemma RoundCallsAtMostOnce<B>(client: Client<B>, builds: Builds, req: Request<B>, op: Operation, policy: RetryPolicy, round: nat, world: World)
    ensures var (step, after) := Round(client, builds, req, op, policy, round, world);
            && |world.calls| <= |after.calls| <= |world.calls| + 1
            && after.calls[..|world.calls|] == world.calls
            && (|after.calls| == |world.calls| + 1 ==>
                  builds(round).Success? && after.calls[|world.calls|] == CallFor(op, builds(round).value))
            && (step.Again? && op != Send(true) ==> |after.calls| == |world.calls| + 1)
  {
  }

  /* ---------------------------------------------------------------------------------
     Properties of a whole call
     --------------------------------------------------------------------------------- */

  /** A call takes at least one round when it may take any, and it runs out of rounds only
      after using every one of them: no round ends a call with `OutOfRounds` itself. */
  lemma {:induction false} OutOfRoundsUsesEveryRound<B>(client: Client<B>, builds: Builds, req: Request<B>, op: Operation,
                                                         policy: RetryPolicy, round: nat, world: World, fuel: nat)
    ensures var r := Dispatch(client, builds, req, op, policy, round, world, fuel);
            (r.2 == 0 <==> fuel == 0) && (r.0 == Threw(OutOfRounds) ==> r.2 == fuel)
    decreases fuel
  {
    if fuel > 0 {
      var (step, after) := Round(client, builds, req, op, policy, round, world);
      DispatchUnfold(client, builds, req, op, policy, round, world, fuel, step, after);
      if step.Again? {
        OutOfRoundsUsesEveryRound(client, builds, req, step.next, NextAttempt(policy), round + 1, after, fuel - 1);
      }
    }
  }

  /** Only a cached `send` reads or writes the cache. */
  lemma {:induction false} DispatchLeavesCacheAlone<B>(client: Client<B>, builds: Builds, req: Request<B>, op: Operation,
                                                       policy: RetryPolicy, round: nat, world: World, fuel: nat)
    requires op != Send(true)
    ensures Dispatch(client, builds, req, op, policy, round, world, fuel).1.cache == world.cache
    decreases fuel
  {
    if fuel > 0 {
      var (step, after) := Round(client, builds, req, op, policy, round, world);
      RoundKeepsOperation(client, builds, req, op, policy, round, world);
      if step.Again? {
        DispatchLeavesCacheAlone(client, builds, req, step.next, NextAttempt(policy), round + 1, after, fuel - 1);
      }
    }
  }

  /** The transport log only grows: a call appends to it and rewrites nothing. */
  lemma {:induction false} DispatchExtendsLog<B>(client: Client<B>, builds: Builds, req: Request<B>, op: Operation,
                                                 policy: RetryPolicy, round: nat, world: World, fuel: nat)
    ensures var last := Dispatch(client, builds, req, op, policy, round, world, fuel).1;
            |world.calls| <= |last.calls| && last.calls[..|world.calls|] == world.calls
    decreases fuel
  {
    if fuel > 0 {
      var (step, after) := Round(client, builds, req, op, policy, round, world);
      RoundCallsAtMostOnce(client, builds, req, op, policy, round, world);
      DispatchUnfold(client, builds, req, op, policy, round, world, fuel, step, after);
      if step.Again? {
        var last := Dispatch(client, builds, req, step.next, NextAttempt(policy), round + 1, after, fuel - 1).1;
        DispatchExtendsLog(client, builds, req, step.next, NextAttempt(policy), round + 1, after, fuel - 1);
        assert last.calls[..|world.calls|] == last.calls[..|after.calls|][..|world.calls|];
      }
    }
  }

  /** Entry `i` of `log` carries the request built in round `ks[i]`, and the rounds rise
      strictly from `round` on. */
  predicate RisingBuilds(builds: Builds, round: nat, ks: seq<nat>, log: seq<Call>)
    decreases |ks|
  {
    && |ks| == |log|
    && (ks == [] ||
        (round <= ks[0] && builds(ks[0]) == Success(log[0].request) && RisingBuilds(builds, ks[0] + 1, ks[1..], log[1..])))
  }

  /** `RisingBuilds`, entry by entry. */
  lemma {:induction false} RisingBuildsEveryEntry(builds: Builds, round: nat, ks: seq<nat>, log: seq<Call>)
    requires RisingBuilds(builds, round, ks, log)
    ensures |ks| == |log|
    ensures forall i :: 0 <= i < |ks| ==> round <= ks[i] && builds(ks[i]) == Success(log[i].request)
    ensures forall i, j :: 0 <= i < j < |ks| ==> ks[i] < ks[j]
    decreases |ks|
  {
    if ks != [] {
      RisingBuildsEveryEntry(builds, ks[0] + 1, ks[1..], log[1..]);
      forall i | 0 < i < |ks|
        ensures ks[0] < ks[i] && builds(ks[i]) == Success(log[i].request)
      {
        assert ks[i] == ks[1..][i - 1] && log[i] == log[1..][i - 1];
      }
      forall i, j | 0 <= i < j < |ks|
        ensures ks[i] < ks[j]
      {
        if i > 0 {
          assert ks[i] == ks[1..][i - 1] && ks[j] == ks[1..][j - 1];
        }
      }
    }
  }

  /** The entries of one round (none, or one built in that round) followed by those of the
      later rounds. */
  lemma PrependRisingBuilds(builds: Builds, round: nat, before: seq<Call>, after: seq<Call>, last: seq<Call>, rest: seq<nat>)
    returns (ks: seq<nat>)
    requires |before| <= |after| <= |before| + 1 && after[..|before|] == before
    requires |after| <= |last| && last[..|after|] == after
    requires |after| == |before| + 1 ==> builds(round) == Success(after[|before|].request)
    requires RisingBuilds(builds, round + 1, rest, last[|after|..])
    ensures last[..|before|] == before
    ensures RisingBuilds(builds, round, ks, last[|before|..])
  {
    assert last[..|before|] == last[..|after|][..|before|];
    var log := last[|before|..];
    if |after| == |before| + 1 {
      ks := [round] + rest;
      assert log[0] == last[..|after|][|before|];
      assert ks[1..] == rest && log[1..] == last[|after|..];
    } else {
      ks := rest;
      assert log == last[|after|..];
    }
  }

  /** For every operation, a cached `send` included: each new log entry carries the request
      built in some round from `round` on, and the rounds of successive entries rise
      strictly, so no entry is a stale request from an earlier round. A cached `send` may
      skip rounds (a cache hit makes no call); the others skip none (`EveryCallIsARebuild`). */
  lemma {:induction false} CallsCarryBuildsOfRisingRounds<B>(client: Client<B>, builds: Builds, req: Request<B>, op: Operation,
                                                             policy: RetryPolicy, round: nat, world: World, fuel: nat)
    returns (ks: seq<nat>)
    ensures var last := Dispatch(client, builds, req, op, policy, round, world, fuel).1;
            |world.calls| <= |last.calls| && last.calls[..|world.calls|] == world.calls
            && RisingBuilds(builds, round, ks, last.calls[|world.calls|..])
    decreases fuel
  {
    ks := [];
    if fuel > 0 {
      var again, next, after := FirstRoundAppends(client, builds, req, op, policy, round, world, fuel);
      if !again {
        assert after.calls[|after.calls|..] == [];
        ks := PrependRisingBuilds(builds, round, world.calls, after.calls, after.calls, []);
      } else {
        var rest := CallsCarryBuildsOfRisingRounds(client, builds, req, next, NextAttempt(policy), round + 1, after, fuel - 1);
        ks := PrependRisingBuilds(builds, round, world.calls, after.calls,
                                  Dispatch(client, builds, req, next, NextAttempt(policy), round + 1, after, fuel - 1).1.calls, rest);
      }
    } else {
      assert world.calls[|world.calls|..] == [];
    }
  }

  /** The first round of any call: it logs at most its own request, and either the call
      ends there or the rest of the call runs on from the world after it. */
  lemma FirstRoundAppends<B>(client: Client<B>, builds: Builds, req: Request<B>, op: Operation,
                             policy: RetryPolicy, round: nat, world: World, fuel: nat)
    returns (again: bool, next: Operation, after: World)
    requires fuel > 0
    ensures |world.calls| <= |after.calls| <= |world.calls| + 1 && after.calls[..|world.calls|] == world.calls
    ensures |after.calls| == |world.calls| + 1 ==> builds(round) == Success(after.calls[|world.calls|].request)
    ensures !again ==> Dispatch(client, builds, req, op, policy, round, world, fuel).1 == after
    ensures again ==>
              Dispatch(client, builds, req, op, policy, round, world, fuel).1
              == Dispatch(client, builds, req, next, NextAttempt(policy), round + 1, after, fuel - 1).1
  {
    var step;
    step, after := Round(client, builds, req, op, policy, round, world).0, Round(client, builds, req, op, policy, round, world).1;
    RoundCallsAtMostOnce(client, builds, req, op, policy, round, world);
    DispatchUnfold(client, builds, req, op, policy, round, world, fuel, step, after);
    again := step.Again?;
    next := if again then step.next else op;
  }


  /** Each entry of `log`, in order, carries the request built in its own round, the
      first entry being from round `round`. */
  predicate RebuiltFrom(builds: Builds, round: nat, log: seq<Call>)
    decreases |log|
  {
    log == [] || (builds(round) == Success(log[0].request) && RebuiltFrom(builds, round + 1, log[1..]))
  }

  /** `RebuiltFrom`, entry by entry. */
  lemma {:induction false} RebuiltFromEveryEntry(builds: Builds, round: nat, log: seq<Call>)
    requires RebuiltFrom(builds, round, log)
    ensures forall k :: 0 <= k < |log| ==> builds(round + k) == Success(log[k].request)
    decreases |log|
  {
    if log != [] {
      RebuiltFromEveryEntry(builds, round + 1, log[1..]);
      forall k | 1 <= k < |log|
        ensures builds(round + k) == Success(log[k].request)
      {
        assert log[k] == log[1..][k - 1];
      }
    }
  }

  /** The new log entries of a call that does not use the cache carry, in order, the
      requests built in its successive rounds: the request is rebuilt, and so
      re-authenticated, for every attempt. */
  lemma {:induction false} EveryCallIsARebuild<B>(client: Client<B>, builds: Builds, req: Request<B>, op: Operation,
                                                  policy: RetryPolicy, round: nat, world: World, fuel: nat)
    requires op != Send(true)
    ensures var last := Dispatch(client, builds, req, op, policy, round, world, fuel).1;
            |world.calls| <= |last.calls| && RebuiltFrom(builds, round, last.calls[|world.calls|..])
    decreases fuel
  {
    DispatchExtendsLog(client, builds, req, op, policy, round, world, fuel);
    if fuel > 0 {
      var again, next, after := FirstRoundRebuilds(client, builds, req, op, policy, round, world, fuel);
      if again {
        var last := Dispatch(client, builds, req, next, NextAttempt(policy), round + 1, after, fuel - 1).1;
        EveryCallIsARebuild(client, builds, req, next, NextAttempt(policy), round + 1, after, fuel - 1);
        DispatchExtendsLog(client, builds, req, next, NextAttempt(policy), round + 1, after, fuel - 1);
        ShiftRebuilds(builds, round, world.calls, after.calls, last.calls);
      }
    } else {
      assert Dispatch(client, builds, req, op, policy, round, world, fuel).1.calls[|world.calls|..] == [];
    }
  }

  /** The first round of a call that does not use the cache: either the call ends there,
      having logged at most that round's request, or the round logged exactly its own
      request and the rest of the call runs on from the world after it. */
  lemma FirstRoundRebuilds<B>(client: Client<B>, builds: Builds, req: Request<B>, op: Operation,
                              policy: RetryPolicy, round: nat, world: World, fuel: nat)
    returns (again: bool, next: Operation, after: World)
    requires op != Send(true) && fuel > 0
    ensures !again ==>
              var last := Dispatch(client, builds, req, op, policy, round, world, fuel).1;
              |world.calls| <= |last.calls| && RebuiltFrom(builds, round, last.calls[|world.calls|..])
    ensures again ==>
              && next != Send(true)
              && |after.calls| == |world.calls| + 1 && after.calls[..|world.calls|] == world.calls
              && builds(round) == Success(after.calls[|world.calls|].request)
              && Dispatch(client, builds, req, op, policy, round, world, fuel).1
                 == Dispatch(client, builds, req, next, NextAttempt(policy), round + 1, after, fuel - 1).1
  {
    var step;
    step, after := Round(client, builds, req, op, policy, round, world).0, Round(client, builds, req, op, policy, round, world).1;
    RoundCallsAtMostOnce(client, builds, req, op, policy, round, world);
    RoundKeepsOperation(client, builds, req, op, policy, round, world);
    DispatchUnfold(client, builds, req, op, policy, round, world, fuel, step, after);
    again := step.Again?;
    next := if again then step.next else op;
    if !again {
      var n := |world.calls|;
      var log := after.calls[n..];
      if |after.calls| == n + 1 {
        assert log[0] == after.calls[n] && log[1..] == [];
      } else {
        assert log == [];
      }
    }
  }

  /** One round's call in front of the later rounds' calls. */
  lemma ShiftRebuilds(builds: Builds, round: nat, before: seq<Call>, after: seq<Call>, last: seq<Call>)
    requires |after| == |before| + 1 && |after| <= |last| && last[..|after|] == after
    requires builds(round) == Success(after[|before|].request)
    requires RebuiltFrom(builds, round + 1, last[|after|..])
    ensures RebuiltFrom(builds, round, last[|before|..])
  {
    var log := last[|before|..];
    assert log[0] == last[..|after|][|before|];
    assert log[1..] == last[|after|..];
  }

  /** Under DefaultRetryStrategy or NoRetryStrategy a call takes at most one round and one
      transport call. */
  lemma BuiltInStrategiesMakeOneAttempt<B>(client: Client<B>, builds: Builds, req: Request<B>, op: Operation,
                                           policy: RetryPolicy, round: nat, world: World, fuel: nat)
    requires policy.strategy.DefaultRetryStrategy? || policy.strategy.NoRetryStrategy?
    ensures Dispatch(client, builds, req, op, policy, round, world, fuel).2 <= 1
    ensures |Dispatch(client, builds, req, op, policy, round, world, fuel).1.calls| <= |world.calls| + 1
  {
    if fuel > 0 {
      RoundCallsAtMostOnce(client, builds, req, op, policy, round, world);
      match builds(round) {
        case Failure(_) =>
        case Success(w) =>
          var (f, _) := Fetch(op, w, world);
          if f.Fetched? {
            BuiltInStrategiesNeverGoAgain(client, req, op, policy, round, f.response);
          }
      }
    }
  }

  /** `RetryPolicy.default` and `RetryPolicy.none` never retry: one round, one call. */
  lemma DefaultAndNoneMakeOneAttempt<B>(client: Client<B>, req: Request<B>, op: Operation, world: World, fuel: nat)
    ensures ClientCall(client, req, op, DefaultRetries(), world, fuel).2 <= 1
    ensures |ClientCall(client, req, op, DefaultRetries(), world, fuel).1.calls| <= |world.calls| + 1
    ensures ClientCall(client, req, op, NoRetries(), world, fuel).2 <= 1
    ensures |ClientCall(client, req, op, NoRetries(), world, fuel).1.calls| <= |world.calls| + 1
  {
    BuiltInStrategiesMakeOneAttempt(client, BuilderFor(client, req, op), req, op, DefaultRetries(), 0, world, fuel);
    BuiltInStrategiesMakeOneAttempt(client, BuilderFor(client, req, op), req, op, NoRetries(), 0, world, fuel);
  }

  /** The new log entries of a client call that does not use the cache are, in order,
      the requests its builder makes in rounds 0, 1, 2, … */
  lemma CallsCarryFreshBuilds<B>(client: Client<B>, req: Request<B>, op: Operation, policy: RetryPolicy, world: World, fuel: nat)
    requires op != Send(true)
    ensures var last := ClientCall(client, req, op, policy, world, fuel).1;
            |world.calls| <= |last.calls| && RebuiltFrom(BuilderFor(client, req, op), 0, last.calls[|world.calls|..])
  {
    EveryCallIsARebuild(client, BuilderFor(client, req, op), req, op, policy, 0, world, fuel);
  }

  /** The new log entries of any client call, a cached `send` included, carry the requests
      its builder makes in strictly rising rounds from round 0 on. */
  lemma CallsCarryRisingBuilds<B>(client: Client<B>, req: Request<B>, op: Operation, policy: RetryPolicy, world: World, fuel: nat)
    returns (ks: seq<nat>)
    ensures var last := ClientCall(client, req, op, policy, world, fuel).1;
            |world.calls| <= |last.calls| && RisingBuilds(BuilderFor(client, req, op), 0, ks, last.calls[|world.calls|..])
  {
    ks := CallsCarryBuildsOfRisingRounds(client, BuilderFor(client, req, op), req, op, policy, 0, world, fuel);
  }

  /** Outside `data(for: URL)`, a log whose entry `k` carries what a call's builder makes in
      round `k` holds, at index `k`, the request `asURLRequest()` builds in round `k`. */
  lemma BuiltCallsAreSpecified<B>(client: Client<B>, req: Request<B>, op: Operation, calls: seq<Call>)
    requires !op.DataForUrl?
    requires forall k :: 0 <= k < |calls| ==> BuilderFor(client, req, op)(0 + k) == Success(calls[k].request)
    ensures forall k :: 0 <= k < |calls| ==> WireRequestSpec(req, client.env, k) == Success(calls[k].request)
  {
    forall k | 0 <= k < |calls|
      ensures WireRequestSpec(req, client.env, k) == Success(calls[k].request)
    {
      BuildIsSpecified(client, req, op, k);
    }
  }

  /** Outside `data(for: URL)`, a round's builds are the specification's request. */
  lemma BuildIsSpecified<B>(client: Client<B>, req: Request<B>, op: Operation, k: nat)
    requires !op.DataForUrl?
    ensures BuilderFor(client, req, op)(0 + k) == WireRequestSpec(req, client.env, k)
  {
  }




  /** A custom strategy that retries while the attempt number is below `limit`. */
  function RetryBelow(limit: int): (s: Strategy)
    ensures forall e, attempt :: ShouldRetry(s, e, attempt) <==> attempt < limit
  {
    CustomStrategy((e: RetryError, attempt: int) => attempt < limit)
  }

  /** `n` copies of one call. */
  function Repeat(c: Call, n: nat): (r: seq<Call>)
    ensures |r| == n && forall i :: 0 <= i < n ==> r[i] == c
  {
    seq(n, i => c)
  }

  /** `data(for: URL)` against a URL that keeps failing with the same status is fetched
      once per attempt from `a` up to `limit`, then throws that status; `maxRetries` plays
      no part. */
  lemma {:induction false} RetriesUntilStrategyDeclines<B>(client: Client<B>, builds: Builds, req: Request<B>, url: Url, w: WireRequest,
                                                           limit: nat, maxRetries: int, a: nat, round: nat, world: World, fuel: nat,
                                                           status: int, body: Bytes)
    requires forall k: nat :: builds(k) == Success(w)
    requires a <= limit && fuel > limit - a
    requires !(200 <= status <= 299)
    requires |world.script| > limit - a
    requires forall i :: 0 <= i <= limit - a ==> world.script[i] == Responded(Http(status, body))
    ensures Dispatch(client, builds, req, DataForUrl(url), RetryPolicy(RetryBelow(limit), maxRetries, a), round, world, fuel)
            == (Threw(ApiFailed(HttpError(status, body))),
                World(world.script[limit - a + 1..], world.cache, world.calls + Repeat(DataCall(w), limit - a + 1)),
                limit - a + 1)
    decreases limit - a
  {
    var policy := RetryPolicy(RetryBelow(limit), maxRetries, a);
    var after := World(world.script[1..], world.cache, world.calls + [DataCall(w)]);
    assert world.script[0] == Responded(Http(status, body));
    if a == limit {
      assert Round(client, builds, req, DataForUrl(url), policy, round, world) == (Finish(Threw(ApiFailed(HttpError(status, body)))), after);
      assert Repeat(DataCall(w), 1) == [DataCall(w)];
    } else {
      assert Round(client, builds, req, DataForUrl(url), policy, round, world) == (Again(DataForUrl(url)), after);
      RetriesUntilStrategyDeclines(client, builds, req, url, w, limit, maxRetries, a + 1, round + 1, after, fuel - 1, status, body);
      assert after.script[limit - (a + 1) + 1..] == world.script[limit - a + 1..];
      assert after.calls + Repeat(DataCall(w), limit - a) == world.calls + Repeat(DataCall(w), limit - a + 1);
    }
  }

  /** With a strategy that retries attempts 0, 1 and 2, a URL that keeps answering 503 is
      fetched four times and the call throws that 503, even with `maxRetries` 0. */
  lemma FourFetchesForThreeRetries<B>(client: Client<B>, req: Request<B>, url: Url, world: World, fuel: nat, body: Bytes)
    requires fuel >= 4 && |world.script| >= 4
    requires forall i :: 0 <= i < 4 ==> world.script[i] == Responded(Http(503, body))
    ensures ClientCall(client, req, DataForUrl(url), NewRetryPolicy(RetryBelow(3), 0), world, fuel)
            == (Threw(ApiFailed(HttpError(503, body))),
                World(world.script[4..], world.cache, world.calls + Repeat(DataCall(NewWireRequest(url)), 4)), 4)
  {
    RetriesUntilStrategyDeclines(client, BuilderFor(client, req, DataForUrl(url)), req, url, NewWireRequest(url),
                                 3, 0, 0, 0, world, fuel, 503, body);
  }

  /** A retryable 401 or 403 that the provider recovers from is sent again, with the
      request rebuilt for the next round, and a 2xx then ends the call with its body. */
  lemma RecoveredAuthenticationFailureGoesAgain<B>(client: Client<B>, builds: Builds, req: Request<B>, policy: RetryPolicy,
                                                   round: nat, world: World, fuel: nat, w0: WireRequest, w1: WireRequest,
                                                   status: int, b1: Bytes, b2: Bytes)
    requires fuel >= 2
    requires builds(round) == Success(w0) && builds(round + 1) == Success(w1)
    requires status == 401 || status == 403
    requires ShouldRetry(policy.strategy, Api(HttpError(status, b1)), policy.currentAttempt)
    requires AttemptRecovery(req.authenticationPolicy.provider, round, status, b1) == Success(true)
    requires client.decodes(b2)
    requires |world.script| >= 2 && world.script[0] == Responded(Http(status, b1)) && world.script[1] == Responded(Http(200, b2))
    ensures Dispatch(client, builds, req, Send(false), policy, round, world, fuel)
            == (Returned(b2), World(world.script[2..], world.cache, world.calls + [DataCall(w0), DataCall(w1)]), 2)
  {
    var after := World(world.script[1..], world.cache, world.calls + [DataCall(w0)]);
    assert Round(client, builds, req, Send(false), policy, round, world) == (Again(Send(false)), after);
    assert after.script[0] == world.script[1] && after.script[1..] == world.script[2..];
    var last := World(world.script[2..], world.cache, world.calls + [DataCall(w0), DataCall(w1)]);
    assert after.calls + [DataCall(w1)] == last.calls;
    assert Round(client, builds, req, Send(false), NextAttempt(policy), round + 1, after) == (Finish(Returned(b2)), last);
  }

  /** A retried upload sends, as its payload, the body of the response it is retrying. */
  lemma RetriedUploadSendsResponseBody<B>(client: Client<B>, builds: Builds, req: Request<B>, payload: Bytes, policy: RetryPolicy,
                                          round: nat, world: World, fuel: nat, w0: WireRequest, w1: WireRequest,
                                          status: int, body: Bytes)
    requires fuel >= 2
    requires builds(round) == Success(w0) && builds(round + 1) == Success(w1)
    requires !(200 <= status <= 299) && status != 401 && status != 403
    requires ShouldRetry(policy.strategy, Api(HttpError(status, body)), policy.currentAttempt)
    requires |world.script| >= 2 && world.script[0] == Responded(Http(status, body))
    ensures var last := Dispatch(client, builds, req, Upload(payload), policy, round, world, fuel).1;
            && |last.calls| >= |world.calls| + 2
            && last.calls[|world.calls|] == UploadCall(w0, payload)
            && last.calls[|world.calls| + 1] == UploadCall(w1, body)
  {
    var n := |world.calls|;
    var after := World(world.script[1..], world.cache, world.calls + [UploadCall(w0, payload)]);
    assert Round(client, builds, req, Upload(payload), policy, round, world) == (Again(Upload(body)), after);
    var (step2, after2) := Round(client, builds, req, Upload(body), NextAttempt(policy), round + 1, after);
    assert after2.calls == after.calls + [UploadCall(w1, body)];
    if step2.Again? {
      DispatchExtendsLog(client, builds, req, step2.next, NextAttempt(NextAttempt(policy)), round + 2, after2, fuel - 2);
      var last := Dispatch(client, builds, req, step2.next, NextAttempt(NextAttempt(policy)), round + 2, after2, fuel - 2).1;
      assert last.calls[n] == last.calls[..n + 2][n] && last.calls[n + 1] == last.calls[..n + 2][n + 1];
    }
  }

  /** A cached `send` whose cached response is an error that the strategy always retries
      goes round without ever calling the transport until the round bound runs out. */
  lemma {:induction false} CachedFailureSpinsWithoutTransport<B>(client: Client<B>, builds: Builds, req: Request<B>, policy: RetryPolicy,
                                                                 round: nat, world: World, fuel: nat, w: WireRequest,
                                                                 status: int, body: Bytes)
    requires forall k: nat :: builds(k) == Success(w)
    requires w in world.cache && world.cache[w] == Http(status, body)
    requires !(200 <= status <= 299) && status != 401 && status != 403
    requires forall attempt: int :: ShouldRetry(policy.strategy, Api(HttpError(status, body)), attempt)
    ensures Dispatch(client, builds, req, Send(true), policy, round, world, fuel) == (Threw(OutOfRounds), world, fuel)
    decreases fuel
  {
    if fuel > 0 {
      assert Round(client, builds, req, Send(true), policy, round, world) == (Again(Send(true)), world);
      CachedFailureSpinsWithoutTransport(client, builds, req, NextAttempt(policy), round + 1, world, fuel - 1, w, status, body);
    }
  }

  /** The same for a JSON request without a provider, whose request is the same in every
      round. */
  lemma CachedJsonFailureSpins<B>(client: Client<B>, req: Request<B>, policy: RetryPolicy, world: World, fuel: nat,
                                  status: int, body: Bytes)
    requires req.contentType.Json? && req.authenticationPolicy.provider.NoAuthProvider?
    requires WireRequestSpec(req, client.env, 0).Success?
    requires WireRequestSpec(req, client.env, 0).value in world.cache
    requires world.cache[WireRequestSpec(req, client.env, 0).value] == Http(status, body)
    requires !(200 <= status <= 299) && status != 401 && status != 403
    requires forall attempt: int :: ShouldRetry(policy.strategy, Api(HttpError(status, body)), attempt)
    ensures ClientCall(client, req, Send(true), policy, world, fuel) == (Threw(OutOfRounds), world, fuel)
  {
    var w := WireRequestSpec(req, client.env, 0).value;
    var builds := BuilderFor(client, req, Send(true));
    forall k: nat
      ensures builds(k) == Success(w)
    {
      NoAuthJsonBuildIgnoresRound(req, client.env, k, 0);
    }
    CachedFailureSpinsWithoutTransport(client, builds, req, policy, 0, world, fuel, w, status, body);
  }
}
