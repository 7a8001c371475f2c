/** AuthenticationPolicy and the AuthenticationProvider capability it carries. */
module Authentication {
  import opened Wrappers
  import opened Bytes
  import opened Wire
  import opened Errors

  /** A provider stamps credentials on an outgoing request (`authenticate(_:)`, which may
      throw) and, after a 401 or 403, reports whether recovery succeeded and the request
      should be retried (it may throw too). A custom provider's answers depend on the
      0-based round of the client call they are asked in, which stands for whatever state
      the provider keeps (a token refreshed by an earlier recovery, say). */
  datatype AuthenticationProvider =
    | NoAuthProvider
    | CustomProvider(
        authenticate: (nat, WireRequest) -> Result<WireRequest, ExternalFault>,
        recover: (nat, int, Bytes) -> Result<bool, ExternalFault>)

  datatype AuthenticationPolicy = AuthenticationPolicy(provider: AuthenticationProvider)

  /** `AuthenticationPolicy.none`. */
  function NoAuthentication(): (p: AuthenticationPolicy)
    ensures p.provider.NoAuthProvider?
  {
    AuthenticationPolicy(NoAuthProvider)
  }

  /** `provider.authenticate(&urlRequest)`: the request after the provider has changed it. */
  function Authenticate(p: AuthenticationProvider, round: nat, w: WireRequest): (r: Result<WireRequest, ExternalFault>)
    ensures p.NoAuthProvider? ==> r == Success(w)
  {
    match p
    case NoAuthProvider => Success(w)
    case CustomProvider(authenticate, _) => authenticate(round, w)
  }

  /** The recovery query the client makes after a 401 or 403 it may retry. */
  function AttemptRecovery(p: AuthenticationProvider, round: nat, status: int, body: Bytes): (r: Result<bool, ExternalFault>)
    ensures p.NoAuthProvider? ==> r == Success(false)
  {
    match p
    case NoAuthProvider => Success(false)
    case CustomProvider(_, recover) => recover(round, status, body)
  }
}
