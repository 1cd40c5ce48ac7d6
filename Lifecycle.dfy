/**
 * The token manager's state as a value, and each of its operations as a
 * transition on that value. These functions are the specification the
 * `AuthManager` class is proved against.
 */
module Lifecycle {
  import opened Wrappers
  import opened AuthRequests

  /**
   * The manager's fields. `reacquireRequested` records that a logout queued
   * a background token request (the request itself runs later, as an
   * ordinary token request).
   */
  datatype Record = Record(
    state: TokenState,
    accessToken: Option<string>,
    refreshToken: Option<string>,
    tokenValidDate: Option<int>,
    usingAnonymousSession: bool,
    anonymousId: Option<string>,
    reacquireRequested: bool)

  /** What the token store holds for a project (its state may be absent). */
  datatype StoredTokens = StoredTokens(
    tokenState: Option<TokenState>,
    accessToken: Option<string>,
    refreshToken: Option<string>,
    tokenValidDate: Option<int>)

  /**
   * What a token request does right away:
   * - `Cached`: the completion handler gets the stored token, no request is sent;
   * - `Send`: a grant request goes out and its reply completes the request later;
   * - `Rejected`: the completion handler gets an error, nothing is sent;
   * - `Stalled`: a grant builder's guard failed, so nothing is sent and the
   *   completion handler is never called.
   */
  datatype Dispatch = Cached(token: string) | Send(request: GrantRequest) | Rejected(error: AuthError) | Stalled

  datatype Step = Step(next: Record, dispatch: Dispatch)
  datatype Completion = Completion(next: Record, result: TokenResult)

  const InvalidConfigurationReason := "invalid_configuration"
  const InvalidConfigurationDescription := "Cannot obtain access token without valid configuration present."

  /** Seconds taken off every server expiry, to allow for latency. */
  const ExpiryMargin := 600

  /** The state property falls back to `NoToken` when the store holds none. */
  function Loaded(stored: StoredTokens): (r: Record)
    ensures r.state == stored.tokenState.GetOr(NoToken)
    ensures r.accessToken == stored.accessToken && r.refreshToken == stored.refreshToken
    ensures r.tokenValidDate == stored.tokenValidDate
    ensures !r.usingAnonymousSession && r.anonymousId.None? && !r.reacquireRequested
  {
    Record(stored.tokenState.GetOr(NoToken), stored.accessToken, stored.refreshToken,
           stored.tokenValidDate, false, None, false)
  }

  /** The credential part of a record: everything `clearAllTokens` resets. */
  predicate NoCredentials(r: Record) {
    r.state == NoToken && r.accessToken.None? && r.refreshToken.None? && r.tokenValidDate.None?
  }

  /** The session preferences, which no clearing touches. */
  predicate SamePreferences(r: Record, r': Record) {
    r'.usingAnonymousSession == r.usingAnonymousSession && r'.anonymousId == r.anonymousId
  }

  /** `clearAllTokens`: forget every credential and the state. */
  function ClearAllTokens(r: Record): (r': Record)
    ensures NoCredentials(r') && SamePreferences(r, r')
    ensures r'.reacquireRequested == r.reacquireRequested
  {
    r.(state := NoToken, accessToken := None, refreshToken := None, tokenValidDate := None)
  }

  /** `logoutUser`: clear all tokens, then queue a fresh token request. */
  function LogoutUser(r: Record): (r': Record)
    ensures NoCredentials(r') && SamePreferences(r, r') && r'.reacquireRequested
  {
    ClearAllTokens(r).(reacquireRequested := true)
  }

  /** The cached token may be used: it exists and its validity date is strictly after `now`. */
  predicate CacheHit(r: Record, now: int) {
    r.accessToken.Some? && r.tokenValidDate.Some? && r.tokenValidDate.value > now
  }

  /** What a grant builder yields: the request, or nothing sent at all. */
  function Sent(g: Option<GrantRequest>): (d: Dispatch)
    ensures d.Send? <==> g.Some?
    ensures d.Send? ==> d.request == g.value
    ensures !d.Send? ==> d == Stalled
  {
    if g.Some? then Send(g.value) else Stalled
  }

  /**
   * The grant a token request sends on a cache miss: refresh whenever a
   * refresh token is held; otherwise the anonymous-session grant in session
   * mode and the plain grant outside it.
   */
  function GrantOnMiss(r: Record, config: Config): (g: Option<GrantRequest>)
    ensures r.refreshToken.Some? ==> g == RefreshRequest(config, r.refreshToken)
    ensures r.refreshToken.None? && r.usingAnonymousSession ==> g == AnonymousSessionRequest(config, r.anonymousId)
    ensures r.refreshToken.None? && !r.usingAnonymousSession ==> g == PlainRequest(config)
    ensures g.Some? ==> (g.value.kind == RefreshGrant <==> r.refreshToken.Some?)
    ensures g.Some? && r.refreshToken.None? ==>
      (g.value.kind == AnonymousSessionGrant <==> r.usingAnonymousSession) &&
      (g.value.kind == PlainGrant <==> !r.usingAnonymousSession)
  {
    if r.refreshToken.Some? then RefreshRequest(config, r.refreshToken)
    else if r.usingAnonymousSession then AnonymousSessionRequest(config, r.anonymousId)
    else PlainRequest(config)
  }

  /**
   * `processTokenRequest`. An invalid configuration is rejected with nothing
   * changed. A live cached token is handed out without a request; the state
   * becomes `PlainToken` only when no refresh token is held. Otherwise the
   * access token and its date are forgotten and `GrantOnMiss` is sent.
   */
  function ProcessTokenRequest(r: Record, config: Config, now: int): (s: Step)
    ensures !config.valid ==>
      s == Step(r, Rejected(ConfigurationValidationFailed(InvalidConfigurationReason, Some(InvalidConfigurationDescription))))
    ensures s.dispatch.Cached? <==> config.valid && CacheHit(r, now)
    ensures s.dispatch.Cached? ==>
      s.dispatch.token == r.accessToken.value && r.tokenValidDate.value > now &&
      s.next == (if r.refreshToken.None? then r.(state := PlainToken) else r)
    ensures config.valid && !CacheHit(r, now) ==>
      s.next == r.(accessToken := None, tokenValidDate := None) &&
      s.dispatch == Sent(GrantOnMiss(r, config))
  {
    if !config.valid then
      Step(r, Rejected(ConfigurationValidationFailed(InvalidConfigurationReason, Some(InvalidConfigurationDescription))))
    else if CacheHit(r, now) then
      Step(if r.refreshToken.None? then r.(state := PlainToken) else r, Cached(r.accessToken.value))
    else
      var missed := r.(accessToken := None, tokenValidDate := None);
      Step(missed, Sent(GrantOnMiss(r, config)))
  }

  /**
   * `handleAuthResponse`, the reply to a grant request received at `now`.
   * Success stores the token valid until `now + expiresIn - 600`, replaces
   * the refresh token only when the reply carries one, clears `anonymousId`
   * and keeps the state. A fatal reply logs out and reports the server's
   * error. Anything else sets the state to `NoToken` and keeps every
   * credential.
   */
  function HandleAuthResponse(r: Record, reply: Response, now: int): (c: Completion)
    ensures Classify(reply) == Succeeded ==>
      c.result == Token(reply.accessToken) &&
      c.next.accessToken == Some(reply.accessToken) &&
      c.next.tokenValidDate == Some(now + reply.expiresIn - ExpiryMargin) &&
      c.next.refreshToken == (if reply.refreshToken.Some? then reply.refreshToken else r.refreshToken) &&
      c.next.anonymousId.None? &&
      c.next.state == r.state && c.next.usingAnonymousSession == r.usingAnonymousSession &&
      c.next.reacquireRequested == r.reacquireRequested
    ensures Classify(reply) == Fatal ==>
      c.next == LogoutUser(r) &&
      c.result == Failed(AccessTokenRetrievalFailed(reply.error, reply.description))
    ensures Classify(reply) == Transient ==>
      c.next == r.(state := NoToken) &&
      c.result.Failed? && c.result.error.TransportFailure?
    ensures reply.Other? ==> c.result == Failed(TransportFailure(reply.underlying))
    ensures reply.HttpError? && reply.status <= 299 ==> c.result == Failed(TransportFailure(None))
  {
    match reply
    case Success(accessToken, expiresIn, refreshToken) =>
      var next := r.(anonymousId := None, accessToken := Some(accessToken),
                     tokenValidDate := Some(now + expiresIn - ExpiryMargin),
                     refreshToken := if refreshToken.Some? then refreshToken else r.refreshToken);
      Completion(next, Token(accessToken))
    case HttpError(status, error, description) =>
      if status > 299 then
        Completion(LogoutUser(r), Failed(AccessTokenRetrievalFailed(error, description)))
      else
        // the body parsed, so the transport reports no error of its own
        Completion(r.(state := NoToken), Failed(TransportFailure(None)))
    case Other(underlying) =>
      Completion(r.(state := NoToken), Failed(TransportFailure(underlying)))
  }

  /** The state a grant's reply handler sets before classifying the reply. */
  function GrantTag(kind: GrantKind, current: TokenState): TokenState {
    match kind
    case PasswordGrant => CustomerToken
    case AnonymousSessionGrant => AnonymousToken
    case PlainGrant => PlainToken
    case RefreshGrant => current
  }

  /**
   * The reply handler of each grant: tag the state (password: customer,
   * session: anonymous, plain: plain, refresh: unchanged), then handle the
   * reply. Only a successful reply keeps the tag; every failure ends in
   * `NoToken`. Apart from the state, the grant's reply has exactly the
   * effect `HandleAuthResponse` gives it.
   */
  function CompleteGrant(r: Record, kind: GrantKind, reply: Response, now: int): (c: Completion)
    ensures reply.Success? ==>
      (kind == PasswordGrant ==> c.next.state == CustomerToken) &&
      (kind == AnonymousSessionGrant ==> c.next.state == AnonymousToken) &&
      (kind == PlainGrant ==> c.next.state == PlainToken) &&
      (kind == RefreshGrant ==> c.next.state == r.state)
    ensures !reply.Success? ==> c.next.state == NoToken
    ensures c.result == HandleAuthResponse(r, reply, now).result
    ensures c.next.(state := r.state) == HandleAuthResponse(r, reply, now).next.(state := r.state)
  {
    HandleAuthResponse(r.(state := GrantTag(kind, r.state)), reply, now)
  }

  /**
   * `loginUser`: unless the state is `PlainToken`, log out first; then send
   * the password grant.
   */
  function LoginUser(r: Record, config: Config, username: string, password: string): (s: Step)
    ensures r.state != PlainToken ==> s.next == LogoutUser(r)
    ensures r.state == PlainToken ==> s.next == r
    ensures s.dispatch == Sent(PasswordRequest(config, username, password))
  {
    var r' := if r.state != PlainToken then LogoutUser(r) else r;
    Step(r', Sent(PasswordRequest(config, username, password)))
  }

  /**
   * The public `obtainAnonymousToken`: adopt the given `anonymous_id` and
   * session preference, clear all tokens, then run a token request. Here
   * that request runs at once, on the cleared record, so it is never
   * answered from the cache. The source queues it behind any work already
   * waiting, such as a token request queued by a logout; that earlier
   * request may store a token first and then answer this one from the cache.
   */
  function ObtainAnonymousToken(r: Record, usingSession: bool, anonymousId: Option<string>,
                                config: Config, now: int): (s: Step)
    ensures s.next.usingAnonymousSession == usingSession && s.next.anonymousId == anonymousId
    ensures NoCredentials(s.next) && s.next.reacquireRequested == r.reacquireRequested
    ensures !config.valid ==>
      s.dispatch == Rejected(ConfigurationValidationFailed(InvalidConfigurationReason, Some(InvalidConfigurationDescription)))
    ensures config.valid ==>
      s.dispatch == Sent(if usingSession then AnonymousSessionRequest(config, anonymousId) else PlainRequest(config))
  {
    var r' := ClearAllTokens(r.(anonymousId := anonymousId, usingAnonymousSession := usingSession));
    ProcessTokenRequest(r', config, now)
  }

  /** The combinations `updatedConfig` refuses to keep. */
  predicate Inconsistent(state: TokenState, usingAnonymousSession: bool) {
    (state == AnonymousToken && !usingAnonymousSession) || (state == PlainToken && usingAnonymousSession)
  }

  /**
   * `updatedConfig`: reload the credentials from the store, take the
   * session preference from a valid configuration (absent means off), and
   * log out when the reloaded state does not match that preference.
   */
  function UpdatedConfig(r: Record, config: Config, reloaded: StoredTokens): (r': Record)
    ensures r'.usingAnonymousSession ==
      (if config.valid then config.anonymousSession.GetOr(false) else r.usingAnonymousSession)
    ensures r'.anonymousId == r.anonymousId
    ensures Inconsistent(reloaded.tokenState.GetOr(NoToken), r'.usingAnonymousSession) ==>
      NoCredentials(r') && r'.reacquireRequested
    ensures !Inconsistent(reloaded.tokenState.GetOr(NoToken), r'.usingAnonymousSession) ==>
      r'.state == reloaded.tokenState.GetOr(NoToken) &&
      r'.accessToken == reloaded.accessToken && r'.refreshToken == reloaded.refreshToken &&
      r'.tokenValidDate == reloaded.tokenValidDate && r'.reacquireRequested == r.reacquireRequested
  {
    var r1 := r.(state := reloaded.tokenState.GetOr(NoToken), accessToken := reloaded.accessToken,
                 refreshToken := reloaded.refreshToken, tokenValidDate := reloaded.tokenValidDate);
    var r2 := if config.valid then r1.(usingAnonymousSession := config.anonymousSession.GetOr(false)) else r1;
    if Inconsistent(r2.state, r2.usingAnonymousSession) then LogoutUser(r2) else r2
  }
}
