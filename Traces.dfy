/**
 * Runs of the token manager: sequences of serialized operations, the
 * invariant kept by every run whose starting store and reloads hold a
 * token together with its date, and the scenarios its callers depend on.
 */
module Traces {
  import opened Wrappers
  import opened AuthRequests
  import opened Lifecycle

  /** One serialized operation on the manager. */
  datatype Event =
    | TokenRequest(config: Config, now: int)
    | Reply(kind: GrantKind, reply: Response, now: int)
    | Login(config: Config, username: string, password: string)
    | Logout
    | ObtainAnonymous(usingSession: bool, anonymousId: Option<string>, config: Config, now: int)
    | ConfigChanged(config: Config, reloaded: StoredTokens)

  function Apply(r: Record, e: Event): Record {
    match e
    case TokenRequest(config, now) => ProcessTokenRequest(r, config, now).next
    case Reply(kind, reply, now) => CompleteGrant(r, kind, reply, now).next
    case Login(config, username, password) => LoginUser(r, config, username, password).next
    case Logout => LogoutUser(r)
    case ObtainAnonymous(usingSession, anonymousId, config, now) =>
      ObtainAnonymousToken(r, usingSession, anonymousId, config, now).next
    case ConfigChanged(config, reloaded) => UpdatedConfig(r, config, reloaded)
  }

  function Run(r: Record, events: seq<Event>): Record
    decreases |events|
  {
    if events == [] then r else Run(Apply(r, events[0]), events[1..])
  }

  /**
   * The (access token, validity date) pair an event hands the manager:
   * a successful reply's token, valid until 600 seconds before the server's
   * expiry, or the pair a reload finds in the store.
   */
  function Supplied(e: Event): set<(string, int)> {
    match e
    case Reply(_, Success(token, expiresIn, _), now) => {(token, now + expiresIn - ExpiryMargin)}
    case ConfigChanged(_, stored) => StoredPair(stored)
    case _ => {}
  }

  /** The (access token, validity date) pair a store holds, if it holds both. */
  function StoredPair(stored: StoredTokens): set<(string, int)> {
    if stored.accessToken.Some? && stored.tokenValidDate.Some? then
      {(stored.accessToken.value, stored.tokenValidDate.value)}
    else {}
  }

  function SuppliedBy(events: seq<Event>): set<(string, int)>
    decreases |events|
  {
    if events == [] then {} else Supplied(events[0]) + SuppliedBy(events[1..])
  }

  /** A token is held exactly when its validity date is. */
  predicate Paired(accessToken: Option<string>, tokenValidDate: Option<int>) {
    accessToken.Some? == tokenValidDate.Some?
  }

  /** Every reload in the run finds a consistent store. */
  predicate ReloadsPaired(events: seq<Event>) {
    forall i :: 0 <= i < |events| && events[i].ConfigChanged? ==>
      Paired(events[i].reloaded.accessToken, events[i].reloaded.tokenValidDate)
  }

  /**
   * The record holds a token only together with its date, and that pair is
   * one of `pairs`.
   */
  predicate HoldsOnly(r: Record, pairs: set<(string, int)>) {
    Paired(r.accessToken, r.tokenValidDate) &&
    (r.accessToken.Some? ==> (r.accessToken.value, r.tokenValidDate.value) in pairs)
  }

  /** One operation keeps `HoldsOnly`, adding what it was supplied. */
  lemma ApplyHoldsOnly(r: Record, e: Event, pairs: set<(string, int)>)
    requires HoldsOnly(r, pairs)
    requires e.ConfigChanged? ==> Paired(e.reloaded.accessToken, e.reloaded.tokenValidDate)
    ensures HoldsOnly(Apply(r, e), pairs + Supplied(e))
  {
  }

  /**
   * In every run whose starting record and reloads hold a token together
   * with its date, the manager never holds a token without its date, nor a
   * token and date that did not come together from one successful reply,
   * one reload of the store, or the starting record. Without that
   * hypothesis the claim fails: one reload of a token without a date
   * breaks the pairing.
   */
  lemma {:induction false} RunHoldsOnlySupplied(r: Record, events: seq<Event>, pairs: set<(string, int)>)
    requires HoldsOnly(r, pairs)
    requires ReloadsPaired(events)
    ensures HoldsOnly(Run(r, events), pairs + SuppliedBy(events))
    decreases |events|
  {
    if events != [] {
      ApplyHoldsOnly(r, events[0], pairs);
      assert ReloadsPaired(events[1..]) by {
        forall i | 0 <= i < |events[1..]| && events[1..][i].ConfigChanged?
          ensures Paired(events[1..][i].reloaded.accessToken, events[1..][i].reloaded.tokenValidDate)
        {
          assert events[1..][i] == events[i + 1];
        }
      }
      RunHoldsOnlySupplied(Apply(r, events[0]), events[1..], pairs + Supplied(events[0]));
      assert pairs + Supplied(events[0]) + SuppliedBy(events[1..]) == pairs + SuppliedBy(events);
    }
  }

  /**
   * After any run whose starting store and reloads hold a token together
   * with its date, a token handed out from the cache is still valid at
   * that moment and was supplied, with its date, by a reply or the store.
   */
  lemma CachedTokenWasSupplied(start: StoredTokens, events: seq<Event>, config: Config, now: int)
    requires Paired(start.accessToken, start.tokenValidDate)
    requires ReloadsPaired(events)
    requires ProcessTokenRequest(Run(Loaded(start), events), config, now).dispatch.Cached?
    ensures var r := Run(Loaded(start), events);
      var t := ProcessTokenRequest(r, config, now).dispatch.token;
      r.tokenValidDate.value > now &&
      (t, r.tokenValidDate.value) in StoredPair(start) + SuppliedBy(events)
  {
    RunHoldsOnlySupplied(Loaded(start), events, StoredPair(start));
  }

  // ---------------------------------------------------------------------
  // Scenarios

  /** A configuration from which every grant can be built. */
  predicate Complete(config: Config) {
    config.valid && config.authUrl.Some? && config.projectKey.Some? &&
    config.clientId.Some? && config.clientSecret.Some? && config.scope.Some?
  }

  /**
   * Asking twice while the token is valid: the second request is answered
   * from the cache with the same token and changes nothing.
   */
  lemma CachedTokenIsStable(r: Record, config: Config, now: int, later: int)
    requires ProcessTokenRequest(r, config, now).dispatch.Cached?
    requires later < r.tokenValidDate.value
    ensures var first := ProcessTokenRequest(r, config, now);
      ProcessTokenRequest(first.next, config, later) == first
  {
  }

  /**
   * A token just received is handed out from the cache until 600 seconds
   * before the server's expiry.
   */
  lemma FreshTokenIsCached(r: Record, kind: GrantKind, token: string, expiresIn: int,
                           refresh: Option<string>, now: int, config: Config, later: int)
    requires config.valid
    requires later < now + expiresIn - ExpiryMargin
    ensures var c := CompleteGrant(r, kind, Success(token, expiresIn, refresh), now);
      c.result == Token(token) &&
      ProcessTokenRequest(c.next, config, later).dispatch == Cached(token)
  {
  }

  /**
   * A fresh manager with an empty store, session mode off: the token
   * request sends a plain client-credentials grant; its success leaves
   * `PlainToken` with the token valid until `now + expiresIn - 600`.
   */
  lemma FirstTokenIsPlain(config: Config, sent: int, token: string, expiresIn: int, now: int)
    requires Complete(config)
    ensures var s := ProcessTokenRequest(Loaded(StoredTokens(None, None, None, None)), config, sent);
      s.dispatch.Send? && s.dispatch.request.kind == PlainGrant &&
      s.dispatch.request.url == ClientCredentialsUrl(config).value &&
      var c := CompleteGrant(s.next, PlainGrant, Success(token, expiresIn, None), now);
      c.next.state == PlainToken && c.next.accessToken == Some(token) &&
      c.next.tokenValidDate == Some(now + expiresIn - 600) && c.next.refreshToken.None?
  {
  }

  /**
   * An expired token with a refresh token held is refreshed, never
   * re-requested with a password; a rejection of the refresh (status above
   * 299 with an `error`) clears everything and reports the server's error.
   */
  lemma RejectedRefreshClearsRecord(r: Record, config: Config, now: int,
                                    status: int, error: string, description: Option<string>, later: int)
    requires Complete(config)
    requires r.refreshToken.Some? && !CacheHit(r, now)
    requires status > 299
    ensures var s := ProcessTokenRequest(r, config, now);
      s.dispatch.Send? && s.dispatch.request.kind == RefreshGrant &&
      s.dispatch.request.parameters["refresh_token"] == r.refreshToken.value &&
      var c := CompleteGrant(s.next, RefreshGrant, HttpError(status, error, description), later);
      NoCredentials(c.next) && c.next.reacquireRequested &&
      c.result == Failed(AccessTokenRetrievalFailed(error, description))
  {
  }

  /**
   * Logging in from an anonymous session drops that session's tokens
   * before the password grant, so after success only what the login reply
   * carries is held.
   */
  lemma LoginReplacesAnonymousSession(r: Record, config: Config, username: string, password: string,
                                      token: string, expiresIn: int, refresh: Option<string>, now: int)
    requires r.state == AnonymousToken
    ensures var s := LoginUser(r, config, username, password);
      NoCredentials(s.next) &&
      var c := CompleteGrant(s.next, PasswordGrant, Success(token, expiresIn, refresh), now);
      c.next.state == CustomerToken && c.next.accessToken == Some(token) && c.next.refreshToken == refresh
  {
  }

  /**
   * Asking for an anonymous session with an `anonymous_id` sends that id;
   * the success reply yields `AnonymousToken` and forgets the id.
   */
  lemma AnonymousIdSentOnce(r: Record, config: Config, id: string, sent: int,
                            token: string, expiresIn: int, refresh: Option<string>, now: int)
    requires Complete(config)
    ensures var s := ObtainAnonymousToken(r, true, Some(id), config, sent);
      s.dispatch.Send? && s.dispatch.request.kind == AnonymousSessionGrant &&
      "anonymous_id" in s.dispatch.request.parameters &&
      s.dispatch.request.parameters["anonymous_id"] == id &&
      var c := CompleteGrant(s.next, AnonymousSessionGrant, Success(token, expiresIn, refresh), now);
      c.next.state == AnonymousToken && c.next.anonymousId.None?
  {
  }

  /**
   * A transport failure keeps every credential, refresh token included,
   * and only sets `NoToken`; when it interrupted a cache miss, the next
   * token request sends the refresh grant again if a refresh token is held.
   */
  lemma TransientFailureKeepsCredentials(r: Record, config: Config, now: int,
                                         kind: GrantKind, underlying: Option<string>, later: int)
    requires Complete(config)
    requires !CacheHit(r, now)
    ensures var s := ProcessTokenRequest(r, config, now);
      var c := CompleteGrant(s.next, kind, Other(underlying), later);
      c.next.state == NoToken && c.result == Failed(TransportFailure(underlying)) &&
      c.next.refreshToken == r.refreshToken && c.next.accessToken.None? &&
      var retry := ProcessTokenRequest(c.next, config, later);
      retry.dispatch.Send? &&
      (retry.dispatch.request.kind == RefreshGrant <==> r.refreshToken.Some?)
  {
  }

  /**
   * The state tag and the credentials are not kept in step. A refresh
   * after a transport failure succeeds with the state still `NoToken`, and
   * the cache then hands out a live token under `NoToken`.
   */
  lemma LiveTokenUnderNoToken(r: Record, config: Config, now: int, token: string, expiresIn: int)
    requires Complete(config)
    requires r.state == CustomerToken && r.refreshToken.Some? && !CacheHit(r, now)
    requires expiresIn > ExpiryMargin
    ensures var run := Run(r, [TokenRequest(config, now), Reply(RefreshGrant, Other(None), now),
                               TokenRequest(config, now), Reply(RefreshGrant, Success(token, expiresIn, None), now)]);
      run.state == NoToken &&
      ProcessTokenRequest(run, config, now) == Step(run, Cached(token))
  {
    var r1 := Apply(r, TokenRequest(config, now));
    var r2 := Apply(r1, Reply(RefreshGrant, Other(None), now));
    assert r2.state == NoToken && r2.refreshToken == r.refreshToken && !CacheHit(r2, now);
    var r3 := Apply(r2, TokenRequest(config, now));
    var r4 := Apply(r3, Reply(RefreshGrant, Success(token, expiresIn, None), now));
    assert r4.state == NoToken && r4.refreshToken.Some?;
    var events := [TokenRequest(config, now), Reply(RefreshGrant, Other(None), now),
                   TokenRequest(config, now), Reply(RefreshGrant, Success(token, expiresIn, None), now)];
    assert Run(r4, events[4..]) == r4;
    assert Run(r3, events[3..]) == Run(r4, events[4..]);
    assert Run(r2, events[2..]) == Run(r3, events[3..]);
    assert Run(r1, events[1..]) == Run(r2, events[2..]);
    assert Run(r, events) == Run(r1, events[1..]);
    assert CacheHit(r4, now);
  }

  /**
   * A plain client-credentials reply that carries a refresh token has it
   * stored under `PlainToken`, and the next expired request refreshes.
   */
  lemma PlainTokenMayHoldRefreshToken(r: Record, token: string, expiresIn: int, refresh: string,
                                      now: int, config: Config, later: int)
    requires Complete(config)
    requires later >= now + expiresIn - ExpiryMargin
    ensures var c := CompleteGrant(r, PlainGrant, Success(token, expiresIn, Some(refresh)), now);
      c.next.state == PlainToken && c.next.refreshToken == Some(refresh) &&
      var s := ProcessTokenRequest(c.next, config, later);
      s.dispatch.Send? && s.dispatch.request.kind == RefreshGrant
  {
  }
}
