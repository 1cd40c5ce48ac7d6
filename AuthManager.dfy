/**
 * The token manager as the object it is: fields assigned one after another
 * by each operation. Each method is proved to have exactly the effect of
 * the matching transition in `Lifecycle`. Operations are taken as already
 * serialized; a grant's reply arrives through `CompleteGrant`.
 */
module Auth {
  import opened Wrappers
  import opened AuthRequests
  import opened Lifecycle

  class AuthManager {
    var state: TokenState
    var accessToken: Option<string>
    var refreshToken: Option<string>
    var tokenValidDate: Option<int>
    var usingAnonymousSession: bool
    var anonymousId: Option<string>
    var reacquireRequested: bool

    /** The manager's fields as one value. */
    function Snapshot(): Record
      reads this
    {
      Record(state, accessToken, refreshToken, tokenValidDate, usingAnonymousSession,
             anonymousId, reacquireRequested)
    }

    /** A manager over what the token store currently holds. */
    constructor (stored: StoredTokens)
      ensures Snapshot() == Loaded(stored)
    {
      state := stored.tokenState.GetOr(NoToken);
      accessToken := stored.accessToken;
      refreshToken := stored.refreshToken;
      tokenValidDate := stored.tokenValidDate;
      usingAnonymousSession := false;
      anonymousId := None;
      reacquireRequested := false;
    }

    method ClearAllTokens()
      modifies this
      ensures Snapshot() == Lifecycle.ClearAllTokens(old(Snapshot()))
    {
      accessToken := None;
      refreshToken := None;
      tokenValidDate := None;
      state := NoToken;
    }

    method LogoutUser()
      modifies this
      ensures Snapshot() == Lifecycle.LogoutUser(old(Snapshot()))
    {
      ClearAllTokens();
      reacquireRequested := true;
    }

    method LoginUser(config: Config, username: string, password: string) returns (d: Dispatch)
      modifies this
      ensures Step(Snapshot(), d) == Lifecycle.LoginUser(old(Snapshot()), config, username, password)
    {
      if state != PlainToken {
        LogoutUser();
      }
      d := Sent(PasswordRequest(config, username, password));
    }

    method ObtainAnonymousToken(usingSession: bool, anonymousId: Option<string>, config: Config, now: int)
      returns (d: Dispatch)
      modifies this
      ensures Step(Snapshot(), d) ==
        Lifecycle.ObtainAnonymousToken(old(Snapshot()), usingSession, anonymousId, config, now)
    {
      this.anonymousId := anonymousId;
      usingAnonymousSession := usingSession;
      ClearAllTokens();
      d := ProcessTokenRequest(config, now);
    }

    method UpdatedConfig(config: Config, reloaded: StoredTokens)
      modifies this
      ensures Snapshot() == Lifecycle.UpdatedConfig(old(Snapshot()), config, reloaded)
    {
      state := reloaded.tokenState.GetOr(NoToken);
      accessToken := reloaded.accessToken;
      refreshToken := reloaded.refreshToken;
      tokenValidDate := reloaded.tokenValidDate;
      if config.valid {
        usingAnonymousSession := config.anonymousSession.GetOr(false);
      }
      if (state == AnonymousToken && !usingAnonymousSession) || (state == PlainToken && usingAnonymousSession) {
        LogoutUser();
      }
    }

    method ProcessTokenRequest(config: Config, now: int) returns (d: Dispatch)
      modifies this
      ensures Step(Snapshot(), d) == Lifecycle.ProcessTokenRequest(old(Snapshot()), config, now)
    {
      if config.valid {
        if accessToken.Some? && tokenValidDate.Some? && tokenValidDate.value > now {
          if refreshToken.None? {
            state := PlainToken;
          }
          d := Cached(accessToken.value);
        } else {
          accessToken := None;
          tokenValidDate := None;
          if refreshToken.Some? {
            d := Sent(RefreshRequest(config, refreshToken));
          } else if usingAnonymousSession {
            d := Sent(AnonymousSessionRequest(config, anonymousId));
          } else {
            d := Sent(PlainRequest(config));
          }
        }
      } else {
        d := Rejected(ConfigurationValidationFailed(InvalidConfigurationReason,
                                                    Some(InvalidConfigurationDescription)));
      }
    }

    /** The reply handler installed by a grant of the given kind. */
    method CompleteGrant(kind: GrantKind, reply: Response, now: int) returns (result: TokenResult)
      modifies this
      ensures Completion(Snapshot(), result) == Lifecycle.CompleteGrant(old(Snapshot()), kind, reply, now)
    {
      match kind {
        case PasswordGrant => state := CustomerToken;
        case AnonymousSessionGrant => state := AnonymousToken;
        case PlainGrant => state := PlainToken;
        case RefreshGrant =>
      }
      result := HandleAuthResponse(reply, now);
    }

    method HandleAuthResponse(reply: Response, now: int) returns (result: TokenResult)
      modifies this
      ensures Completion(Snapshot(), result) == Lifecycle.HandleAuthResponse(old(Snapshot()), reply, now)
    {
      match reply {
        case Success(token, expiresIn, newRefreshToken) =>
          anonymousId := None;
          result := Token(token);
          accessToken := Some(token);
          tokenValidDate := Some(now + expiresIn - ExpiryMargin);
          if newRefreshToken.Some? {
            refreshToken := newRefreshToken;
          }
        case HttpError(status, error, description) =>
          if status > 299 {
            LogoutUser();
            result := Failed(AccessTokenRetrievalFailed(error, description));
          } else {
            state := NoToken;
            result := Failed(TransportFailure(None));
          }
        case Other(underlying) =>
          state := NoToken;
          result := Failed(TransportFailure(underlying));
      }
    }
  }
}
