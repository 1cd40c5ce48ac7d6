/**
 * The vocabulary of the OAuth token manager: its token states, the
 * configuration it reads, the grant requests it sends (OAuth 2.0, RFC 6749)
 * and the replies it classifies. Everything here is a value; the network
 * is replaced by the `Response` a request eventually receives.
 */
module AuthRequests {
  import opened Wrappers

  /** The identity the manager is currently handling tokens for. */
  datatype TokenState = CustomerToken | AnonymousToken | PlainToken | NoToken

  /**
   * The raw value of each state. Only the token store, which is not part
   * of this model, deals in raw values; the manager sees decoded states.
   */
  function RawValue(s: TokenState): int {
    match s
    case CustomerToken => 0
    case AnonymousToken => 1
    case PlainToken => 2
    case NoToken => 3
  }

  /** `TokenState(rawValue:)`: the state a persisted raw value denotes, if any. */
  function FromRawValue(raw: int): (s: Option<TokenState>)
    ensures s.Some? <==> 0 <= raw <= 3
    ensures s.Some? ==> RawValue(s.value) == raw
  {
    if raw == 0 then Some(CustomerToken)
    else if raw == 1 then Some(AnonymousToken)
    else if raw == 2 then Some(PlainToken)
    else if raw == 3 then Some(NoToken)
    else None
  }

  lemma RawValueRoundTrip(s: TokenState)
    ensures FromRawValue(RawValue(s)) == Some(s)
  {
  }

  /**
   * The current configuration as the manager sees it. `valid` stands for
   * "a current configuration exists and its own validation accepts it";
   * that validation is not part of this model, so it is an input.
   */
  datatype Config = Config(
    valid: bool,
    authUrl: Option<string>,
    projectKey: Option<string>,
    clientId: Option<string>,
    clientSecret: Option<string>,
    scope: Option<string>,
    anonymousSession: Option<bool>)

  // ---------------------------------------------------------------------
  // Endpoint URLs

  const TokenPath := "oauth/token"
  const OAuthPrefix := "oauth/"
  const AnonymousTokenSuffix := "/anonymous/token"
  const CustomersTokenSuffix := "/customers/token"

  /** The endpoint for the client-credentials and refresh-token grants. */
  function ClientCredentialsUrl(config: Config): (url: Option<string>)
    ensures url.Some? <==> config.valid && config.authUrl.Some?
    ensures url.Some? ==>
      var base := config.authUrl.value;
      |url.value| == |base| + |TokenPath| &&
      url.value[..|base|] == base && url.value[|base|..] == TokenPath
  {
    if config.valid && config.authUrl.Some? then Some(config.authUrl.value + TokenPath) else None
  }

  /** `{base}oauth/{projectKey}{suffix}`, the shape of both project-scoped endpoints. */
  function ProjectUrl(base: string, projectKey: string, suffix: string): (url: string)
    ensures |url| == |base| + |OAuthPrefix| + |projectKey| + |suffix|
    ensures url[..|base|] == base
    ensures url[|base|..|base| + |OAuthPrefix|] == OAuthPrefix
    ensures url[|base| + |OAuthPrefix|..|base| + |OAuthPrefix| + |projectKey|] == projectKey
    ensures url[|base| + |OAuthPrefix| + |projectKey|..] == suffix
  {
    base + OAuthPrefix + projectKey + suffix
  }

  /** The endpoint for the anonymous-session grant. */
  function AnonymousSessionTokenUrl(config: Config): (url: Option<string>)
    ensures url.Some? <==> config.valid && config.authUrl.Some? && config.projectKey.Some?
    ensures url.Some? ==>
      url.value == ProjectUrl(config.authUrl.value, config.projectKey.value, AnonymousTokenSuffix)
  {
    if config.valid && config.authUrl.Some? && config.projectKey.Some? then
      Some(ProjectUrl(config.authUrl.value, config.projectKey.value, AnonymousTokenSuffix))
    else None
  }

  /** The endpoint for the password grant. */
  function LoginUrl(config: Config): (url: Option<string>)
    ensures url.Some? <==> config.valid && config.authUrl.Some? && config.projectKey.Some?
    ensures url.Some? ==>
      url.value == ProjectUrl(config.authUrl.value, config.projectKey.value, CustomersTokenSuffix)
  {
    if config.valid && config.authUrl.Some? && config.projectKey.Some? then
      Some(ProjectUrl(config.authUrl.value, config.projectKey.value, CustomersTokenSuffix))
    else None
  }

  /** The three endpoints of one configuration are pairwise different. */
  lemma EndpointsDistinct(config: Config)
    requires config.valid && config.authUrl.Some? && config.projectKey.Some?
    ensures ClientCredentialsUrl(config).value != AnonymousSessionTokenUrl(config).value
    ensures ClientCredentialsUrl(config).value != LoginUrl(config).value
    ensures AnonymousSessionTokenUrl(config).value != LoginUrl(config).value
  {
  }

  /**
   * A project-scoped endpoint determines its project key: two projects
   * under one auth URL never share a session or login endpoint.
   */
  lemma ProjectUrlDeterminesKey(base: string, key1: string, key2: string, suffix: string)
    requires ProjectUrl(base, key1, suffix) == ProjectUrl(base, key2, suffix)
    ensures key1 == key2
  {
  }

  // ---------------------------------------------------------------------
  // Grant requests

  /** The four OAuth grants the manager can send. */
  datatype GrantKind =
    | PasswordGrant          // RFC 6749 section 4.3
    | AnonymousSessionGrant  // client credentials against the session endpoint
    | PlainGrant             // client credentials, RFC 6749 section 4.4
    | RefreshGrant           // RFC 6749 section 6

  /** A POST to `url` with URL-encoded `parameters`; the basic-auth header is not modelled. */
  datatype GrantRequest = GrantRequest(kind: GrantKind, url: string, parameters: map<string, string>)

  /**
   * Whether the basic-auth headers can be built: a valid configuration that
   * names a client id and a client secret.
   */
  predicate HasAuthHeaders(config: Config) {
    config.valid && config.clientId.Some? && config.clientSecret.Some?
  }

  /** The password grant for a customer login, when the configuration allows one. */
  function PasswordRequest(config: Config, username: string, password: string): (g: Option<GrantRequest>)
    ensures g.Some? <==> LoginUrl(config).Some? && HasAuthHeaders(config) && config.scope.Some?
    ensures g.Some? ==>
      g.value.kind == PasswordGrant && g.value.url == LoginUrl(config).value &&
      g.value.parameters.Keys == {"grant_type", "scope", "username", "password"} &&
      g.value.parameters["grant_type"] == "password" &&
      g.value.parameters["scope"] == config.scope.value &&
      g.value.parameters["username"] == username &&
      g.value.parameters["password"] == password
  {
    var url := LoginUrl(config);
    if url.Some? && HasAuthHeaders(config) && config.scope.Some? then
      Some(GrantRequest(PasswordGrant, url.value,
        map["grant_type" := "password", "scope" := config.scope.value,
            "username" := username, "password" := password]))
    else None
  }

  /**
   * The client-credentials grant against the anonymous-session endpoint; it
   * carries `anonymous_id` exactly when one is set.
   */
  function AnonymousSessionRequest(config: Config, anonymousId: Option<string>): (g: Option<GrantRequest>)
    ensures g.Some? <==> AnonymousSessionTokenUrl(config).Some? && HasAuthHeaders(config) && config.scope.Some?
    ensures g.Some? ==>
      g.value.kind == AnonymousSessionGrant && g.value.url == AnonymousSessionTokenUrl(config).value &&
      g.value.parameters.Keys ==
        (if anonymousId.Some? then {"grant_type", "scope", "anonymous_id"} else {"grant_type", "scope"}) &&
      g.value.parameters["grant_type"] == "client_credentials" &&
      g.value.parameters["scope"] == config.scope.value &&
      (anonymousId.Some? ==> g.value.parameters["anonymous_id"] == anonymousId.value)
  {
    var url := AnonymousSessionTokenUrl(config);
    if url.Some? && HasAuthHeaders(config) && config.scope.Some? then
      var parameters := map["grant_type" := "client_credentials", "scope" := config.scope.value];
      var parameters := if anonymousId.Some? then parameters["anonymous_id" := anonymousId.value] else parameters;
      Some(GrantRequest(AnonymousSessionGrant, url.value, parameters))
    else None
  }

  /** The plain client-credentials grant against the generic token endpoint. */
  function PlainRequest(config: Config): (g: Option<GrantRequest>)
    ensures g.Some? <==> ClientCredentialsUrl(config).Some? && HasAuthHeaders(config) && config.scope.Some?
    ensures g.Some? ==>
      g.value.kind == PlainGrant && g.value.url == ClientCredentialsUrl(config).value &&
      g.value.parameters.Keys == {"grant_type", "scope"} &&
      g.value.parameters["grant_type"] == "client_credentials" &&
      g.value.parameters["scope"] == config.scope.value
  {
    var url := ClientCredentialsUrl(config);
    if url.Some? && HasAuthHeaders(config) && config.scope.Some? then
      Some(GrantRequest(PlainGrant, url.value,
        map["grant_type" := "client_credentials", "scope" := config.scope.value]))
    else None
  }

  /** The refresh-token grant against the generic token endpoint; it needs no scope. */
  function RefreshRequest(config: Config, refreshToken: Option<string>): (g: Option<GrantRequest>)
    ensures g.Some? <==> ClientCredentialsUrl(config).Some? && HasAuthHeaders(config) && refreshToken.Some?
    ensures g.Some? ==>
      g.value.kind == RefreshGrant && g.value.url == ClientCredentialsUrl(config).value &&
      g.value.parameters.Keys == {"grant_type", "refresh_token"} &&
      g.value.parameters["grant_type"] == "refresh_token" &&
      g.value.parameters["refresh_token"] == refreshToken.value
  {
    var url := ClientCredentialsUrl(config);
    if url.Some? && HasAuthHeaders(config) && refreshToken.Some? then
      Some(GrantRequest(RefreshGrant, url.value,
        map["grant_type" := "refresh_token", "refresh_token" := refreshToken.value]))
    else None
  }

  // ---------------------------------------------------------------------
  // Replies

  /**
   * What a grant request eventually receives:
   * - `Success`: a JSON body with `access_token` and a numeric `expires_in`
   *   (whole seconds here), and maybe `refresh_token`;
   * - `HttpError`: a JSON body with an `error` field (and maybe
   *   `error_description`) under an HTTP status;
   * - `Other`: anything else (no response, a body without those fields),
   *   with the transport's own error when there is one.
   */
  datatype Response =
    | Success(accessToken: string, expiresIn: int, refreshToken: Option<string>)
    | HttpError(status: int, error: string, description: Option<string>)
    | Other(underlying: Option<string>)

  /** How the manager treats a reply. */
  datatype Classification = Succeeded | Fatal | Transient

  /**
   * A token reply succeeds; a reply with status above 299 and an `error`
   * field is fatal (RFC 6749 section 5.2); everything else, an error body
   * under a 2xx status included, is transient.
   */
  function Classify(reply: Response): (c: Classification)
    ensures c == Succeeded <==> reply.Success?
    ensures c == Fatal <==> reply.HttpError? && reply.status > 299
    ensures c == Transient <==> reply.Other? || (reply.HttpError? && reply.status <= 299)
  {
    match reply
    case Success(_, _, _) => Succeeded
    case HttpError(status, _, _) => if status > 299 then Fatal else Transient
    case Other(_) => Transient
  }

  /** The errors handed to a token request's caller. */
  datatype AuthError =
    | ConfigurationValidationFailed(failureReason: string, description: Option<string>)
    | AccessTokenRetrievalFailed(failureReason: string, description: Option<string>)
    | TransportFailure(underlying: Option<string>)

  /** What a token request's completion handler receives. */
  datatype TokenResult = Token(value: string) | Failed(error: AuthError)
}
