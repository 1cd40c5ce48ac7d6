# OAuth token manager of the commercetools iOS SDK, in Dafny

This project models the core of the SDK's `AuthManager`: the object that obtains, caches, refreshes
and drops the OAuth 2.0 bearer tokens (RFC 6749) the SDK attaches to every API call. It has four
token states (customer, anonymous session, plain client-credentials token, no token). It chooses
between the password grant (RFC 6749 section 4.3), the client-credentials grant (section 4.4) against
either the generic or the anonymous-session endpoint, and the refresh grant (section 6). It sorts every
reply into success, fatal rejection (a status above 299 with an `error` field, section 5.2) and
transient failure. The project also models the query-parameter builder of the `QueryEndpoint` protocol.

Layout:

- `Wrappers.dfy`: `Option`, standing for Swift optionals.
- `AuthRequests.dfy`: token states, the configuration as the manager reads it, the endpoint URLs,
  the four grant requests as descriptors (grant kind, URL, parameters), the reply type and its
  classification.
- `Lifecycle.dfy`: the manager's fields as a `Record` value, and each operation as a transition on it.
  These transitions are the specification.
- `AuthManager.dfy`: the class `AuthManager`, whose methods assign the fields in the source's order.
  Each method is proved to have exactly the effect of its `Lifecycle` transition.
- `Traces.dfy`: runs of serialized operations. It holds the invariant kept by every run whose starting
  store and reloads hold a token together with its date, and the caller-visible scenarios.
- `QueryEndpoint.dfy`: `QueryParameters`.

The network is an input. A token request returns a `Dispatch`, which is one of:

- `Cached(token)`: the stored token is handed out;
- `Send(request)`: a grant request goes out;
- `Rejected(error)`: the configuration is invalid;
- `Stalled`: a grant builder's guard failed, so nothing is sent and the completion handler is never called.

The reply to a sent request arrives later through `CompleteGrant(kind, reply, now)`. Time is a whole
number of seconds passed in as `now`.

Facts the model makes explicit:

- The password grant goes to the project-scoped `oauth/{projectKey}/customers/token`
  (AuthManager.swift:100).
- The state tag and the stored credentials are not kept in step. A transport failure sets `NoToken` and
  keeps the refresh token. A refresh that later succeeds leaves `NoToken` in place while a live token is
  handed out (`LiveTokenUnderNoToken`).
- A plain client-credentials reply that carries a refresh token has it stored under `PlainToken`
  (`PlainTokenMayHoldRefreshToken`).
- An invariant holds in every run whose starting store and reloads hold a token together with its
  date. In such a run a token is held exactly when its validity date is. That pair came together from
  one successful reply (date = receipt time + `expires_in` − 600) or from the store
  (`RunHoldsOnlySupplied`). The source does not guarantee such a store: the token store is not part of
  this model, and the token and its date are written to it separately (AuthManager.swift:249-250,
  327-329).
- When a grant builder's guard fails, for example because there is no scope, nothing is sent and the
  completion handler is never called (`Stalled`). Whether a valid configuration can lack these values
  depends on `Config.validate()`, which is not part of this model. In the source, `token` and
  `loginUser` then wait on their semaphore forever (AuthManager.swift:156, 216). The serial queue
  hangs, and so does every later token request.
- A reply with an `error` body under a status of 299 or less is transient, not fatal. Its caller
  receives no underlying transport error (`TransportFailure(None)`).

## Model

| member | source | states |
|---|---|---|
| AuthRequests.FromRawValue | Source/AuthManager.swift:21-26 | a raw value denotes a state iff it is 0..3, and then that state's raw value is it |
| AuthRequests.RawValueRoundTrip | Source/AuthManager.swift:21-26 | every state is recovered from its raw value |
| AuthRequests.ClientCredentialsUrl | Source/AuthManager.swift:80-85 | defined iff the configuration is valid and has an auth URL; then it is that URL followed by `oauth/token` |
| AuthRequests.ProjectUrl | Source/AuthManager.swift:88-104 | a project endpoint is base, `oauth/`, project key, suffix, each at its own offset |
| AuthRequests.AnonymousSessionTokenUrl | Source/AuthManager.swift:88-94 | defined iff valid with auth URL and project key; then `{base}oauth/{key}/anonymous/token` |
| AuthRequests.LoginUrl | Source/AuthManager.swift:97-104 | defined iff valid with auth URL and project key; then `{base}oauth/{key}/customers/token` |
| AuthRequests.EndpointsDistinct | Source/AuthManager.swift:80-104 | the client-credentials, anonymous-session and login endpoints are pairwise different |
| AuthRequests.ProjectUrlDeterminesKey | Source/AuthManager.swift:88-104 | two project keys giving the same endpoint under one base are equal |
| AuthRequests.PasswordRequest | Source/AuthManager.swift:265-267 | sent iff login URL, auth headers and scope exist; grant_type password with scope, username, password and no other parameter |
| AuthRequests.AnonymousSessionRequest | Source/AuthManager.swift:279-286 | sent iff session URL, auth headers and scope exist; client_credentials with scope, plus `anonymous_id` exactly when one is set |
| AuthRequests.PlainRequest | Source/AuthManager.swift:294-296 | sent iff token URL, auth headers and scope exist; client_credentials with scope only |
| AuthRequests.RefreshRequest | Source/AuthManager.swift:304-306 | sent iff token URL, auth headers and a refresh token exist; grant_type refresh_token carrying that token, no scope |
| AuthRequests.Classify | Source/AuthManager.swift:320-345 | success iff a token reply; fatal iff an error body with status > 299; transient otherwise (2xx error bodies included) |
| Lifecycle.Loaded | Source/AuthManager.swift:37-77 | fields read from the store, state defaulting to NoToken, session mode off, no anonymous id |
| Lifecycle.ClearAllTokens | Source/AuthManager.swift:313-318 | state NoToken and every credential cleared; session preference and anonymous id kept |
| Lifecycle.LogoutUser | Source/AuthManager.swift:164-174 | clears all tokens and records that a fresh token request was queued |
| Lifecycle.Sent | Source/AuthManager.swift:265-273 | a builder whose guard fails sends nothing and leaves the request stalled |
| Lifecycle.GrantOnMiss | Source/AuthManager.swift:252-256 | refresh iff a refresh token is held; otherwise session grant iff session mode, plain grant iff not |
| Lifecycle.ProcessTokenRequest | Source/AuthManager.swift:240-263 | invalid config: invalid_configuration error, nothing changed; cached iff valid token dated after now (state Plain only without refresh token); else token and date cleared and GrantOnMiss sent |
| Lifecycle.HandleAuthResponse | Source/AuthManager.swift:320-345 | success stores token, date now+expiresIn−600, new refresh token only if sent, clears anonymous id; fatal logs out with server error/description; transient sets NoToken, credentials kept |
| Lifecycle.CompleteGrant | Source/AuthManager.swift:265-311 | on success password→Customer, session→Anonymous, plain→Plain, refresh keeps state; failures end NoToken; otherwise exactly HandleAuthResponse |
| Lifecycle.LoginUser | Source/AuthManager.swift:144-158 | logs out first iff the state is not PlainToken; always sends the password grant |
| Lifecycle.ObtainAnonymousToken | Source/AuthManager.swift:186-197 | sets anonymous id and session flag, clears all tokens, then sends the session or plain grant; its token request is modelled as running at once on the cleared record, so it is not answered from the cache |
| Lifecycle.UpdatedConfig | Source/AuthManager.swift:225-236 | reloads credentials, takes the session flag from a valid config, logs out iff (Anonymous ∧ ¬session) ∨ (Plain ∧ session) |
| Auth.AuthManager.constructor | Source/AuthManager.swift:107-130 | the manager starts from the store's record |
| Auth.AuthManager.ClearAllTokens | Source/AuthManager.swift:313-318 | fields become Lifecycle.ClearAllTokens of the old fields |
| Auth.AuthManager.LogoutUser | Source/AuthManager.swift:164-174 | fields become Lifecycle.LogoutUser of the old fields |
| Auth.AuthManager.LoginUser | Source/AuthManager.swift:144-158 | new fields and dispatch are Lifecycle.LoginUser of the old fields |
| Auth.AuthManager.ObtainAnonymousToken | Source/AuthManager.swift:186-197 | new fields and dispatch are Lifecycle.ObtainAnonymousToken of the old fields |
| Auth.AuthManager.UpdatedConfig | Source/AuthManager.swift:225-236 | fields become Lifecycle.UpdatedConfig of the old fields |
| Auth.AuthManager.ProcessTokenRequest | Source/AuthManager.swift:240-263 | new fields and dispatch are Lifecycle.ProcessTokenRequest of the old fields |
| Auth.AuthManager.CompleteGrant | Source/AuthManager.swift:265-311 | new fields and result are Lifecycle.CompleteGrant of the old fields |
| Auth.AuthManager.HandleAuthResponse | Source/AuthManager.swift:320-345 | new fields and result are Lifecycle.HandleAuthResponse of the old fields |
| Traces.ApplyHoldsOnly | Source/AuthManager.swift:240-345 | one operation keeps token and date paired and drawn from what was supplied |
| Traces.RunHoldsOnlySupplied | Source/AuthManager.swift:248-250 | in every run whose starting record and reloads hold a token together with its date, a token is held iff its date is, and the pair came from one success reply, one reload or the start |
| Traces.CachedTokenWasSupplied | Source/AuthManager.swift:242-246 | after any run whose starting store and reloads hold a token together with its date, a cached token is dated after now and was supplied with that date |
| Traces.CachedTokenIsStable | Source/AuthManager.swift:242-246 | a second request while the token is valid returns the same token and changes nothing |
| Traces.FreshTokenIsCached | Source/AuthManager.swift:326-329 | a token just received is served from the cache until 600 s before server expiry |
| Traces.FirstTokenIsPlain | Source/AuthManager.swift:294-300 | empty store, session off: the plain grant is sent; success gives PlainToken valid until now+expiresIn−600 |
| Traces.RejectedRefreshClearsRecord | Source/AuthManager.swift:332-339 | an expired token with a refresh token sends a refresh grant; a >299 rejection clears everything and reports the server's error |
| Traces.LoginReplacesAnonymousSession | Source/AuthManager.swift:149-152 | login from an anonymous session clears it first; success leaves Customer with only the login reply's tokens |
| Traces.AnonymousIdSentOnce | Source/AuthManager.swift:279-290 | a session request with an id sends `anonymous_id`; success gives AnonymousToken and forgets the id |
| Traces.TransientFailureKeepsCredentials | Source/AuthManager.swift:340-343 | a transport failure keeps the refresh token and sets NoToken; the retry refreshes iff a refresh token is held |
| Traces.LiveTokenUnderNoToken | Source/AuthManager.swift:304-311 | a refresh succeeding after a transport failure leaves NoToken while the cache hands out a live token |
| Traces.PlainTokenMayHoldRefreshToken | Source/AuthManager.swift:294-300 | a plain reply with a refresh token stores it under PlainToken; the next expired request refreshes |
| QueryEndpoint.QueryParameters | Source/QueryEndpoint.swift:67-84 | `where`/`sort` present iff non-empty, mapping to the list; `limit`/`offset` present iff given (0 included); no other keys; empty map when nothing is given |

## Left out

- HTTP requests and JSON decoding (Alamofire) are not modelled. A reply is the input value `Response`.
  `expires_in` is whole seconds, where the source decodes a `Double`.
- The serial dispatch queue and the semaphores are not modelled, and operations run one after another.
  Two of them queue a token request: the one `logoutUser` queues appears only as the
  `reacquireRequested` flag, and it runs later as an ordinary token request. `obtainAnonymousToken` runs
  its token request at once, on the cleared record. In the source, that request is queued
  (AuthManager.swift:193, 207-210) behind any work already waiting, such as a reacquire queued by a
  logout. That earlier request may store a token first and then answer this one from the cache. The
  model does not capture that ordering.
- The `token` wrapper (AuthManager.swift:207-218) only queues `processTokenRequest`, which is modelled.
- Auth.AuthManager.HandleAuthResponse: on success the source calls the completion handler before it
  stores the token. That ordering only matters under concurrency and is not captured.
- The basic-auth header (AuthManager.swift:110-120) is not built. Only the condition for it to exist is
  modelled (`HasAuthHeaders`); its base64 encoding depends on Foundation.
- The token store's persistence, `reloadTokens`, `Config.validate()` and logging are not part of this
  model. Configuration validity and reloaded records are inputs.
- `sharedInstance` is not modelled: the model is one manager object.
- `query`, `byKey`, `updateByKey` and `QueryResponse` decoding are not modelled. They are wrappers over
  request helpers that are not part of this model, plus network I/O and library mapping.
  `Endpoints/Order.swift` holds only a path constant.
- QueryEndpoint.QueryParameters: `limit` and `offset` are unbounded naturals. The source's `UInt` width
  plays no part in building the map.
