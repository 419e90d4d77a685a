# Garmin MCP remote server: OAuth provider and session layer in Dafny

This project models the part of the Garmin MCP server that lets a downstream MCP
client (a chat assistant, say) act for a human's Garmin Connect account. It has three parts.

**The OAuth2 authorization server** (`GarminOAuthProvider`, module `OAuth`).
- Dynamic client registration.
- `authorize`, which stores a login placeholder under a fresh state token.
- The credential and MFA callbacks. They log in upstream and turn the placeholder into a
  five-minute authorization code.
- Code exchange, refresh-token rotation, token loading and revocation.

Its tables become maps on the provider object:
- `oauth_clients`;
- `users`;
- `auth_codes`;
- `access_tokens`;
- `refresh_tokens`;
- the in-memory pending-MFA registry.

Read-only queries are functions of one table. Operations that insert or delete rows are
methods whose contracts state the new tables in full.

**The session layer** (`SessionManager` and `_CachedClient`, module `Sessions`).
- A one-hour cache of logged-in Garmin clients per user.
- A map from issued access tokens to user ids.
- One token directory per user, modelled as a map from user id to the stored tokens.

Its invariant is that every cached client was logged in with the tokens stored for its
user. `CreateSessionFromGarthTokens` keeps that invariant by evicting the cache entry.

**The client resolver** (`client_resolver.py`, module `Resolver`).
- Its two module globals become the fields of one object.
- `Resolve` states what `get_client` returns. A request whose access token maps to a user
  gets that user's client or the "re-authenticate" error, and never falls back to the global
  client. Any other request gets the global client or the "not available" error.

**Shared helpers.**
- Module `ScopeCodec` holds the scope encoding (`",".join` / `split(",")`) with its exact
  round-trip domain.
- Module `Text` holds `str.strip` and `str.rstrip("/")`.
- Module `Scenarios` holds verified end-to-end flows on concrete values, each ending in the outcome the server promises.

**Inputs the model takes as parameters.**
- The clock is an integer `now`, with one instant per call.
- Every freshly generated secret is a parameter that no table holds yet (`Unused`).
- Upstream calls are oracle parameters:
  - `garth.sso.login` is a `LoginResult`;
  - `resume_login` is a `ResumeResult`;
  - `Garmin().login(token_dir)` is a boolean `restoreSucceeds`;
  - the credential login of `create_session` is an `Option<GarthTokens>`.

Python truthiness is modelled where the code relies on it:
- `if user_id` is a present, non-empty id;
- a refresh token whose `expires_at` is 0 behaves like NULL.

## Model

| member | source | states |
|---|---|---|
| Text.Strip | src/garmin_mcp/oauth_provider.py:686 | the stripped MFA code is a slice of the submitted one. Everything cut from either end is whitespace, and what is left is empty or starts and ends with a non-whitespace character |
| Text.StripBlank | src/garmin_mcp/oauth_provider.py:686-689 | a submitted MFA code counts as missing exactly when every character of it is whitespace |
| Text.StripIdempotent | src/garmin_mcp/oauth_provider.py:686 | stripping an already stripped code changes nothing |
| Text.RStrip | src/garmin_mcp/oauth_provider.py:61 | the stored server URL is a prefix of the configured one. Only `/` characters were removed, and it does not end in `/` |
| Text.RStripOne | src/garmin_mcp/oauth_provider.py:61 | a URL with one trailing slash is stored without it |
| ScopeCodec.EncodeScopes | src/garmin_mcp/oauth_provider.py:290 | the stored column is empty exactly for no scopes or for a single empty scope |
| ScopeCodec.DecodeScopes | src/garmin_mcp/oauth_provider.py:319 | the empty column decodes to no scopes and is the only string that does; no decoded scope contains a comma |
| ScopeCodec.SplitJoin | src/garmin_mcp/oauth_provider.py:319 | splitting a join of comma-free pieces gives the pieces back |
| ScopeCodec.JoinSplit | src/garmin_mcp/oauth_provider.py:290 | joining the pieces of a split gives the string back |
| ScopeCodec.ScopesRoundTrip | src/garmin_mcp/oauth_provider.py:290 | decoding the stored column gives back the stored list whenever every scope is non-empty and comma-free (the empty list included) |
| ScopeCodec.ScopesRoundTripExactly | src/garmin_mcp/oauth_provider.py:357 | for comma-free scopes the round trip fails exactly for the list holding one empty scope |
| ScopeCodec.EncodeDecode | src/garmin_mcp/oauth_provider.py:402 | re-encoding a decoded column reproduces the column |
| ScopeCodec.CommaScopeSplits | src/garmin_mcp/oauth_provider.py:424 | a scope containing a comma comes back as two scopes |
| ScopeCodec.EncodeNonEmpty | src/garmin_mcp/oauth_provider.py:368 | a list whose first scope is non-empty never encodes to the empty column |
| Sessions.CachedClient.IsExpired | src/garmin_mcp/session_manager.py:147-148 | an entry expires strictly after its expiry instant, so it is still served at that instant (see `NewCachedClient` and `ExpiryIsPermanent`) |
| Sessions.NewCachedClient | src/garmin_mcp/session_manager.py:143-148 | a client cached at `now` is still served at `now + ttl` and expired one second later |
| Sessions.ExpiryIsPermanent | src/garmin_mcp/session_manager.py:147-148 | once a cache entry has expired it stays expired |
| Sessions.SessionManager.constructor | src/garmin_mcp/session_manager.py:24-29 | a new manager has an empty cache and token map over the token directories already on disk |
| Sessions.SessionManager.GetUserIdForToken | src/garmin_mcp/session_manager.py:31-33 | a token maps to a user exactly when a mapping was recorded for it, and to that user |
| Sessions.SessionManager.SetTokenUserMapping | src/garmin_mcp/session_manager.py:35-37 | after the call the token maps to the user (last write wins) and every other token keeps its mapping |
| Sessions.SessionManager.CacheHit | src/garmin_mcp/session_manager.py:48-52 | the cache serves a user exactly when it holds an entry for the user that has not expired |
| Sessions.SessionManager.ClientFor | src/garmin_mcp/session_manager.py:43-65 | a returned client carries the tokens stored for that user. There is no client exactly when the cache misses and there is either no directory or the restore fails. A live entry is served as cached |
| Sessions.SessionManager.GetClient | src/garmin_mcp/session_manager.py:43-65 | returns `ClientFor`. A hit or a failed restore leaves the cache as it was, an expired entry included. A successful restore caches the client for an hour |
| Sessions.SessionManager.CreateSession | src/garmin_mcp/session_manager.py:67-87 | a failed login changes nothing. A successful one stores its tokens for the user and caches its client for an hour |
| Sessions.SessionManager.CreateSessionFromGarthTokens | src/garmin_mcp/session_manager.py:89-111 | stores the new tokens and evicts the cached client. The user then has a session, no cache hit is possible, and the next restore yields the new tokens |
| Sessions.SessionManager.RemoveSession | src/garmin_mcp/session_manager.py:113-132 | the user is in neither the cache nor the directories. The result is true exactly when the user was in at least one of them |
| Sessions.SessionManager.HasSession | src/garmin_mcp/session_manager.py:134-137 | true exactly when the user has a token directory; the cache plays no part |
| OAuth.GetClient | src/garmin_mcp/oauth_provider.py:246-259 | a client is returned exactly when it is registered, with its registered metadata |
| OAuth.LoadAuthorizationCode | src/garmin_mcp/oauth_provider.py:304-328 | a code loads exactly when its row exists, belongs to the asking client, has a user and has not expired. What loads carries the row's decoded scopes, challenge, redirect URI, flag and expiry |
| OAuth.FindAccessToken | src/garmin_mcp/oauth_provider.py:387-406 | a token loads exactly when it exists and has not expired, with the row's client id and decoded scopes |
| OAuth.HasExpiry | src/garmin_mcp/oauth_provider.py:419 | a refresh row has an expiry only when its column is set and non-zero, Python's truthiness of `expires_at` |
| OAuth.LoadRefreshToken | src/garmin_mcp/oauth_provider.py:408-428 | a token loads exactly when it exists for the asking client and has no expiry (NULL or 0) or has not reached it. A NULL expiry always loads and comes back as None |
| OAuth.PendingMfa.IsExpired | src/garmin_mcp/oauth_provider.py:50-51 | a pending MFA entry expires once more than 300 seconds have passed since it was stored; at exactly 300 it is still live (see `Scenarios.MfaExpiry`) |
| OAuth.Granted | src/garmin_mcp/oauth_provider.py:452 | a refresh grants the requested scopes, and the old token's scopes when the request names none (see `ExchangeRefreshToken`) |
| OAuth.MintedTokensLoad | src/garmin_mcp/oauth_provider.py:345-406 | a token pair written with plain scopes loads back at the minting instant: the access token with the client id and the scopes, the refresh token with the scopes |
| OAuth.MfaPageFor | src/garmin_mcp/oauth_provider.py:632-641 | the MFA form is shown exactly when a live entry is pending for the state; otherwise "Session expired" |
| OAuth.CompleteAuthorization | src/garmin_mcp/oauth_provider.py:163-236 | an unexpired placeholder becomes a fresh code for the user. The code copies the request, lives five minutes and redirects with the client's state, and the placeholder is gone. Any other row, or none, answers "Authorization expired" and leaves the table as it was |
| OAuth.CompletedCodeLoads | src/garmin_mcp/oauth_provider.py:216-226 | the code minted by a completion loads for its client until it expires, with the requested scopes, challenge and redirect URI |
| OAuth.CompletionIsSingleUse | src/garmin_mcp/oauth_provider.py:166-184 | completing a state token a second time answers "Authorization expired" and changes nothing |
| OAuth.UpsertUser | src/garmin_mcp/oauth_provider.py:143-161 | the returned id is registered for the email. A known email leaves the table unchanged; an unknown one registers the fresh id |
| OAuth.GarminOAuthProvider.constructor | src/garmin_mcp/oauth_provider.py:59-64 | the server URL is stored without trailing slashes. The tables are those already in the database file, which may hold a previous run's rows, and only the in-memory MFA registry starts empty |
| OAuth.GarminOAuthProvider.GetOrCreateUser | src/garmin_mcp/oauth_provider.py:143-161 | performs `UpsertUser` and keeps emails unique |
| OAuth.GarminOAuthProvider.CompleteAuthFlow | src/garmin_mcp/oauth_provider.py:163-236 | the new auth-code table and the response are those of `CompleteAuthorization` |
| OAuth.GarminOAuthProvider.CleanupExpiredMfa | src/garmin_mcp/oauth_provider.py:238-242 | exactly the expired pending entries are removed and the others are kept unchanged |
| OAuth.GarminOAuthProvider.RegisterClient | src/garmin_mcp/oauth_provider.py:261-272 | the last registration under a client id is the one served; other clients are untouched |
| OAuth.GarminOAuthProvider.Authorize | src/garmin_mcp/oauth_provider.py:274-302 | inserts exactly one placeholder under the fresh state, with no user and a 900-second expiry. It copies the client, the encoded scopes, the challenge and the client's state, and returns `server_url/login?state=…`. The placeholder never loads as a code and stays completable for 900 seconds |
| OAuth.GarminOAuthProvider.IssueTokens | src/garmin_mcp/oauth_provider.py:345-385 | inserts one access token (3600 s) and one refresh token (30 days) for the client, user and scopes. It maps the access token to a present user and reports `expires_in` 3600. For plain scopes both tokens load back with the same scopes |
| OAuth.GarminOAuthProvider.ExchangeAuthorizationCode | src/garmin_mcp/oauth_provider.py:330-385 | the code row is deleted and never loads again. A token pair is minted for the asking client, the code's user and the code's scopes. When the code is one the client loaded, it has a user, and (for plain scopes) the access token loads back with the code's client id and scopes |
| OAuth.GarminOAuthProvider.LoadAccessToken | src/garmin_mcp/oauth_provider.py:387-406 | returns `FindAccessToken`. A successful load of a token with a user re-records the token-to-user mapping |
| OAuth.GarminOAuthProvider.ExchangeRefreshToken | src/garmin_mcp/oauth_provider.py:430-479 | the old refresh token is deleted and never loads again. A new pair is minted for the old token's user with the requested scopes, or the old scopes when none are requested |
| OAuth.GarminOAuthProvider.RevokeToken | src/garmin_mcp/oauth_provider.py:481-490 | the value is deleted from both token tables and loads from neither |
| OAuth.GarminOAuthProvider.FinishLogin | src/garmin_mcp/oauth_provider.py:620-630 | the user is found or created. The fresh tokens are stored with the cache entry evicted, and the authorization completes as `CompleteAuthorization` says |
| OAuth.GarminOAuthProvider.HandleLoginCallback | src/garmin_mcp/oauth_provider.py:583-630 | missing fields or a failed upstream login re-render the form with the right message and change nothing. An MFA demand sweeps expired entries, stores the resume state under the login state and redirects to the MFA page. A login completes as `FinishLogin` says |
| OAuth.GarminOAuthProvider.HandleMfaCallback | src/garmin_mcp/oauth_provider.py:682-689 | a missing state or a blank code re-renders (or expires) the MFA page and changes nothing. Otherwise it behaves as `ResumeMfa` |
| OAuth.GarminOAuthProvider.ResumeMfa | src/garmin_mcp/oauth_provider.py:691-723 | a missing or expired entry is consumed and answers "Session expired". A failed verification restores the entry and re-renders the form with "Invalid verification code". A success consumes the entry and completes the login for the entry's email |
| Resolver.ClientResolver.constructor | src/garmin_mcp/client_resolver.py:18-22 | no global client and no session manager are set |
| Resolver.ClientResolver.SetGlobalClient | src/garmin_mcp/client_resolver.py:25-28 | the global client is the one given; nothing else changes |
| Resolver.ClientResolver.SetSessionManager | src/garmin_mcp/client_resolver.py:31-34 | the session manager is the one given; nothing else changes |
| Resolver.ClientResolver.RemoteUser | src/garmin_mcp/client_resolver.py:45-52 | a request speaks for a user exactly when it has a context, a manager is set, and it carries a token mapped to a non-empty user id, and then for that user |
| Resolver.ClientResolver.Resolve | src/garmin_mcp/client_resolver.py:37-66 | an identified user gets a client logged in with that user's stored tokens, or "re-authenticate" exactly when the session layer has none, and never the global client. Anyone else gets the global client, or "not available" when there is none |
| Resolver.ClientResolver.GetClient | src/garmin_mcp/client_resolver.py:37-66 | returns `Resolve`. Only the session layer's cache changes, and only as its own `get_client` changes it |
| Scenarios.LoginWithoutMfa | src/garmin_mcp/oauth_provider.py:583-630 | a first login without MFA redirects to the client with a code and the client's state. The code exchanges for a token pair with `expires_in` 3600, and the access token loads with the client id and scopes and maps to the new user |
| Scenarios.RestartKeepsTokens | src/garmin_mcp/oauth_provider.py:387-406 | after a restart over the same database and token directories, an access token issued before it still loads, and loading it maps it to its user again in the new session layer |
| Scenarios.DoubleSubmit | src/garmin_mcp/oauth_provider.py:170-189 | submitting the credentials a second time answers "Authorization expired"; only the first code is exchangeable |
| Scenarios.MfaRetry | src/garmin_mcp/oauth_provider.py:692-723 | a wrong MFA code re-renders the form. The right code with the same state then completes the login, and a replay answers "Session expired" |
| Scenarios.MfaExpiry | src/garmin_mcp/oauth_provider.py:48-51 | a pending MFA entry is usable exactly 300 seconds after it was stored and answers "Session expired" one second later |
| Scenarios.RefreshIsSingleUse | src/garmin_mcp/oauth_provider.py:430-479 | after a rotation without requested scopes the old refresh token no longer loads, and the new access token carries the old scopes |
| Scenarios.RegisterTwice | src/garmin_mcp/oauth_provider.py:261-272 | registering a client id twice serves the second metadata |
| Scenarios.NewTokensForceReload | src/garmin_mcp/session_manager.py:105-111 | a client cached a moment ago is not served once new tokens are written; the next lookup yields the new tokens |
| Scenarios.NoFallbackForKnownUser | src/garmin_mcp/client_resolver.py:53-58 | a token mapped to a user without a session asks to re-authenticate even though a global client is set. A call without context gets the global client |

## Left out

- Storage mechanics are not modelled: SQLite connections, PRAGMAs and `_init_db` schema creation and migration. The tables are maps keyed by their primary key. Storage failures are left out too.
- The HTML and Starlette request/response objects are not modelled.
  - `get_login_page` is the `LoginPage(state, error)` response.
  - `get_mfa_page` is reduced to its pending-entry check, `MfaPageFor`.
  - A redirect back to the client is `ClientRedirect(redirect_uri, code, state)` rather than the URL `construct_redirect_uri` would build.
- Client metadata is an opaque string. The pydantic JSON dump and validation performed by `register_client` and `get_client` are not modelled.
- The garth and garminconnect libraries are not modelled. Their calls are oracle parameters:
  - `garth.sso.login` and `resume_login`;
  - `Garmin().login(token_dir)`;
  - the credential login of `create_session`;
  - `garth.dump`.
- `create_session` takes the credential login's outcome (tokens, or None when it raises) in place of the email and password.
- A token directory is a user-id key. `os.path.join` on unusual user ids, and disk failures, are not modelled.
- Concurrency is not modelled: `asyncio`, `run_in_executor`, `threading.Lock` and the MFA lock. The model is sequential.
  - In particular, `ResumeMfa` does not capture a second request seeing the entry missing while the first one is between its pop and its restore.
- Time is not modelled as floats.
  - `time.time()` becomes an integer `now`, and one call reads the clock once. The MFA callback actually reads it again after the upstream call.
  - The `int(...)` truncation of expiries in the token descriptors is not modelled.
  - A user's `created_at` default is the call's `now`.
- Every `secrets.token_*` value is a caller-supplied value that no table holds yet. Generating it is not modelled, and neither is a collision.
- The `ImportError` branch of the resolver is not modelled; the import is taken to succeed.
- Logging is not modelled, including the diagnostic lookup that only distinguishes "already consumed" from "not found" in the log.
- `Text.IsSpace` is Python's `str.isspace` over a fixed list of code points. Other Unicode data is not consulted.
- The verified flows in `Scenarios` use one- and two-letter tokens, scopes and MFA codes. Longer literals only make the same proofs costlier.
