/**
 * The OAuth2 authorization server of the remote Garmin MCP server, without the SQL, the
 * HTML and the network. Its five tables become maps keyed by their primary key, the
 * pending-MFA registry a map keyed by the login state token, the clock an integer `now`,
 * each freshly generated secret a parameter assumed absent from every table, and each
 * upstream garth login an oracle result passed in by the caller.
 */
module OAuth {
  import opened Wrappers
  import opened ScopeCodec
  import Text
  import Sessions

  /** Seconds a pending MFA entry stays usable. */
  const MFA_TTL: int := 300
  /** Seconds a human has to finish logging in after `authorize`. */
  const LOGIN_TTL: int := 900
  /** Seconds a real authorization code stays exchangeable. */
  const CODE_TTL: int := 300
  /** Seconds an access token lives; also the `expires_in` reported to the client. */
  const ACCESS_TOKEN_TTL: int := 3600
  /** Seconds a refresh token lives: thirty days. */
  const REFRESH_TOKEN_TTL: int := 86400 * 30

  const FIELDS_REQUIRED := "All fields are required."
  const INVALID_LOGIN := "Invalid email or password."
  const CODE_REQUIRED := "Verification code is required."
  const INVALID_CODE := "Invalid verification code. Please try again."

  /** A registered downstream client: its id and its serialized metadata. */
  datatype ClientInfo = ClientInfo(clientId: string, metadata: string)

  /** What the downstream client asked for in its authorization request. */
  datatype AuthorizationParams = AuthorizationParams(
    scopes: Option<seq<string>>,
    codeChallenge: string,
    redirectUri: string,
    redirectUriProvidedExplicitly: bool,
    state: Option<string>)

  /** A row of `auth_codes`: a login placeholder while `userId` is None, a real code after. */
  datatype AuthCodeRow = AuthCodeRow(
    clientId: string,
    userId: Option<string>,
    scopes: string,
    codeChallenge: string,
    redirectUri: string,
    redirectUriProvidedExplicitly: bool,
    clientState: Option<string>,
    expiresAt: int)

  /** A row of `access_tokens`. */
  datatype TokenRow = TokenRow(clientId: string, userId: Option<string>, scopes: string, expiresAt: int)

  /** A row of `refresh_tokens`; a NULL expiry never expires. */
  datatype RefreshRow = RefreshRow(clientId: string, userId: Option<string>, scopes: string, expiresAt: Option<int>)

  /** A row of `users`, keyed by the generated user id. */
  datatype User = User(garminEmail: string, createdAt: int)

  /** The descriptors handed back to the OAuth framework. */
  datatype AuthorizationCode = AuthorizationCode(
    code: string,
    clientId: string,
    scopes: seq<string>,
    codeChallenge: string,
    redirectUri: string,
    redirectUriProvidedExplicitly: bool,
    expiresAt: int)
  datatype AccessToken = AccessToken(token: string, clientId: string, scopes: seq<string>, expiresAt: int)
  datatype RefreshToken = RefreshToken(token: string, clientId: string, scopes: seq<string>, expiresAt: Option<int>)
  datatype OAuthToken = OAuthToken(
    accessToken: string, tokenType: string, expiresIn: int, refreshToken: string, scope: string)

  /** garth's opaque resume state for an interrupted login, a serialized blob here. */
  type ResumeState = string

  /** A login waiting for its MFA code. */
  datatype PendingMfa = PendingMfa(clientState: ResumeState, garminEmail: string, createdAt: int)
  {
    /** Expired once more than `MFA_TTL` seconds have passed since it was stored. */
    predicate IsExpired(now: int)
    {
      now - createdAt > MFA_TTL
    }
  }

  /** What `garth.sso.login(..., return_on_mfa=True)` did: raised, asked for MFA, or logged in. */
  datatype LoginResult = LoginFailed | NeedsMfa(clientState: ResumeState) | LoggedIn(tokens: Sessions.GarthTokens)

  /** What `garth.sso.resume_login` did: raised, or logged in. */
  datatype ResumeResult = ResumeFailed | Resumed(tokens: Sessions.GarthTokens)

  /** The responses of the login pages. */
  datatype Response =
    | LoginPage(state: string, error: string)          // credential form, with an error line
    | MfaPage(state: string, error: string)            // verification-code form, with an error line
    | SessionExpired                                   // 400 "Session expired": restart the login
    | AuthorizationExpired                             // 400 "Authorization expired": restart the login
    | Redirect(url: string)                            // 302 to a page of this server
    | ClientRedirect(redirectUri: string, code: string, clientState: Option<string>)  // 302 back to the client

  // ----- Queries over the tables -----

  /** `get_client`: the metadata registered under `clientId`, if any. */
  function GetClient(clients: map<string, ClientInfo>, clientId: string): (r: Option<ClientInfo>)
    ensures r.Some? <==> clientId in clients
    ensures r.Some? ==> r.value == clients[clientId]
  {
    if clientId in clients then Some(clients[clientId]) else None
  }

  /**
   * `load_authorization_code`: a code loads only if its row exists, belongs to the asking
   * client, has a user (so it is not a login placeholder) and has not expired.
   */
  function LoadAuthorizationCode(codes: map<string, AuthCodeRow>, client: ClientInfo, code: string, now: int)
    : (r: Option<AuthorizationCode>)
    ensures r.Some? <==>
              && code in codes && codes[code].clientId == client.clientId
              && codes[code].userId.Some? && codes[code].expiresAt >= now
    ensures r.Some? ==>
              && r.value.code == code && r.value.clientId == client.clientId
              && r.value.scopes == DecodeScopes(codes[code].scopes)
              && r.value.codeChallenge == codes[code].codeChallenge
              && r.value.redirectUri == codes[code].redirectUri
              && r.value.redirectUriProvidedExplicitly == codes[code].redirectUriProvidedExplicitly
              && r.value.expiresAt == codes[code].expiresAt
  {
    if code !in codes || codes[code].clientId != client.clientId || codes[code].userId.None? then None
    else
      var row := codes[code];
      if row.expiresAt < now then None
      else Some(AuthorizationCode(code, row.clientId, DecodeScopes(row.scopes), row.codeChallenge,
                                  row.redirectUri, row.redirectUriProvidedExplicitly, row.expiresAt))
  }

  /** The read half of `load_access_token`: a token loads while it exists and has not expired. */
  function FindAccessToken(accessTokens: map<string, TokenRow>, token: string, now: int): (r: Option<AccessToken>)
    ensures r.Some? <==> token in accessTokens && accessTokens[token].expiresAt >= now
    ensures r.Some? ==>
              r.value == AccessToken(token, accessTokens[token].clientId,
                                     DecodeScopes(accessTokens[token].scopes), accessTokens[token].expiresAt)
  {
    if token !in accessTokens || accessTokens[token].expiresAt < now then None
    else
      var row := accessTokens[token];
      Some(AccessToken(token, row.clientId, DecodeScopes(row.scopes), row.expiresAt))
  }

  /** Python truthiness of the refresh expiry: NULL, and also 0, count as "no expiry". */
  predicate HasExpiry(row: RefreshRow)
  {
    row.expiresAt.Some? && row.expiresAt.value != 0
  }

  /**
   * `load_refresh_token`: a token loads if it exists for the asking client and either has
   * no expiry or has not reached it.
   */
  function LoadRefreshToken(refreshTokens: map<string, RefreshRow>, client: ClientInfo, token: string, now: int)
    : (r: Option<RefreshToken>)
    ensures r.Some? <==>
              && token in refreshTokens && refreshTokens[token].clientId == client.clientId
              && (HasExpiry(refreshTokens[token]) ==> refreshTokens[token].expiresAt.value >= now)
    ensures r.Some? ==>
              && r.value.token == token && r.value.clientId == client.clientId
              && r.value.scopes == DecodeScopes(refreshTokens[token].scopes)
              && r.value.expiresAt == (if HasExpiry(refreshTokens[token]) then refreshTokens[token].expiresAt else None)
    ensures (token in refreshTokens && refreshTokens[token].clientId == client.clientId
             && refreshTokens[token].expiresAt.None?) ==> r.Some?
  {
    if token !in refreshTokens || refreshTokens[token].clientId != client.clientId then None
    else
      var row := refreshTokens[token];
      if HasExpiry(row) && row.expiresAt.value < now then None
      else Some(RefreshToken(token, row.clientId, DecodeScopes(row.scopes),
                             if HasExpiry(row) then row.expiresAt else None))
  }

  /**
   * `get_mfa_page`: the verification form while a live entry is pending for `state`,
   * the terminal "Session expired" page otherwise.
   */
  function MfaPageFor(pending: map<string, PendingMfa>, state: string, error: string, now: int): (r: Response)
    ensures r == MfaPage(state, error) || r == SessionExpired
    ensures r.MfaPage? <==> state in pending && !pending[state].IsExpired(now)
  {
    if state in pending && !pending[state].IsExpired(now) then MfaPage(state, error) else SessionExpired
  }

  // ----- Table transitions shared by several operations -----

  /** The pending MFA entries still within their lifetime at `now`. */
  function Unexpired(pending: map<string, PendingMfa>, now: int): map<string, PendingMfa>
  {
    map k | k in pending && !pending[k].IsExpired(now) :: pending[k]
  }

  /** Whether `state` names a placeholder row that a login may still complete at `now`. */
  predicate AwaitingLogin(codes: map<string, AuthCodeRow>, state: string, now: int)
  {
    state in codes && codes[state].userId.None? && codes[state].expiresAt >= now
  }

  /** The auth-code table and the response after a login for `state`. */
  datatype Completion = Completion(codes: map<string, AuthCodeRow>, response: Response)

  /**
   * `_complete_auth_flow` on the auth-code table: an unexpired placeholder is replaced by a
   * fresh code bound to `userId` that copies the placeholder's request and lives five
   * minutes, and the client is sent back with that code and its own state; anything else
   * (no such row, a row already bound to a user, an expired placeholder) answers
   * "Authorization expired" and leaves the table as it was.
   */
  function CompleteAuthorization(codes: map<string, AuthCodeRow>, state: string, userId: string,
                                 freshCode: string, now: int): (r: Completion)
    requires freshCode !in codes
    ensures !AwaitingLogin(codes, state, now) ==> r == Completion(codes, AuthorizationExpired)
    ensures AwaitingLogin(codes, state, now) ==>
              var row := codes[state];
              && r.response == ClientRedirect(row.redirectUri, freshCode, row.clientState)
              && state !in r.codes && freshCode in r.codes
              && r.codes[freshCode] == row.(userId := Some(userId), expiresAt := now + CODE_TTL)
              && (forall c :: c != state && c != freshCode ==>
                    (c in r.codes <==> c in codes) && (c in codes ==> r.codes[c] == codes[c]))
  {
    if !AwaitingLogin(codes, state, now) then Completion(codes, AuthorizationExpired)
    else
      var row := codes[state];
      var promoted := row.(userId := Some(userId), expiresAt := now + CODE_TTL);
      Completion(codes[freshCode := promoted] - {state}, ClientRedirect(row.redirectUri, freshCode, row.clientState))
  }

  /** After a completed login the new code loads for its client until it expires, with the requested scopes. */
  lemma CompletedCodeLoads(codes: map<string, AuthCodeRow>, state: string, userId: string,
                           freshCode: string, now: int, client: ClientInfo, t: int)
    requires freshCode !in codes && AwaitingLogin(codes, state, now)
    requires client.clientId == codes[state].clientId && t <= now + CODE_TTL
    ensures var loaded := LoadAuthorizationCode(CompleteAuthorization(codes, state, userId, freshCode, now).codes,
                                                client, freshCode, t);
            && loaded.Some?
            && loaded.value.scopes == DecodeScopes(codes[state].scopes)
            && loaded.value.codeChallenge == codes[state].codeChallenge
            && loaded.value.redirectUri == codes[state].redirectUri
  {
  }

  /** A state token completes at most once: replaying it answers "Authorization expired" and changes nothing. */
  lemma CompletionIsSingleUse(codes: map<string, AuthCodeRow>, state: string, userId: string, freshCode: string,
                              now: int, userId': string, freshCode': string, now': int)
    requires freshCode !in codes
    requires var first := CompleteAuthorization(codes, state, userId, freshCode, now);
             first.response.ClientRedirect? && freshCode' !in first.codes
    ensures var first := CompleteAuthorization(codes, state, userId, freshCode, now);
            CompleteAuthorization(first.codes, state, userId', freshCode', now')
              == Completion(first.codes, AuthorizationExpired)
  {
  }

  /** Emails identify users: no two user ids share one. */
  ghost predicate EmailsUnique(users: map<string, User>)
  {
    forall a, b :: a in users && b in users && users[a].garminEmail == users[b].garminEmail ==> a == b
  }

  predicate HasEmail(users: map<string, User>, email: string)
  {
    exists id :: id in users && users[id].garminEmail == email
  }

  /** The users table and the user id after `_get_or_create_user`. */
  datatype UserUpsert = UserUpsert(users: map<string, User>, userId: string)

  /**
   * `_get_or_create_user`: the id already registered for `email`, with the table unchanged,
   * or else `freshId`, newly registered for `email` at `now`.
   */
  ghost function UpsertUser(users: map<string, User>, email: string, freshId: string, now: int): (r: UserUpsert)
    ensures r.userId in r.users && r.users[r.userId].garminEmail == email
    ensures HasEmail(users, email) ==> r.users == users
    ensures !HasEmail(users, email) ==> r == UserUpsert(users[freshId := User(email, now)], freshId)
  {
    if HasEmail(users, email) then
      var id :| id in users && users[id].garminEmail == email;
      UserUpsert(users, id)
    else
      UserUpsert(users[freshId := User(email, now)], freshId)
  }

  /** `set_token_user_mapping` as the exchange and load paths apply it: only for a truthy user id. */
  function MapIfUser(m: map<string, string>, token: string, userId: Option<string>): map<string, string>
  {
    if Truthy(userId) then m[token := userId.value] else m
  }

  /** `params.scopes or []`. */
  function ScopesOrEmpty(scopes: Option<seq<string>>): seq<string>
  {
    if scopes.Some? then scopes.value else []
  }

  /** `scopes or refresh_token.scopes`: the requested scopes, unless none were requested. */
  function Granted(requested: seq<string>, previous: seq<string>): seq<string>
  {
    if requested != [] then requested else previous
  }

  /** The user id on a row of a token-bearing table, or None when the row is missing. */
  function CodeOwner(codes: map<string, AuthCodeRow>, code: string): Option<string>
  {
    if code in codes then codes[code].userId else None
  }

  function RefreshOwner(refreshTokens: map<string, RefreshRow>, token: string): Option<string>
  {
    if token in refreshTokens then refreshTokens[token].userId else None
  }

  ghost predicate KnownUser(users: map<string, User>, userId: Option<string>)
  {
    userId.Some? ==> userId.value in users
  }

  /** A token pair minted at `now` for plain scopes loads back with those scopes. */
  lemma MintedTokensLoad(accessTokens: map<string, TokenRow>, refreshTokens: map<string, RefreshRow>,
                         client: ClientInfo, owner: Option<string>, scopes: seq<string>,
                         freshAccess: string, freshRefresh: string, now: int)
    requires PlainScopes(scopes)
    requires freshAccess in accessTokens
    requires accessTokens[freshAccess] == TokenRow(client.clientId, owner, EncodeScopes(scopes), now + ACCESS_TOKEN_TTL)
    requires freshRefresh in refreshTokens
    requires refreshTokens[freshRefresh] ==
               RefreshRow(client.clientId, owner, EncodeScopes(scopes), Some(now + REFRESH_TOKEN_TTL))
    ensures FindAccessToken(accessTokens, freshAccess, now)
              == Some(AccessToken(freshAccess, client.clientId, scopes, now + ACCESS_TOKEN_TTL))
    ensures var loaded := LoadRefreshToken(refreshTokens, client, freshRefresh, now);
            loaded.Some? && loaded.value.scopes == scopes
  {
    ScopesRoundTrip(scopes);
  }

  class GarminOAuthProvider {
    /** The public base URL, without trailing slashes. */
    const serverUrl: string
    /** The session layer that receives fresh upstream tokens and token-to-user mappings. */
    const sessions: Sessions.SessionManager?

    var clients: map<string, ClientInfo>
    var users: map<string, User>
    var codes: map<string, AuthCodeRow>
    var accessTokens: map<string, TokenRow>
    var refreshTokens: map<string, RefreshRow>
    var pendingMfa: map<string, PendingMfa>

    /**
     * Emails are unique among users, no value is both an access and a refresh token (the
     * reason revocation may delete from both tables), and every user id on a code or a
     * token is a registered user.
     */
    ghost predicate Valid()
      reads this
    {
      && EmailsUnique(users)
      && accessTokens.Keys !! refreshTokens.Keys
      && (forall c :: c in codes ==> KnownUser(users, codes[c].userId))
      && (forall t :: t in accessTokens ==> KnownUser(users, accessTokens[t].userId))
      && (forall t :: t in refreshTokens ==> KnownUser(users, refreshTokens[t].userId))
    }

    ghost predicate SessionsValid()
      reads this, sessions
    {
      sessions != null ==> sessions.Valid()
    }

    /** The session layer as a frame: nothing when there is none. */
    function SessionLayer(): set<object>
    {
      if sessions == null then {} else {sessions}
    }

    /** The session layer's state is as it was before the call. */
    twostate predicate SessionsUnchanged()
      requires sessions != null
      reads sessions
    {
      && sessions.cache == old(sessions.cache) && sessions.stored == old(sessions.stored)
      && sessions.tokenUserMap == old(sessions.tokenUserMap)
    }

    /** A freshly generated secret: a value no table holds yet. */
    predicate Unused(t: string)
      reads this
    {
      t !in codes && t !in accessTokens && t !in refreshTokens
    }

    /**
     * A provider over the database file at `db_path`, which may already hold the tables of a
     * previous run (`CREATE TABLE IF NOT EXISTS` keeps their rows). The UNIQUE email column
     * and the rows this provider writes guarantee the invariant; the in-memory MFA registry
     * always starts empty.
     */
    constructor (serverUrl: string, sessions: Sessions.SessionManager?,
                 clients: map<string, ClientInfo>, users: map<string, User>,
                 codes: map<string, AuthCodeRow>, accessTokens: map<string, TokenRow>,
                 refreshTokens: map<string, RefreshRow>)
      requires EmailsUnique(users) && accessTokens.Keys !! refreshTokens.Keys
      requires forall c :: c in codes ==> KnownUser(users, codes[c].userId)
      requires forall t :: t in accessTokens ==> KnownUser(users, accessTokens[t].userId)
      requires forall t :: t in refreshTokens ==> KnownUser(users, refreshTokens[t].userId)
      ensures Valid()
      ensures this.serverUrl == Text.RStrip(serverUrl, '/') && this.sessions == sessions
      ensures this.clients == clients && this.users == users && this.codes == codes
      ensures this.accessTokens == accessTokens && this.refreshTokens == refreshTokens
      ensures pendingMfa == map[]
    {
      this.serverUrl := Text.RStrip(serverUrl, '/');
      this.sessions := sessions;
      this.clients, this.users, this.codes := clients, users, codes;
      this.accessTokens, this.refreshTokens, pendingMfa := accessTokens, refreshTokens, map[];
    }

    /** `_get_or_create_user`. */
    method GetOrCreateUser(email: string, freshId: string, now: int) returns (userId: string)
      requires Valid() && freshId !in users
      modifies this`users
      ensures Valid()
      ensures UserUpsert(users, userId) == UpsertUser(old(users), email, freshId, now)
    {
      if HasEmail(users, email) {
        userId :| userId in users && users[userId].garminEmail == email;
      } else {
        userId := freshId;
        users := users[freshId := User(email, now)];
      }
    }

    /** `_complete_auth_flow`: look the placeholder up, mint the real code, delete the placeholder. */
    method CompleteAuthFlow(state: string, userId: string, freshCode: string, now: int) returns (resp: Response)
      requires Valid() && userId in users && Unused(freshCode)
      modifies this`codes
      ensures Valid()
      ensures Completion(codes, resp) == CompleteAuthorization(old(codes), state, userId, freshCode, now)
    {
      var row := if state in codes && codes[state].userId.None? then Some(codes[state]) else None;
      if row.None? {
        // no such state, or one already consumed: logged apart, answered alike
        return AuthorizationExpired;
      }
      if row.value.expiresAt < now {
        return AuthorizationExpired;
      }
      codes := codes[freshCode := row.value.(userId := Some(userId), expiresAt := now + CODE_TTL)];
      codes := codes - {state};
      resp := ClientRedirect(row.value.redirectUri, freshCode, row.value.clientState);
    }

    /** `_cleanup_expired_mfa`: delete exactly the expired pending MFA entries. */
    method CleanupExpiredMfa(now: int)
      modifies this`pendingMfa
      ensures forall k :: k in pendingMfa <==> k in old(pendingMfa) && !old(pendingMfa)[k].IsExpired(now)
      ensures forall k :: k in pendingMfa ==> pendingMfa[k] == old(pendingMfa)[k]
      ensures pendingMfa == Unexpired(old(pendingMfa), now)
    {
      var expired := set k | k in pendingMfa && pendingMfa[k].IsExpired(now);
      ghost var all := expired;
      while expired != {}
        invariant expired <= all
        invariant pendingMfa == old(pendingMfa) - (all - expired)
        decreases expired
      {
        var k :| k in expired;
        pendingMfa := pendingMfa - {k};
        expired := expired - {k};
      }
      assert pendingMfa == Unexpired(old(pendingMfa), now);
    }

    /** `register_client`: insert or replace by client id; the last registration wins. */
    method RegisterClient(info: ClientInfo)
      modifies this`clients
      ensures clients == old(clients)[info.clientId := info]
      ensures GetClient(clients, info.clientId) == Some(info)
      ensures forall id :: id != info.clientId ==> GetClient(clients, id) == GetClient(old(clients), id)
    {
      clients := clients[info.clientId := info];
    }

    /**
     * `authorize`: insert a login placeholder under a fresh state token and send the human
     * to the login page with it. The placeholder never loads as a code.
     */
    method Authorize(client: ClientInfo, params: AuthorizationParams, freshState: string, now: int)
      returns (url: string)
      requires Valid() && Unused(freshState)
      modifies this`codes
      ensures Valid()
      ensures codes == old(codes)[freshState := AuthCodeRow(
                client.clientId, None, EncodeScopes(ScopesOrEmpty(params.scopes)), params.codeChallenge,
                params.redirectUri, params.redirectUriProvidedExplicitly, params.state, now + LOGIN_TTL)]
      ensures url == serverUrl + "/login?state=" + freshState
      ensures forall c, t :: LoadAuthorizationCode(codes, c, freshState, t).None?
      ensures forall t :: t <= now + LOGIN_TTL ==> AwaitingLogin(codes, freshState, t)
    {
      var row := AuthCodeRow(client.clientId, None, EncodeScopes(ScopesOrEmpty(params.scopes)),
                             params.codeChallenge, params.redirectUri,
                             params.redirectUriProvidedExplicitly, params.state, now + LOGIN_TTL);
      codes := codes[freshState := row];
      url := serverUrl + "/login?state=" + freshState;
    }

    /**
     * The minting step both exchanges end with: an access token (one hour) and a refresh
     * token (thirty days) for `client`, `owner` and `scopes`, the access token mapped to
     * the user in the session layer when there is a user, and the token response.
     */
    method IssueTokens(client: ClientInfo, owner: Option<string>, scopes: seq<string>,
                       freshAccess: string, freshRefresh: string, now: int)
      returns (token: OAuthToken)
      requires Valid() && SessionsValid() && KnownUser(users, owner)
      requires Unused(freshAccess) && Unused(freshRefresh) && freshAccess != freshRefresh
      modifies this`accessTokens, this`refreshTokens, SessionLayer()
      ensures clients == old(clients) && users == old(users) && codes == old(codes) && pendingMfa == old(pendingMfa)
      ensures Valid() && SessionsValid()
      ensures accessTokens == old(accessTokens)[freshAccess := TokenRow(
                client.clientId, owner, EncodeScopes(scopes), now + ACCESS_TOKEN_TTL)]
      ensures refreshTokens == old(refreshTokens)[freshRefresh := RefreshRow(
                client.clientId, owner, EncodeScopes(scopes), Some(now + REFRESH_TOKEN_TTL))]
      ensures sessions != null ==>
                && sessions.tokenUserMap == MapIfUser(old(sessions.tokenUserMap), freshAccess, owner)
                && sessions.cache == old(sessions.cache) && sessions.stored == old(sessions.stored)
      ensures token == OAuthToken(freshAccess, "Bearer", ACCESS_TOKEN_TTL, freshRefresh, Join(scopes, ' '))
      ensures PlainScopes(scopes) ==>
                && FindAccessToken(accessTokens, freshAccess, now)
                     == Some(AccessToken(freshAccess, client.clientId, scopes, now + ACCESS_TOKEN_TTL))
                && var loaded := LoadRefreshToken(refreshTokens, client, freshRefresh, now);
                   loaded.Some? && loaded.value.scopes == scopes
    {
      var stored := EncodeScopes(scopes);
      accessTokens := accessTokens[freshAccess := TokenRow(client.clientId, owner, stored, now + ACCESS_TOKEN_TTL)];
      refreshTokens := refreshTokens[freshRefresh :=
                         RefreshRow(client.clientId, owner, stored, Some(now + REFRESH_TOKEN_TTL))];
      if Truthy(owner) && sessions != null {
        sessions.SetTokenUserMapping(freshAccess, owner.value);
      }
      if PlainScopes(scopes) {
        MintedTokensLoad(accessTokens, refreshTokens, client, owner, scopes, freshAccess, freshRefresh, now);
      }
      token := OAuthToken(freshAccess, "Bearer", ACCESS_TOKEN_TTL, freshRefresh, Join(scopes, ' '));
    }

    /**
     * `exchange_authorization_code`: delete the code, then mint tokens for the asking client,
     * the code's user and the code's scopes.
     */
    method ExchangeAuthorizationCode(client: ClientInfo, authCode: AuthorizationCode,
                                     freshAccess: string, freshRefresh: string, now: int)
      returns (token: OAuthToken)
      requires Valid() && SessionsValid()
      requires Unused(freshAccess) && Unused(freshRefresh) && freshAccess != freshRefresh
      modifies this`codes, this`accessTokens, this`refreshTokens, SessionLayer()
      ensures clients == old(clients) && users == old(users) && pendingMfa == old(pendingMfa)
      ensures Valid() && SessionsValid()
      ensures codes == old(codes) - {authCode.code}
      ensures var owner := CodeOwner(old(codes), authCode.code);
              && accessTokens == old(accessTokens)[freshAccess := TokenRow(
                   client.clientId, owner, EncodeScopes(authCode.scopes), now + ACCESS_TOKEN_TTL)]
              && refreshTokens == old(refreshTokens)[freshRefresh := RefreshRow(
                   client.clientId, owner, EncodeScopes(authCode.scopes), Some(now + REFRESH_TOKEN_TTL))]
              && (sessions != null ==>
                    && sessions.tokenUserMap == MapIfUser(old(sessions.tokenUserMap), freshAccess, owner)
                    && sessions.cache == old(sessions.cache) && sessions.stored == old(sessions.stored))
      ensures token == OAuthToken(freshAccess, "Bearer", ACCESS_TOKEN_TTL, freshRefresh, Join(authCode.scopes, ' '))
      ensures forall c, t :: LoadAuthorizationCode(codes, c, authCode.code, t).None?
      ensures PlainScopes(authCode.scopes) ==>
                && FindAccessToken(accessTokens, freshAccess, now)
                     == Some(AccessToken(freshAccess, client.clientId, authCode.scopes, now + ACCESS_TOKEN_TTL))
                && var loaded := LoadRefreshToken(refreshTokens, client, freshRefresh, now);
                   loaded.Some? && loaded.value.scopes == authCode.scopes
      ensures old(LoadAuthorizationCode(codes, client, authCode.code, now)) == Some(authCode) ==>
                && CodeOwner(old(codes), authCode.code).Some?
                && (PlainScopes(authCode.scopes) ==>
                      FindAccessToken(accessTokens, freshAccess, now)
                        == Some(AccessToken(freshAccess, authCode.clientId, authCode.scopes, now + ACCESS_TOKEN_TTL)))
    {
      var owner := if authCode.code in codes then codes[authCode.code].userId else None;
      codes := codes - {authCode.code};
      token := IssueTokens(client, owner, authCode.scopes, freshAccess, freshRefresh, now);
    }

    /**
     * `load_access_token`: the token while it exists and has not expired; a successful load
     * re-asserts the token-to-user mapping in the session layer.
     */
    method LoadAccessToken(token: string, now: int) returns (r: Option<AccessToken>)
      requires SessionsValid()
      modifies SessionLayer()
      ensures clients == old(clients) && users == old(users) && codes == old(codes) && pendingMfa == old(pendingMfa)
      ensures accessTokens == old(accessTokens) && refreshTokens == old(refreshTokens)
      ensures SessionsValid()
      ensures r == FindAccessToken(accessTokens, token, now)
      ensures sessions != null ==>
                && sessions.tokenUserMap ==
                     (if r.Some? then MapIfUser(old(sessions.tokenUserMap), token, accessTokens[token].userId)
                      else old(sessions.tokenUserMap))
                && sessions.cache == old(sessions.cache) && sessions.stored == old(sessions.stored)
    {
      if token !in accessTokens || accessTokens[token].expiresAt < now {
        return None;
      }
      var row := accessTokens[token];
      if Truthy(row.userId) && sessions != null {
        sessions.SetTokenUserMapping(token, row.userId.value);
      }
      r := Some(AccessToken(token, row.clientId, DecodeScopes(row.scopes), row.expiresAt));
    }

    /**
     * `exchange_refresh_token`: single-use rotation. The presented refresh token is deleted
     * and tokens are minted for the asking client and the old token's user, with the
     * requested scopes, or the old token's scopes when none are requested.
     */
    method ExchangeRefreshToken(client: ClientInfo, refreshToken: RefreshToken, scopes: seq<string>,
                                freshAccess: string, freshRefresh: string, now: int)
      returns (token: OAuthToken)
      requires Valid() && SessionsValid()
      requires Unused(freshAccess) && Unused(freshRefresh) && freshAccess != freshRefresh
      requires freshRefresh != refreshToken.token
      modifies this`accessTokens, this`refreshTokens, SessionLayer()
      ensures clients == old(clients) && users == old(users) && codes == old(codes) && pendingMfa == old(pendingMfa)
      ensures Valid() && SessionsValid()
      ensures var owner := RefreshOwner(old(refreshTokens), refreshToken.token);
              var granted := Granted(scopes, refreshToken.scopes);
              && accessTokens == old(accessTokens)[freshAccess := TokenRow(
                   client.clientId, owner, EncodeScopes(granted), now + ACCESS_TOKEN_TTL)]
              && refreshTokens == (old(refreshTokens) - {refreshToken.token})[freshRefresh := RefreshRow(
                   client.clientId, owner, EncodeScopes(granted), Some(now + REFRESH_TOKEN_TTL))]
              && (sessions != null ==>
                    && sessions.tokenUserMap == MapIfUser(old(sessions.tokenUserMap), freshAccess, owner)
                    && sessions.cache == old(sessions.cache) && sessions.stored == old(sessions.stored))
      ensures token == OAuthToken(freshAccess, "Bearer", ACCESS_TOKEN_TTL, freshRefresh,
                                  Join(Granted(scopes, refreshToken.scopes), ' '))
      ensures forall c, t :: LoadRefreshToken(refreshTokens, c, refreshToken.token, t).None?
      ensures PlainScopes(Granted(scopes, refreshToken.scopes)) ==>
                && FindAccessToken(accessTokens, freshAccess, now)
                     == Some(AccessToken(freshAccess, client.clientId, Granted(scopes, refreshToken.scopes),
                                         now + ACCESS_TOKEN_TTL))
                && var loaded := LoadRefreshToken(refreshTokens, client, freshRefresh, now);
                   loaded.Some? && loaded.value.scopes == Granted(scopes, refreshToken.scopes)
    {
      var owner := if refreshToken.token in refreshTokens then refreshTokens[refreshToken.token].userId else None;
      refreshTokens := refreshTokens - {refreshToken.token};
      var granted := if scopes != [] then scopes else refreshToken.scopes;
      token := IssueTokens(client, owner, granted, freshAccess, freshRefresh, now);
    }

    /** `revoke_token`: delete the value from both token tables, whichever holds it. */
    method RevokeToken(token: string)
      requires Valid()
      modifies this`accessTokens, this`refreshTokens
      ensures Valid()
      ensures accessTokens == old(accessTokens) - {token} && refreshTokens == old(refreshTokens) - {token}
      ensures forall t :: FindAccessToken(accessTokens, token, t).None?
      ensures forall c, t :: LoadRefreshToken(refreshTokens, c, token, t).None?
    {
      accessTokens := accessTokens - {token};
      refreshTokens := refreshTokens - {token};
    }

    /**
     * The ending both callbacks share once the upstream login has succeeded: find or create
     * the user, hand the fresh tokens to the session layer and complete the authorization.
     */
    method FinishLogin(state: string, email: string, tokens: Sessions.GarthTokens,
                       freshUserId: string, freshCode: string, now: int)
      returns (resp: Response)
      requires Valid() && SessionsValid()
      requires freshUserId !in users && Unused(freshCode)
      modifies this`users, this`codes, SessionLayer()
      ensures clients == old(clients) && accessTokens == old(accessTokens) && refreshTokens == old(refreshTokens)
      ensures pendingMfa == old(pendingMfa)
      ensures Valid() && SessionsValid()
      ensures var upsert := UpsertUser(old(users), email, freshUserId, now);
              var done := CompleteAuthorization(old(codes), state, upsert.userId, freshCode, now);
              && users == upsert.users
              && codes == done.codes && resp == done.response
              && (sessions != null ==>
                    && sessions.stored == old(sessions.stored)[upsert.userId := tokens]
                    && sessions.cache == old(sessions.cache) - {upsert.userId}
                    && sessions.tokenUserMap == old(sessions.tokenUserMap))
    {
      var userId := GetOrCreateUser(email, freshUserId, now);
      if sessions != null {
        sessions.CreateSessionFromGarthTokens(userId, tokens.oauth1, tokens.oauth2);
      }
      resp := CompleteAuthFlow(state, userId, freshCode, now);
    }

    /**
     * `handle_login_callback`. With a field missing, or when the upstream login fails, the
     * credential form comes back with an error and nothing changes. When the upstream asks
     * for MFA, expired pending entries are swept, the resume state is stored under the login
     * state and the human is sent to the MFA page. When it logs in, the user is found or
     * created, the fresh tokens go to the session layer and the authorization completes.
     */
    method HandleLoginCallback(state: string, email: string, password: string, login: LoginResult,
                               freshUserId: string, freshCode: string, now: int)
      returns (resp: Response)
      requires Valid() && SessionsValid()
      requires freshUserId !in users && Unused(freshCode)
      modifies this`pendingMfa, this`users, this`codes, SessionLayer()
      ensures clients == old(clients) && accessTokens == old(accessTokens) && refreshTokens == old(refreshTokens)
      ensures Valid() && SessionsValid()
      ensures state == "" || email == "" || password == "" || login.LoginFailed? ==>
                && resp == LoginPage(state, if state == "" || email == "" || password == "" then FIELDS_REQUIRED
                                            else INVALID_LOGIN)
                && pendingMfa == old(pendingMfa) && users == old(users) && codes == old(codes)
                && (sessions != null ==> SessionsUnchanged())
      ensures state != "" && email != "" && password != "" && login.NeedsMfa? ==>
                && resp == Redirect(serverUrl + "/login/mfa?state=" + state)
                && pendingMfa == Unexpired(old(pendingMfa), now)[state := PendingMfa(login.clientState, email, now)]
                && users == old(users) && codes == old(codes)
                && (sessions != null ==> SessionsUnchanged())
      ensures state != "" && email != "" && password != "" && login.LoggedIn? ==>
                var upsert := UpsertUser(old(users), email, freshUserId, now);
                var done := CompleteAuthorization(old(codes), state, upsert.userId, freshCode, now);
                && users == upsert.users
                && codes == done.codes && resp == done.response
                && pendingMfa == old(pendingMfa)
                && (sessions != null ==>
                      && sessions.stored == old(sessions.stored)[upsert.userId := login.tokens]
                      && sessions.cache == old(sessions.cache) - {upsert.userId}
                      && sessions.tokenUserMap == old(sessions.tokenUserMap))
    {
      if state == "" || email == "" || password == "" {
        return LoginPage(state, FIELDS_REQUIRED);
      }
      match login {
        case LoginFailed =>
          return LoginPage(state, INVALID_LOGIN);
        case NeedsMfa(clientState) =>
          CleanupExpiredMfa(now);
          pendingMfa := pendingMfa[state := PendingMfa(clientState, email, now)];
          return Redirect(serverUrl + "/login/mfa?state=" + state);
        case LoggedIn(tokens) =>
          resp := FinishLogin(state, email, tokens, freshUserId, freshCode, now);
      }
    }

    /**
     * `handle_mfa_callback`. With a field missing, the MFA page (or the expired page) comes
     * back and nothing changes. Otherwise the pending entry is taken, as `ResumeMfa` says.
     */
    method HandleMfaCallback(state: string, mfaCode: string, resume: ResumeResult,
                             freshUserId: string, freshCode: string, now: int)
      returns (resp: Response)
      requires Valid() && SessionsValid()
      requires freshUserId !in users && Unused(freshCode)
      modifies this`pendingMfa, this`users, this`codes, SessionLayer()
      ensures clients == old(clients) && accessTokens == old(accessTokens) && refreshTokens == old(refreshTokens)
      ensures Valid() && SessionsValid()
      ensures state == "" || Text.Strip(mfaCode) == "" ==>
                && resp == MfaPageFor(old(pendingMfa), state, CODE_REQUIRED, now)
                && pendingMfa == old(pendingMfa) && users == old(users) && codes == old(codes)
                && (sessions != null ==> SessionsUnchanged())
      ensures state != "" && Text.Strip(mfaCode) != "" ==> ResumedAsSpecified(state, resume, freshUserId, freshCode, now, resp)
    {
      var code := Text.Strip(mfaCode);
      if state == "" || code == "" {
        return MfaPageFor(pendingMfa, state, CODE_REQUIRED, now);
      }
      resp := ResumeMfa(state, resume, freshUserId, freshCode, now);
    }

    /**
     * What taking the pending MFA entry for `state` does. A missing or expired entry ends
     * the attempt with "Session expired" and is gone; a failed verification leaves the entry
     * in place for another try; a successful one consumes it and logs the user in as the
     * credential step does.
     */
    twostate predicate ResumedAsSpecified(state: string, resume: ResumeResult, freshUserId: string,
                                          freshCode: string, now: int, resp: Response)
      requires freshCode !in old(codes)
      reads this, SessionLayer()
    {
      && (state !in old(pendingMfa) || old(pendingMfa)[state].IsExpired(now) ==>
            && resp == SessionExpired
            && pendingMfa == old(pendingMfa) - {state} && users == old(users) && codes == old(codes)
            && (sessions != null ==> SessionsUnchanged()))
      && (state in old(pendingMfa) && !old(pendingMfa)[state].IsExpired(now) && resume.ResumeFailed? ==>
            && resp == MfaPage(state, INVALID_CODE)
            && pendingMfa == old(pendingMfa) && users == old(users) && codes == old(codes)
            && (sessions != null ==> SessionsUnchanged()))
      && (state in old(pendingMfa) && !old(pendingMfa)[state].IsExpired(now) && resume.Resumed? ==>
            var upsert := UpsertUser(old(users), old(pendingMfa)[state].garminEmail, freshUserId, now);
            var done := CompleteAuthorization(old(codes), state, upsert.userId, freshCode, now);
            && users == upsert.users
            && codes == done.codes && resp == done.response
            && pendingMfa == old(pendingMfa) - {state}
            && (sessions != null ==>
                  && sessions.stored == old(sessions.stored)[upsert.userId := resume.tokens]
                  && sessions.cache == old(sessions.cache) - {upsert.userId}
                  && sessions.tokenUserMap == old(sessions.tokenUserMap)))
    }

    /** The second half of `handle_mfa_callback`: pop the entry, resume, and restore it on failure. */
    method ResumeMfa(state: string, resume: ResumeResult, freshUserId: string, freshCode: string, now: int)
      returns (resp: Response)
      requires Valid() && SessionsValid()
      requires freshUserId !in users && Unused(freshCode)
      modifies this`pendingMfa, this`users, this`codes, SessionLayer()
      ensures clients == old(clients) && accessTokens == old(accessTokens) && refreshTokens == old(refreshTokens)
      ensures Valid() && SessionsValid()
      ensures ResumedAsSpecified(state, resume, freshUserId, freshCode, now, resp)
    {
      // pop: single use
      var pending := if state in pendingMfa then Some(pendingMfa[state]) else None;
      pendingMfa := pendingMfa - {state};
      if pending.None? || pending.value.IsExpired(now) {
        return SessionExpired;
      }
      match resume {
        case ResumeFailed =>
          // put the entry back so that the human can retry
          pendingMfa := pendingMfa[state := pending.value];
          assert pendingMfa == old(pendingMfa);
          return MfaPageFor(pendingMfa, state, INVALID_CODE, now);
        case Resumed(tokens) =>
          resp := FinishLogin(state, pending.value.garminEmail, tokens, freshUserId, freshCode, now);
      }
    }
  }
}
