/**
 * Verified end-to-end flows on concrete inputs: what a downstream client and a human go
 * through, each stated as the outcome the server promises.
 */
module Scenarios {
  import opened Wrappers
  import opened ScopeCodec
  import opened Sessions
  import opened OAuth
  import Resolver

  const SERVER := "https://mcp.example.com"
  const EMAIL := "u@example.com"
  const TOKENS := GarthTokens("oauth1-token", "oauth2-token")

  function Client(): ClientInfo
  {
    ClientInfo("C1", "{\"client_name\": \"demo\"}")
  }

  function Params(): AuthorizationParams
  {
    AuthorizationParams(Some(["g"]), "x", "https://cb", true, Some("cs"))
  }

  /** A provider over a new database file whose client `C1` has just called `authorize` at time 0. */
  method Authorized() returns (p: GarminOAuthProvider, sessions: SessionManager, url: string)
    ensures fresh(p) && fresh(sessions) && p.sessions == sessions
    ensures p.Valid() && p.SessionsValid() && p.serverUrl == SERVER
    ensures p.clients == map["C1" := Client()] && p.users == map[] && p.pendingMfa == map[]
    ensures p.codes == map["S1" := AuthCodeRow("C1", None, "g", "x", "https://cb", true, Some("cs"), LOGIN_TTL)]
    ensures p.accessTokens == map[] && p.refreshTokens == map[]
    ensures sessions.cache == map[] && sessions.stored == map[] && sessions.tokenUserMap == map[]
    ensures url == SERVER + "/login?state=S1"
  {
    sessions := new SessionManager(map[]);
    p := new GarminOAuthProvider(SERVER + ['/'], sessions, map[], map[], map[], map[], map[]);
    Text.RStripOne(SERVER, '/');
    p.RegisterClient(Client());
    url := p.Authorize(Client(), Params(), "S1", 0);
  }

  /** The first login of a new upstream identity, without MFA, completed at time 10. */
  method SignedIn() returns (p: GarminOAuthProvider, sessions: SessionManager, redirect: Response)
    ensures fresh(p) && fresh(sessions) && p.sessions == sessions
    ensures p.Valid() && p.SessionsValid()
    ensures redirect == ClientRedirect("https://cb", "K1", Some("cs"))
    ensures p.users == map["U1" := User(EMAIL, 10)] && p.pendingMfa == map[]
    ensures p.codes == map["K1" := AuthCodeRow("C1", Some("U1"), "g", "x", "https://cb", true, Some("cs"), 10 + CODE_TTL)]
    ensures p.accessTokens == map[] && p.refreshTokens == map[]
    ensures sessions.stored == map["U1" := TOKENS] && sessions.cache == map[] && sessions.tokenUserMap == map[]
  {
    var url;
    p, sessions, url := Authorized();
    assert !HasEmail(p.users, EMAIL);
    redirect := p.HandleLoginCallback("S1", EMAIL, "pw", LoggedIn(TOKENS), "U1", "K1", 10);
    assert p.users == map["U1" := User(EMAIL, 10)];
  }

  /** The code of the first login exchanged at time 20. */
  method Exchanged() returns (p: GarminOAuthProvider, sessions: SessionManager, redirect: Response, token: OAuthToken)
    ensures fresh(p) && fresh(sessions) && p.sessions == sessions
    ensures p.Valid() && p.SessionsValid()
    ensures redirect == ClientRedirect("https://cb", "K1", Some("cs"))
    ensures token == OAuthToken("A1", "Bearer", 3600, "R1", "g")
    ensures p.accessTokens == map["A1" := TokenRow("C1", Some("U1"), "g", 20 + ACCESS_TOKEN_TTL)]
    ensures p.refreshTokens == map["R1" := RefreshRow("C1", Some("U1"), "g", Some(20 + REFRESH_TOKEN_TTL))]
    ensures sessions.tokenUserMap == map["A1" := "U1"] && p.codes.Keys == {}
  {
    p, sessions, redirect := SignedIn();
    var code := LoadAuthorizationCode(p.codes, Client(), "K1", 20);
    assert code == Some(AuthorizationCode("K1", "C1", DecodeScopes("g"), "x", "https://cb", true, 10 + CODE_TTL));
    token := p.ExchangeAuthorizationCode(Client(), code.value, "A1", "R1", 20);
    ScopesRoundTrip(["g"]);
  }

  /**
   * A login without MFA: the client is sent back with a fresh code and its own state, the
   * code exchanges for a one-hour token pair, and the access token loads with the client's
   * id and the requested scopes and is mapped to the new user.
   */
  method LoginWithoutMfa() returns (redirect: Response, token: OAuthToken,
                                    loaded: Option<AccessToken>, owner: Option<string>)
    ensures redirect == ClientRedirect("https://cb", "K1", Some("cs"))
    ensures token == OAuthToken("A1", "Bearer", 3600, "R1", "g")
    ensures loaded == Some(AccessToken("A1", "C1", ["g"], 20 + 3600))
    ensures owner == Some("U1")
  {
    var p, sessions;
    p, sessions, redirect, token := Exchanged();
    loaded := p.LoadAccessToken("A1", 30);
    ScopesRoundTrip(["g"]);
    owner := sessions.GetUserIdForToken("A1");
  }

  /**
   * A restart after the exchange: a new session layer over the same token directories and a
   * new provider over the same database file. The access token issued before the restart
   * still loads, and loading it maps it to its user again in the new session layer.
   */
  method RestartKeepsTokens() returns (loaded: Option<AccessToken>, owner: Option<string>)
    ensures loaded == Some(AccessToken("A1", "C1", ["g"], 20 + 3600))
    ensures owner == Some("U1")
  {
    var p, sessions, redirect, token := Exchanged();
    var manager := new SessionManager(sessions.stored);
    var restarted := new GarminOAuthProvider(SERVER, manager, p.clients, p.users, p.codes,
                                             p.accessTokens, p.refreshTokens);
    assert manager.tokenUserMap == map[];
    loaded := restarted.LoadAccessToken("A1", 30);
    ScopesRoundTrip(["g"]);
    owner := manager.GetUserIdForToken("A1");
  }

  /**
   * Submitting the credential form twice: the second submission finds the placeholder
   * consumed and answers "Authorization expired"; exactly the first code stays exchangeable.
   */
  method DoubleSubmit() returns (second: Response, firstCode: bool, secondCode: bool)
    ensures second == AuthorizationExpired
    ensures firstCode && !secondCode
  {
    var p, sessions, first := SignedIn();
    second := p.HandleLoginCallback("S1", EMAIL, "pw", LoggedIn(TOKENS), "U2", "K2", 11);
    firstCode := LoadAuthorizationCode(p.codes, Client(), "K1", 11).Some?;
    secondCode := LoadAuthorizationCode(p.codes, Client(), "K2", 11).Some?;
  }

  /** A login for which the upstream asked for MFA at time 10. */
  method AwaitingMfa() returns (p: GarminOAuthProvider, sessions: SessionManager, toMfa: Response)
    ensures fresh(p) && fresh(sessions) && p.sessions == sessions
    ensures p.Valid() && p.SessionsValid()
    ensures toMfa == Redirect(SERVER + "/login/mfa?state=S1")
    ensures p.users == map[] && p.pendingMfa == map["S1" := PendingMfa("resume-blob", EMAIL, 10)]
    ensures p.codes == map["S1" := AuthCodeRow("C1", None, "g", "x", "https://cb", true, Some("cs"), LOGIN_TTL)]
    ensures p.accessTokens == map[] && p.refreshTokens == map[]
    ensures sessions.cache == map[] && sessions.stored == map[] && sessions.tokenUserMap == map[]
  {
    var url;
    p, sessions, url := Authorized();
    toMfa := p.HandleLoginCallback("S1", EMAIL, "pw", NeedsMfa("resume-blob"), "U1", "K0", 10);
    assert p.pendingMfa == map["S1" := PendingMfa("resume-blob", EMAIL, 10)];
  }

  /** A wrong MFA code re-renders the form and keeps the entry for another attempt. */
  method MfaWrongCode() returns (p: GarminOAuthProvider, sessions: SessionManager, wrong: Response)
    ensures fresh(p) && fresh(sessions) && p.sessions == sessions
    ensures p.Valid() && p.SessionsValid()
    ensures wrong == MfaPage("S1", INVALID_CODE)
    ensures p.users == map[] && p.pendingMfa == map["S1" := PendingMfa("resume-blob", EMAIL, 10)]
    ensures p.codes == map["S1" := AuthCodeRow("C1", None, "g", "x", "https://cb", true, Some("cs"), LOGIN_TTL)]
    ensures p.accessTokens == map[] && p.refreshTokens == map[]
  {
    var toMfa;
    p, sessions, toMfa := AwaitingMfa();
    Text.StripBlank("0");
    assert !Text.IsSpace("0"[0]);
    wrong := p.HandleMfaCallback("S1", "0", ResumeFailed, "U1", "K0", 20);
  }

  /** After the wrong code, the right code with the same state completes the login. */
  method MfaRightCode() returns (p: GarminOAuthProvider, sessions: SessionManager, wrong: Response, right: Response)
    ensures fresh(p) && fresh(sessions) && p.sessions == sessions
    ensures p.Valid() && p.SessionsValid()
    ensures wrong == MfaPage("S1", INVALID_CODE)
    ensures right == ClientRedirect("https://cb", "K1", Some("cs"))
    ensures p.pendingMfa == map[] && "U2" !in p.users && p.Unused("K2")
  {
    p, sessions, wrong := MfaWrongCode();
    Text.StripBlank("1");
    assert !Text.IsSpace("1"[0]);
    assert !HasEmail(p.users, EMAIL);
    right := p.HandleMfaCallback("S1", "1", Resumed(TOKENS), "U1", "K1", 30);
    assert p.users == map["U1" := User(EMAIL, 30)];
  }

  /**
   * MFA retry: after a wrong code, the right code with the same state completes the login,
   * and replaying it finds the entry gone.
   */
  method MfaRetry() returns (wrong: Response, right: Response, replay: Response)
    ensures wrong == MfaPage("S1", INVALID_CODE)
    ensures right == ClientRedirect("https://cb", "K1", Some("cs"))
    ensures replay == SessionExpired
  {
    var p, sessions;
    p, sessions, wrong, right := MfaRightCode();
    Text.StripBlank("1");
    assert !Text.IsSpace("1"[0]);
    replay := p.HandleMfaCallback("S1", "1", Resumed(TOKENS), "U2", "K2", 40);
  }

  /** A pending MFA entry is usable at exactly five minutes and gone one second later. */
  method MfaExpiry() returns (atLimit: Response, late: Response)
    ensures atLimit == MfaPage("S1", "")
    ensures late == SessionExpired
  {
    var p, sessions, toMfa := AwaitingMfa();
    atLimit := MfaPageFor(p.pendingMfa, "S1", "", 10 + MFA_TTL);
    assert atLimit == MfaPage("S1", "");
    Text.StripBlank("1");
    assert !Text.IsSpace("1"[0]);
    assert Text.Strip("1") != "";
    assert p.SessionsValid() && "U1" !in p.users && p.Unused("K1");
    late := p.HandleMfaCallback("S1", "1", Resumed(TOKENS), "U1", "K1", 10 + MFA_TTL + 1);
  }

  /**
   * Refresh-token rotation: the presented refresh token stops loading, the new pair keeps
   * the old scopes when none are requested, and the old token cannot be exchanged again.
   */
  method RefreshIsSingleUse() returns (before: bool, after: bool, rotated: OAuthToken, carried: Option<AccessToken>)
    ensures before && !after
    ensures rotated == OAuthToken("A2", "Bearer", 3600, "R2", "g")
    ensures carried == Some(AccessToken("A2", "C1", ["g"], 100 + 3600))
  {
    var p, sessions, redirect, token := Exchanged();
    ScopesRoundTrip(["g"]);
    var refresh := LoadRefreshToken(p.refreshTokens, Client(), "R1", 100);
    before := refresh.Some?;
    assert refresh.value.scopes == ["g"] && PlainScopes(["g"]);
    assert Granted([], refresh.value.scopes) == ["g"];
    rotated := p.ExchangeRefreshToken(Client(), refresh.value, [], "A2", "R2", 100);
    after := LoadRefreshToken(p.refreshTokens, Client(), "R1", 100).Some?;
    carried := FindAccessToken(p.accessTokens, "A2", 100);
  }

  /** Registering the same client id twice: the second metadata is the one served. */
  method RegisterTwice() returns (served: Option<ClientInfo>)
    ensures served == Some(ClientInfo("C1", "v2"))
  {
    var sessions := new SessionManager(map[]);
    var p := new GarminOAuthProvider(SERVER, sessions, map[], map[], map[], map[], map[]);
    p.RegisterClient(ClientInfo("C1", "v1"));
    p.RegisterClient(ClientInfo("C1", "v2"));
    served := GetClient(p.clients, "C1");
  }

  /**
   * New upstream tokens force a reload: a client cached a moment ago is not served again
   * once fresh tokens have been written for its user.
   */
  method NewTokensForceReload() returns (cached: Option<Garmin>, reloaded: Option<Garmin>)
    ensures cached == Some(Garmin(GarthTokens("o1", "o2")))
    ensures reloaded == Some(Garmin(GarthTokens("n1", "n2")))
  {
    var sessions := new SessionManager(map["U1" := GarthTokens("o1", "o2")]);
    cached := sessions.GetClient("U1", true, 0);
    sessions.CreateSessionFromGarthTokens("U1", "n1", "n2");
    reloaded := sessions.GetClient("U1", true, 10);
  }

  /**
   * Resolution never falls back once a user is identified: a token mapped to a user without
   * a session asks for re-authentication although a global client is set, while a call
   * without request context gets the global client.
   */
  method NoFallbackForKnownUser() returns (remote: Result<Garmin, Resolver.ResolveError>,
                                           local: Result<Garmin, Resolver.ResolveError>)
    ensures remote == Err(Resolver.ReAuthenticate)
    ensures local == Ok(Garmin(TOKENS))
  {
    var sessions := new SessionManager(map[]);
    sessions.SetTokenUserMapping("A1", "U1");
    var resolver := new Resolver.ClientResolver();
    resolver.SetGlobalClient(Garmin(TOKENS));
    resolver.SetSessionManager(sessions);
    remote := resolver.GetClient(true, Some("A1"), true, 0);
    local := resolver.GetClient(false, None, true, 0);
  }
}
