/** The extended authentication routes: the client address they record, the native staff
    and user logins, the OAuth2 login and the checks that open its callback, the packing
    of a return URL into the OAuth2 state and its recovery, and the provider listing. */
module AuthRoutes {
  import opened Wrappers
  import opened PyText
  import opened PyValue
  import opened Tables
  import opened Http
  import opened Exceptions
  import opened CoreAuth
  import opened OAuth2
  import Base64Url
  import AuthMiddleware

  // ---------------------------------------------------------------------------
  // client address

  /** `_get_client_ip`: X-Forwarded-For's first element, then X-Forwarded, then X-Real-IP,
      each stripped, the first that is non-empty as sent; else the peer address; else
      "unknown". */
  function ClientIp(r: Request): (ip: string)
    ensures TruthyStr(Header(r, "X-Forwarded-For")) ==> ip == Strip(Split(Header(r, "X-Forwarded-For").value, ',')[0])
    ensures TruthyStr(Header(r, "X-Forwarded-For")) ==> ',' !in ip && IsStripped(ip)
    ensures !TruthyStr(Header(r, "X-Forwarded-For")) && TruthyStr(Header(r, "X-Forwarded")) ==>
              ip == Strip(Header(r, "X-Forwarded").value)
    ensures !TruthyStr(Header(r, "X-Forwarded-For")) && !TruthyStr(Header(r, "X-Forwarded")) && TruthyStr(Header(r, "X-Real-IP"))
            ==> ip == Strip(Header(r, "X-Real-IP").value)
    ensures !TruthyStr(Header(r, "X-Forwarded-For")) && !TruthyStr(Header(r, "X-Forwarded")) && !TruthyStr(Header(r, "X-Real-IP"))
            ==> ip == r.clientHost.GetOr("unknown")
  {
    var forwardedFor := Header(r, "X-Forwarded-For");
    var forwarded := Header(r, "X-Forwarded");
    var realIp := Header(r, "X-Real-IP");
    if TruthyStr(forwardedFor) then
      var first := Split(forwardedFor.value, ',')[0];
      StripKeepsAbsent(first, ',');
      Strip(first)
    else if TruthyStr(forwarded) then Strip(forwarded.value)
    else if TruthyStr(realIp) then Strip(realIp.value)
    else r.clientHost.GetOr("unknown")
  }

  /** Without an X-Forwarded header and with an X-Real-IP that needs no stripping, the
      routes and the authentication middleware see the same client. */
  lemma ClientIpAgreesWithMiddleware(r: Request)
    requires !TruthyStr(Header(r, "X-Forwarded"))
    requires Header(r, "X-Real-IP").Some? ==> IsStripped(Header(r, "X-Real-IP").value)
    ensures ClientIp(r) == AuthMiddleware.GetClientIp(r)
  {
    if !TruthyStr(Header(r, "X-Forwarded-For")) && TruthyStr(Header(r, "X-Real-IP")) {
      StripStripped(Header(r, "X-Real-IP").value);
    }
  }

  /** The two resolvers part ways on an X-Forwarded header, which only the routes read, and
      on a padded X-Real-IP, which only the routes strip. */
  lemma ClientIpDiffersFromMiddleware(r: Request)
    requires r.headers == map["X-Real-IP" := " 10.0.0.1"]
    ensures ClientIp(r) == "10.0.0.1" && AuthMiddleware.GetClientIp(r) == " 10.0.0.1"
  {
    var v := " 10.0.0.1";
    assert Header(r, "X-Real-IP") == Some(v);
    assert "X-Forwarded-For" !in r.headers && "X-Forwarded" !in r.headers;
    assert LeadingSpaces(v) == 1 by {
      assert IsSpace(v[0]) && !IsSpace(v[1]);
      assert LeadingSpaces(v[1..]) == 0;
    }
    assert TrailingSpaces(v) == 0 by {
      assert !IsSpace(v[|v| - 1]);
    }
    assert Strip(v) == v[1..];
  }

  // ---------------------------------------------------------------------------
  // native logins

  /** `AuthTokenResponse`. */
  datatype TokenResponse = TokenResponse(accessToken: string, refreshToken: string, tokenType: string, expiresIn: int)

  /** The collaborators of a login: the token settings, the clock readings token creation
      makes, and the JWT encoder, SHA-256 digest, bcrypt and MD5 functions, and whether each
      of the two token commits succeeds. */
  datatype LoginEnv = LoginEnv(
    tm: TokenManager,
    clock: Clock,
    encode: Encode,
    sha256Hex: string -> string,
    bcrypt: BcryptVerify,
    md5Hex: string -> string,
    accessCommitOk: bool,
    refreshCommitOk: bool)

  /** The response of a login whose tokens were issued: 30 minutes, as seconds. */
  function LoginResponse(t: Tokens): (resp: TokenResponse)
    ensures resp.expiresIn == 1800 && resp.tokenType == t.tokenType
    ensures resp.accessToken == t.accessToken && resp.refreshToken == t.refreshToken
  {
    TokenResponse(t.accessToken, t.refreshToken, t.tokenType, 30 * 60)
  }

  /** The tokens a login issues for an authenticated user's dictionary. */
  function LoginTokens(env: LoginEnv, data: Dict): Tokens
    requires TokenPayload(data, env.clock.issuedAt).Some?
  {
    IssuedTokens(env.tm, TokenPayload(data, env.clock.issuedAt).value, env.clock, env.encode)
  }

  /** The row a login stores for one of its tokens: no session, the route's client address
      and the request's User-Agent. */
  function LoginRecord(env: LoginEnv, data: Dict, r: Request, token: string, kind: string): AuthTokenRecord
    requires "user_type" in data && "user_id" in data
  {
    TokenRecord(env.tm, data, token, kind, None, Some(ClientIp(r)), Header(r, "User-Agent"),
                if kind == "access" then env.clock.accessStored else env.clock.refreshStored, env.sha256Hex)
  }

  /** The login routes' shared tail: no account means the given AuthenticationError and no
      token; any failure while creating tokens is the service's own AuthenticationError,
      which the route's `except AuthenticationError` (the API class) does not catch, so it
      becomes AuthenticationError("Login failed"). */
  method IssueForLogin(store: TokenStore, env: LoginEnv, authResult: Option<Dict>, invalid: string, r: Request)
    returns (res: Result<TokenResponse, Raised>)
    modifies store
    ensures authResult.None? ==> res == Err(Api(AuthenticationError(invalid))) && store.records == old(store.records)
    ensures authResult.Some? && TokenPayload(authResult.value, env.clock.issuedAt).None? ==>
              res == Err(Api(AuthenticationError("Login failed"))) && store.records == old(store.records)
    ensures authResult.Some? && TokenPayload(authResult.value, env.clock.issuedAt).Some? ==>
              IssuedForLogin(env, authResult.value, r, res, old(store.records), store.records)
  {
    if authResult.None? {
      return Err(Api(AuthenticationError(invalid)));
    }
    var tokens := store.CreateAuthTokens(env.tm, authResult.value, None, Some(ClientIp(r)), Header(r, "User-Agent"),
                                         env.clock, env.encode, env.sha256Hex, env.accessCommitOk, env.refreshCommitOk);
    if tokens.Err? {
      return Err(Api(AuthenticationError("Login failed")));
    }
    return Ok(LoginResponse(tokens.value));
  }

  /** The outcome of a login whose user dictionary yields a token payload: both tokens and
      both rows when both commits succeed; the access row alone when only the refresh
      commit fails; no row when the access commit fails; "Login failed" on any failure. */
  predicate IssuedForLogin(env: LoginEnv, data: Dict, r: Request, res: Result<TokenResponse, Raised>,
                           before: seq<AuthTokenRecord>, after: seq<AuthTokenRecord>)
    requires TokenPayload(data, env.clock.issuedAt).Some?
  {
    var t := LoginTokens(env, data);
    && "user_type" in data && "user_id" in data
    && (env.accessCommitOk && env.refreshCommitOk ==>
          res == Ok(LoginResponse(t))
          && after == before + [LoginRecord(env, data, r, t.accessToken, "access"),
                                LoginRecord(env, data, r, t.refreshToken, "refresh")])
    && (env.accessCommitOk && !env.refreshCommitOk ==>
          res == Err(Api(AuthenticationError("Login failed")))
          && after == before + [LoginRecord(env, data, r, t.accessToken, "access")])
    && (!env.accessCommitOk ==> res == Err(Api(AuthenticationError("Login failed"))) && after == before)
  }

  /** `staff_login`. */
  method StaffLogin(store: TokenStore, env: LoginEnv, db: Database, username: string, password: string, r: Request)
    returns (res: Result<TokenResponse, Raised>)
    modifies store
    ensures AuthenticateStaff(db, username, password, env.bcrypt, env.md5Hex).None? ==>
              res == Err(Api(AuthenticationError("Invalid username or password"))) && store.records == old(store.records)
    ensures var a := AuthenticateStaff(db, username, password, env.bcrypt, env.md5Hex);
            a.Some? ==> TokenPayload(a.value, env.clock.issuedAt).Some?
                        && IssuedForLogin(env, a.value, r, res, old(store.records), store.records)
    ensures res.Ok? ==> res.value.expiresIn == 1800 && res.value.tokenType == "bearer" && |store.records| == |old(store.records)| + 2
    ensures res.Ok? <==> AuthenticateStaff(db, username, password, env.bcrypt, env.md5Hex).Some?
                         && env.accessCommitOk && env.refreshCommitOk
    ensures res.Err? ==> res.error == Api(AuthenticationError("Invalid username or password"))
                         || res.error == Api(AuthenticationError("Login failed"))
  {
    var authResult := AuthenticateStaff(db, username, password, env.bcrypt, env.md5Hex);
    if authResult.Some? {
      StaffPayloadExists(authResult.value, env.clock.issuedAt);
    }
    res := IssueForLogin(store, env, authResult, "Invalid username or password", r);
  }

  /** `user_login`, with the user found through the `UserEmail` table. */
  method UserLogin(store: TokenStore, env: LoginEnv, db: Database, email: string, password: string, r: Request)
    returns (res: Result<TokenResponse, Raised>)
    modifies store
    ensures AuthenticateUser(db, email, password, env.bcrypt, env.md5Hex).None? ==>
              res == Err(Api(AuthenticationError("Invalid email or password"))) && store.records == old(store.records)
    ensures var a := AuthenticateUser(db, email, password, env.bcrypt, env.md5Hex);
            a.Some? ==> TokenPayload(a.value, env.clock.issuedAt).Some?
                        && IssuedForLogin(env, a.value, r, res, old(store.records), store.records)
    ensures res.Ok? ==> res.value.expiresIn == 1800 && res.value.tokenType == "bearer" && |store.records| == |old(store.records)| + 2
    ensures res.Ok? <==> AuthenticateUser(db, email, password, env.bcrypt, env.md5Hex).Some?
                         && env.accessCommitOk && env.refreshCommitOk
    ensures res.Err? ==> res.error == Api(AuthenticationError("Invalid email or password"))
                         || res.error == Api(AuthenticationError("Login failed"))
  {
    var authResult := AuthenticateUser(db, email, password, env.bcrypt, env.md5Hex);
    if authResult.Some? {
      UserPayloadExists(authResult.value, env.clock.issuedAt);
    }
    res := IssueForLogin(store, env, authResult, "Invalid email or password", r);
  }

  /** A staff login result always has a token payload, carrying its username. */
  lemma StaffPayloadExists(data: Dict, now: int)
    requires exists s :: data == StaffData(s)
    ensures TokenPayload(data, now).Some?
    ensures Get(TokenPayload(data, now).value, "username") == data["username"]
  {
    var s :| data == StaffData(s);
    assert data["user_type"] == VStr("staff") && data["user_id"] == VInt(s.staffId);
  }

  /** A user login result always has a token payload, carrying its email address. */
  lemma UserPayloadExists(data: Dict, now: int)
    requires exists u, e, a :: data == UserData(u, e, a)
    ensures TokenPayload(data, now).Some?
    ensures Get(TokenPayload(data, now).value, "email") == data["email"]
  {
    var u, e, a :| data == UserData(u, e, a);
    assert data["user_type"] == VStr("user") && data["user_id"] == VInt(u.id);
  }

  // ---------------------------------------------------------------------------
  // OAuth2 state and return URL

  /** The state `oauth2_login` sends: the generated state, then ':' and the return URL
      when one is given. */
  function PackState(s: string, returnUrl: Option<string>): (st: string)
    ensures StartsWith(st, s)
    ensures !TruthyStr(returnUrl) ==> st == s
    ensures TruthyStr(returnUrl) ==> |st| == |s| + 1 + |returnUrl.value| && st[|s|] == ':' && st[|s| + 1..] == returnUrl.value
  {
    if TruthyStr(returnUrl) then
      var st := s + ":" + returnUrl.value;
      assert st[..|s|] == s && st[|s| + 1..] == returnUrl.value;
      st
    else s
  }

  /** The return URL `oauth2_callback` reads back: what follows the first ':' of a
      non-empty state, None without one. */
  function ExtractReturnUrl(state: Option<string>): (r: Option<string>)
    ensures r.Some? <==> TruthyStr(state) && ':' in state.value
    ensures r.Some? ==> exists head :: ':' !in head && state.value == head + [':'] + r.value
  {
    if TruthyStr(state) && ':' in state.value then Some(SplitOnce(state.value, ':').1) else None
  }

  /** The return URL survives the round trip through the state whenever the state part
      has no ':', even a return URL that has ':' of its own; an empty or absent one comes
      back as None. */
  lemma ReturnUrlRoundTrip(s: string, returnUrl: Option<string>)
    requires ':' !in s
    ensures ExtractReturnUrl(Some(PackState(s, returnUrl))) == (if TruthyStr(returnUrl) then returnUrl else None)
  {
    if TruthyStr(returnUrl) {
      SplitOnceGlue(s, ':', returnUrl.value);
      assert s + ":" + returnUrl.value == s + [':'] + returnUrl.value;
    }
  }

  /** In particular for the state `generate_state` produces. */
  lemma GeneratedStateRoundTrip(tokenBytes: seq<Base64Url.Byte>, returnUrl: Option<string>)
    requires |tokenBytes| == 32
    ensures ExtractReturnUrl(Some(PackState(GenerateState(tokenBytes), returnUrl)))
            == (if TruthyStr(returnUrl) then returnUrl else None)
  {
    ReturnUrlRoundTrip(GenerateState(tokenBytes), returnUrl);
  }

  // ---------------------------------------------------------------------------
  // OAuth2 login and callback

  const LoginFailed: Raised := Api(ApiException("OAuth2 login failed"))

  /** `oauth2_login`: the authorization request of the named provider, carrying the packed
      state; `stateBytes` are the random bytes of `generate_state`. Every failure, an
      unknown provider included, becomes APIException("OAuth2 login failed"). */
  function OAuth2Login(m: OAuth2Manager, provider: string, redirectUri: string, returnUrl: Option<string>,
                       stateBytes: seq<Base64Url.Byte>): (r: Result<EndpointRequest, Raised>)
    reads m
    requires |stateBytes| == 32
    ensures r.Err? <==> provider !in m.providers || m.providers[provider].endpoints.None?
    ensures r.Err? ==> r.error == LoginFailed
    ensures r.Ok? ==> r.value.endpoint == m.providers[provider].endpoints.value.authUrl
  {
    match m.GetProvider(provider)
    case None => Err(LoginFailed)
    case Some(p) =>
      var state := PackState(GenerateState(stateBytes), returnUrl);
      match AuthorizationRequest(p, redirectUri, Some(state), state)
      case Err(_) => Err(LoginFailed)
      case Ok(req) => Ok(req)
  }

  /** The state the login route sends out gives the callback back the return URL. */
  lemma LoginStateCarriesReturnUrl(m: OAuth2Manager, provider: string, redirectUri: string, returnUrl: Option<string>,
                                   stateBytes: seq<Base64Url.Byte>)
    requires |stateBytes| == 32
    requires OAuth2Login(m, provider, redirectUri, returnUrl, stateBytes).Ok?
    ensures var ps := OAuth2Login(m, provider, redirectUri, returnUrl, stateBytes).value.params;
            Get(ps, "state").VStr?
            && ExtractReturnUrl(Some(Get(ps, "state").s)) == (if TruthyStr(returnUrl) then returnUrl else None)
  {
    var p := m.providers[provider];
    var s := GenerateState(stateBytes);
    var state := PackState(s, returnUrl);
    assert TruthyStr(Some(state)) by {
      assert |s| == 44;
    }
    AuthorizationParameters(p, redirectUri, Some(state), state);
    GeneratedStateRoundTrip(stateBytes, returnUrl);
  }

  /** The checks that open `oauth2_callback`, in order: an error reported by the provider,
      then a missing code, then an unknown provider; no token is exchanged before all pass. */
  function CallbackPrecheck(m: OAuth2Manager, provider: string, code: Option<string>, error: Option<string>)
    : (r: Result<Provider, Raised>)
    reads m
    ensures TruthyStr(error) ==> r == Err(Api(ValidationError("OAuth2 authentication failed: " + error.value)))
    ensures !TruthyStr(error) && !TruthyStr(code) ==> r == Err(Api(ValidationError("Authorization code not provided")))
    ensures !TruthyStr(error) && TruthyStr(code) && provider !in m.providers ==>
              r == Err(Api(NotFoundError("OAuth Provider", VStr(provider))))
    ensures r.Ok? <==> !TruthyStr(error) && TruthyStr(code) && provider in m.providers
    ensures r.Ok? ==> r.value == m.providers[provider]
  {
    if TruthyStr(error) then Err(Api(ValidationError("OAuth2 authentication failed: " + error.value)))
    else if !TruthyStr(code) then Err(Api(ValidationError("Authorization code not provided")))
    else
      match m.GetProvider(provider)
      case None => Err(Api(NotFoundError("OAuth Provider", VStr(provider))))
      case Some(p) => Ok(p)
  }

  /** A provider error outranks everything else: whatever the code and the provider name,
      the callback raises the provider's message inside its `try` as a ValidationError. */
  lemma ProviderErrorOutranks(m: OAuth2Manager, provider: string, code: Option<string>, error: string)
    requires error != ""
    ensures var r := CallbackPrecheck(m, provider, code, Some(error));
            r.Err? && r.error.Api? && r.error.error.kind == Validation && r.error.error.statusCode == 400
  {
  }

  /** The JSON body of a successful callback. */
  function CallbackResponse(tokens: Tokens, userType: Value, state: Option<string>): (body: Dict)
    ensures body.Keys == {"access_token", "refresh_token", "token_type", "user_type", "return_url"}
    ensures body["return_url"] == OptStr(ExtractReturnUrl(state))
  {
    map["access_token" := VStr(tokens.accessToken), "refresh_token" := VStr(tokens.refreshToken),
        "token_type" := VStr(tokens.tokenType), "user_type" := userType,
        "return_url" := OptStr(ExtractReturnUrl(state))]
  }

  // ---------------------------------------------------------------------------
  // provider listing

  function LoginUrl(name: string): string {
    "/api/v2/auth/oauth2/" + name + "/login"
  }

  function ProviderEntry(name: string): Value {
    VDict(map["name" := VStr(name), "login_url" := VStr(LoginUrl(name))])
  }

  const NativeEntry: Value := VDict(map["name" := VStr("osticket"), "staff_login_url" := VStr("/api/v2/auth/staff/login"),
                                        "user_login_url" := VStr("/api/v2/auth/user/login")])

  /** `get_enabled_providers`: one entry per enabled provider, built in a loop, then the
      native entry, and `native_auth_enabled`. */
  method ProviderListing(m: OAuth2Manager) returns (body: Dict)
    requires m.Valid()
    ensures body.Keys == {"providers", "native_auth_enabled"} && body["native_auth_enabled"] == VBool(true)
    ensures body["providers"].VDict?
    ensures var info := body["providers"].entries;
            && info.Keys == m.providers.Keys + {"osticket"}
            && info["osticket"] == NativeEntry
            && forall n :: n in m.providers ==> info[n] == ProviderEntry(n)
  {
    var names, providers := m.GetEnabledProviders();
    var info: Dict := map[];
    for i := 0 to |names|
      invariant info.Keys == set k | k in names[..i]
      invariant forall k :: k in info ==> info[k] == ProviderEntry(k)
    {
      assert names[..i + 1] == names[..i] + [names[i]];
      info := info[names[i] := ProviderEntry(names[i])];
    }
    assert names[..|names|] == names;
    assert forall k :: k in info <==> k in names;
    assert forall k :: k in providers <==> k in names;
    assert info.Keys == providers.Keys;
    assert "osticket" !in providers;
    info := info["osticket" := NativeEntry];
    body := map["providers" := VDict(info), "native_auth_enabled" := VBool(true)];
  }
}
