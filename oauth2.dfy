/** The OAuth2 / OpenID Connect providers: the state value, the endpoints each provider
    derives from its settings, the authorization request of section 4.1.1 of RFC 6749, the
    token request of section 4.1.3 of RFC 6749, the ID-token issuer and audience checks of
    section 3.1.3.7 of OpenID Connect Core 1.0, the Microsoft Graph profile normalisation,
    and the registry of enabled providers. Requests are kept as lists of parameter pairs;
    the HTTP exchanges themselves are not part of this model. */
module OAuth2 {
  import opened Wrappers
  import opened PyText
  import opened PyValue
  import opened Exceptions
  import Base64Url
  import CoreAuth

  // ---------------------------------------------------------------------------
  // state

  /** `generate_state`: the URL-safe base64 encoding of the 32 bytes
      `secrets.token_bytes(32)` returns, which are passed in. */
  function GenerateState(tokenBytes: seq<Base64Url.Byte>): (s: string)
    requires |tokenBytes| == 32
    ensures |s| == 44
    ensures forall i :: 0 <= i < |s| ==> Base64Url.IsUrlSafe(s[i]) || s[i] == '='
    ensures ':' !in s
  {
    var s := Base64Url.Encode(tokenBytes);
    assert forall i :: 0 <= i < |s| ==> s[i] != ':' by {
      forall i | 0 <= i < |s| ensures s[i] != ':' {
        assert Base64Url.IsUrlSafe(s[i]) || s[i] == '=';
      }
    }
    s
  }

  /** The state carries the random bytes it came from: it decodes back to them. */
  lemma StateDecodes(tokenBytes: seq<Base64Url.Byte>)
    requires |tokenBytes| == 32
    ensures Base64Url.Decode(GenerateState(tokenBytes)) == Some(tokenBytes)
  {
    Base64Url.EncodeRoundTrip(tokenBytes);
  }

  // ---------------------------------------------------------------------------
  // providers

  /** The `KEYCLOAK_*` and `MICROSOFT_*` settings the providers read. */
  datatype ProviderSettings = ProviderSettings(
    keycloakEnabled: bool,
    keycloakServerUrl: Option<string>,
    keycloakRealm: Option<string>,
    keycloakClientId: Option<string>,
    keycloakClientSecret: Option<string>,
    microsoftEnabled: bool,
    microsoftTenantId: Option<string>,
    microsoftClientId: Option<string>,
    microsoftClientSecret: Option<string>)

  /** The URLs a fully configured provider talks to. */
  datatype Endpoints = Endpoints(authUrl: string, tokenUrl: string, userinfoUrl: string, discoveryUrl: string)

  /** A provider object. Its attributes are set once by its constructor; when the
      configuration is incomplete the URL attributes are never set (`endpoints` is None,
      and for Keycloak so is `realmUrl`). */
  datatype Provider =
    | Keycloak(serverUrl: Option<string>, realm: Option<string>, clientId: Option<string>,
               clientSecret: Option<string>, realmUrl: Option<string>, endpoints: Option<Endpoints>)
    | Microsoft(tenantId: Option<string>, clientId: Option<string>, clientSecret: Option<string>,
                endpoints: Option<Endpoints>)
  {
    function Name(): string {
      if Keycloak? then "keycloak" else "microsoft"
    }
  }

  /** `KeycloakProvider()`: every endpoint lies under `{server}/realms/{realm}`, and only a
      configuration with a server, a client id and a client secret gets endpoints. */
  function NewKeycloak(st: ProviderSettings): (p: Provider)
    ensures p.Keycloak? && p.clientId == st.keycloakClientId && p.clientSecret == st.keycloakClientSecret
    ensures p.endpoints.Some? <==> TruthyStr(st.keycloakServerUrl) && TruthyStr(st.keycloakClientId)
                                   && TruthyStr(st.keycloakClientSecret)
    ensures p.realmUrl.Some? <==> p.endpoints.Some?
    ensures p.realmUrl.Some? ==> p.realmUrl.value == Fmt(st.keycloakServerUrl) + "/realms/" + Fmt(st.keycloakRealm)
  {
    var base := Keycloak(st.keycloakServerUrl, st.keycloakRealm, st.keycloakClientId, st.keycloakClientSecret, None, None);
    if !(TruthyStr(st.keycloakServerUrl) && TruthyStr(st.keycloakClientId) && TruthyStr(st.keycloakClientSecret)) then
      base
    else
      var realmUrl := Fmt(st.keycloakServerUrl) + "/realms/" + Fmt(st.keycloakRealm);
      base.(realmUrl := Some(realmUrl),
            endpoints := Some(Endpoints(Under(realmUrl, "protocol/openid-connect/auth"),
                                        Under(realmUrl, "protocol/openid-connect/token"),
                                        Under(realmUrl, "protocol/openid-connect/userinfo"),
                                        Under(realmUrl, ".well-known/openid_configuration"))))
  }

  /** All four Keycloak URLs extend the realm URL and a '/', each by its own path. */
  lemma KeycloakEndpointsUnderRealm(st: ProviderSettings)
    requires NewKeycloak(st).endpoints.Some?
    ensures var p := NewKeycloak(st);
            var e := p.endpoints.value;
            var r := p.realmUrl.value + "/";
            && StartsWith(e.authUrl, r) && StartsWith(e.tokenUrl, r)
            && StartsWith(e.userinfoUrl, r) && StartsWith(e.discoveryUrl, r)
            && e.authUrl != e.tokenUrl && e.tokenUrl != e.userinfoUrl && e.authUrl != e.userinfoUrl
  {
  }

  /** `f"{base}/{path}"`. */
  function Under(base: string, path: string): (u: string)
    ensures StartsWith(u, base + "/") && |u| == |base| + 1 + |path|
  {
    StartsWithPrefix(base + "/", path);
    (base + "/") + path
  }

  const MicrosoftLogin: string := "https://login.microsoftonline.com/"
  const GraphMe: string := "https://graph.microsoft.com/v1.0/me"

  /** `MicrosoftProvider()`: the tenant's login endpoints and the Graph profile, only for a
      configuration with a tenant, a client id and a client secret. */
  function NewMicrosoft(st: ProviderSettings): (p: Provider)
    ensures p.Microsoft? && p.clientId == st.microsoftClientId && p.clientSecret == st.microsoftClientSecret
    ensures p.endpoints.Some? <==> TruthyStr(st.microsoftTenantId) && TruthyStr(st.microsoftClientId)
                                   && TruthyStr(st.microsoftClientSecret)
    ensures p.endpoints.Some? ==>
              && StartsWith(p.endpoints.value.authUrl, MicrosoftLogin + Fmt(st.microsoftTenantId) + "/")
              && StartsWith(p.endpoints.value.tokenUrl, MicrosoftLogin + Fmt(st.microsoftTenantId) + "/")
              && p.endpoints.value.userinfoUrl == GraphMe
  {
    var base := Microsoft(st.microsoftTenantId, st.microsoftClientId, st.microsoftClientSecret, None);
    if !(TruthyStr(st.microsoftTenantId) && TruthyStr(st.microsoftClientId) && TruthyStr(st.microsoftClientSecret)) then
      base
    else
      var tenant := MicrosoftLogin + Fmt(st.microsoftTenantId);
      var e := Endpoints(Under(tenant, "oauth2/v2.0/authorize"), Under(tenant, "oauth2/v2.0/token"), GraphMe,
                         Under(tenant, "v2.0/.well-known/openid_configuration"));
      Microsoft(st.microsoftTenantId, st.microsoftClientId, st.microsoftClientSecret, Some(e))
  }

  // ---------------------------------------------------------------------------
  // requests

  /** A request to one endpoint: where it goes, the parameter names in the order the code
      writes its dictionary, and the dictionary. */
  datatype EndpointRequest = EndpointRequest(endpoint: string, keys: seq<string>, params: Dict)

  /** No name is listed twice. */
  predicate Distinct(keys: seq<string>) {
    forall i, j :: 0 <= i < j < |keys| ==> keys[i] != keys[j]
  }

  /** The order lists each parameter exactly once. */
  predicate WellOrdered(r: EndpointRequest) {
    Distinct(r.keys) && r.params.Keys == (set k | k in r.keys)
  }

  /** The authorization request's parameter names, in the order the code writes them. */
  const AuthorizationKeys: seq<string> := ["client_id", "response_type", "scope", "redirect_uri", "state"]

  /** The token request's parameter names, in the order the code writes them. */
  const TokenKeys: seq<string> := ["grant_type", "client_id", "client_secret", "code", "redirect_uri"]

  lemma AuthorizationKeysDistinct()
    ensures Distinct(AuthorizationKeys) && Distinct(AuthorizationKeys + ["response_mode"])
  {
    var ks := AuthorizationKeys + ["response_mode"];
    assert ks[2] != ks[4] by {
      assert ks[2][1] != ks[4][1];
    }
  }

  lemma TokenKeysDistinct()
    ensures Distinct(TokenKeys) && Distinct(TokenKeys + ["scope"])
  {
  }

  function Scope(p: Provider): string {
    if p.Keycloak? then "openid email profile" else "openid email profile User.Read"
  }

  /** The parameter names of the authorization request, in order: Microsoft appends
      `response_mode`. */
  function AuthorizationOrder(p: Provider): (keys: seq<string>)
    ensures Distinct(keys)
  {
    AuthorizationKeysDistinct();
    if p.Keycloak? then AuthorizationKeys else AuthorizationKeys + ["response_mode"]
  }

  /** The dictionary `get_authorization_url` encodes: the parameters of section 4.1.1 of
      RFC 6749, the given state unless it is empty, and `response_mode=query` only for
      Microsoft. */
  function AuthorizationForm(p: Provider, redirectUri: string, state: Option<string>, newState: string): (ps: Dict)
    ensures Get(ps, "response_type") == VStr("code") && Get(ps, "client_id") == OptStr(p.clientId)
    ensures Get(ps, "redirect_uri") == VStr(redirectUri) && Get(ps, "scope") == VStr(Scope(p))
    ensures TruthyStr(state) ==> Get(ps, "state") == VStr(state.value)
    ensures !TruthyStr(state) ==> Get(ps, "state") == VStr(newState)
    ensures p.Microsoft? <==> Get(ps, "response_mode") == VStr("query")
  {
    var common := map["client_id" := OptStr(p.clientId), "response_type" := VStr("code"),
                      "scope" := VStr(Scope(p)), "redirect_uri" := VStr(redirectUri),
                      "state" := VStr(if TruthyStr(state) then state.value else newState)];
    if p.Keycloak? then common else common["response_mode" := VStr("query")]
  }

  /** `get_authorization_url`, with `urlencode` left as the dictionary it encodes; `newState`
      is what `generate_state()` returns, used when the given state is empty. A provider
      without endpoints has no `auth_url` attribute: AttributeError. */
  function AuthorizationRequest(p: Provider, redirectUri: string, state: Option<string>, newState: string)
    : (r: Result<EndpointRequest, Raised>)
    ensures r.Err? <==> p.endpoints.None?
    ensures r.Err? ==> r.error == Other("AttributeError")
    ensures r.Ok? ==> r.value.endpoint == p.endpoints.value.authUrl && WellOrdered(r.value)
  {
    if p.endpoints.None? then Err(Other("AttributeError"))
    else
      var r := EndpointRequest(p.endpoints.value.authUrl, AuthorizationOrder(p),
                               AuthorizationForm(p, redirectUri, state, newState));
      assert r.params.Keys == (set k | k in r.keys);
      Ok(r)
  }

  /** The parameters of section 4.1.1 of RFC 6749 are all present, the state is the given
      one unless that is empty, and only Microsoft asks for `response_mode=query`. */
  lemma AuthorizationParameters(p: Provider, redirectUri: string, state: Option<string>, newState: string)
    requires p.endpoints.Some?
    ensures var ps := AuthorizationRequest(p, redirectUri, state, newState).value.params;
            && Get(ps, "response_type") == VStr("code")
            && Get(ps, "client_id") == OptStr(p.clientId)
            && Get(ps, "redirect_uri") == VStr(redirectUri)
            && Get(ps, "scope") == VStr(Scope(p))
            && (TruthyStr(state) ==> Get(ps, "state") == VStr(state.value))
            && (!TruthyStr(state) ==> Get(ps, "state") == VStr(newState))
            && (p.Microsoft? <==> Get(ps, "response_mode") == VStr("query"))
  {
    assert AuthorizationRequest(p, redirectUri, state, newState).value.params
        == AuthorizationForm(p, redirectUri, state, newState);
  }

  /** A generated state never holds ':', so it is what the login route may prefix to a
      return URL. */
  lemma FreshStateHasNoColon(p: Provider, redirectUri: string, freshBytes: seq<Base64Url.Byte>)
    requires |freshBytes| == 32 && p.endpoints.Some?
    ensures var ps := AuthorizationRequest(p, redirectUri, None, GenerateState(freshBytes)).value.params;
            exists s :: Get(ps, "state") == VStr(s) && |s| == 44 && ':' !in s
  {
    var s := GenerateState(freshBytes);
    AuthorizationParameters(p, redirectUri, None, s);
    assert |s| == 44 && ':' !in s;
  }

  /** The form field names of the token request, in order: Microsoft appends `scope`. */
  function TokenOrder(p: Provider): (keys: seq<string>)
    ensures Distinct(keys)
  {
    TokenKeysDistinct();
    if p.Keycloak? then TokenKeys else TokenKeys + ["scope"]
  }

  /** The form body `exchange_code_for_token` posts: the fields of section 4.1.3 of
      RFC 6749 with the client credentials, and the scope only for Microsoft. */
  function TokenForm(p: Provider, code: string, redirectUri: string): (t: Dict)
    ensures Get(t, "grant_type") == VStr("authorization_code") && Get(t, "code") == VStr(code)
    ensures Get(t, "client_id") == OptStr(p.clientId) && Get(t, "client_secret") == OptStr(p.clientSecret)
    ensures Get(t, "redirect_uri") == VStr(redirectUri)
    ensures p.Microsoft? ==> Get(t, "scope") == VStr(Scope(p))
    ensures p.Keycloak? ==> "scope" !in t
  {
    var common := map["grant_type" := VStr("authorization_code"), "client_id" := OptStr(p.clientId),
                      "client_secret" := OptStr(p.clientSecret), "code" := VStr(code),
                      "redirect_uri" := VStr(redirectUri)];
    if p.Keycloak? then common else common["scope" := VStr(Scope(p))]
  }

  /** The form body of `exchange_code_for_token` (section 4.1.3 of RFC 6749) and the token
      endpoint it is posted to. A provider without endpoints has no `token_url`:
      AttributeError, which is not an HTTP error and so is not turned into a 400. */
  function TokenRequest(p: Provider, code: string, redirectUri: string): (r: Result<EndpointRequest, Raised>)
    ensures r.Err? <==> p.endpoints.None?
    ensures r.Err? ==> r.error == Other("AttributeError")
    ensures r.Ok? ==> r.value.endpoint == p.endpoints.value.tokenUrl && WellOrdered(r.value)
  {
    if p.endpoints.None? then Err(Other("AttributeError"))
    else
      var r := EndpointRequest(p.endpoints.value.tokenUrl, TokenOrder(p), TokenForm(p, code, redirectUri));
      assert r.params.Keys == (set k | k in r.keys);
      Ok(r)
  }

  /** The form fields of section 4.1.3 of RFC 6749, and the scope only for Microsoft. */
  lemma TokenRequestParameters(p: Provider, code: string, redirectUri: string)
    requires p.endpoints.Some?
    ensures var t := TokenRequest(p, code, redirectUri).value.params;
            && Get(t, "grant_type") == VStr("authorization_code")
            && Get(t, "code") == VStr(code)
            && Get(t, "client_id") == OptStr(p.clientId)
            && Get(t, "redirect_uri") == VStr(redirectUri)
            && Get(t, "client_secret") == OptStr(p.clientSecret)
            && (p.Microsoft? ==> Get(t, "scope") == VStr(Scope(p)))
            && (p.Keycloak? ==> "scope" !in t)
  {
    assert TokenRequest(p, code, redirectUri).value.params == TokenForm(p, code, redirectUri);
  }

  /** The token request carries the authorization code grant, the code and the same client
      and redirect URI as the authorization request; Microsoft repeats the same scope. */
  lemma TokenRequestMatchesAuthorization(p: Provider, code: string, redirectUri: string, state: Option<string>,
                                         newState: string)
    requires p.endpoints.Some?
    ensures var t := TokenRequest(p, code, redirectUri).value.params;
            var a := AuthorizationRequest(p, redirectUri, state, newState).value.params;
            && Get(t, "grant_type") == VStr("authorization_code")
            && Get(t, "code") == VStr(code)
            && Get(t, "client_id") == Get(a, "client_id")
            && Get(t, "redirect_uri") == Get(a, "redirect_uri")
            && Get(t, "client_secret") == OptStr(p.clientSecret)
            && (p.Microsoft? ==> Get(t, "scope") == Get(a, "scope"))
            && (p.Keycloak? ==> "scope" !in t)
  {
    TokenRequestParameters(p, code, redirectUri);
    AuthorizationParameters(p, redirectUri, state, newState);
  }

  // ---------------------------------------------------------------------------
  // ID tokens

  const InvalidIdToken: Raised := HttpError(400, "Invalid ID token")

  /** `KeycloakProvider.verify_id_token` on the claims `jwt.get_unverified_claims` yields
      (None when the token does not decode). Any failure, including a provider without a
      realm URL, is an HTTP 400; the signature is not checked. */
  function VerifyIdToken(realmUrl: Option<string>, clientId: Option<string>, claims: Option<Dict>): (r: Result<Dict, Raised>)
    ensures r.Ok? <==> claims.Some? && realmUrl.Some? && Get(claims.value, "iss") == VStr(realmUrl.value)
                       && Get(claims.value, "aud") == OptStr(clientId)
    ensures r.Ok? ==> r.value == claims.value
    ensures r.Err? ==> r.error == InvalidIdToken
  {
    if claims.None? || realmUrl.None? then Err(InvalidIdToken)
    else if Get(claims.value, "iss") != VStr(realmUrl.value) then Err(InvalidIdToken)
    else if Get(claims.value, "aud") != OptStr(clientId) then Err(InvalidIdToken)
    else Ok(claims.value)
  }

  /** The audience is compared by equality, so a token whose `aud` is a list is refused even
      when the list names the client, as is a token without an issuer. */
  lemma ListAudienceRejected(p: Provider, claims: Dict)
    requires p.Keycloak?
    ensures Get(claims, "aud").VList? ==> VerifyIdToken(p.realmUrl, p.clientId, Some(claims)) == Err(InvalidIdToken)
    ensures "iss" !in claims ==> VerifyIdToken(p.realmUrl, p.clientId, Some(claims)) == Err(InvalidIdToken)
  {
  }

  /** A configured Keycloak provider accepts exactly the claims issued by its realm for its
      client. */
  lemma IssuerIsTheRealm(st: ProviderSettings, claims: Dict)
    requires NewKeycloak(st).endpoints.Some?
    ensures var p := NewKeycloak(st);
            VerifyIdToken(p.realmUrl, p.clientId, Some(claims)).Ok? <==>
              Get(claims, "iss") == VStr(Fmt(st.keycloakServerUrl) + "/realms/" + Fmt(st.keycloakRealm))
              && Get(claims, "aud") == VStr(st.keycloakClientId.value)
  {
  }

  // ---------------------------------------------------------------------------
  // Microsoft Graph profile

  /** The normalisation in Microsoft `get_user_info`. */
  function NormalizeMicrosoftUser(userData: Dict): (n: Dict)
    ensures n.Keys == {"id", "email", "name", "given_name", "family_name", "username", "microsoft_user_data"}
    ensures n["email"] == (if Truthy(Get(userData, "mail")) then userData["mail"] else Get(userData, "userPrincipalName"))
    ensures n["username"] == Get(userData, "userPrincipalName")
    ensures n["microsoft_user_data"] == VDict(userData)
  {
    map["id" := Get(userData, "id"),
        "email" := Or(Get(userData, "mail"), Get(userData, "userPrincipalName")),
        "name" := Get(userData, "displayName"),
        "given_name" := Get(userData, "givenName"),
        "family_name" := Get(userData, "surname"),
        "username" := Get(userData, "userPrincipalName"),
        "microsoft_user_data" := VDict(userData)]
  }

  /** The external id the identity lookup takes from a normalised profile is the Graph
      `id` when truthy: a normalised profile has no `sub` to fall back to. */
  lemma NormalizedProfileExternalId(userData: Dict)
    ensures var id := CoreAuth.ExternalUserId(NormalizeMicrosoftUser(userData));
            (Truthy(Get(userData, "id")) ==> id == userData["id"]) && (!Truthy(Get(userData, "id")) ==> id == VNone)
  {
    var n := NormalizeMicrosoftUser(userData);
    assert "sub" !in n;
  }

  // ---------------------------------------------------------------------------
  // registry

  function Registered(st: ProviderSettings): (names: seq<string>)
    ensures "keycloak" in names <==> st.keycloakEnabled && TruthyStr(st.keycloakServerUrl)
    ensures "microsoft" in names <==> st.microsoftEnabled && TruthyStr(st.microsoftTenantId)
    ensures forall n :: n in names ==> n == "keycloak" || n == "microsoft"
    ensures |names| <= 2 && (|names| == 2 ==> names[0] != names[1])
  {
    (if st.keycloakEnabled && TruthyStr(st.keycloakServerUrl) then ["keycloak"] else [])
    + (if st.microsoftEnabled && TruthyStr(st.microsoftTenantId) then ["microsoft"] else [])
  }

  /** `OAuth2Manager`: the providers dictionary, with its keys in insertion order. */
  class OAuth2Manager {
    var names: seq<string>
    var providers: map<string, Provider>

    /** The dictionary's keys are `names`, each provider is filed under its own name. */
    ghost predicate Valid()
      reads this
    {
      && providers.Keys == (set n | n in names)
      && (forall i, j :: 0 <= i < j < |names| ==> names[i] != names[j])
      && (forall n :: n in providers ==> providers[n].Name() == n)
    }

    /** `_init_providers`: Keycloak when enabled with a server URL, then Microsoft when
        enabled with a tenant id. */
    constructor (st: ProviderSettings)
      ensures Valid()
      ensures names == Registered(st)
      ensures "keycloak" in providers ==> providers["keycloak"] == NewKeycloak(st)
      ensures "microsoft" in providers ==> providers["microsoft"] == NewMicrosoft(st)
    {
      names := [];
      providers := map[];
      new;
      if st.keycloakEnabled && TruthyStr(st.keycloakServerUrl) {
        providers := providers["keycloak" := NewKeycloak(st)];
        names := names + ["keycloak"];
      }
      if st.microsoftEnabled && TruthyStr(st.microsoftTenantId) {
        providers := providers["microsoft" := NewMicrosoft(st)];
        names := names + ["microsoft"];
      }
      assert forall n :: n in names <==> n in providers.Keys;
    }

    /** `get_provider`: a provider object is always truthy, so this is the lookup. */
    function GetProvider(name: string): (r: Option<Provider>)
      reads this
      ensures r.Some? <==> name in providers
      ensures r.Some? ==> r.value == providers[name]
    {
      if name in providers then Some(providers[name]) else None
    }

    predicate IsProviderEnabled(name: string)
      reads this
    {
      name in providers
    }

    /** `get_enabled_providers`: a copy of the dictionary. Dafny maps are values, so
        changing the copy cannot reach the registry. */
    method GetEnabledProviders() returns (order: seq<string>, copy: map<string, Provider>)
      ensures order == names && copy == providers
    {
      order := names;
      copy := providers;
    }
  }

  /** A provider is enabled exactly when it can be fetched, and what is fetched is the
      provider of that name. */
  lemma EnabledIffFetchable(m: OAuth2Manager, name: string)
    requires m.Valid()
    ensures m.IsProviderEnabled(name) <==> m.GetProvider(name).Some?
    ensures m.GetProvider(name).Some? ==> m.GetProvider(name).value.Name() == name
  {
  }

  /** Registration ignores the client id and secret: a provider enabled with a server URL or
      tenant is listed, though without them it has no endpoints and every login through it
      fails. */
  lemma RegisteredWithoutEndpoints(st: ProviderSettings)
    requires st.keycloakEnabled && TruthyStr(st.keycloakServerUrl) && !TruthyStr(st.keycloakClientSecret)
    ensures "keycloak" in Registered(st)
    ensures NewKeycloak(st).endpoints.None?
  {
  }
}
