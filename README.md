# osTicket API v2: authentication and plumbing, modelled in Dafny

This project models the authentication and plumbing layer of the osTicket REST API v2, a
FastAPI service that sits on osTicket's database. It covers:

- the request-authentication middleware: which credential is tried first, API-key IP
  allow-lists with single addresses and CIDR blocks, session lookup, the `AuthContext`
  flags and the `require_*` guards;
- credential checks and token records in `AuthenticationService`: password-hash dispatch,
  the service's exact-text IP check, external identities, the JWT payload and the two
  stored token records;
- the OAuth2 providers (Keycloak and Microsoft) and their registry;
- the authorization-request and token-request parameters of section 4.1 of RFC 6749;
- the ID-token issuer and audience checks;
- the Microsoft Graph profile normalisation;
- the `state:return_url` packing of the login and callback routes;
- the exception classes, their fixed codes and statuses, and the error envelopes;
- configuration: PHP `define()` extraction from ost-config.php, `osticket_settings`,
  `ALLOWED_HOSTS` and the database URL;
- derived table names, pagination, and the logging middleware's request id and client
  address.

One Dafny module stands for each source file. Helper modules carry the Python semantics the
code relies on:

- `PyText` holds `str` operations;
- `PyValue` holds dynamic values and truthiness;
- `Ipv4` follows `ipaddress` for IPv4;
- `Base64Url` is `urlsafe_b64encode`;
- `Tables` holds database rows and `.filter(...).first()`;
- `Http` holds requests, responses and `request.state`.

Database queries read sequences of rows in table order. A clock reading is an integer count
of microseconds. The token code takes each of its `datetime.utcnow()` readings as a value of
its own. Hashing,
bcrypt, JWT, `json`, `uuid`, `secrets` and `url_for` are function or value parameters.

Three things change state in place, and each is a class:

- the identity table that `authenticate_external_identity` updates;
- the token table that `_store_auth_token` appends to;
- the provider registry.

Loops in the source are methods with invariants:

- `is_ip_allowed`;
- the validation-error loop;
- the `define()` key loop;
- the provider listing.

`authenticate_user` and `_get_osticket_user` read an `email` attribute that the `User` model
does not have. Each is modelled twice: as written, and corrected to read the address from
`UserEmail`. Both pairs are listed under Findings, and the routes use the corrected versions.

## Model

| member | source | states |
|---|---|---|
| AuthMiddleware.NewAuthContext | api/v2/middleware/auth.py:28-43 | the flags agree with the fields: authenticated iff not anonymous, staff iff a staff record, admin only for an admin staff record, so admin implies staff |
| AuthMiddleware.GetClientIp | api/v2/middleware/auth.py:202-216 | a non-empty X-Forwarded-For gives exactly its first comma-separated element, stripped, so stripped and comma-free; else a non-empty X-Real-IP exactly as sent; else the peer host or "unknown" |
| AuthMiddleware.AllowList | api/v2/middleware/auth.py:225 | every kept entry is non-empty, stripped and comma-free |
| AuthMiddleware.IsIpAllowed | api/v2/middleware/auth.py:218-249 | the loop with early return computes exactly the allow-list verdict `IpAllowed` |
| AuthMiddleware.ScanFirstMatch | api/v2/middleware/auth.py:230-240 | the scan allows iff some entry matches and every entry before it is well-formed and does not match |
| AuthMiddleware.WellFormedListIsUnion | api/v2/middleware/auth.py:230-240 | with no malformed entry, the scan allows iff some entry matches |
| AuthMiddleware.FirstMatchBelow | api/v2/middleware/auth.py:230-238 | a match at position k implies a first match at or before k with only non-matching entries before it |
| AuthMiddleware.ScanIgnoresLaterEntries | api/v2/middleware/auth.py:233-238 | entries after a match are never examined: appending anything keeps the verdict |
| AuthMiddleware.MalformedEntryDenies | api/v2/middleware/auth.py:242-249 | a malformed entry reached before any match denies, whatever follows |
| AuthMiddleware.SingleNetworkEntry | api/v2/middleware/auth.py:231-234 | a one-entry CIDR list admits exactly the block's addresses (strict=False: host bits ignored) |
| AuthMiddleware.SingleAddressEntry | api/v2/middleware/auth.py:235-238 | a one-entry address list admits exactly the client strings that parse to that address |
| AuthMiddleware.UnparsableClientDenied | api/v2/middleware/auth.py:221-228 | a client that is not an address is allowed iff the list is empty or "*" |
| AuthMiddleware.AuthenticateApiKey | api/v2/middleware/auth.py:104-142 | the first active key with this value decides: an api_key context for that key when its allow-list admits the client, else the IP AuthorizationError; with no active key of this value, "Invalid API key" |
| AuthMiddleware.AuthenticateSession | api/v2/middleware/auth.py:144-170 | the first live staff session whose staff id has an active staff member gives a staff_session context for the first such member; a missing or inactive staff member, or no live staff session, falls back to exactly the user-session lookup |
| AuthMiddleware.AuthenticateUserSession | api/v2/middleware/auth.py:172-200 | the first live user session whose user exists gives a user_session context for the first such user; otherwise "Invalid or expired session" |
| AuthMiddleware.AuthenticateRequest | api/v2/middleware/auth.py:69-102 | a non-empty X-API-Key header gives the API-key lookup's context, else a non-empty OSTSESSID cookie the session lookup's, else an anonymous context; every failure of either lookup surfaces as "Authentication failed"; contexts are consistent |
| AuthMiddleware.Dispatch | api/v2/middleware/auth.py:56-67 | a public path stores an anonymous context; otherwise the authentication result is stored before the endpoint, and a failure propagates with the state unchanged |
| AuthMiddleware.ApiKeyHeaderDecides | api/v2/middleware/auth.py:75-77 | with a non-empty X-API-Key header the outcome does not depend on the cookies |
| AuthMiddleware.IpViolationSurfacesAsAuthenticationFailure | api/v2/middleware/auth.py:93-100 | the IP AuthorizationError of the key check reaches the caller as the authentication failure |
| AuthMiddleware.StaffSessionWins | api/v2/middleware/auth.py:149-170 | a live staff session of an active staff member wins over any user session |
| AuthMiddleware.NoStaffSessionFallsBackToUser | api/v2/middleware/auth.py:172-200 | without a usable staff session the result is the user-session lookup |
| AuthMiddleware.NoCredentialsIsAnonymous | api/v2/middleware/auth.py:79-91 | with neither credential the context is anonymous |
| AuthMiddleware.CookieStaffSessionAuthenticates | api/v2/middleware/auth.py:79-82 | a request with only a cookie naming a live staff session of an active staff member is authenticated as that staff member |
| AuthMiddleware.CookieFallsBackToUserSession | api/v2/middleware/auth.py:79-82 | a request with only a cookie and no live staff session for it gets the user-session lookup's context, and fails exactly when that lookup fails |
| AuthMiddleware.GuardsNest | api/v2/middleware/auth.py:256-282 | what require_admin accepts require_staff accepts, and what that or require_api_key accepts require_auth accepts, returning the same context |
| AuthMiddleware.AnonymousFailsWithAuthenticationError | api/v2/middleware/auth.py:256-282 | an anonymous context fails every guard with the authentication error, never the authorization error |
| AuthMiddleware.GuardsCharacterised | api/v2/middleware/auth.py:270-282 | require_api_key accepts iff the type is api_key; require_admin iff authenticated with an admin staff record |
| Ipv4.ParseFormat | api/v2/middleware/auth.py:228 | every IPv4 address reads back from its dotted-quad text |
| Ipv4.ParseNetwork | api/v2/middleware/auth.py:233 | a parsed network has a prefix of at most 32 and a base address with its host bits cleared |
| Ipv4.HostBitsIgnored | api/v2/middleware/auth.py:233 | two addresses in the same block name the same network, so host bits of an entry do not matter |
| Ipv4.NetworkHoldsItsAddress | api/v2/middleware/auth.py:233 | the network a written address belongs to holds that address |
| Ipv4.FullPrefixIsSingleAddress | api/v2/middleware/auth.py:233 | a /32 network holds exactly its own address |
| Ipv4.ZeroPrefixHoldsAll | api/v2/middleware/auth.py:233 | a /0 network holds every address |
| Tables.FirstIsEarliest | api/v2/middleware/auth.py:110-113 | `.first()` returns the earliest row satisfying the filter |
| CoreAuth.VerifyPassword | api/v2/core/auth.py:77-96 | no stored hash never verifies; a "$2" hash verifies iff bcrypt returns true; a 32-character hash without the prefix verifies iff it equals the MD5 digest; any other hash verifies iff bcrypt returns true, so a bcrypt exception means false |
| CoreAuth.BcryptPrefixIgnoresMd5 | api/v2/core/auth.py:82-83 | a "$2" hash, even of 32 characters, is decided by bcrypt alone |
| CoreAuth.LegacyHashIgnoresBcrypt | api/v2/core/auth.py:86-89 | a 32-character hash without the prefix is decided by the MD5 digest alone |
| CoreAuth.SingleEntryIsExactMatch | api/v2/core/auth.py:120-122 | a one-entry restriction admits exactly that text |
| CoreAuth.ServiceCheckIgnoresNetworks | api/v2/core/auth.py:120-122 | a client inside a CIDR entry is admitted by the middleware but refused by the service's text comparison |
| CoreAuth.ZeroAddressMeansDifferentThings | api/v2/core/auth.py:120 | "0.0.0.0" lifts the service's restriction, while the middleware admits only the address 0 |
| CoreAuth.AuthenticateApiKey | api/v2/core/auth.py:106-141 | the first active key with this value decides: its data when the service's exact-text IP check admits the client, else None; with no such key, None |
| CoreAuth.ApiKeyDataFields | api/v2/core/auth.py:129-137 | the result names the key id as user_id and api_key_id and copies both permissions |
| CoreAuth.UnrestrictedKeyAcceptsAnyClient | api/v2/core/auth.py:120 | a key with an empty or "0.0.0.0" restriction authenticates from any client |
| CoreAuth.AuthenticateStaff | api/v2/core/auth.py:143-177 | the first active staff member with this username decides: its data iff the password verifies against its hash, else None; with no such member, None |
| CoreAuth.StaffWithoutHashRejected | api/v2/core/auth.py:157-159 | a staff member without a stored hash never logs in |
| CoreAuth.AuthenticateUser | api/v2/core/auth.py:179-215 | the first UserEmail row with this address, the first user with its user id and that user's first account decide: the user's data iff the password verifies against the account's hash; a missing link at any step means None |
| CoreAuth.UserLoginNeverSucceedsAsWritten | api/v2/core/auth.py:183-185 | with correct credentials the code as written refuses the user, the corrected lookup accepts them |
| CoreAuth.GetOsticketUser | api/v2/core/auth.py:276-306 | the first staff row with the id gives its staff data, isadmin included; the first user row with the id gives its id, name, organisation and the address of the first UserEmail row with its default email id, or None without one; found iff such a row exists; other types give None |
| CoreAuth.OsticketUserBranchLostAsWritten | api/v2/core/auth.py:293-302 | the user branch as written always gives None; the staff branch agrees with the corrected lookup |
| CoreAuth.Touched | api/v2/core/auth.py:235-238 | a matched identity gets the login time, the profile's email and name, and the profile as JSON metadata, while its link fields stay |
| CoreAuth.IdentitiesAfter | api/v2/core/auth.py:228-239 | with a truthy external id, the first row mapping this provider and id is touched and every other row is unchanged; with no id, or no row mapping it, the table is unchanged |
| CoreAuth.MissingExternalIdFails | api/v2/core/auth.py:220-225 | without a truthy "id" or "sub" the result is None and no row changes |
| CoreAuth.AutoCreateNeverApplies | api/v2/core/auth.py:261-270 | the auto-create flag never changes the outcome |
| CoreAuth.UnmappedIdentityFails | api/v2/core/auth.py:261-270 | with no mapping row the result is None and no row changes |
| CoreAuth.MappedIdentityResolves | api/v2/core/auth.py:233-259 | success implies a committed update, a mapping row, and an `external_identity` record naming provider, id and email |
| CoreAuth.ExternalIdentityTable.AuthenticateExternalIdentity | api/v2/core/auth.py:217-274 | the return value and the new identity rows are those of `ExternalAuthResult` and `IdentitiesAfter` |
| CoreAuth.TokenPayload | api/v2/core/auth.py:313-332 | a payload exists iff user_type and user_id are present and are scalars |
| CoreAuth.PayloadClaims | api/v2/core/auth.py:313-332 | the payload carries user_type, user_id, iat and "sub" = "type:id"; staff add username, email, dept_id and isadmin (default false); users add email and name; other kinds add nothing |
| CoreAuth.SubjectReadsBack | api/v2/core/auth.py:314 | splitting "sub" at its first ':' gives back the user type and the decimal user id |
| CoreAuth.AccessClaims | api/v2/core/auth.py:40-51 | the payload plus "type" access and an expiry of the given delta, else the configured minutes |
| CoreAuth.RefreshClaims | api/v2/core/auth.py:53-59 | the payload plus "type" refresh and an expiry of the configured days |
| CoreAuth.StoredExpiryTrailsClaims | api/v2/core/auth.py:374-377 | each token's expiry claim is its own clock reading plus the lifetime; the stored expiry is a later reading plus the same lifetime, so it trails the claim by the time between them; the claim's whole seconds never exceed the stored expiry; every type other than "access" gets the refresh expiry |
| CoreAuth.TokenStore.StoreAuthToken | api/v2/core/auth.py:367-397 | a missing key raises with no change; a failed commit rolls back and re-raises; otherwise exactly one record with the token's hash is appended |
| CoreAuth.TokenStore.CreateAuthTokens | api/v2/core/auth.py:308-365 | no payload means failure with no records; otherwise the access record then the refresh record are appended, each expiring from its own clock reading, with token_type "bearer"; a failed refresh commit leaves the access record; any failure is re-raised as the service error |
| CoreAuth.IssuedRecordsAgree | api/v2/core/auth.py:339-355 | the two records share user, session, address and agent; their kinds are "access" and "refresh" and their hashes are those of their own tokens; each record and each expiry claim expires the configured lifetime after its own clock reading |
| CoreAuth.PayloadUser | api/v2/core/auth.py:315-319 | the payload keeps the user_type and user_id it was built from |
| Base64Url.Encode | api/v2/core/oauth2.py:40 | the output length is four per started group of three bytes, over the URL-safe alphabet and '=' |
| Base64Url.EncodeRoundTrip | api/v2/core/oauth2.py:40 | every byte string decodes back from its encoding |
| OAuth2.GenerateState | api/v2/core/oauth2.py:38-40 | 32 random bytes give 44 characters of the URL-safe alphabet or '=', so never a ':' |
| OAuth2.StateDecodes | api/v2/core/oauth2.py:38-40 | the state decodes back to its 32 bytes |
| OAuth2.NewKeycloak | api/v2/core/oauth2.py:45-61 | endpoints are set iff server URL, client id and client secret are truthy; the realm URL is server + "/realms/" + realm |
| OAuth2.KeycloakEndpointsUnderRealm | api/v2/core/oauth2.py:57-61 | every endpoint lies under the realm URL and the four are distinct |
| OAuth2.NewMicrosoft | api/v2/core/oauth2.py:146-160 | endpoints are set iff tenant, client id and client secret are truthy; they lie under the tenant's login URL, with Graph /me as userinfo |
| OAuth2.AuthorizationRequest | api/v2/core/oauth2.py:63-78 | an unconfigured provider raises AttributeError; otherwise a request to the authorization URL with distinct parameter names |
| OAuth2.AuthorizationParameters | api/v2/core/oauth2.py:65-74 | client_id, response_type=code, redirect_uri, scope and the given state, a new one only when none is given; Microsoft adds response_mode=query |
| OAuth2.FreshStateHasNoColon | api/v2/core/oauth2.py:38-40 | a generated state sent in the request contains no ':' |
| OAuth2.TokenRequest | api/v2/core/oauth2.py:80-103 | an unconfigured provider raises AttributeError; otherwise a request to the token URL with distinct parameter names |
| OAuth2.TokenRequestParameters | api/v2/core/oauth2.py:83-89 | grant_type=authorization_code, client id and secret, code and redirect_uri; Microsoft adds the scope |
| OAuth2.TokenRequestMatchesAuthorization | api/v2/core/oauth2.py:183-190 | the token request repeats the authorization request's client_id and redirect_uri, as section 4.1.3 of RFC 6749 requires |
| OAuth2.VerifyIdToken | api/v2/core/oauth2.py:122-141 | accepted iff claims decode, a realm URL exists, iss is the realm URL and aud is the client id; any rejection is HTTP 400 |
| OAuth2.ListAudienceRejected | api/v2/core/oauth2.py:130-134 | a list-valued aud or a missing iss is refused, because comparison is exact equality |
| OAuth2.IssuerIsTheRealm | api/v2/core/oauth2.py:127-134 | a configured Keycloak accepts exactly the claims of its realm for its client |
| OAuth2.NormalizeMicrosoftUser | api/v2/core/oauth2.py:218-226 | seven keys; email is mail if truthy else userPrincipalName; username is userPrincipalName; the raw response is kept |
| OAuth2.NormalizedProfileExternalId | api/v2/core/oauth2.py:218-226 | the external id of a normalised profile is its Graph id, or None when the id is falsy, because the normalised profile has no "sub" |
| OAuth2.Registered | api/v2/core/oauth2.py:242-252 | Keycloak is registered iff enabled with a truthy server URL; Microsoft iff enabled with a truthy tenant; no other name, no duplicate |
| OAuth2.OAuth2Manager.constructor | api/v2/core/oauth2.py:237-252 | the registry holds exactly the registered names with the providers their settings build |
| OAuth2.OAuth2Manager.GetProvider | api/v2/core/oauth2.py:254-259 | a provider is returned iff its name is registered |
| OAuth2.OAuth2Manager.GetEnabledProviders | api/v2/core/oauth2.py:265-267 | returns the registry's order and a value copy of its map, leaving the registry unchanged |
| OAuth2.EnabledIffFetchable | api/v2/core/oauth2.py:261-263 | a provider is enabled iff get_provider returns it, under its own name |
| OAuth2.RegisteredWithoutEndpoints | api/v2/core/oauth2.py:45-61 | a Keycloak without a client secret is still registered, yet has no endpoints |
| AuthRoutes.ClientIp | api/v2/routes/auth_extended.py:327-346 | X-Forwarded-For's first comma-separated element, stripped; then X-Forwarded, then X-Real-IP, each stripped; then the peer host or "unknown" |
| AuthRoutes.ClientIpAgreesWithMiddleware | api/v2/routes/auth_extended.py:327-346 | without X-Forwarded and with a stripped X-Real-IP, the route and the middleware agree |
| AuthRoutes.ClientIpDiffersFromMiddleware | api/v2/routes/auth_extended.py:340-342 | a padded X-Real-IP is stripped by the route but not by the middleware |
| AuthRoutes.LoginResponse | api/v2/routes/auth_extended.py:81-86 | the response carries the issued tokens and expires_in 1800 |
| AuthRoutes.IssueForLogin | api/v2/routes/auth_extended.py:66-92 | no authentication result means the invalid-credentials error with no record stored; otherwise both commits give the tokens and append the access and refresh records; a failed refresh commit leaves the access record; a failed access commit leaves none; each failure becomes "Login failed" |
| AuthRoutes.StaffLogin | api/v2/routes/auth_extended.py:50-92 | for the staff data AuthenticateStaff returns: the issued tokens, "bearer" and 1800, with the access and refresh records appended carrying the route's client address and User-Agent; only the access record when the refresh commit fails; no staff match means "Invalid username or password" with nothing stored |
| AuthRoutes.UserLogin | api/v2/routes/auth_extended.py:94-136 | for the user data AuthenticateUser returns: the issued tokens, "bearer" and 1800, with the access and refresh records appended carrying the route's client address and User-Agent; only the access record when the refresh commit fails; no user match means "Invalid email or password" with nothing stored |
| AuthRoutes.StaffPayloadExists | api/v2/routes/auth_extended.py:81 | a staff dictionary always yields a payload carrying its username |
| AuthRoutes.UserPayloadExists | api/v2/routes/auth_extended.py:125 | a user dictionary always yields a payload carrying its email |
| AuthRoutes.PackState | api/v2/routes/auth_extended.py:157-159 | the packed state starts with the state; it is the state alone without a truthy return URL, else the state, ':' and the URL |
| AuthRoutes.ExtractReturnUrl | api/v2/routes/auth_extended.py:230-234 | a return URL exists iff the state is truthy and has a ':'; it is what follows the first ':' |
| AuthRoutes.ReturnUrlRoundTrip | api/v2/routes/auth_extended.py:157-160 | a colon-free state packed with a return URL gives it back, even when the URL has ':' |
| AuthRoutes.GeneratedStateRoundTrip | api/v2/routes/auth_extended.py:157-160 | the same for a generated state |
| AuthRoutes.OAuth2Login | api/v2/routes/auth_extended.py:140-171 | fails iff the provider is unknown or unconfigured, always as "OAuth2 login failed"; otherwise a request to its authorization URL |
| AuthRoutes.LoginStateCarriesReturnUrl | api/v2/routes/auth_extended.py:157-163 | the state sent to the provider gives back the return URL at the callback |
| AuthRoutes.CallbackPrecheck | api/v2/routes/auth_extended.py:184-196 | a provider error first, then a missing code, then an unknown provider; passes iff none applies |
| AuthRoutes.ProviderErrorOutranks | api/v2/routes/auth_extended.py:184-190 | a provider error is raised inside the `try` as a ValidationError, whatever the code and provider are |
| AuthRoutes.CallbackResponse | api/v2/routes/auth_extended.py:237-245 | the response's return_url is the one recovered from the state |
| AuthRoutes.ProviderListing | api/v2/routes/auth_extended.py:295-323 | every registered provider with its login URL, plus "osticket", and native_auth_enabled true |
| Exceptions.ApiException | api/v2/core/exceptions.py:16-30 | the given message, code and status; details default to an empty map |
| Exceptions.Subclass | api/v2/core/exceptions.py:32-111 | a subclass instance carries its class's fixed code and status |
| Exceptions.NotFoundError | api/v2/core/exceptions.py:65-78 | "resource not found", extended iff the identifier is truthy; details name the resource and the identifier text or None |
| Exceptions.NotFoundIdentifierReadsBack | api/v2/core/exceptions.py:69-71 | the text after "resource not found: " is the identifier's str() |
| Exceptions.ClassesFixCodeAndStatus | api/v2/core/exceptions.py:16-111 | 401, 403, 400, 404, 409, 429, 500 and the base 500, with the codes distinct per class |
| Exceptions.CreateErrorResponse | api/v2/core/exceptions.py:113-150 | one "error" entry with code, message, timestamp, request id and path; details only when non-empty; an id is generated only when none is given |
| Exceptions.ApiExceptionHandler | api/v2/core/exceptions.py:152-169 | the exception's own status, code and message; details iff non-empty |
| Exceptions.ValidationDetails | api/v2/core/exceptions.py:177-184 | one entry per error, in order, the field joined by " -> " |
| Exceptions.ValidationExceptionHandler | api/v2/core/exceptions.py:171-198 | always 422 with VALIDATION_ERROR and the entries under validation_errors |
| Exceptions.DatabaseExceptionHandler | api/v2/core/exceptions.py:200-217 | always 500 with DATABASE_ERROR and the error text as details |
| Exceptions.GeneralExceptionHandler | api/v2/core/exceptions.py:219-243 | always 500 with INTERNAL_SERVER_ERROR and no details |
| Exceptions.HandleException | api/v2/core/exceptions.py:245-251 | each raised kind goes to its handler: an API exception to its own response; a validation error to 422, VALIDATION_ERROR, "Request validation failed" and one entry per issue under validation_errors; a database error to 500; others to 500; HTTPException is left to the framework |
| Exceptions.EnvelopeKeepsStoredRequestId | api/v2/core/exceptions.py:155 | the envelope carries the request id stored on the request state |
| Config.MatchAt | api/v2/core/config.py:34-39 | a captured value has no quote and is non-empty unless allowed to be empty |
| Config.Search | api/v2/core/config.py:43-45 | the same for the value the search returns |
| Config.SearchIsFirstMatch | api/v2/core/config.py:43 | nothing is found iff no position matches; a result is the group of the first matching position |
| Config.Collect | api/v2/core/config.py:42-48 | the loop keeps exactly the keys with a match, each with its value |
| Config.Extracted | api/v2/core/config.py:42-48 | a key is present iff its pattern matches, with the first match's value |
| Config.ParseOsticketConfig | api/v2/core/config.py:16-53 | a missing or unreadable file gives an empty map; otherwise the extraction |
| Config.RenderMatches | api/v2/core/config.py:34-39 | the pattern reads back the value of `define('KEY', 'value');` |
| Config.FirstDefinitionWins | api/v2/core/config.py:43-45 | a leading definition wins over any later one |
| Config.EmptyValueOnlyForPrefix | api/v2/core/config.py:34-39 | an empty definition matches only with the TABLE_PREFIX pattern |
| Config.OsticketSettings | api/v2/core/config.py:90-99 | always exactly the six setting names |
| Config.FallbacksAreDeclaredDefaults | api/v2/core/config.py:59-67 | each fallback equals the Settings default, so a missing file leaves the defaults |
| Config.SaltBecomesSecretKey | api/v2/core/config.py:97 | a defined SECRET_SALT becomes SECRET_KEY |
| Config.ParseHosts | api/v2/core/config.py:108-121 | non-strings pass through; a bracketed parsable string gives its JSON; any other string gives exactly its comma-separated pieces, stripped, with the empty ones dropped, so each host is non-empty, stripped and comma-free |
| Config.HostsRoundTrip | api/v2/core/config.py:120 | a comma-joined list of such hosts parses back to the list when it is not JSON |
| Config.DatabaseUrlRoundTrip | api/v2/core/config.py:123-130 | the URL parses back to user, password, host, port and name when no field holds its separator |
| Config.UnquotedPasswordIsAmbiguous | api/v2/core/config.py:127-128 | a password with '@' and a host with '@' can give the same URL |
| TableNames.GetTableName | api/v2/core/database.py:46-48 | the name begins with the prefix, and the rest is the given name |
| TableNames.BaseTableName | api/v2/models/base.py:16-18 | the prefix, then the lower-cased class name |
| TableNames.OSTicketTableName | api/v2/models/base.py:31-79 | the prefix, then the mapped lower-cased class name |
| TableNames.MappedName | api/v2/models/base.py:78 | a mapped name's table; any other name passes through |
| TableNames.UnmappedPassesThrough | api/v2/models/base.py:77-79 | an unmapped class gets the same name from both bases |
| TableNames.MappedClassesDiffer | api/v2/models/base.py:34-79 | the two bases disagree exactly on the mapped classes |
| TableNames.MappingExamples | api/v2/models/base.py:63-74 | searchindex gives __search, taskcdata task__cdata, threadentry thread_entry |
| Schemas.ValidatePagination | api/v2/schemas/base.py:25-28 | valid iff page >= 1 and 1 <= limit <= 100 when given; defaults 1 and 20; every failing field is reported |
| Schemas.Offset | api/v2/schemas/base.py:30-32 | the offset is never negative |
| Schemas.PagesTile | api/v2/schemas/base.py:31-32 | offset + limit is page * limit and the next page's offset; page 1 starts at 0 |
| Schemas.EachItemOnOnePage | api/v2/schemas/base.py:31-32 | every item position lies on exactly one page |
| Schemas.NewSuccessResponse | api/v2/schemas/base.py:84-88 | message and data as given; success defaults to true |
| Schemas.SuccessByDefault | api/v2/schemas/base.py:84-88 | a message alone gives success with no data |
| LoggingMiddleware.GetClientIp | api/v2/middleware/logging.py:72-86 | X-Forwarded-For's first element stripped, then X-Real-IP as sent, then the peer host or "unknown" |
| LoggingMiddleware.AgreesWithAuthMiddleware | api/v2/middleware/logging.py:72-86 | agrees with the authentication middleware's resolver on every request |
| LoggingMiddleware.SingleForwardedAddress | api/v2/middleware/logging.py:76-79 | a comma-free X-Forwarded-For is stripped whole |
| LoggingMiddleware.Dispatch | api/v2/middleware/logging.py:17-70 | the id is stored before the handler runs; a response gets it as X-Request-ID; an exception propagates unchanged |
| LoggingMiddleware.EchoKeepsResponse | api/v2/middleware/logging.py:53 | echoing the id keeps the status and every other header |

## Left out

- Database sessions, queries, commit and rollback are not modelled. Lookups read row sequences. A commit's outcome is a boolean parameter.
- CoreAuth.TokenStore.CreateAuthTokens: a failed commit leaves the earlier record in place. The session state after a rollback is not modelled further.
- CoreAuth.TokenPayload: a user_type or user_id that is a list or dictionary counts as failing. Python would format it into "sub".
- CoreAuth.ExternalIdentityTable.AuthenticateExternalIdentity: external ids are matched as values. Type coercion by the database column is not modelled.
- Settings that `core/config.py` does not declare are parameters: `JWT_*`, `KEYCLOAK_*`, `MICROSOFT_*` and `AUTO_CREATE_USERS_FROM_EXTERNAL`.
- IPv6 is not modelled. An IPv6 client or entry counts as malformed.
- Header names are matched exactly, not case-insensitively.
- Async, logging, timing and structlog are not modelled.
- The `HTTPException` handler of FastAPI is not modelled.
- The `except` clause at api/v2/routes/auth_extended.py:247 is not modelled. It names `ValidationError` and `NotFoundError`, which only the conditional imports at lines 186-195 bind, never both. Each exception the callback raises there therefore meets an UnboundLocalError when the clause is evaluated, and the client sees a 500. AuthRoutes.CallbackPrecheck and AuthRoutes.ProviderErrorOutranks state what is raised inside the `try`.
- api/v2/routes/auth_extended.py:18 imports `get_user_info_dict`, which api/v2/middleware/auth.py does not define, so importing the routes module fails. api/v2/main.py:22 imports that module, so the whole application fails to start. The routes are modelled as if that import succeeded.
- AuthRoutes.UserLogin and the external-identity flow use the corrected lookups CoreAuth.AuthenticateUser and CoreAuth.GetOsticketUser. With the code as written (CoreAuth.AuthenticateUserAsWritten, CoreAuth.GetOsticketUserAsWritten), every user login fails and a mapped user is never found.
- AuthMiddleware.AuthenticateSession: the two `datetime.utcnow()` calls of a session lookup read one `now`.
- CoreAuth.StoredExpiryTrailsClaims: the precision of the database's datetime column is not modelled; the claims are shown before jose truncates `exp` and the payload's `iat` to whole seconds.
- The middle of the callback (api/v2/routes/auth_extended.py:198-227) is left out: the HTTP code exchange, userinfo, external authentication and token creation.
- `urlencode` is not modelled. Requests are a parameter map with the key order.
- The HTTP exchange and userinfo calls of both providers are left out, and so is `async with self.client`.
- `url_for` is a parameter.
- The provider objects are values, because only their constructors set fields.
- The redirect and JSON response classes are values.
- `jwt.get_unverified_claims` is a parameter: a claims map, or None when the token does not decode.
- Signature checks are not modelled.
- Config.ParseOsticketConfig: the file's text is a parameter, or None when the file is missing or unreadable.
- Config.MatchAt: regex `\s` is Python's `str.isspace` set for ASCII and common Unicode spaces, not the full Unicode table.
- `customise_sources` is not modelled: the priority of init, env and secret sources, and whether pydantic calls it. Only the mapping function and its laying over the defaults are modelled.
- Environment variables and `.env` are not modelled.
- The other Settings fields and the `settings` instance are not modelled.
- Config.ParseHosts: `json.loads` is a parameter, None on JSONDecodeError.
- `test_connection`, `get_db` and the engine options are not modelled.
- TableNames.OSTicketTableName: class names are lower-cased for ASCII only.
- Explicit `__tablename__` values in model classes are not modelled.
- Schemas.ValidatePagination: pydantic's error types and messages are not modelled. An error is the failing field's name.
- Non-integer inputs reaching pagination are not modelled.
- The logging middleware's log lines and timing are not modelled.
- `uuid4` is a parameter.

## Findings

| source | as written | input that shows it | evidently intended | confidence | as-written member | corrected member |
|---|---|---|---|---|---|---|
| api/v2/core/auth.py:183-185 | `authenticate_user` filters on `User.email`, but the `User` model has no email column. The AttributeError is caught, so every user login returns None | one user with a default email row and an account whose bcrypt hash accepts the password | look the user up through the `UserEmail` table, where osTicket keeps addresses | not executed | CoreAuth.UserLoginNeverSucceedsAsWritten | CoreAuth.AuthenticateUser |
| api/v2/core/auth.py:293-302 | `_get_osticket_user("user", id)` builds its dictionary from `user.email`. The AttributeError is caught, so a mapped external user is never found | an external identity mapped to user type "user" with an existing user id | read the email from the user's default `UserEmail` row | not executed | CoreAuth.OsticketUserBranchLostAsWritten | CoreAuth.GetOsticketUser |
