/** The request-authentication middleware: which credential is tried first, how an API
    key's IP allow-list is matched, how sessions are resolved, the flags of the resulting
    `AuthContext`, and the guards endpoints use. Database lookups read the `Tables`
    values; "now" is an integer clock. */
module AuthMiddleware {
  import opened Wrappers
  import opened PyText
  import opened PyValue
  import Ipv4
  import opened Tables
  import opened Http
  import opened Exceptions

  datatype AuthType = ApiKeyAuth | StaffSessionAuth | UserSessionAuth | Anonymous

  /** `AuthContext`: who the request is, and the three flags its constructor derives. */
  datatype AuthContext = AuthContext(
    authType: AuthType,
    apiKey: Option<ApiKeyRow>,
    staff: Option<StaffRow>,
    user: Option<UserRow>,
    sessionId: Option<string>,
    isAuthenticated: bool,
    isStaff: bool,
    isAdmin: bool)

  /** The flags agree with the fields, as the constructor sets them. */
  predicate Consistent(c: AuthContext) {
    && c.isAuthenticated == (c.authType != Anonymous)
    && c.isStaff == c.staff.Some?
    && c.isAdmin == (c.staff.Some? && c.staff.value.isadmin)
  }

  /** `AuthContext(auth_type, api_key, staff, user, session_id)`. */
  function NewAuthContext(authType: AuthType, apiKey: Option<ApiKeyRow> := None, staff: Option<StaffRow> := None,
                          user: Option<UserRow> := None, sessionId: Option<string> := None): (c: AuthContext)
    ensures Consistent(c)
    ensures c.authType == authType && c.apiKey == apiKey && c.staff == staff && c.user == user && c.sessionId == sessionId
    ensures c.isAdmin ==> c.isStaff
  {
    AuthContext(authType, apiKey, staff, user, sessionId,
                authType != Anonymous, staff.Some?, if staff.Some? then staff.value.isadmin else false)
  }

  const PublicEndpoints: set<string> := {"/api/v2/health", "/api/v2/docs", "/api/v2/redoc", "/api/v2/openapi.json"}

  // ---------------------------------------------------------------------------
  // client address and allow-list

  /** `get_client_ip`: the first element of a non-empty X-Forwarded-For, stripped; else a
      non-empty X-Real-IP exactly as sent; else the peer address; else "unknown". */
  function GetClientIp(r: Request): (ip: string)
    ensures TruthyStr(Header(r, "X-Forwarded-For")) ==> ip == Strip(Split(Header(r, "X-Forwarded-For").value, ',')[0])
    ensures TruthyStr(Header(r, "X-Forwarded-For")) ==> ',' !in ip && IsStripped(ip)
    ensures !TruthyStr(Header(r, "X-Forwarded-For")) && TruthyStr(Header(r, "X-Real-IP")) ==> ip == Header(r, "X-Real-IP").value
    ensures !TruthyStr(Header(r, "X-Forwarded-For")) && !TruthyStr(Header(r, "X-Real-IP")) ==> ip == r.clientHost.GetOr("unknown")
  {
    var forwardedFor := Header(r, "X-Forwarded-For");
    if TruthyStr(forwardedFor) then
      var first := Split(forwardedFor.value, ',')[0];
      assert forall k :: 0 <= k < |Strip(first)| ==> Strip(first)[k] == first[LeadingSpaces(first) + k];
      Strip(first)
    else
      var realIp := Header(r, "X-Real-IP");
      if TruthyStr(realIp) then realIp.value
      else r.clientHost.GetOr("unknown")
  }

  /** What one allow-list entry says about a client address: `ip_network(entry,
      strict=False)` membership for an entry with '/', address equality otherwise, and
      Malformed where `ipaddress` raises ValueError. */
  datatype EntryVerdict = Match | NoMatch | Malformed

  function CheckEntry(client: Ipv4.Address, entry: string): EntryVerdict {
    if '/' in entry then
      match Ipv4.ParseNetwork(entry)
      case None => Malformed
      case Some(n) => if Ipv4.InNetwork(client, n) then Match else NoMatch
    else
      match Ipv4.ParseAddress(entry)
      case None => Malformed
      case Some(a) => if client == a then Match else NoMatch
  }

  /** The scan with early return over the entries' verdicts: the first Match allows, the
      first Malformed reached before it ends the scan with False. */
  function ScanWith(check: string -> EntryVerdict, entries: seq<string>): bool {
    if entries == [] then false
    else
      match check(entries[0])
      case Match => true
      case Malformed => false
      case NoMatch => ScanWith(check, entries[1..])
  }

  /** The verdicts for one client address. */
  function Checker(client: Ipv4.Address): string -> EntryVerdict {
    e => CheckEntry(client, e)
  }

  /** `[ip.strip() for ip in allowed_ips.split(",") if ip.strip()]`. */
  function AllowList(allowedIps: string): (r: seq<string>)
    ensures forall k :: 0 <= k < |r| ==> r[k] != "" && IsStripped(r[k]) && ',' !in r[k]
  {
    var pieces := Split(allowedIps, ',');
    var r := NonEmptyStripped(pieces);
    forall k | 0 <= k < |r| ensures ',' !in r[k] {
      assert r[k] in r;
      var i :| 0 <= i < |pieces| && Strip(pieces[i]) == r[k];
      StripKeepsAbsent(pieces[i], ',');
    }
    r
  }

  /** `is_ip_allowed` as a value: an empty list or "*" allows without looking at the client;
      otherwise an address the client string parses to must be allowed by the scan. */
  predicate IpAllowed(clientIp: string, allowedIps: string) {
    if allowedIps == "" || allowedIps == "*" then true
    else
      match Ipv4.ParseAddress(clientIp)
      case None => false
      case Some(c) => ScanWith(Checker(c), AllowList(allowedIps))
  }

  /** `is_ip_allowed`: the loop over the allow-list with early return. */
  method IsIpAllowed(clientIp: string, allowedIps: string) returns (ok: bool)
    ensures ok == IpAllowed(clientIp, allowedIps)
  {
    if allowedIps == "" || allowedIps == "*" {
      return true;
    }
    var allowedList := AllowList(allowedIps);
    var client := Ipv4.ParseAddress(clientIp);
    if client.None? {
      return false;
    }
    var c := client.value;
    ghost var check := Checker(c);
    var i := 0;
    while i < |allowedList|
      invariant 0 <= i <= |allowedList|
      invariant ScanWith(check, allowedList) == ScanWith(check, allowedList[i..])
    {
      var allowed := allowedList[i];
      assert allowedList[i..][0] == allowed && allowedList[i..][1..] == allowedList[i + 1..];
      assert check(allowed) == CheckEntry(c, allowed);
      if '/' in allowed {
        var network := Ipv4.ParseNetwork(allowed);
        if network.None? {
          return false;
        }
        if Ipv4.InNetwork(c, network.value) {
          return true;
        }
      } else {
        var single := Ipv4.ParseAddress(allowed);
        if single.None? {
          return false;
        }
        if c == single.value {
          return true;
        }
      }
      i := i + 1;
    }
    return false;
  }

  /** The scan allows exactly when some entry matches and every entry before it is
      well-formed and does not match. */
  lemma {:induction false} ScanFirstMatch(check: string -> EntryVerdict, es: seq<string>)
    ensures ScanWith(check, es) <==> exists k :: 0 <= k < |es| && check(es[k]) == Match
                                             && forall j :: 0 <= j < k ==> check(es[j]) == NoMatch
  {
    if es != [] {
      ScanFirstMatch(check, es[1..]);
      if check(es[0]) == NoMatch {
        if ScanWith(check, es) {
          var k :| 0 <= k < |es[1..]| && check(es[1..][k]) == Match
                   && forall j :: 0 <= j < k ==> check(es[1..][j]) == NoMatch;
          assert check(es[k + 1]) == Match;
          forall j | 0 <= j < k + 1 ensures check(es[j]) == NoMatch {
            if j > 0 {
              assert es[j] == es[1..][j - 1];
            }
          }
        } else {
          forall k | 0 < k < |es| && check(es[k]) == Match
            ensures exists j :: 0 <= j < k && check(es[j]) != NoMatch
          {
            assert es[1..][k - 1] == es[k];
            var j :| 0 <= j < k - 1 && check(es[1..][j]) != NoMatch;
            assert es[j + 1] == es[1..][j];
          }
        }
      }
    }
  }

  /** When every entry is well-formed, the scan allows exactly when some entry matches:
      membership in the union of the listed addresses and networks. */
  lemma WellFormedListIsUnion(check: string -> EntryVerdict, es: seq<string>)
    requires forall k :: 0 <= k < |es| ==> check(es[k]) != Malformed
    ensures ScanWith(check, es) <==> exists k :: 0 <= k < |es| && check(es[k]) == Match
  {
    ScanFirstMatch(check, es);
    if exists k :: 0 <= k < |es| && check(es[k]) == Match {
      var k :| 0 <= k < |es| && check(es[k]) == Match;
      FirstMatchBelow(check, es, k);
    }
  }

  lemma {:induction false} FirstMatchBelow(check: string -> EntryVerdict, es: seq<string>, k: nat)
    requires k < |es| && check(es[k]) == Match
    requires forall j :: 0 <= j < |es| ==> check(es[j]) != Malformed
    ensures exists m :: 0 <= m <= k && check(es[m]) == Match && forall j :: 0 <= j < m ==> check(es[j]) == NoMatch
  {
    if exists m :: 0 <= m < k && check(es[m]) == Match {
      var m :| 0 <= m < k && check(es[m]) == Match;
      FirstMatchBelow(check, es, m);
    } else {
      assert forall j :: 0 <= j < k ==> check(es[j]) == NoMatch;
    }
  }

  /** Entries after a match are never examined: appending anything keeps an allowed
      client allowed. */
  lemma {:induction false} ScanIgnoresLaterEntries(check: string -> EntryVerdict, es: seq<string>, more: seq<string>)
    requires ScanWith(check, es)
    ensures ScanWith(check, es + more)
  {
    assert (es + more)[0] == es[0];
    if check(es[0]) == NoMatch {
      assert (es + more)[1..] == es[1..] + more;
      ScanIgnoresLaterEntries(check, es[1..], more);
    }
  }

  /** A malformed entry reached before any match denies, whatever follows it. */
  lemma {:induction false} MalformedEntryDenies(check: string -> EntryVerdict, es: seq<string>, bad: string, more: seq<string>)
    requires forall j :: 0 <= j < |es| ==> check(es[j]) == NoMatch
    requires check(bad) == Malformed
    ensures !ScanWith(check, es + [bad] + more)
  {
    var all := es + [bad] + more;
    if es == [] {
      assert all[0] == bad;
    } else {
      assert all[0] == es[0];
      assert all[1..] == es[1..] + [bad] + more;
      MalformedEntryDenies(check, es[1..], bad, more);
    }
  }

  /** An allow-list of one CIDR block admits exactly the block's addresses, host bits of the
      written address notwithstanding. */
  lemma SingleNetworkEntry(clientIp: string, c: Ipv4.Address, entry: string, n: Ipv4.Network)
    requires Ipv4.ParseAddress(clientIp) == Some(c)
    requires '/' in entry && ',' !in entry && IsStripped(entry)
    requires Ipv4.ParseNetwork(entry) == Some(n)
    ensures IpAllowed(clientIp, entry) <==> Ipv4.InNetwork(c, n)
  {
    assert entry != "" && entry != "*" by {
      assert entry[IndexOf(entry, '/')] == '/';
    }
    assert Split(entry, ',') == [entry];
    StripStripped(entry);
    assert NonEmptyStripped([entry]) == [entry];
    assert AllowList(entry) == [entry];
    assert Checker(c)(entry) == CheckEntry(c, entry);
    assert ScanWith(Checker(c), [entry]) == (CheckEntry(c, entry) == Match);
  }

  /** An allow-list of one address admits exactly the client strings that parse to it. */
  lemma SingleAddressEntry(clientIp: string, entry: string, a: Ipv4.Address)
    requires '/' !in entry && ',' !in entry && IsStripped(entry) && entry != "" && entry != "*"
    requires Ipv4.ParseAddress(entry) == Some(a)
    ensures IpAllowed(clientIp, entry) <==> Ipv4.ParseAddress(clientIp) == Some(a)
  {
    assert Split(entry, ',') == [entry];
    StripStripped(entry);
    assert NonEmptyStripped([entry]) == [entry];
    assert AllowList(entry) == [entry];
    match Ipv4.ParseAddress(clientIp)
    case None =>
    case Some(c) =>
      assert Checker(c)(entry) == CheckEntry(c, entry);
      assert ScanWith(Checker(c), [entry]) == (CheckEntry(c, entry) == Match);
  }

  /** A client string that is not an IPv4 address is refused by any real restriction. */
  lemma UnparsableClientDenied(clientIp: string, allowedIps: string)
    requires Ipv4.ParseAddress(clientIp).None?
    ensures IpAllowed(clientIp, allowedIps) <==> allowedIps == "" || allowedIps == "*"
  {
  }

  // ---------------------------------------------------------------------------
  // credentials

  /** `authenticate_api_key`: an active key with this exact value, then its IP restriction. */
  function AuthenticateApiKey(db: Database, r: Request, apiKey: string): (res: Result<AuthContext, Raised>)
    ensures forall k: nat :: IsFirst(db.apiKeys, ActiveKey(apiKey), k) ==>
              res == if IpAllowed(GetClientIp(r), db.apiKeys[k].ipaddr)
                     then Ok(NewAuthContext(ApiKeyAuth, apiKey := Some(db.apiKeys[k])))
                     else Err(Api(AuthorizationError("IP address not allowed for this API key")))
    ensures (forall k :: 0 <= k < |db.apiKeys| ==> !(db.apiKeys[k].apikey == apiKey && db.apiKeys[k].isactive)) ==>
              res == Err(ServiceAuthError("Invalid API key"))
    ensures res.Ok? ==> res.value.authType == ApiKeyAuth && res.value.apiKey.Some?
                        && res.value.apiKey.value.apikey == apiKey && res.value.apiKey.value.isactive
                        && IpAllowed(GetClientIp(r), res.value.apiKey.value.ipaddr)
    ensures res.Err? ==> res.error == ServiceAuthError("Invalid API key")
                         || res.error == Api(AuthorizationError("IP address not allowed for this API key"))
  {
    FirstIsTheFirst(db.apiKeys, ActiveKey(apiKey));
    match First(db.apiKeys, ActiveKey(apiKey))
    case None => Err(ServiceAuthError("Invalid API key"))
    case Some(key) =>
      if !IpAllowed(GetClientIp(r), key.ipaddr) then Err(Api(AuthorizationError("IP address not allowed for this API key")))
      else Ok(NewAuthContext(ApiKeyAuth, apiKey := Some(key)))
  }

  predicate StaffSessionLive(s: StaffSessionRow, sessionId: string, now: int) {
    s.sessionId == sessionId && s.sessionExpire > now
  }

  predicate UserSessionLive(s: UserSessionRow, sessionId: string, now: int) {
    s.sessionId == sessionId && s.sessionExpire > now
  }

  function LiveStaffSession(sessionId: string, now: int): StaffSessionRow -> bool {
    (s: StaffSessionRow) => StaffSessionLive(s, sessionId, now)
  }

  function LiveUserSession(sessionId: string, now: int): UserSessionRow -> bool {
    (s: UserSessionRow) => UserSessionLive(s, sessionId, now)
  }

  /** The user-session half of `authenticate_session`: the first unexpired user session
      with this id, when its user exists, gives that user's context; otherwise the session
      is rejected. */
  function AuthenticateUserSession(db: Database, now: int, sessionId: string): (res: Result<AuthContext, Raised>)
    ensures forall k: nat, m: nat ::
              IsFirst(db.userSessions, LiveUserSession(sessionId, now), k)
              && IsFirst(db.users, UserWithId(db.userSessions[k].userId), m) ==>
                res == Ok(NewAuthContext(UserSessionAuth, user := Some(db.users[m]), sessionId := Some(sessionId)))
    ensures forall k: nat ::
              IsFirst(db.userSessions, LiveUserSession(sessionId, now), k)
              && (forall m :: 0 <= m < |db.users| ==> db.users[m].id != db.userSessions[k].userId)
              ==> res == Err(ServiceAuthError("Invalid or expired session"))
    ensures (forall k :: 0 <= k < |db.userSessions| ==> !UserSessionLive(db.userSessions[k], sessionId, now)) ==>
              res == Err(ServiceAuthError("Invalid or expired session"))
  {
    FirstIsTheFirst(db.userSessions, LiveUserSession(sessionId, now));
    match First(db.userSessions, LiveUserSession(sessionId, now))
    case None => Err(ServiceAuthError("Invalid or expired session"))
    case Some(us) =>
      FirstIsTheFirst(db.users, UserWithId(us.userId));
      match First(db.users, UserWithId(us.userId))
      case None => Err(ServiceAuthError("Invalid or expired session"))
      case Some(user) => Ok(NewAuthContext(UserSessionAuth, user := Some(user), sessionId := Some(sessionId)))
  }

  /** `authenticate_session`: an unexpired staff session whose staff member is active wins;
      otherwise an unexpired user session whose user exists; otherwise the session is
      rejected. */
  function AuthenticateSession(db: Database, now: int, sessionId: string): (res: Result<AuthContext, Raised>)
    ensures res.Ok? && res.value.authType == StaffSessionAuth ==>
              res.value.staff.Some? && res.value.staff.value.isactive && res.value.sessionId == Some(sessionId)
              && exists s :: s in db.staffSessions && StaffSessionLive(s, sessionId, now) && s.staffId == res.value.staff.value.staffId
    ensures res.Ok? ==> res.value.authType == StaffSessionAuth || res.value.authType == UserSessionAuth
    ensures res.Err? ==> res.error == ServiceAuthError("Invalid or expired session")
    ensures forall k: nat, m: nat ::
              IsFirst(db.staffSessions, LiveStaffSession(sessionId, now), k)
              && IsFirst(db.staff, ActiveStaffWithId(db.staffSessions[k].staffId), m) ==>
                res == Ok(NewAuthContext(StaffSessionAuth, staff := Some(db.staff[m]), sessionId := Some(sessionId)))
    ensures forall k: nat ::
              IsFirst(db.staffSessions, LiveStaffSession(sessionId, now), k)
              && (forall m :: 0 <= m < |db.staff| ==> !(db.staff[m].staffId == db.staffSessions[k].staffId && db.staff[m].isactive))
              ==> res == AuthenticateUserSession(db, now, sessionId)
    ensures (forall k :: 0 <= k < |db.staffSessions| ==> !StaffSessionLive(db.staffSessions[k], sessionId, now)) ==>
              res == AuthenticateUserSession(db, now, sessionId)
  {
    FirstIsTheFirst(db.staffSessions, LiveStaffSession(sessionId, now));
    match First(db.staffSessions, LiveStaffSession(sessionId, now))
    case Some(ss) =>
      FirstIsTheFirst(db.staff, ActiveStaffWithId(ss.staffId));
      (match First(db.staff, ActiveStaffWithId(ss.staffId))
       case Some(staff) => Ok(NewAuthContext(StaffSessionAuth, staff := Some(staff), sessionId := Some(sessionId)))
       case None => AuthenticateUserSession(db, now, sessionId))
    case None => AuthenticateUserSession(db, now, sessionId)
  }

  /** Every exception inside `authenticate_request` is replaced by the service's
      `AuthenticationError("Authentication failed")`. */
  function Collapse(res: Result<AuthContext, Raised>): Result<AuthContext, Raised> {
    match res
    case Ok(c) => Ok(c)
    case Err(_) => Err(ServiceAuthError("Authentication failed"))
  }

  /** `authenticate_request`: a non-empty X-API-Key header first, then a non-empty
      OSTSESSID cookie, then anonymous. */
  function AuthenticateRequest(db: Database, now: int, r: Request): (res: Result<AuthContext, Raised>)
    ensures res.Err? ==> res.error == ServiceAuthError("Authentication failed")
    ensures res.Ok? ==> Consistent(res.value)
    ensures res.Ok? && res.value.authType == Anonymous ==>
              !TruthyStr(Header(r, "X-API-Key")) && !TruthyStr(Cookie(r, "OSTSESSID"))
    ensures TruthyStr(Header(r, "X-API-Key")) ==>
              res == Collapse(AuthenticateApiKey(db, r, Header(r, "X-API-Key").value))
    ensures !TruthyStr(Header(r, "X-API-Key")) && TruthyStr(Cookie(r, "OSTSESSID")) ==>
              res == Collapse(AuthenticateSession(db, now, Cookie(r, "OSTSESSID").value))
    ensures !TruthyStr(Header(r, "X-API-Key")) && !TruthyStr(Cookie(r, "OSTSESSID")) ==>
              res == Ok(NewAuthContext(Anonymous))
  {
    var apiKeyHeader := Header(r, "X-API-Key");
    if TruthyStr(apiKeyHeader) then Collapse(AuthenticateApiKey(db, r, apiKeyHeader.value))
    else
      var sessionCookie := Cookie(r, "OSTSESSID");
      if TruthyStr(sessionCookie) then Collapse(AuthenticateSession(db, now, sessionCookie.value))
      else Ok(NewAuthContext(Anonymous))
  }

  /** `dispatch`: a public path gets an anonymous context without any lookup; otherwise the
      authentication outcome is stored on the request state before the endpoint runs, and
      an authentication failure propagates with the state left as it was. */
  method Dispatch(state: RequestState<AuthContext>, db: Database, now: int, r: Request, downstream: Response)
    returns (res: Result<Response, Raised>)
    modifies state`auth
    ensures r.path in PublicEndpoints ==> state.auth == Some(NewAuthContext(Anonymous)) && res == Ok(downstream)
    ensures r.path !in PublicEndpoints ==>
              match AuthenticateRequest(db, now, r)
              case Ok(c) => state.auth == Some(c) && res == Ok(downstream)
              case Err(e) => state.auth == old(state.auth) && res == Err(e)
  {
    if r.path in PublicEndpoints {
      state.auth := Some(NewAuthContext(Anonymous));
      return Ok(downstream);
    }
    var outcome := AuthenticateRequest(db, now, r);
    match outcome
    case Ok(c) =>
      state.auth := Some(c);
      res := Ok(downstream);
    case Err(e) =>
      res := Err(e);
  }

  /** A non-empty X-API-Key header decides the outcome: the session cookie is never read. */
  lemma ApiKeyHeaderDecides(db: Database, now: int, r: Request, cookies: map<string, string>)
    requires TruthyStr(Header(r, "X-API-Key"))
    ensures AuthenticateRequest(db, now, r) == AuthenticateRequest(db, now, r.(cookies := cookies))
  {
    var r2 := r.(cookies := cookies);
    var key := Header(r, "X-API-Key");
    assert Header(r2, "X-API-Key") == key;
    assert GetClientIp(r) == GetClientIp(r2);
    assert AuthenticateApiKey(db, r, key.value) == AuthenticateApiKey(db, r2, key.value);
  }

  /** The IP restriction's AuthorizationError never reaches the caller: it surfaces as the
      generic authentication failure. */
  lemma IpViolationSurfacesAsAuthenticationFailure(db: Database, now: int, r: Request, key: ApiKeyRow)
    requires TruthyStr(Header(r, "X-API-Key"))
    requires First(db.apiKeys, ActiveKey(Header(r, "X-API-Key").value)) == Some(key)
    requires !IpAllowed(GetClientIp(r), key.ipaddr)
    ensures AuthenticateApiKey(db, r, Header(r, "X-API-Key").value) == Err(Api(AuthorizationError("IP address not allowed for this API key")))
    ensures AuthenticateRequest(db, now, r) == Err(ServiceAuthError("Authentication failed"))
  {
  }

  /** A live staff session of an active staff member wins over any user session. */
  lemma StaffSessionWins(db: Database, now: int, sessionId: string, k: nat, m: nat)
    requires k < |db.staffSessions| && StaffSessionLive(db.staffSessions[k], sessionId, now)
    requires forall j :: 0 <= j < k ==> !StaffSessionLive(db.staffSessions[j], sessionId, now)
    requires m < |db.staff| && db.staff[m].staffId == db.staffSessions[k].staffId && db.staff[m].isactive
    requires forall j :: 0 <= j < m ==> !(db.staff[j].staffId == db.staffSessions[k].staffId && db.staff[j].isactive)
    ensures AuthenticateSession(db, now, sessionId)
            == Ok(NewAuthContext(StaffSessionAuth, staff := Some(db.staff[m]), sessionId := Some(sessionId)))
  {
    assert IsFirst(db.staffSessions, LiveStaffSession(sessionId, now), k);
    assert IsFirst(db.staff, ActiveStaffWithId(db.staffSessions[k].staffId), m);
  }

  /** Without a live staff session, session authentication is the user-session lookup;
      an expired session (expiry not after now) is never live. */
  lemma NoStaffSessionFallsBackToUser(db: Database, now: int, sessionId: string)
    requires forall j :: 0 <= j < |db.staffSessions| ==> !StaffSessionLive(db.staffSessions[j], sessionId, now)
    ensures AuthenticateSession(db, now, sessionId) == AuthenticateUserSession(db, now, sessionId)
  {
  }

  /** With neither credential, the request is anonymous. */
  lemma NoCredentialsIsAnonymous(db: Database, now: int, r: Request)
    requires !TruthyStr(Header(r, "X-API-Key")) && !TruthyStr(Cookie(r, "OSTSESSID"))
    ensures AuthenticateRequest(db, now, r) == Ok(NewAuthContext(Anonymous))
  {
  }

  /** A request with only a session cookie, naming a live staff session of an active staff
      member, is authenticated as that staff member. */
  lemma CookieStaffSessionAuthenticates(db: Database, now: int, r: Request, k: nat, m: nat)
    requires !TruthyStr(Header(r, "X-API-Key")) && TruthyStr(Cookie(r, "OSTSESSID"))
    requires IsFirst(db.staffSessions, LiveStaffSession(Cookie(r, "OSTSESSID").value, now), k)
    requires IsFirst(db.staff, ActiveStaffWithId(db.staffSessions[k].staffId), m)
    ensures AuthenticateRequest(db, now, r)
            == Ok(NewAuthContext(StaffSessionAuth, staff := Some(db.staff[m]),
                                 sessionId := Some(Cookie(r, "OSTSESSID").value)))
  {
    StaffSessionWins(db, now, Cookie(r, "OSTSESSID").value, k, m);
  }

  /** A request with only a session cookie and no live staff session for it gets the
      user-session lookup's context, or the generic authentication failure. */
  lemma CookieFallsBackToUserSession(db: Database, now: int, r: Request)
    requires !TruthyStr(Header(r, "X-API-Key")) && TruthyStr(Cookie(r, "OSTSESSID"))
    requires forall j :: 0 <= j < |db.staffSessions| ==>
               !StaffSessionLive(db.staffSessions[j], Cookie(r, "OSTSESSID").value, now)
    ensures AuthenticateRequest(db, now, r).Ok? ==>
              AuthenticateRequest(db, now, r) == AuthenticateUserSession(db, now, Cookie(r, "OSTSESSID").value)
    ensures AuthenticateRequest(db, now, r).Err? <==> AuthenticateUserSession(db, now, Cookie(r, "OSTSESSID").value).Err?
  {
    NoStaffSessionFallsBackToUser(db, now, Cookie(r, "OSTSESSID").value);
  }

  // ---------------------------------------------------------------------------
  // guards

  /** `get_auth`: reading an unset `request.state.auth` raises AttributeError. */
  function GetAuth(auth: Option<AuthContext>): Result<AuthContext, Raised> {
    match auth
    case Some(c) => Ok(c)
    case None => Err(Other("AttributeError"))
  }

  function RequireAuth(auth: Option<AuthContext>): Result<AuthContext, Raised> {
    match GetAuth(auth)
    case Err(e) => Err(e)
    case Ok(c) => if !c.isAuthenticated then Err(ServiceAuthError("Authentication required")) else Ok(c)
  }

  function RequireStaff(auth: Option<AuthContext>): Result<AuthContext, Raised> {
    match RequireAuth(auth)
    case Err(e) => Err(e)
    case Ok(c) => if !c.isStaff then Err(Api(AuthorizationError("Staff access required"))) else Ok(c)
  }

  function RequireAdmin(auth: Option<AuthContext>): Result<AuthContext, Raised> {
    match RequireStaff(auth)
    case Err(e) => Err(e)
    case Ok(c) => if !c.isAdmin then Err(Api(AuthorizationError("Admin access required"))) else Ok(c)
  }

  function RequireApiKey(auth: Option<AuthContext>): Result<AuthContext, Raised> {
    match RequireAuth(auth)
    case Err(e) => Err(e)
    case Ok(c) => if c.authType != ApiKeyAuth then Err(Api(AuthorizationError("API key authentication required"))) else Ok(c)
  }

  /** The guards nest: what `require_admin` accepts `require_staff` accepts, and what that
      accepts `require_auth` accepts, all returning the stored context unchanged. */
  lemma GuardsNest(auth: Option<AuthContext>)
    ensures RequireAdmin(auth).Ok? ==> RequireStaff(auth) == RequireAdmin(auth)
    ensures RequireStaff(auth).Ok? ==> RequireAuth(auth) == RequireStaff(auth)
    ensures RequireApiKey(auth).Ok? ==> RequireAuth(auth) == RequireApiKey(auth)
    ensures RequireAuth(auth).Ok? ==> auth.Some? && RequireAuth(auth).value == auth.value
  {
  }

  /** An anonymous context fails every guard with the authentication error, never with an
      authorization error. */
  lemma AnonymousFailsWithAuthenticationError(c: AuthContext)
    requires Consistent(c) && c.authType == Anonymous
    ensures RequireAuth(Some(c)) == Err(ServiceAuthError("Authentication required"))
    ensures RequireStaff(Some(c)) == Err(ServiceAuthError("Authentication required"))
    ensures RequireAdmin(Some(c)) == Err(ServiceAuthError("Authentication required"))
    ensures RequireApiKey(Some(c)) == Err(ServiceAuthError("Authentication required"))
  {
  }

  /** `require_api_key` accepts exactly the API-key contexts; `require_admin` exactly the
      contexts of an admin staff member. */
  lemma GuardsCharacterised(c: AuthContext)
    requires Consistent(c)
    ensures RequireApiKey(Some(c)).Ok? <==> c.authType == ApiKeyAuth
    ensures RequireAdmin(Some(c)).Ok? <==> c.authType != Anonymous && c.staff.Some? && c.staff.value.isadmin
  {
  }
}
