/** The authentication service: password-hash dispatch, the service's exact-string IP
    check, the credential lookups, external-identity resolution, the JWT payload and the
    token records it stores. bcrypt, MD5, SHA-256, JWT encoding and JSON encoding are
    parameters; a reading of `datetime.utcnow()` is an integer count of microseconds. */
module CoreAuth {
  import opened Wrappers
  import opened PyText
  import opened PyValue
  import opened Tables
  import opened Exceptions
  import Ipv4
  import AuthMiddleware

  // ---------------------------------------------------------------------------
  // passwords

  /** passlib's bcrypt `verify`: the verdict, or None where it raises (a hash it cannot
      identify, for instance). */
  type BcryptVerify = (string, string) -> Option<bool>

  /** `verify_password`: a hash starting with "$2" goes to bcrypt; otherwise a hash of 32
      characters is compared with the MD5 hex digest of the password; anything else goes to
      bcrypt. A missing hash (the AttributeError on None) or bcrypt raising gives False. */
  function VerifyPassword(plain: string, hashed: Option<string>, bcrypt: BcryptVerify, md5Hex: string -> string): (ok: bool)
    ensures hashed.None? ==> !ok
    ensures hashed.Some? && StartsWith(hashed.value, "$2") ==> (ok <==> bcrypt(plain, hashed.value) == Some(true))
    ensures hashed.Some? && !StartsWith(hashed.value, "$2") && |hashed.value| == 32 ==> (ok <==> md5Hex(plain) == hashed.value)
    ensures hashed.Some? && !StartsWith(hashed.value, "$2") && |hashed.value| != 32 ==>
              (ok <==> bcrypt(plain, hashed.value) == Some(true))
  {
    match hashed
    case None => false
    case Some(h) =>
      if StartsWith(h, "$2") then bcrypt(plain, h) == Some(true)
      else if |h| == 32 then md5Hex(plain) == h
      else bcrypt(plain, h) == Some(true)
  }

  /** A "$2" hash is decided by bcrypt alone, even when it is 32 characters long: the MD5
      digest is never consulted. */
  lemma BcryptPrefixIgnoresMd5(plain: string, h: string, bcrypt: BcryptVerify, md5a: string -> string, md5b: string -> string)
    requires StartsWith(h, "$2")
    ensures VerifyPassword(plain, Some(h), bcrypt, md5a) == VerifyPassword(plain, Some(h), bcrypt, md5b)
    ensures VerifyPassword(plain, Some(h), bcrypt, md5a) <==> bcrypt(plain, h) == Some(true)
  {
  }

  /** A 32-character hash without the bcrypt prefix is decided by the MD5 digest alone. */
  lemma LegacyHashIgnoresBcrypt(plain: string, h: string, b1: BcryptVerify, b2: BcryptVerify, md5Hex: string -> string)
    requires !StartsWith(h, "$2") && |h| == 32
    ensures VerifyPassword(plain, Some(h), b1, md5Hex) == VerifyPassword(plain, Some(h), b2, md5Hex)
    ensures VerifyPassword(plain, Some(h), b1, md5Hex) <==> md5Hex(plain) == h
  {
  }

  // ---------------------------------------------------------------------------
  // API keys

  /** The service's IP restriction: none for an empty `ipaddr` or "0.0.0.0"; otherwise the
      client string must equal one of the comma-separated entries after stripping. Entries
      are compared as text: no networks, and empty entries are kept. */
  predicate ServiceIpPermitted(ipaddr: string, ipAddress: string) {
    ipaddr == "" || ipaddr == "0.0.0.0" || ipAddress in StripAll(Split(ipaddr, ','))
  }

  /** A restriction of one entry admits exactly that text. */
  lemma SingleEntryIsExactMatch(entry: string, ipAddress: string)
    requires ',' !in entry && IsStripped(entry) && entry != "" && entry != "0.0.0.0"
    ensures ServiceIpPermitted(entry, ipAddress) <==> ipAddress == entry
  {
    assert Split(entry, ',') == [entry];
    StripStripped(entry);
    assert StripAll([entry]) == [entry];
  }

  /** The service compares text where the middleware parses networks: a client inside a
      CIDR entry passes the middleware and fails the service. */
  lemma ServiceCheckIgnoresNetworks(entry: string, clientIp: string, c: Ipv4.Address, n: Ipv4.Network)
    requires '/' in entry && ',' !in entry && IsStripped(entry)
    requires '/' !in clientIp
    requires Ipv4.ParseAddress(clientIp) == Some(c) && Ipv4.ParseNetwork(entry) == Some(n) && Ipv4.InNetwork(c, n)
    ensures AuthMiddleware.IpAllowed(clientIp, entry)
    ensures !ServiceIpPermitted(entry, clientIp)
  {
    AuthMiddleware.SingleNetworkEntry(clientIp, c, entry, n);
    assert entry != "" && entry != "0.0.0.0" by {
      assert entry[IndexOf(entry, '/')] == '/';
    }
    SingleEntryIsExactMatch(entry, clientIp);
  }

  /** "0.0.0.0" lifts the service's restriction, while the middleware reads it as the one
      address 0.0.0.0. */
  lemma ZeroAddressMeansDifferentThings(clientIp: string, z: string)
    requires z == "0.0.0.0"
    ensures ServiceIpPermitted(z, clientIp)
    ensures AuthMiddleware.IpAllowed(clientIp, z) <==> Ipv4.ParseAddress(clientIp) == Some(0)
  {
    Ipv4.ParseZeroAddress(z);
    AuthMiddleware.SingleAddressEntry(clientIp, z, 0);
  }

  /** The dictionary `authenticate_api_key` returns for a key row. */
  function ApiKeyData(key: ApiKeyRow): Dict {
    map["user_type" := VStr("api_key"), "user_id" := VInt(key.id), "api_key_id" := VInt(key.id),
        "permissions" := VDict(map["can_create_tickets" := VBool(key.canCreateTickets),
                                   "can_exec_cron" := VBool(key.canExecCron)])]
  }

  /** `authenticate_api_key`: the first active key with this exact value, when its IP
      restriction lets the client through. */
  function AuthenticateApiKey(db: Database, apiKey: string, ipAddress: string): (r: Option<Dict>)
    ensures forall k: nat :: IsFirst(db.apiKeys, ActiveKey(apiKey), k) ==>
              r == (if ServiceIpPermitted(db.apiKeys[k].ipaddr, ipAddress) then Some(ApiKeyData(db.apiKeys[k])) else None)
    ensures r.Some? ==> exists key :: key in db.apiKeys && key.apikey == apiKey && key.isactive
                                      && ServiceIpPermitted(key.ipaddr, ipAddress) && r.value == ApiKeyData(key)
    ensures (forall key :: key in db.apiKeys ==> !(key.apikey == apiKey && key.isactive)) ==> r.None?
  {
    FirstIsTheFirst(db.apiKeys, ActiveKey(apiKey));
    match First(db.apiKeys, ActiveKey(apiKey))
    case None => None
    case Some(key) => if !ServiceIpPermitted(key.ipaddr, ipAddress) then None else Some(ApiKeyData(key))
  }

  /** The success dictionary names the row id as both the user id and the key id, and
      carries the key's two permission flags. */
  lemma ApiKeyDataFields(key: ApiKeyRow)
    ensures Get(ApiKeyData(key), "user_id") == Get(ApiKeyData(key), "api_key_id") == VInt(key.id)
    ensures Get(ApiKeyData(key), "user_type") == VStr("api_key")
    ensures Get(ApiKeyData(key), "permissions").VDict?
    ensures Get(Get(ApiKeyData(key), "permissions").entries, "can_create_tickets") == VBool(key.canCreateTickets)
    ensures Get(Get(ApiKeyData(key), "permissions").entries, "can_exec_cron") == VBool(key.canExecCron)
  {
  }

  /** A key without a restriction authenticates from any client string. */
  lemma UnrestrictedKeyAcceptsAnyClient(db: Database, apiKey: string, k: nat, ip1: string, ip2: string)
    requires k < |db.apiKeys| && db.apiKeys[k].apikey == apiKey && db.apiKeys[k].isactive
    requires forall j :: 0 <= j < k ==> !(db.apiKeys[j].apikey == apiKey && db.apiKeys[j].isactive)
    requires db.apiKeys[k].ipaddr == "" || db.apiKeys[k].ipaddr == "0.0.0.0"
    ensures AuthenticateApiKey(db, apiKey, ip1) == AuthenticateApiKey(db, apiKey, ip2) == Some(ApiKeyData(db.apiKeys[k]))
  {
    assert IsFirst(db.apiKeys, ActiveKey(apiKey), k);
  }

  // ---------------------------------------------------------------------------
  // staff and users

  /** The staff dictionary of `authenticate_staff` and `_get_osticket_user`. */
  function StaffData(s: StaffRow): Dict {
    map["user_type" := VStr("staff"), "user_id" := VInt(s.staffId), "username" := VStr(s.username),
        "email" := OptStr(s.email), "firstname" := OptStr(s.firstname), "lastname" := OptStr(s.lastname),
        "dept_id" := VInt(s.deptId), "role_id" := VInt(s.roleId), "isadmin" := VBool(s.isadmin)]
  }

  /** `authenticate_staff`: the first active staff member with this username, when the
      password verifies against the stored hash. */
  function AuthenticateStaff(db: Database, username: string, password: string,
                             bcrypt: BcryptVerify, md5Hex: string -> string): (r: Option<Dict>)
    ensures forall k: nat :: IsFirst(db.staff, ActiveStaffNamed(username), k) ==>
              r == (if VerifyPassword(password, db.staff[k].passwd, bcrypt, md5Hex) then Some(StaffData(db.staff[k])) else None)
    ensures r.Some? ==> exists s :: s in db.staff && s.username == username && s.isactive
                                    && VerifyPassword(password, s.passwd, bcrypt, md5Hex) && r.value == StaffData(s)
    ensures (forall s :: s in db.staff ==> !(s.username == username && s.isactive)) ==> r.None?
  {
    FirstIsTheFirst(db.staff, ActiveStaffNamed(username));
    match First(db.staff, ActiveStaffNamed(username))
    case None => None
    case Some(s) => if !VerifyPassword(password, s.passwd, bcrypt, md5Hex) then None else Some(StaffData(s))
  }

  /** A staff member without a stored hash can never log in. */
  lemma StaffWithoutHashRejected(db: Database, username: string, password: string, k: nat,
                                 bcrypt: BcryptVerify, md5Hex: string -> string)
    requires k < |db.staff| && db.staff[k].username == username && db.staff[k].isactive
    requires forall j :: 0 <= j < k ==> !(db.staff[j].username == username && db.staff[j].isactive)
    requires db.staff[k].passwd.None?
    ensures AuthenticateStaff(db, username, password, bcrypt, md5Hex).None?
  {
    assert IsFirst(db.staff, ActiveStaffNamed(username), k);
  }

  /** `authenticate_user` as written: it filters on `User.email`, a column the User model
      does not declare, so the lookup raises AttributeError and the except clause returns
      None, whatever the database holds. */
  function AuthenticateUserAsWritten(db: Database, email: string, password: string,
                                     bcrypt: BcryptVerify, md5Hex: string -> string): Option<Dict> {
    None
  }

  /** The user dictionary of a successful login. */
  function UserData(u: UserRow, email: string, a: UserAccountRow): Dict {
    map["user_type" := VStr("user"), "user_id" := VInt(u.id), "email" := VStr(email), "name" := VStr(u.name),
        "organization_id" := VInt(u.orgId), "status" := VInt(a.status)]
  }

  /** `authenticate_user` with the email looked up where the schema keeps it: the first
      `UserEmail` row with this address, its user, that user's account, and the account's
      password hash. */
  function AuthenticateUser(db: Database, email: string, password: string,
                            bcrypt: BcryptVerify, md5Hex: string -> string): (r: Option<Dict>)
    ensures forall i: nat, j: nat, l: nat ::
              IsFirst(db.userEmails, EmailIs(email), i) && IsFirst(db.users, UserWithId(db.userEmails[i].userId), j)
              && IsFirst(db.userAccounts, AccountOf(db.users[j].id), l) ==>
                r == (if VerifyPassword(password, db.userAccounts[l].passwd, bcrypt, md5Hex)
                      then Some(UserData(db.users[j], email, db.userAccounts[l])) else None)
    ensures forall i: nat ::
              IsFirst(db.userEmails, EmailIs(email), i)
              && (forall j :: 0 <= j < |db.users| ==> db.users[j].id != db.userEmails[i].userId)
              ==> r.None?
    ensures forall i: nat, j: nat ::
              IsFirst(db.userEmails, EmailIs(email), i) && IsFirst(db.users, UserWithId(db.userEmails[i].userId), j)
              && (forall l :: 0 <= l < |db.userAccounts| ==> db.userAccounts[l].userId != db.users[j].id)
              ==> r.None?
    ensures r.Some? ==> exists u, a :: u in db.users && a in db.userAccounts && a.userId == u.id
                                       && (exists e :: e in db.userEmails && e.address == email && e.userId == u.id)
                                       && VerifyPassword(password, a.passwd, bcrypt, md5Hex)
                                       && r.value == UserData(u, email, a)
    ensures (forall e :: e in db.userEmails ==> e.address != email) ==> r.None?
  {
    FirstIsTheFirst(db.userEmails, EmailIs(email));
    match First(db.userEmails, EmailIs(email))
    case None => None
    case Some(e) =>
      FirstIsTheFirst(db.users, UserWithId(e.userId));
      match First(db.users, UserWithId(e.userId))
      case None => None
      case Some(u) =>
        FirstIsTheFirst(db.userAccounts, AccountOf(u.id));
        match First(db.userAccounts, AccountOf(u.id))
        case None => None
        case Some(a) => if !VerifyPassword(password, a.passwd, bcrypt, md5Hex) then None else Some(UserData(u, email, a))
  }

  /** The database of one user with one email address and one account. */
  function OneUserDatabase(email: string, hash: string): Database {
    Tables.Database([], [], [UserRow(1, 1, 1, 0, "Jo")], [UserEmailRow(1, 1, email)],
             [UserAccountRow(1, 1, 0, Some(hash))], [], [])
  }

  /** A user whose credentials are right is refused by the code as written and accepted by
      the lookup through `UserEmail`. */
  lemma UserLoginNeverSucceedsAsWritten(email: string, password: string, bcrypt: BcryptVerify, md5Hex: string -> string)
    requires bcrypt(password, "$2b$12$x") == Some(true)
    ensures AuthenticateUserAsWritten(OneUserDatabase(email, "$2b$12$x"), email, password, bcrypt, md5Hex).None?
    ensures AuthenticateUser(OneUserDatabase(email, "$2b$12$x"), email, password, bcrypt, md5Hex).Some?
  {
    var db := OneUserDatabase(email, "$2b$12$x");
    assert StartsWith("$2b$12$x", "$2");
    assert IsFirst(db.userEmails, EmailIs(email), 0);
    assert IsFirst(db.users, UserWithId(1), 0);
    assert IsFirst(db.userAccounts, AccountOf(1), 0);
  }

  /** `_get_osticket_user` as written: the staff branch works; the user branch reads
      `user.email`, which the User model lacks, and the AttributeError it raises is turned
      into None. */
  function GetOsticketUserAsWritten(db: Database, userType: string, userId: int): Option<Dict> {
    if userType == "staff" then
      match First(db.staff, StaffWithId(userId))
      case Some(s) => Some(StaffData(s))
      case None => None
    else None
  }

  /** The dictionary `_get_osticket_user` builds for a user, with the address of its
      default email row (`email`). */
  function UserProfile(u: UserRow, email: Value): Dict {
    map["user_type" := VStr("user"), "user_id" := VInt(u.id), "email" := email,
        "name" := VStr(u.name), "organization_id" := VInt(u.orgId)]
  }

  /** `_get_osticket_user` with the user's email read from its default `UserEmail` row
      (None when that row is missing): the first staff row with the id gives its staff
      data; the first user row with the id gives its profile. */
  function GetOsticketUser(db: Database, userType: string, userId: int): (r: Option<Dict>)
    ensures r.Some? ==> Get(r.value, "user_type") == VStr(userType) && Get(r.value, "user_id") == VInt(userId)
    ensures userType == "staff" ==> (r.Some? <==> exists s :: s in db.staff && s.staffId == userId)
    ensures userType == "user" ==> (r.Some? <==> exists u :: u in db.users && u.id == userId)
    ensures userType != "staff" && userType != "user" ==> r.None?
    ensures forall k: nat :: userType == "staff" && IsFirst(db.staff, StaffWithId(userId), k) ==>
              r == Some(StaffData(db.staff[k]))
    ensures forall k: nat, e: nat ::
              userType == "user" && IsFirst(db.users, UserWithId(userId), k)
              && IsFirst(db.userEmails, EmailWithId(db.users[k].defaultEmailId), e)
              ==> r == Some(UserProfile(db.users[k], VStr(db.userEmails[e].address)))
    ensures forall k: nat ::
              userType == "user" && IsFirst(db.users, UserWithId(userId), k)
              && (forall e :: 0 <= e < |db.userEmails| ==> db.userEmails[e].id != db.users[k].defaultEmailId)
              ==> r == Some(UserProfile(db.users[k], VNone))
  {
    if userType == "staff" then
      FirstIsTheFirst(db.staff, StaffWithId(userId));
      match First(db.staff, StaffWithId(userId))
      case Some(s) => Some(StaffData(s))
      case None => None
    else if userType == "user" then
      FirstIsTheFirst(db.users, UserWithId(userId));
      match First(db.users, UserWithId(userId))
      case Some(u) =>
        FirstIsTheFirst(db.userEmails, EmailWithId(u.defaultEmailId));
        var email := First(db.userEmails, EmailWithId(u.defaultEmailId));
        Some(UserProfile(u, if email.Some? then VStr(email.value.address) else VNone))
      case None => None
    else None
  }

  /** The user branch as written loses every existing user; the corrected lookup finds
      them, and the two agree on staff. */
  lemma OsticketUserBranchLostAsWritten(db: Database, userType: string, userId: int)
    ensures userType == "user" ==> GetOsticketUserAsWritten(db, userType, userId).None?
    ensures userType == "user" && (exists u :: u in db.users && u.id == userId) ==> GetOsticketUser(db, userType, userId).Some?
    ensures userType != "user" ==> GetOsticketUserAsWritten(db, userType, userId) == GetOsticketUser(db, userType, userId)
  {
  }

  // ---------------------------------------------------------------------------
  // external identities

  /** An `ost_external_identity` row: the provider's user, and the osTicket staff member or
      user it is mapped to. */
  datatype ExternalIdentityRow = ExternalIdentityRow(
    id: int,
    provider: string,
    externalUserId: string,
    externalEmail: Value,
    externalName: Value,
    osticketUserType: string,
    osticketUserId: int,
    lastLogin: Option<int>,
    providerMetadata: Option<string>)

  /** The external user id: `data.get("id") or data.get("sub")`. */
  function ExternalUserId(data: Dict): Value {
    Or(Get(data, "id"), Get(data, "sub"))
  }

  /** The filter `provider == provider and external_user_id == id`. */
  predicate Maps(row: ExternalIdentityRow, provider: string, externalId: Value) {
    row.provider == provider && VStr(row.externalUserId) == externalId
  }

  /** The filter of the mapping query. */
  function MapsTo(provider: string, externalId: Value): ExternalIdentityRow -> bool {
    (row: ExternalIdentityRow) => Maps(row, provider, externalId)
  }

  /** The row after a login: last login, email, name and the JSON of the provider data. */
  function Touched(row: ExternalIdentityRow, data: Dict, now: int, jsonDumps: Dict -> string): (t: ExternalIdentityRow)
    ensures t.provider == row.provider && t.externalUserId == row.externalUserId
    ensures t.osticketUserType == row.osticketUserType && t.osticketUserId == row.osticketUserId && t.id == row.id
    ensures t.lastLogin == Some(now) && t.providerMetadata == Some(jsonDumps(data))
    ensures t.externalEmail == Get(data, "email") && t.externalName == Get(data, "name")
  {
    row.(lastLogin := Some(now), externalEmail := Get(data, "email"), externalName := Get(data, "name"),
         providerMetadata := Some(jsonDumps(data)))
  }

  /** The identity table after `authenticate_external_identity`: the first mapping row, if
      the id is present and one matches, touched; every other row as it was. */
  function IdentitiesAfter(rows: seq<ExternalIdentityRow>, provider: string, data: Dict, now: int,
                           jsonDumps: Dict -> string): (after: seq<ExternalIdentityRow>)
    ensures |after| == |rows|
    ensures !Truthy(ExternalUserId(data)) ==> after == rows
    ensures (forall j :: 0 <= j < |rows| ==> !Maps(rows[j], provider, ExternalUserId(data))) ==> after == rows
    ensures forall k: nat :: Truthy(ExternalUserId(data)) && IsFirst(rows, MapsTo(provider, ExternalUserId(data)), k) ==>
              && after[k] == Touched(rows[k], data, now, jsonDumps)
              && forall j :: 0 <= j < |rows| && j != k ==> after[j] == rows[j]
  {
    var externalId := ExternalUserId(data);
    if !Truthy(externalId) then rows
    else
      FirstIsTheFirst(rows, MapsTo(provider, externalId));
      match FirstIndex(rows, MapsTo(provider, externalId))
      case None => rows
      case Some(k) => rows[k := Touched(rows[k], data, now, jsonDumps)]
  }

  /** What `authenticate_external_identity` returns: the linked osTicket user's dictionary
      with an "external_identity" entry, or None. Auto-creation is not implemented, so the
      flag only selects a log message. */
  function ExternalAuthResult(rows: seq<ExternalIdentityRow>, db: Database, provider: string, data: Dict,
                              commitOk: bool, autoCreate: bool): Option<Dict> {
    var externalId := ExternalUserId(data);
    if !Truthy(externalId) then None
    else
      var linked :=
        match FirstIndex(rows, MapsTo(provider, externalId))
        case None => None
        case Some(k) =>
          if !commitOk then None
          else GetOsticketUser(db, rows[k].osticketUserType, rows[k].osticketUserId);
      match linked
      case Some(u) =>
        Some(u["external_identity" := VDict(map["provider" := VStr(provider), "external_user_id" := externalId,
                                                "external_email" := Get(data, "email")])])
      case None => if !autoCreate then None else None
  }

  /** Without an "id" or "sub", nothing is looked up and nothing changes. */
  lemma MissingExternalIdFails(rows: seq<ExternalIdentityRow>, db: Database, provider: string, data: Dict, now: int,
                               jsonDumps: Dict -> string, commitOk: bool, autoCreate: bool)
    requires !Truthy(Get(data, "id")) && !Truthy(Get(data, "sub"))
    ensures ExternalAuthResult(rows, db, provider, data, commitOk, autoCreate).None?
    ensures IdentitiesAfter(rows, provider, data, now, jsonDumps) == rows
  {
  }

  /** The auto-create flag never changes the outcome. */
  lemma AutoCreateNeverApplies(rows: seq<ExternalIdentityRow>, db: Database, provider: string, data: Dict, commitOk: bool)
    ensures ExternalAuthResult(rows, db, provider, data, commitOk, true) == ExternalAuthResult(rows, db, provider, data, commitOk, false)
  {
  }

  /** With no mapping row for this provider and id, the result is None and the table is
      unchanged. */
  lemma UnmappedIdentityFails(rows: seq<ExternalIdentityRow>, db: Database, provider: string, data: Dict, now: int,
                              jsonDumps: Dict -> string, commitOk: bool, autoCreate: bool)
    requires forall j :: 0 <= j < |rows| ==> !Maps(rows[j], provider, ExternalUserId(data))
    ensures ExternalAuthResult(rows, db, provider, data, commitOk, autoCreate).None?
    ensures IdentitiesAfter(rows, provider, data, now, jsonDumps) == rows
  {
  }

  /** A successful external login returns the mapped osTicket user, tagged with the
      provider and the external id, and the mapping row has been touched first. */
  lemma {:induction false} MappedIdentityResolves(rows: seq<ExternalIdentityRow>, db: Database, provider: string, data: Dict,
                                                  now: int, jsonDumps: Dict -> string, commitOk: bool, autoCreate: bool)
    requires ExternalAuthResult(rows, db, provider, data, commitOk, autoCreate).Some?
    ensures commitOk
    ensures exists k :: 0 <= k < |rows| && Maps(rows[k], provider, ExternalUserId(data))
                        && GetOsticketUser(db, rows[k].osticketUserType, rows[k].osticketUserId).Some?
                        && IdentitiesAfter(rows, provider, data, now, jsonDumps)[k] == Touched(rows[k], data, now, jsonDumps)
                        && Get(ExternalAuthResult(rows, db, provider, data, commitOk, autoCreate).value, "user_type")
                           == VStr(rows[k].osticketUserType)
    ensures Get(ExternalAuthResult(rows, db, provider, data, commitOk, autoCreate).value, "external_identity")
            == VDict(map["provider" := VStr(provider), "external_user_id" := ExternalUserId(data),
                         "external_email" := Get(data, "email")])
  {
    var externalId := ExternalUserId(data);
    var k := FirstIndex(rows, MapsTo(provider, externalId)).value;
    var u := GetOsticketUser(db, rows[k].osticketUserType, rows[k].osticketUserId).value;
    assert Get(u, "user_type") == VStr(rows[k].osticketUserType);
  }

  /** The `ost_external_identity` rows as the database session holds them. */
  class ExternalIdentityTable {
    var rows: seq<ExternalIdentityRow>

    constructor (initial: seq<ExternalIdentityRow>)
      ensures rows == initial
    {
      rows := initial;
    }

    /** `authenticate_external_identity`: the mapping row found for the provider and external
        id is updated in place and committed before the osTicket user is looked up. A failed
        commit is caught and gives None; the row keeps the values assigned to it. */
    method AuthenticateExternalIdentity(db: Database, provider: string, data: Dict, now: int,
                                        jsonDumps: Dict -> string, commitOk: bool, autoCreate: bool)
      returns (r: Option<Dict>)
      modifies this
      ensures r == ExternalAuthResult(old(rows), db, provider, data, commitOk, autoCreate)
      ensures rows == IdentitiesAfter(old(rows), provider, data, now, jsonDumps)
    {
      var externalId := Or(Get(data, "id"), Get(data, "sub"));
      var externalEmail := Get(data, "email");
      if !Truthy(externalId) {
        return None;
      }
      var found := FirstIndex(rows, MapsTo(provider, externalId));
      if found.Some? {
        var k := found.value;
        var identity := rows[k];
        identity := identity.(lastLogin := Some(now));
        identity := identity.(externalEmail := externalEmail);
        identity := identity.(externalName := Get(data, "name"));
        identity := identity.(providerMetadata := Some(jsonDumps(data)));
        rows := rows[k := identity];
        if !commitOk {
          return None;
        }
        var osticketUser := GetOsticketUser(db, identity.osticketUserType, identity.osticketUserId);
        if osticketUser.Some? {
          var authData := osticketUser.value;
          authData := authData["external_identity" := VDict(map["provider" := VStr(provider),
                                                                  "external_user_id" := externalId,
                                                                  "external_email" := externalEmail])];
          return Some(authData);
        }
      }
      if !autoCreate {
        return None;
      }
      return None;
    }
  }

  // ---------------------------------------------------------------------------
  // tokens

  /** The settings `TokenManager` reads: the secret (`JWT_SECRET_KEY or SECRET_KEY`), the
      algorithm and the two lifetimes. */
  datatype TokenManager = TokenManager(secretKey: string, algorithm: string,
                                       accessTokenExpireMinutes: int, refreshTokenExpireDays: int)

  const MicrosPerSecond: int := 1_000_000
  const MicrosPerMinute: int := 60 * MicrosPerSecond
  const MicrosPerDay: int := 86400 * MicrosPerSecond

  /** `timedelta(minutes=access_token_expire_minutes)`, in microseconds. */
  function AccessLifetime(tm: TokenManager): int {
    MicrosPerMinute * tm.accessTokenExpireMinutes
  }

  /** `timedelta(days=refresh_token_expire_days)`, in microseconds. */
  function RefreshLifetime(tm: TokenManager): int {
    MicrosPerDay * tm.refreshTokenExpireDays
  }

  /** How jose writes a date-time claim: whole seconds since the epoch, the fraction of a
      second dropped. */
  function Seconds(micros: int): (secs: int)
    ensures secs * MicrosPerSecond <= micros < secs * MicrosPerSecond + MicrosPerSecond
  {
    micros / MicrosPerSecond
  }

  /** The separate readings of `datetime.utcnow()` that one call of `create_auth_tokens`
      makes, in program order: the payload's "iat", the expiry base of the access claims
      and of the refresh claims, then that of the stored access row and of the stored
      refresh row. */
  datatype Clock = Clock(issuedAt: int, accessClaim: int, refreshClaim: int, accessStored: int, refreshStored: int)

  /** The clock does not go back between two readings. */
  predicate Forward(c: Clock) {
    c.issuedAt <= c.accessClaim <= c.refreshClaim <= c.accessStored <= c.refreshStored
  }

  /** `jose.jwt.encode(claims, key, algorithm)`. */
  type Encode = (Dict, string, string) -> string

  /** The payload of `create_auth_tokens`: "sub" is "{user_type}:{user_id}", staff add
      username, email, department and the admin flag (False when absent), users add email
      and name. None where reading "user_type" or "user_id" raises KeyError. */
  function TokenPayload(userData: Dict, now: int): (r: Option<Dict>)
    ensures r.Some? <==> "user_type" in userData && "user_id" in userData
                         && IsScalar(userData["user_type"]) && IsScalar(userData["user_id"])
  {
    if "user_type" !in userData || "user_id" !in userData then None
    else
      var userType := userData["user_type"];
      var userId := userData["user_id"];
      if !IsScalar(userType) || !IsScalar(userId) then None
      else
        var payload := BaseClaims(userType, userId, now);
        if userType == VStr("staff") then
          var staff := StaffClaims(userData);
          assert (payload + staff).Keys == payload.Keys + staff.Keys;
          Some(payload + staff)
        else if userType == VStr("user") then
          var user := UserClaims(userData);
          assert (payload + user).Keys == payload.Keys + user.Keys;
          Some(payload + user)
        else Some(payload)
  }

  /** What a payload holds: the user's type and id, the issue time, the subject
      "type:id", and the fields of its kind. */
  lemma PayloadClaims(userData: Dict, now: int)
    requires TokenPayload(userData, now).Some?
    ensures var p := TokenPayload(userData, now).value;
            && Get(p, "user_type") == userData["user_type"] && Get(p, "user_id") == userData["user_id"]
            && Get(p, "iat") == VInt(now)
            && Get(p, "sub") == VStr(Str(userData["user_type"]) + ":" + Str(userData["user_id"]))
            && (userData["user_type"] == VStr("staff") ==>
                  p.Keys == {"sub", "user_type", "user_id", "iat", "username", "email", "dept_id", "isadmin"}
                  && Get(p, "isadmin") == GetOr(userData, "isadmin", VBool(false))
                  && Get(p, "email") == Get(userData, "email") && Get(p, "username") == Get(userData, "username"))
            && (userData["user_type"] == VStr("user") ==>
                  p.Keys == {"sub", "user_type", "user_id", "iat", "email", "name"}
                  && Get(p, "name") == Get(userData, "name") && Get(p, "email") == Get(userData, "email"))
            && (userData["user_type"] != VStr("staff") && userData["user_type"] != VStr("user") ==>
                  p.Keys == {"sub", "user_type", "user_id", "iat"})
  {
    var userType, userId := userData["user_type"], userData["user_id"];
    var base := BaseClaims(userType, userId, now);
    if userType == VStr("staff") {
      var extra := StaffClaims(userData);
      assert TokenPayload(userData, now).value == base + extra;
      assert "sub" !in extra && "user_type" !in extra && "user_id" !in extra && "iat" !in extra;
    } else if userType == VStr("user") {
      var extra := UserClaims(userData);
      assert TokenPayload(userData, now).value == base + extra;
      assert "sub" !in extra && "user_type" !in extra && "user_id" !in extra && "iat" !in extra;
    } else {
      assert TokenPayload(userData, now).value == base;
    }
  }

  /** The claims every payload has. */
  function BaseClaims(userType: Scalar, userId: Scalar, now: int): (m: Dict)
    ensures m.Keys == {"sub", "user_type", "user_id", "iat"}
    ensures m["sub"] == VStr(Str(userType) + ":" + Str(userId)) && m["user_type"] == userType
            && m["user_id"] == userId && m["iat"] == VInt(now)
  {
    map["sub" := VStr(Str(userType) + ":" + Str(userId)), "user_type" := userType, "user_id" := userId,
        "iat" := VInt(now)]
  }

  /** The claims a staff payload adds. */
  function StaffClaims(userData: Dict): (m: Dict)
    ensures m.Keys == {"username", "email", "dept_id", "isadmin"}
    ensures m["username"] == Get(userData, "username") && m["email"] == Get(userData, "email")
            && m["dept_id"] == Get(userData, "dept_id") && m["isadmin"] == GetOr(userData, "isadmin", VBool(false))
  {
    map["username" := Get(userData, "username"), "email" := Get(userData, "email"),
        "dept_id" := Get(userData, "dept_id"), "isadmin" := GetOr(userData, "isadmin", VBool(false))]
  }

  /** The claims a user payload adds. */
  function UserClaims(userData: Dict): (m: Dict)
    ensures m.Keys == {"email", "name"}
    ensures m["email"] == Get(userData, "email") && m["name"] == Get(userData, "name")
  {
    map["email" := Get(userData, "email"), "name" := Get(userData, "name")]
  }

  /** The subject reads back: splitting "sub" at its first ':' gives the user type and the
      decimal user id, which parses back to the id. */
  lemma SubjectReadsBack(userData: Dict, now: int, userType: string, userId: int)
    requires "user_type" in userData && userData["user_type"] == VStr(userType) && ':' !in userType
    requires "user_id" in userData && userData["user_id"] == VInt(userId)
    ensures TokenPayload(userData, now).Some?
    ensures var sub := Get(TokenPayload(userData, now).value, "sub");
            sub.VStr? && ':' in sub.s && SplitOnce(sub.s, ':').0 == userType
            && ParseInt(SplitOnce(sub.s, ':').1) == Some(userId)
  {
    var digits := Str(VInt(userId));
    assert Str(VStr(userType)) == userType;
    var sub := userType + ":" + digits;
    PayloadClaims(userData, now);
    assert Get(TokenPayload(userData, now).value, "sub") == VStr(sub);
    SplitOnceGlue(userType, ':', digits);
    assert sub == userType + [':'] + digits;
  }

  /** The claims of `create_access_token`, before jose encodes them: the payload plus
      "type" "access" and an expiry a given non-zero lifetime (microseconds) after the
      reading `now`, else the configured minutes after it. */
  function AccessClaims(tm: TokenManager, data: Dict, now: int, expiresDelta: Option<int>): (c: Dict)
    ensures c.Keys == data.Keys + {"exp", "type"}
    ensures forall k :: k in data && k != "exp" && k != "type" ==> c[k] == data[k]
    ensures c["type"] == VStr("access")
    ensures expiresDelta.Some? && expiresDelta.value != 0 ==> c["exp"] == VInt(now + expiresDelta.value)
    ensures expiresDelta.None? || expiresDelta.value == 0 ==> c["exp"] == VInt(now + AccessLifetime(tm))
  {
    var expire := if expiresDelta.Some? && expiresDelta.value != 0 then now + expiresDelta.value
                  else now + MicrosPerMinute * tm.accessTokenExpireMinutes;
    data + map["exp" := VInt(expire), "type" := VStr("access")]
  }

  /** The claims of `create_refresh_token`, before jose encodes them: the payload plus
      "type" "refresh" and an expiry the configured days after the reading `now`. */
  function RefreshClaims(tm: TokenManager, data: Dict, now: int): (c: Dict)
    ensures c.Keys == data.Keys + {"exp", "type"}
    ensures forall k :: k in data && k != "exp" && k != "type" ==> c[k] == data[k]
    ensures c["type"] == VStr("refresh") && c["exp"] == VInt(now + RefreshLifetime(tm))
  {
    data + map["exp" := VInt(now + MicrosPerDay * tm.refreshTokenExpireDays), "type" := VStr("refresh")]
  }

  /** The expiry `_store_auth_token` records after the reading `now`: minutes for
      "access", days for any other type. */
  function ExpiresAt(tm: TokenManager, tokenType: string, now: int): int {
    if tokenType == "access" then now + MicrosPerMinute * tm.accessTokenExpireMinutes
    else now + MicrosPerDay * tm.refreshTokenExpireDays
  }

  /** The stored expiry of each token trails the expiry in its claims by exactly the time
      between the two clock readings, so it is never earlier; the whole seconds the token
      carries are never later than either. */
  lemma StoredExpiryTrailsClaims(tm: TokenManager, data: Dict, c: Clock)
    requires Forward(c)
    ensures var exp := AccessClaims(tm, data, c.accessClaim, None)["exp"];
            && exp.VInt?
            && ExpiresAt(tm, "access", c.accessStored) - exp.i == c.accessStored - c.accessClaim
            && Seconds(exp.i) * MicrosPerSecond <= exp.i <= ExpiresAt(tm, "access", c.accessStored)
    ensures var exp := RefreshClaims(tm, data, c.refreshClaim)["exp"];
            && exp.VInt?
            && ExpiresAt(tm, "refresh", c.refreshStored) - exp.i == c.refreshStored - c.refreshClaim
            && Seconds(exp.i) * MicrosPerSecond <= exp.i <= ExpiresAt(tm, "refresh", c.refreshStored)
    ensures forall t :: t != "access" ==> ExpiresAt(tm, t, c.refreshStored) == ExpiresAt(tm, "refresh", c.refreshStored)
  {
    var access := AccessClaims(tm, data, c.accessClaim, None)["exp"];
    var refresh := RefreshClaims(tm, data, c.refreshClaim)["exp"];
    assert access == VInt(c.accessClaim + AccessLifetime(tm));
    assert refresh == VInt(c.refreshClaim + RefreshLifetime(tm));
  }

  /** An `ost_auth_token` row as `_store_auth_token` creates it. */
  datatype AuthTokenRecord = AuthTokenRecord(
    userType: Value,
    userId: Value,
    tokenType: string,
    tokenHash: string,
    expiresAt: int,
    sessionId: Option<string>,
    ipAddress: Option<string>,
    userAgent: Option<string>)

  /** The record stored for a token: the SHA-256 hex digest of the token, never the token. */
  function TokenRecord(tm: TokenManager, userData: Dict, token: string, tokenType: string, sessionId: Option<string>,
                       ipAddress: Option<string>, userAgent: Option<string>, now: int,
                       sha256Hex: string -> string): AuthTokenRecord
    requires "user_type" in userData && "user_id" in userData
  {
    AuthTokenRecord(userData["user_type"], userData["user_id"], tokenType, sha256Hex(token),
                    ExpiresAt(tm, tokenType, now), sessionId, ipAddress, userAgent)
  }

  datatype Tokens = Tokens(accessToken: string, refreshToken: string, tokenType: string)

  const TokenFailure: Raised := ServiceAuthError("Failed to create authentication tokens")

  /** The access and refresh tokens for a payload, each with its own clock reading. */
  function IssuedTokens(tm: TokenManager, payload: Dict, c: Clock, encode: Encode): Tokens {
    Tokens(encode(AccessClaims(tm, payload, c.accessClaim, None), tm.secretKey, tm.algorithm),
           encode(RefreshClaims(tm, payload, c.refreshClaim), tm.secretKey, tm.algorithm), "bearer")
  }

  /** The `ost_auth_token` rows as the database holds them after each commit. */
  class TokenStore {
    var records: seq<AuthTokenRecord>

    constructor (initial: seq<AuthTokenRecord>)
      ensures records == initial
    {
      records := initial;
    }

    /** `_store_auth_token`: add one record and commit; a missing key or a failed commit
        rolls back and re-raises, leaving the stored records as they were. */
    method StoreAuthToken(tm: TokenManager, userData: Dict, token: string, tokenType: string,
                          sessionId: Option<string>, ipAddress: Option<string>, userAgent: Option<string>,
                          now: int, sha256Hex: string -> string, commitOk: bool)
      returns (res: Result<(), Raised>)
      modifies this
      ensures !("user_type" in userData && "user_id" in userData) ==> res == Err(Other("KeyError")) && records == old(records)
      ensures "user_type" in userData && "user_id" in userData && !commitOk ==>
                res == Err(DatabaseFailure("commit failed")) && records == old(records)
      ensures "user_type" in userData && "user_id" in userData && commitOk ==>
                res == Ok(()) && records == old(records) + [TokenRecord(tm, userData, token, tokenType, sessionId, ipAddress, userAgent, now, sha256Hex)]
    {
      var tokenHash := sha256Hex(token);
      var expiresAt := if tokenType == "access" then now + MicrosPerMinute * tm.accessTokenExpireMinutes
                       else now + MicrosPerDay * tm.refreshTokenExpireDays;
      if "user_type" !in userData || "user_id" !in userData {
        return Err(Other("KeyError"));
      }
      var authToken := AuthTokenRecord(userData["user_type"], userData["user_id"], tokenType, tokenHash,
                                       expiresAt, sessionId, ipAddress, userAgent);
      if !commitOk {
        return Err(DatabaseFailure("commit failed"));
      }
      records := records + [authToken];
      return Ok(());
    }

    /** `create_auth_tokens`: build the payload, issue both tokens, store the access record
        and then the refresh record, each with its own commit. Any failure becomes the
        service's AuthenticationError; a failure on the refresh record leaves the access
        record stored. `clock` holds the five readings of the clock the call makes. */
    method CreateAuthTokens(tm: TokenManager, userData: Dict, sessionId: Option<string>, ipAddress: Option<string>,
                            userAgent: Option<string>, clock: Clock, encode: Encode, sha256Hex: string -> string,
                            accessCommitOk: bool, refreshCommitOk: bool)
      returns (res: Result<Tokens, Raised>)
      modifies this
      ensures TokenPayload(userData, clock.issuedAt).None? ==> res == Err(TokenFailure) && records == old(records)
      ensures TokenPayload(userData, clock.issuedAt).Some? ==>
                var t := IssuedTokens(tm, TokenPayload(userData, clock.issuedAt).value, clock, encode);
                var access := TokenRecord(tm, userData, t.accessToken, "access", sessionId, ipAddress, userAgent,
                                          clock.accessStored, sha256Hex);
                var refresh := TokenRecord(tm, userData, t.refreshToken, "refresh", sessionId, ipAddress, userAgent,
                                           clock.refreshStored, sha256Hex);
                && (!accessCommitOk ==> res == Err(TokenFailure) && records == old(records))
                && (accessCommitOk && !refreshCommitOk ==> res == Err(TokenFailure) && records == old(records) + [access])
                && (accessCommitOk && refreshCommitOk ==> res == Ok(t) && records == old(records) + [access, refresh])
    {
      var payload := TokenPayload(userData, clock.issuedAt);
      if payload.None? {
        return Err(TokenFailure);
      }
      assert "user_type" in userData && "user_id" in userData;
      var accessToken := encode(AccessClaims(tm, payload.value, clock.accessClaim, None), tm.secretKey, tm.algorithm);
      var refreshToken := encode(RefreshClaims(tm, payload.value, clock.refreshClaim), tm.secretKey, tm.algorithm);
      assert Tokens(accessToken, refreshToken, "bearer") == IssuedTokens(tm, payload.value, clock, encode);
      var stored := StoreAuthToken(tm, userData, accessToken, "access", sessionId, ipAddress, userAgent,
                                   clock.accessStored, sha256Hex, accessCommitOk);
      if stored.Err? {
        return Err(TokenFailure);
      }
      stored := StoreAuthToken(tm, userData, refreshToken, "refresh", sessionId, ipAddress, userAgent,
                               clock.refreshStored, sha256Hex, refreshCommitOk);
      if stored.Err? {
        return Err(TokenFailure);
      }
      return Ok(Tokens(accessToken, refreshToken, "bearer"));
    }
  }

  /** The two stored records differ only in kind, hash and expiry: both carry the payload's
      user, and each record and each token's claims expire the configured lifetime after
      their own clock reading. */
  lemma IssuedRecordsAgree(tm: TokenManager, userData: Dict, c: Clock, encode: Encode, sha256Hex: string -> string,
                           sessionId: Option<string>, ipAddress: Option<string>, userAgent: Option<string>)
    requires TokenPayload(userData, c.issuedAt).Some?
    ensures var p := TokenPayload(userData, c.issuedAt).value;
            var t := IssuedTokens(tm, p, c, encode);
            var access := TokenRecord(tm, userData, t.accessToken, "access", sessionId, ipAddress, userAgent,
                                      c.accessStored, sha256Hex);
            var refresh := TokenRecord(tm, userData, t.refreshToken, "refresh", sessionId, ipAddress, userAgent,
                                       c.refreshStored, sha256Hex);
            && access.userType == refresh.userType == p["user_type"]
            && access.userId == refresh.userId == p["user_id"]
            && access.sessionId == refresh.sessionId == sessionId
            && access.ipAddress == refresh.ipAddress == ipAddress
            && access.userAgent == refresh.userAgent == userAgent
            && access.tokenType == "access" && refresh.tokenType == "refresh"
            && access.tokenHash == sha256Hex(t.accessToken) && refresh.tokenHash == sha256Hex(t.refreshToken)
            && access.expiresAt - c.accessStored == AccessLifetime(tm)
            && refresh.expiresAt - c.refreshStored == RefreshLifetime(tm)
            && AccessClaims(tm, p, c.accessClaim, None)["exp"] == VInt(c.accessClaim + AccessLifetime(tm))
            && RefreshClaims(tm, p, c.refreshClaim)["exp"] == VInt(c.refreshClaim + RefreshLifetime(tm))
            && t.tokenType == "bearer"
  {
    PayloadUser(userData, c.issuedAt);
    var p := TokenPayload(userData, c.issuedAt).value;
    var t := IssuedTokens(tm, p, c, encode);
    RecordsAgree(tm, userData, t.accessToken, t.refreshToken, c, sha256Hex, sessionId, ipAddress, userAgent);
    ClaimsExpire(tm, p, c);
  }

  /** The two rows `create_auth_tokens` stores, whatever their tokens. */
  lemma RecordsAgree(tm: TokenManager, userData: Dict, accessToken: string, refreshToken: string, c: Clock,
                     sha256Hex: string -> string, sessionId: Option<string>, ipAddress: Option<string>,
                     userAgent: Option<string>)
    requires "user_type" in userData && "user_id" in userData
    ensures var access := TokenRecord(tm, userData, accessToken, "access", sessionId, ipAddress, userAgent,
                                      c.accessStored, sha256Hex);
            var refresh := TokenRecord(tm, userData, refreshToken, "refresh", sessionId, ipAddress, userAgent,
                                       c.refreshStored, sha256Hex);
            && access.userType == refresh.userType == userData["user_type"]
            && access.userId == refresh.userId == userData["user_id"]
            && access.sessionId == refresh.sessionId == sessionId
            && access.ipAddress == refresh.ipAddress == ipAddress
            && access.userAgent == refresh.userAgent == userAgent
            && access.tokenType == "access" && refresh.tokenType == "refresh"
            && access.tokenHash == sha256Hex(accessToken) && refresh.tokenHash == sha256Hex(refreshToken)
            && access.expiresAt - c.accessStored == AccessLifetime(tm)
            && refresh.expiresAt - c.refreshStored == RefreshLifetime(tm)
  {
    assert "refresh"[0] != "access"[0];
    assert ExpiresAt(tm, "access", c.accessStored) - c.accessStored == AccessLifetime(tm);
    assert ExpiresAt(tm, "refresh", c.refreshStored) - c.refreshStored == RefreshLifetime(tm);
  }

  /** Each token's expiry claim is the lifetime after its own clock reading. */
  lemma ClaimsExpire(tm: TokenManager, p: Dict, c: Clock)
    ensures AccessClaims(tm, p, c.accessClaim, None)["exp"] == VInt(c.accessClaim + AccessLifetime(tm))
    ensures RefreshClaims(tm, p, c.refreshClaim)["exp"] == VInt(c.refreshClaim + RefreshLifetime(tm))
  {
  }

  /** The payload names the user it was built for. */
  lemma PayloadUser(userData: Dict, now: int)
    requires TokenPayload(userData, now).Some?
    ensures var p := TokenPayload(userData, now).value;
            && "user_type" in p && p["user_type"] == userData["user_type"]
            && "user_id" in p && p["user_id"] == userData["user_id"]
  {
    PayloadClaims(userData, now);
    var p := TokenPayload(userData, now).value;
    assert "user_type" in p && "user_id" in p;
  }
}
