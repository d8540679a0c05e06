/** The osTicket database rows that authentication reads, and SQLAlchemy's
    `query(...).filter(...).first()` as the first row, in table order, that satisfies the
    filter. Only the columns the authentication code uses are kept; date-time columns are
    an integer clock. */
module Tables {
  import opened Wrappers

  datatype ApiKeyRow = ApiKeyRow(
    id: int,
    isactive: bool,
    ipaddr: string,
    apikey: string,
    canCreateTickets: bool,
    canExecCron: bool)

  datatype StaffRow = StaffRow(
    staffId: int,
    deptId: int,
    roleId: int,
    username: string,
    firstname: Option<string>,
    lastname: Option<string>,
    passwd: Option<string>,
    email: Option<string>,
    isactive: bool,
    isadmin: bool)

  datatype UserRow = UserRow(id: int, orgId: int, defaultEmailId: int, status: int, name: string)

  datatype UserEmailRow = UserEmailRow(id: int, userId: int, address: string)

  datatype UserAccountRow = UserAccountRow(id: int, userId: int, status: int, passwd: Option<string>)

  datatype StaffSessionRow = StaffSessionRow(sessionId: string, staffId: int, sessionExpire: int)

  datatype UserSessionRow = UserSessionRow(sessionId: string, userId: int, sessionExpire: int)

  /** The tables that the request-authentication and credential code query. */
  datatype Database = Database(
    apiKeys: seq<ApiKeyRow>,
    staff: seq<StaffRow>,
    users: seq<UserRow>,
    userEmails: seq<UserEmailRow>,
    userAccounts: seq<UserAccountRow>,
    staffSessions: seq<StaffSessionRow>,
    userSessions: seq<UserSessionRow>)

  /** The index of the first row that satisfies `p`: `.filter(p).first()`. */
  function FirstIndex<T>(rows: seq<T>, p: T -> bool): (r: Option<nat>)
    ensures r.Some? ==> r.value < |rows| && p(rows[r.value])
    ensures r.Some? ==> forall j :: 0 <= j < r.value ==> !p(rows[j])
    ensures r.None? ==> forall j :: 0 <= j < |rows| ==> !p(rows[j])
  {
    if rows == [] then None
    else if p(rows[0]) then Some(0)
    else
      match FirstIndex(rows[1..], p)
      case None => None
      case Some(k) => Some(k + 1)
  }

  /** The first row that satisfies `p`, or None. */
  function First<T>(rows: seq<T>, p: T -> bool): (r: Option<T>)
    ensures r.Some? <==> exists j :: 0 <= j < |rows| && p(rows[j])
    ensures r.Some? ==> p(r.value) && r.value in rows
  {
    match FirstIndex(rows, p)
    case None => None
    case Some(k) => Some(rows[k])
  }

  /** Row `k` satisfies `p` and no earlier row does. */
  predicate IsFirst<T>(rows: seq<T>, p: T -> bool, k: nat) {
    k < |rows| && p(rows[k]) && forall j :: 0 <= j < k ==> !p(rows[j])
  }

  /** `First` and `FirstIndex` in terms of the row that comes first: that row when there is
      one, None exactly when no row satisfies the filter. */
  lemma FirstIsTheFirst<T>(rows: seq<T>, p: T -> bool)
    ensures forall k: nat :: IsFirst(rows, p, k) ==> First(rows, p) == Some(rows[k]) && FirstIndex(rows, p) == Some(k)
    ensures First(rows, p).None? <==> forall j :: 0 <= j < |rows| ==> !p(rows[j])
  {
    forall k: nat | IsFirst(rows, p, k)
      ensures First(rows, p) == Some(rows[k]) && FirstIndex(rows, p) == Some(k)
    {
      FirstIsEarliest(rows, p, k);
    }
  }

  // the filters of the credential queries

  function ActiveKey(apiKey: string): ApiKeyRow -> bool {
    (k: ApiKeyRow) => k.apikey == apiKey && k.isactive
  }

  function ActiveStaffNamed(username: string): StaffRow -> bool {
    (s: StaffRow) => s.username == username && s.isactive
  }

  function ActiveStaffWithId(staffId: int): StaffRow -> bool {
    (s: StaffRow) => s.staffId == staffId && s.isactive
  }

  function StaffWithId(staffId: int): StaffRow -> bool {
    (s: StaffRow) => s.staffId == staffId
  }

  function EmailWithId(emailId: int): UserEmailRow -> bool {
    (e: UserEmailRow) => e.id == emailId
  }

  function EmailIs(address: string): UserEmailRow -> bool {
    (e: UserEmailRow) => e.address == address
  }

  function UserWithId(id: int): UserRow -> bool {
    (u: UserRow) => u.id == id
  }

  function AccountOf(userId: int): UserAccountRow -> bool {
    (a: UserAccountRow) => a.userId == userId
  }

  /** A row that comes first among those satisfying `p` is what `First` returns. */
  lemma FirstIsEarliest<T>(rows: seq<T>, p: T -> bool, k: nat)
    requires k < |rows| && p(rows[k])
    requires forall j :: 0 <= j < k ==> !p(rows[j])
    ensures First(rows, p) == Some(rows[k])
  {
  }
}
