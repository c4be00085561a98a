/**
 * The enumerations and record shapes shared by the whole service
 * (src/@types/main.ts).
 */
module Types {
  import opened Wrappers

  /** Storage identity the database gives every document (an ObjectId). */
  type ObjectId = nat

  /** Accounts are referred to by their storage identity. */
  type AccountId = ObjectId

  /** A JSON object of string fields: a request body, query, header set or route parameters. */
  type Fields = map<string, string>

  /** The value of `key` in `f`, or `None` when the key is absent (`undefined`). */
  function Lookup(f: Fields, key: string): (r: Option<string>)
    ensures r.Some? <==> key in f
    ensures r.Some? ==> r.value == f[key]
  {
    if key in f then Some(f[key]) else None
  }

  /** JavaScript truthiness of a string field: present and not the empty string. */
  predicate Truthy(v: Option<string>) {
    v.Some? && v.value != ""
  }

  // ---------------------------------------------------------------- roles

  datatype AuthRole = Admin | Customer | SupportAgent

  const ALL_ROLES: set<AuthRole> := {Admin, Customer, SupportAgent}

  /** The string each role is stored and transmitted as. */
  function RoleName(r: AuthRole): string {
    match r
    case Admin => "ADMIN"
    case Customer => "CUSTOMER"
    case SupportAgent => "SUPPORT_AGENT"
  }

  /** There are exactly three roles, with three distinct names. */
  lemma RolesAreThree()
    ensures forall r: AuthRole :: r in ALL_ROLES
    ensures |ALL_ROLES| == 3
    ensures forall r1, r2 :: RoleName(r1) == RoleName(r2) ==> r1 == r2
  {
    forall r: AuthRole ensures r in ALL_ROLES {
      match r
      case Admin =>
      case Customer =>
      case SupportAgent =>
    }
  }

  // ---------------------------------------------------------- http methods

  datatype HttpMethod = Get | Post | Delete | Put

  function MethodName(m: HttpMethod): string {
    match m
    case Get => "get"
    case Post => "post"
    case Delete => "delete"
    case Put => "put"
  }

  lemma MethodNamesDistinct(m1: HttpMethod, m2: HttpMethod)
    requires MethodName(m1) == MethodName(m2)
    ensures m1 == m2
  {
  }

  // -------------------------------------------------------- ticket status

  datatype TicketStatus = Unattended | Replied | Resolved

  const ALL_STATUSES: set<TicketStatus> := {Unattended, Replied, Resolved}

  function StatusName(s: TicketStatus): string {
    match s
    case Unattended => "UNATTENDED"
    case Replied => "REPLIED"
    case Resolved => "RESOLVED"
  }

  lemma StatusesAreThree()
    ensures forall s: TicketStatus :: s in ALL_STATUSES
    ensures |ALL_STATUSES| == 3
  {
    forall s: TicketStatus ensures s in ALL_STATUSES {
      match s
      case Unattended =>
      case Replied =>
      case Resolved =>
    }
  }

  // ------------------------------------------------------- sort direction

  datatype SortDirection = Asc | Desc

  /** The numeric value of each direction: ASC = 1, DESC = -1. */
  function DirectionValue(d: SortDirection): int {
    match d
    case Asc => 1
    case Desc => -1
  }

  function DirectionFromValue(v: int): (r: Option<SortDirection>)
    ensures r.Some? <==> v == 1 || v == -1
    ensures r.Some? ==> DirectionValue(r.value) == v
  {
    if v == 1 then Some(Asc) else if v == -1 then Some(Desc) else None
  }

  lemma DirectionValueRoundTrip(d: SortDirection)
    ensures DirectionFromValue(DirectionValue(d)) == Some(d)
  {
  }

  // ---------------------------------------------------------------- claims

  /** The only purpose a claim may carry. */
  const AUTHENTICATION: string := "authentication"

  /**
   * The payload of an identity token. Its declared type fixes `purpose` to
   * "authentication", but a decoded payload is whatever was signed, so the
   * purpose is kept as a string and checked by the authorization gate.
   */
  datatype AuthClaim = AuthClaim(id: AccountId, role: AuthRole, purpose: string)

  // ----------------------------------------------------------- page params

  /**
   * A sort direction as it reaches the query layer: either a declared
   * direction or the raw query-string text, which is never validated.
   */
  datatype Direction = Ordered(dir: SortDirection) | RawDirection(text: string)

  /** A page request; every field is optional. */
  datatype PageParams = PageParams(
    page: Option<int>,
    limit: Option<int>,
    sort: Option<string>,
    direction: Option<Direction>)

  predicate Complete(p: PageParams) {
    p.page.Some? && p.limit.Some? && p.sort.Some? && p.direction.Some?
  }

  // ------------------------------------------------------- controller data

  /** The record every controller receives. */
  datatype ControllerData = ControllerData(
    body: Fields,
    params: Fields,
    query: Fields,
    headers: Fields,
    claims: Option<AuthClaim>,
    page: Option<PageParams>)
}
