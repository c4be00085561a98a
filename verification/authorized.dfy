/**
 * The `Authorized(...roles)` gate (src/@decorators/authorized.decorator.ts):
 * bearer token extraction, token decoding, purpose check, account lookup and
 * role membership, in that order.
 */
module Authorization {
  import opened Wrappers
  import opened Types

  const BEARER: string := "Bearer "
  const INVALID_TOKEN_MESSAGE: string := "Invalid Authorization Token"
  const NOT_AUTHORIZED_MESSAGE: string := "You are not authorized to access this resource"

  /** The pattern `pat` occurs in `s` starting at position `i`. */
  predicate OccursAt(s: string, pat: string, i: nat) {
    i + |pat| <= |s| && s[i..i + |pat|] == pat
  }

  /** The first position at or after `from` where `pat` occurs in `s`. */
  function IndexOf(s: string, pat: string, from: nat): (r: Option<nat>)
    decreases |s| - from
    ensures r.Some? ==> from <= r.value && OccursAt(s, pat, r.value)
    ensures r.Some? ==> forall j :: from <= j < r.value ==> !OccursAt(s, pat, j)
    ensures r.None? ==> forall j :: from <= j ==> !OccursAt(s, pat, j)
  {
    if from + |pat| > |s| then None
    else if OccursAt(s, pat, from) then Some(from)
    else IndexOf(s, pat, from + 1)
  }

  /**
   * Segment 1 of `header.split("Bearer ")`: the text between the first
   * separator and the next one (or the end); `None` when there is no separator.
   */
  function BearerToken(header: string): (r: Option<string>)
    ensures r.None? <==> forall j :: !OccursAt(header, BEARER, j)
    ensures r.Some? ==> forall j :: !OccursAt(r.value, BEARER, j)
    ensures r.Some? ==>
              && IndexOf(header, BEARER, 0).Some?
              && var start := IndexOf(header, BEARER, 0).value + |BEARER|;
                 var end := start + |r.value|;
                 && end <= |header|
                 && r.value == header[start..end]
                 && (end == |header| || OccursAt(header, BEARER, end))
  {
    match IndexOf(header, BEARER, 0)
    case None => None
    case Some(i) =>
      var rest := header[i + |BEARER|..];
      match IndexOf(rest, BEARER, 0)
      case None => Some(rest)
      case Some(j) =>
        SegmentBeforeNext(header, i + |BEARER|, j);
        Some(rest[..j])
  }

  /**
   * The text from `start` up to the first separator after it, at
   * `start + j`, holds no separator, and the separator follows it.
   */
  lemma SegmentBeforeNext(header: string, start: nat, j: nat)
    requires start <= |header| && IndexOf(header[start..], BEARER, 0) == Some(j)
    ensures start + j + |BEARER| <= |header|
    ensures header[start..][..j] == header[start..start + j]
    ensures OccursAt(header, BEARER, start + j)
    ensures forall k :: !OccursAt(header[start..][..j], BEARER, k)
  {
    var rest := header[start..];
    assert header[start + j..start + j + |BEARER|] == rest[j..j + |BEARER|];
    forall k: nat | OccursAt(rest[..j], BEARER, k) ensures false {
      assert rest[..j][k..k + |BEARER|] == rest[k..k + |BEARER|];
      assert OccursAt(rest, BEARER, k);
    }
  }

  /** The token the gate works with: `None` for a missing header or a missing segment. */
  function AuthorizationToken(headers: Fields): Option<string> {
    var header := Lookup(headers, "authorization");
    if Truthy(header) then BearerToken(header.value) else None
  }

  /** Why the gate refused a request; every refusal is reported as 401. */
  datatype Denial = MissingToken | InvalidToken | UnknownAccount | ForbiddenRole

  function DenialMessage(d: Denial): string {
    if d == MissingToken then INVALID_TOKEN_MESSAGE else NOT_AUTHORIZED_MESSAGE
  }

  datatype GateResult = Denied(reason: Denial) | Admitted(ctx: ControllerData)

  /** The status a refusal is answered with. */
  const UNAUTHORIZED: int := 401

  /**
   * Runs the guard chain. `decode` stands for the token verifier, which
   * yields no claim for a bad, expired or forged token; `accounts` maps
   * every existing account to its stored role.
   */
  function Authorize(roles: seq<AuthRole>, ctx: ControllerData,
                     decode: string -> Option<AuthClaim>,
                     accounts: map<AccountId, AuthRole>): (r: GateResult)
    ensures var token := AuthorizationToken(ctx.headers);
            r == Denied(MissingToken) <==> !Truthy(token)
    ensures var token := AuthorizationToken(ctx.headers);
            r.Admitted? <==>
              && Truthy(token)
              && decode(token.value).Some?
              && decode(token.value).value.purpose == AUTHENTICATION
              && decode(token.value).value.id in accounts
              && (|roles| == 0 || decode(token.value).value.role in roles)
    ensures r.Admitted? ==>
              r.ctx == ctx.(claims := decode(AuthorizationToken(ctx.headers).value))
  {
    var token := AuthorizationToken(ctx.headers);
    if !Truthy(token) then Denied(MissingToken)
    else
      var payload := decode(token.value);
      if payload.None? || payload.value.purpose != AUTHENTICATION then Denied(InvalidToken)
      else if payload.value.id !in accounts then Denied(UnknownAccount)
      else if |roles| > 0 && payload.value.role !in roles then Denied(ForbiddenRole)
      else Admitted(ctx.(claims := payload))
  }

  /** A header of the form "Bearer <t>" carries `t`, provided `t` does not itself contain the separator. */
  lemma BearerTokenOfScheme(t: string)
    requires forall j :: !OccursAt(t, BEARER, j)
    ensures BearerToken(BEARER + t) == Some(t)
  {
    var header := BEARER + t;
    assert OccursAt(header, BEARER, 0) by {
      assert header[0..|BEARER|] == BEARER;
    }
    assert header[|BEARER|..] == t;
  }

  /** An admitted request carries an authentication claim of an existing account whose role the gate allows. */
  lemma AdmittedClaim(roles: seq<AuthRole>, ctx: ControllerData,
                      decode: string -> Option<AuthClaim>, accounts: map<AccountId, AuthRole>)
    requires Authorize(roles, ctx, decode, accounts).Admitted?
    ensures var c := Authorize(roles, ctx, decode, accounts).ctx.claims;
            c.Some? && c.value.purpose == AUTHENTICATION && c.value.id in accounts
            && (|roles| == 0 || c.value.role in roles)
  {
  }

  /** An empty role list admits any valid token of an existing account, whatever its role. */
  lemma EmptyRolesAdmitAnyRole(ctx: ControllerData, decode: string -> Option<AuthClaim>,
                               accounts: map<AccountId, AuthRole>, t: string, claim: AuthClaim)
    requires Lookup(ctx.headers, "authorization") == Some(BEARER + t)
    requires t != [] && forall j :: !OccursAt(t, BEARER, j)
    requires decode(t) == Some(claim) && claim.purpose == AUTHENTICATION && claim.id in accounts
    ensures Authorize([], ctx, decode, accounts) == Admitted(ctx.(claims := Some(claim)))
  {
    BearerTokenOfScheme(t);
  }

  /** A claim naming no existing account is refused, and that check comes before the role check. */
  lemma UnknownAccountRefused(roles: seq<AuthRole>, ctx: ControllerData,
                              decode: string -> Option<AuthClaim>, accounts: map<AccountId, AuthRole>)
    requires var token := AuthorizationToken(ctx.headers);
             Truthy(token) && decode(token.value).Some?
             && decode(token.value).value.purpose == AUTHENTICATION
             && decode(token.value).value.id !in accounts
    ensures Authorize(roles, ctx, decode, accounts) == Denied(UnknownAccount)
  {
  }

  /** A role outside a non-empty role list is refused even for an otherwise valid token. */
  lemma ForbiddenRoleRefused(roles: seq<AuthRole>, ctx: ControllerData,
                             decode: string -> Option<AuthClaim>, accounts: map<AccountId, AuthRole>)
    requires |roles| > 0
    requires var token := AuthorizationToken(ctx.headers);
             Truthy(token) && decode(token.value).Some?
             && decode(token.value).value.purpose == AUTHENTICATION
             && decode(token.value).value.id in accounts
             && decode(token.value).value.role !in roles
    ensures Authorize(roles, ctx, decode, accounts) == Denied(ForbiddenRole)
  {
  }

  /**
   * The role checked is the one carried by the token: the gate's decision
   * depends on which accounts exist, never on their stored roles.
   */
  lemma StoredRoleIrrelevant(roles: seq<AuthRole>, ctx: ControllerData,
                             decode: string -> Option<AuthClaim>,
                             accounts1: map<AccountId, AuthRole>, accounts2: map<AccountId, AuthRole>)
    requires accounts1.Keys == accounts2.Keys
    ensures Authorize(roles, ctx, decode, accounts1) == Authorize(roles, ctx, decode, accounts2)
  {
  }

  /** Only the claims change: body, params, query, headers and page pass through. */
  lemma AdmissionKeepsContext(roles: seq<AuthRole>, ctx: ControllerData,
                              decode: string -> Option<AuthClaim>, accounts: map<AccountId, AuthRole>)
    requires Authorize(roles, ctx, decode, accounts).Admitted?
    ensures var out := Authorize(roles, ctx, decode, accounts).ctx;
            out.body == ctx.body && out.params == ctx.params && out.query == ctx.query
            && out.headers == ctx.headers && out.page == ctx.page
  {
  }
}
