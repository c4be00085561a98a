/** Login (src/controllers/auth.ts): input checks in a fixed order, then the claim and its token. */
module Login {
  import opened Wrappers
  import opened Types
  import opened Collections
  import opened Http
  import opened Users
  import opened Authorization

  const USERNAME_REQUIRED: string := "username must be provided"
  const PIN_REQUIRED: string := "pin must be provided"
  const BAD_CREDENTIALS: string := "username or password is incorrect"
  /** The success message login sends, worded as the account-creation one. */
  const LOGIN_MESSAGE: string := "User was created successfully"

  /** An account as sent back by login: every stored field but the pin. */
  datatype PublicAccount = PublicAccount(id: AccountId, username: Option<string>, role: AuthRole)

  datatype LoginBody = LoginBody(message: string, data: PublicAccount, token: string)

  /** `user.toJSON()` with `pin` deleted. */
  function WithoutPin(a: Account): (p: PublicAccount)
    ensures p.id == a.id && p.username == a.username && p.role == a.role
  {
    PublicAccount(a.id, a.username, a.role)
  }

  /** `findByUsername`: the first account with that username. */
  function FindByUsername(users: seq<Account>, username: string): (r: Option<Account>)
    ensures r.Some? ==> r.value in users && r.value.username == Some(username)
    ensures r.None? <==> forall a :: a in users ==> a.username != Some(username)
  {
    FindOne(users, (a: Account) => a.username == Some(username))
  }

  /** The claim login issues: the account's identity and stored role, for authentication. */
  function IssuedClaim(a: Account): (c: AuthClaim)
    ensures c.id == a.id && c.role == a.role && c.purpose == AUTHENTICATION
  {
    AuthClaim(a.id, a.role, AUTHENTICATION)
  }

  /**
   * Login. `checkPin(pin, hash)` stands for the hash comparison and
   * `sign` for the token signer. An unknown username leaves the account
   * null, and calling its `authenticate` fails as a null dereference.
   */
  function Login(body: Fields, users: seq<Account>, checkPin: (string, string) -> bool,
                 sign: AuthClaim -> string): (c: Completion<LoginBody>)
    ensures !Truthy(Lookup(body, "username")) ==> c == Fail(400, USERNAME_REQUIRED)
    ensures Truthy(Lookup(body, "username")) && !Truthy(Lookup(body, "pin")) ==> c == Fail(400, PIN_REQUIRED)
    ensures Truthy(Lookup(body, "username")) && Truthy(Lookup(body, "pin")) ==>
              var found := FindByUsername(users, body["username"]);
              && (found.None? ==> c == NullRead("authenticate"))
              && (found.Some? && !checkPin(body["pin"], found.value.pinHash) ==> c == Fail(400, BAD_CREDENTIALS))
    ensures c.Returns? ==>
              exists a :: a in users && a.username == Some(body["username"])
                          && checkPin(body["pin"], a.pinHash)
                          && c == Ok(200, LoginBody(LOGIN_MESSAGE, WithoutPin(a), sign(IssuedClaim(a))))
  {
    var username := Lookup(body, "username");
    var pin := Lookup(body, "pin");
    if !Truthy(username) then Fail(400, USERNAME_REQUIRED)
    else if !Truthy(pin) then Fail(400, PIN_REQUIRED)
    else
      match FindByUsername(users, username.value)
      case None => NullRead("authenticate")
      case Some(a) =>
        if !checkPin(pin.value, a.pinHash) then Fail(400, BAD_CREDENTIALS)
        else Ok(200, LoginBody(LOGIN_MESSAGE, WithoutPin(a), sign(IssuedClaim(a))))
  }

  /**
   * The token login hands out opens the gate: presented as "Bearer <token>"
   * to a verifier that inverts the signer, it admits the account on every
   * operation open to its role, carrying the issued claim.
   */
  lemma LoginTokenAdmits(body: Fields, users: seq<Account>, checkPin: (string, string) -> bool,
                         sign: AuthClaim -> string, decode: string -> Option<AuthClaim>,
                         accounts: map<AccountId, AuthRole>, roles: seq<AuthRole>, ctx: ControllerData)
    requires Login(body, users, checkPin, sign).Returns?
    requires forall claim :: decode(sign(claim)) == Some(claim)
    requires forall claim :: sign(claim) != [] && forall j :: !OccursAt(sign(claim), BEARER, j)
    requires forall a :: a in users ==> a.id in accounts
    requires Lookup(ctx.headers, "authorization") ==
             Some(BEARER + Login(body, users, checkPin, sign).result.message.token)
    ensures var out := Login(body, users, checkPin, sign).result.message;
            (|roles| == 0 || out.data.role in roles) ==>
              && Authorize(roles, ctx, decode, accounts).Admitted?
              && Authorize(roles, ctx, decode, accounts).ctx.claims ==
                 Some(AuthClaim(out.data.id, out.data.role, AUTHENTICATION))
  {
    var a :| a in users && a.username == Some(body["username"]) && checkPin(body["pin"], a.pinHash)
             && Login(body, users, checkPin, sign) == Ok(200, LoginBody(LOGIN_MESSAGE, WithoutPin(a), sign(IssuedClaim(a))));
    var t := sign(IssuedClaim(a));
    BearerTokenOfScheme(t);
  }
}
