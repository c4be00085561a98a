/** Account creation (src/controllers/users.ts) and the stored account record. */
module Users {
  import opened Wrappers
  import opened Types
  import opened Http

  /** A stored account. The pin is kept only as its hash. */
  datatype Account = Account(id: AccountId, username: Option<string>, pinHash: string, role: AuthRole)

  /**
   * The document `createUser` builds from the request: the username and the
   * role as sent, and the pin as its hash (the schema's setter hashes it).
   */
  datatype UserDocument = UserDocument(id: AccountId, username: Option<string>, pinHash: string, role: Option<string>)

  datatype UserBody = UserBody(message: string, data: UserDocument)

  /** What `createUser` answers, and the document it stored, if any. */
  datatype CreateOutcome = CreateOutcome(response: Completion<UserBody>, saved: Option<UserDocument>)

  const INVALID_PIN: string := "Invalid pin: must be 4 digits"
  const USER_CREATED: string := "User was created successfully"

  predicate IsDigit(c: char) {
    '0' <= c <= '9'
  }

  /** The pin rule stated directly: exactly four characters, each one 0-9. */
  predicate FourDigits(s: string) {
    |s| == 4 && forall i :: 0 <= i < |s| ==> IsDigit(s[i])
  }

  /** `\d{n}` anchored at both ends, matched one character at a time. */
  function MatchDigits(s: string, n: nat): bool
    decreases n
  {
    if n == 0 then s == []
    else s != [] && IsDigit(s[0]) && MatchDigits(s[1..], n - 1)
  }

  lemma {:induction false} MatchDigitsExactly(s: string, n: nat)
    ensures MatchDigits(s, n) <==> |s| == n && forall i :: 0 <= i < |s| ==> IsDigit(s[i])
    decreases n
  {
    if n > 0 && s != [] {
      MatchDigitsExactly(s[1..], n - 1);
      assert forall i :: 1 <= i < |s| ==> s[i] == s[1..][i - 1];
    }
  }

  /** The pin guard: present, non-empty, and matching `^\d{4}$`. */
  predicate PinAccepted(pin: Option<string>) {
    Truthy(pin) && MatchDigits(pin.value, 4)
  }

  /** The guard accepts exactly the four-digit pins; its truthiness test rejects nothing more. */
  lemma PinAcceptedExactly(pin: Option<string>)
    ensures PinAccepted(pin) <==> pin.Some? && FourDigits(pin.value)
  {
    if pin.Some? {
      MatchDigitsExactly(pin.value, 4);
    }
  }

  /**
   * `createUser`. `oid` is the identity the new document receives, `hash`
   * the pin hasher, and `saveError` the outcome of persisting a document:
   * `None` when it is saved, or the message it is refused with.
   */
  function CreateUser(body: Fields, oid: AccountId, hash: string -> string,
                      saveError: UserDocument -> Option<string>): (r: CreateOutcome)
    ensures !PinAccepted(Lookup(body, "pin")) ==>
              r.response == Fail(400, INVALID_PIN) && r.saved.None?
    ensures PinAccepted(Lookup(body, "pin")) ==>
              var doc := UserDocument(oid, Lookup(body, "username"), hash(body["pin"]), Lookup(body, "role"));
              && (saveError(doc).Some? ==> r.response == Fail(400, saveError(doc).value) && r.saved.None?)
              && (saveError(doc).None? ==>
                    r.response == Ok(201, UserBody(USER_CREATED, doc)) && r.saved == Some(doc))
  {
    var pin := Lookup(body, "pin");
    if !PinAccepted(pin) then
      CreateOutcome(Fail(400, INVALID_PIN), None)
    else
      var doc := UserDocument(oid, Lookup(body, "username"), hash(pin.value), Lookup(body, "role"));
      match saveError(doc)
      case Some(message) => CreateOutcome(Fail(400, message), None)
      case None => CreateOutcome(Ok(201, UserBody(USER_CREATED, doc)), Some(doc))
  }

  /**
   * A created account's response carries the stored pin hash: the data sent
   * is the saved document, not the copy the pin was removed from.
   */
  lemma CreatedResponseHasPinHash(body: Fields, oid: AccountId, hash: string -> string,
                                  saveError: UserDocument -> Option<string>)
    requires CreateUser(body, oid, hash, saveError).response.Returns?
    ensures "pin" in body && FourDigits(body["pin"])
    ensures CreateUser(body, oid, hash, saveError).response.result.message.data.pinHash == hash(body["pin"])
  {
    PinAcceptedExactly(Lookup(body, "pin"));
  }
}
