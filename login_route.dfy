/**
 * `POST /api/auth/login` (src/app/api/auth/login/route.ts). `users` is the
 * store's answer to `GET /users`; the handler writes nothing. The user
 * chosen is the first one whose email equals the given one exactly, and an
 * unknown email and a wrong password are answered alike.
 */
module LoginRoute {
  import opened Types
  import opened Seqs
  import opened Bcrypt

  const CredentialsRequired := Reply(400, Error("Email and password are required"))
  const InvalidCredentials := Reply(401, Error("Invalid credentials"))

  /** `users.find(u => u.email === email)`, as a position. */
  function EmailIndex(users: seq<User>, email: string): (r: Option<nat>)
    ensures r.Some? ==> r.value < |users| && users[r.value].email == email
    ensures r.Some? ==> forall j :: 0 <= j < r.value ==> users[j].email != email
    ensures r.None? <==> forall j :: 0 <= j < |users| ==> users[j].email != email
  {
    FirstIndex(users, (u: User) => u.email == email)
  }

  /** A user appended under a new email is the first match for it. */
  lemma {:induction false} AppendedIsFirstMatch(users: seq<User>, u: User)
    requires EmailIndex(users, u.email).None?
    ensures EmailIndex(users + [u], u.email) == Some(|users|)
  {
    var all := users + [u];
    assert all[|users|].email == u.email;
    var k := EmailIndex(all, u.email);
    assert k.Some?;
    assert forall j :: 0 <= j < |users| ==> all[j].email != u.email;
  }

  /** The session answered on success: the user without its password, and a token for its id and role. */
  function SessionOf(u: User): Reply
  {
    Reply(200, Session(WithoutPassword(u), Claims(u.id, u.role)))
  }

  /**
   * The handler. A comparison that throws (a stored text of length 60 that
   * is not a well-formed hash) is caught and answered with 500.
   */
  function Login(users: seq<User>, email: Option<string>, password: Option<string>,
                 rehash: (string, string) -> Comparison): (r: Reply)
    ensures !Present(email) || !Present(password) ==> r == CredentialsRequired
    ensures r.status == 200 <==>
      && Present(email) && Present(password)
      && EmailIndex(users, email.value).Some?
      && CompareHash(password.value, users[EmailIndex(users, email.value).value].password, rehash) == Match
    ensures r.status == 200 ==> r == SessionOf(users[EmailIndex(users, email.value).value])
    ensures r == InternalError <==>
      && Present(email) && Present(password)
      && EmailIndex(users, email.value).Some?
      && CompareHash(password.value, users[EmailIndex(users, email.value).value].password, rehash) == Threw
    ensures Present(email) && Present(password) && r.status != 200 && r != InternalError ==> r == InvalidCredentials
  {
    if !Present(email) || !Present(password) then CredentialsRequired
    else
      var i := EmailIndex(users, email.value);
      if i.None? then InvalidCredentials
      else
        match CompareHash(password.value, users[i.value].password, rehash)
        case Match => SessionOf(users[i.value])
        case Mismatch => InvalidCredentials
        case Threw => InternalError
  }

  /** An unknown email and a wrong password for a known one get the very same reply. */
  lemma {:induction false} UniformFailure(users: seq<User>, unknown: string, known: string, wrong: string,
                                          rehash: (string, string) -> Comparison)
    requires unknown != "" && known != "" && wrong != ""
    requires forall j :: 0 <= j < |users| ==> users[j].email != unknown
    requires EmailIndex(users, known).Some?
    requires CompareHash(wrong, users[EmailIndex(users, known).value].password, rehash) == Mismatch
    ensures Login(users, Some(unknown), Some(wrong), rehash) == Login(users, Some(known), Some(wrong), rehash)
            == InvalidCredentials
  {
  }

  /**
   * Only the first user with an email is ever tried: a later user with the
   * same email can not log in with its own password when the first user's
   * password is a different one.
   */
  lemma {:induction false} FirstMatchOnly(users: seq<User>, i: nat, j: nat, password: string,
                                          rehash: (string, string) -> Comparison)
    requires i < j < |users| && users[i].email == users[j].email != "" && password != ""
    requires forall m :: 0 <= m < i ==> users[m].email != users[i].email
    requires CompareHash(password, users[j].password, rehash) == Match
    requires CompareHash(password, users[i].password, rehash) == Mismatch
    ensures Login(users, Some(users[j].email), Some(password), rehash) == InvalidCredentials
  {
    var k := EmailIndex(users, users[j].email);
    assert k.Some? && k.value <= i;
    assert k.value == i;
  }

  /**
   * A password stored as sent, whose JavaScript length is not that of a
   * bcrypt hash, never matches: bcryptjs answers false without hashing anything.
   */
  lemma {:induction false} ClearPasswordLocksOut(users: seq<User>, email: string, password: string,
                                                 rehash: (string, string) -> Comparison)
    requires email != "" && password != ""
    requires EmailIndex(users, email).Some?
    requires users[EmailIndex(users, email).value].password.Clear?
    requires Utf16Length(users[EmailIndex(users, email).value].password.text) != HashLength
    ensures Login(users, Some(email), Some(password), rehash) == InvalidCredentials
  {
  }

  /**
   * A password stored as sent that is itself a bcrypt hash of `password`
   * lets that password log in.
   */
  lemma {:induction false} StoredHashLogsIn(users: seq<User>, email: string, password: string,
                                            rehash: (string, string) -> Comparison)
    requires email != "" && password != ""
    requires EmailIndex(users, email).Some?
    requires users[EmailIndex(users, email).value].password.Clear?
    requires Utf16Length(users[EmailIndex(users, email).value].password.text) == HashLength
    requires rehash(password, users[EmailIndex(users, email).value].password.text) == Match
    ensures Login(users, Some(email), Some(password), rehash) == SessionOf(users[EmailIndex(users, email).value])
  {
  }

  /** A stored text of length 60 that bcryptjs can not parse makes the login answer 500. */
  lemma {:induction false} MalformedHashIs500(users: seq<User>, email: string, password: string,
                                              rehash: (string, string) -> Comparison)
    requires email != "" && password != ""
    requires EmailIndex(users, email).Some?
    requires users[EmailIndex(users, email).value].password.Clear?
    requires Utf16Length(users[EmailIndex(users, email).value].password.text) == HashLength
    requires rehash(password, users[EmailIndex(users, email).value].password.text) == Threw
    ensures Login(users, Some(email), Some(password), rehash) == InternalError
  {
  }

  /**
   * A user whose password encodes to 72 bytes or more also logs in with any
   * other password that shares those first 72 bytes.
   */
  lemma {:induction false} LongPasswordLogin(users: seq<User>, email: string, typed: string,
                                             rehash: (string, string) -> Comparison)
    requires email != "" && typed != ""
    requires EmailIndex(users, email).Some? && users[EmailIndex(users, email).value].password.Digest?
    requires var hashed := users[EmailIndex(users, email).value].password.of;
      && |Utf8Bytes(hashed)| >= KeyLength && |Utf8Bytes(typed)| >= KeyLength
      && Utf8Bytes(hashed)[..KeyLength] == Utf8Bytes(typed)[..KeyLength]
    ensures Login(users, Some(email), Some(typed), rehash).status == 200
  {
    LongPasswordsCollide(users[EmailIndex(users, email).value].password.of, typed, rehash);
  }
}
