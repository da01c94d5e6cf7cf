/**
 * `POST /api/auth/register` (src/app/api/auth/register/route.ts): four
 * required fields, a refusal when the email is already used, then a new user
 * with the hashed password appended to the store and a session answered.
 */
module RegisterRoute {
  import opened Types
  import opened DocumentStore
  import opened LoginRoute
  import opened Bcrypt

  const RegisterFieldsRequired := Reply(400, Error("Email, password, name, and role are required"))
  const UserExists := Reply(409, Error("User already exists"))

  datatype RegisterRequest = RegisterRequest(
    email: Option<string>,
    password: Option<string>,
    name: Option<string>,
    role: Option<string>,
    phone: Option<string>)

  predicate HasRequired(req: RegisterRequest)
  {
    Present(req.email) && Present(req.password) && Present(req.name) && Present(req.role)
  }

  /** The record POSTed to the store; `id` is the id the store gives it. */
  function NewUser(req: RegisterRequest, id: Id, now: Time): (u: User)
    requires HasRequired(req)
    // the password is stored hashed, never as typed
    ensures u.password == Digest(req.password.value) && !u.password.Clear?
    // only drivers get `isAvailable`, and they start available
    ensures IsTrue(u.isAvailable) <==> req.role.value == "driver"
    ensures u.isAvailable.None? <==> req.role.value != "driver"
    ensures u.id == id && u.email == req.email.value && u.role == req.role.value && u.name == req.name.value
    ensures u.phone == req.phone && u.vehicleInfo.None? && u.licenseNumber.None? && u.createdAt == now
  {
    User(id, req.email.value, Digest(req.password.value), req.role.value, req.name.value, req.phone,
         None, None, if req.role.value == "driver" then Some(true) else None, now)
  }

  /** The handler. */
  method Register(db: Store, req: RegisterRequest, id: Id, now: Time) returns (reply: Reply)
    modifies db
    ensures db.orders == old(db.orders) && db.deliveries == old(db.deliveries)
    ensures !HasRequired(req) ==> reply == RegisterFieldsRequired && db.users == old(db.users)
    ensures HasRequired(req) && EmailIndex(old(db.users), req.email.value).Some? ==>
      reply == UserExists && db.users == old(db.users)
    ensures HasRequired(req) && EmailIndex(old(db.users), req.email.value).None? ==>
      && db.users == old(db.users) + [NewUser(req, id, now)]
      && reply == SessionOf(NewUser(req, id, now))
  {
    if !HasRequired(req) {
      return RegisterFieldsRequired;
    }
    var existing := EmailIndex(db.users, req.email.value);
    if existing.Some? {
      return UserExists;
    }
    var user := NewUser(req, id, now);
    db.PostUser(user);
    reply := SessionOf(user);
  }

  /** Right after registering, the same email and password log in as the new user, with the same session. */
  lemma {:induction false} RegisterThenLogin(users: seq<User>, req: RegisterRequest, id: Id, now: Time,
                                             rehash: (string, string) -> Comparison)
    requires HasRequired(req) && EmailIndex(users, req.email.value).None?
    ensures Login(users + [NewUser(req, id, now)], req.email, req.password, rehash) == SessionOf(NewUser(req, id, now))
  {
    AppendedIsFirstMatch(users, NewUser(req, id, now));
    DigestMatches(req.password.value, rehash);
  }

  /** No two users share an email. */
  predicate UniqueEmails(users: seq<User>)
  {
    forall i, j :: 0 <= i < j < |users| ==> users[i].email != users[j].email
  }

  /** Registration never creates a second user with an existing email. */
  lemma {:induction false} RegisterKeepsEmailsUnique(users: seq<User>, req: RegisterRequest, id: Id, now: Time)
    requires UniqueEmails(users) && HasRequired(req) && EmailIndex(users, req.email.value).None?
    ensures UniqueEmails(users + [NewUser(req, id, now)])
  {
    var all := users + [NewUser(req, id, now)];
    forall i, j | 0 <= i < j < |all| ensures all[i].email != all[j].email {
      if j == |users| {
        assert all[i] == users[i];
      } else {
        assert all[i] == users[i] && all[j] == users[j];
      }
    }
  }
}
