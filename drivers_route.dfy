/**
 * `GET`, `POST` and `DELETE /api/drivers` (src/app/api/drivers/route.ts).
 *
 * GET lists the users with role `driver`, optionally only the available
 * ones, with their passwords removed; `answer` is the store's reply to the
 * URL sent. POST (admin) appends a user built from the body with defaults.
 * DELETE (admin) removes the user whose id is the `id` query parameter.
 */
module DriversRoute {
  import opened Types
  import opened Auth
  import opened Query
  import opened DocumentStore
  import opened LoginRoute
  import opened Bcrypt

  /** The list with every password removed, in the same order. */
  function StripAll(users: seq<User>): (r: seq<PublicUser>)
    ensures |r| == |users|
    ensures forall i :: 0 <= i < |r| ==> WithPassword(r[i], users[i].password) == users[i]
  {
    seq(|users|, i requires 0 <= i < |users| => WithoutPassword(users[i]))
  }

  const DriversUrl := StoreBase + "/users?role=driver"
  const AvailableFilter := "&isAvailable=true"

  /** `GET /api/drivers`. `request` is the URL sent to the store, if one was sent. */
  method ListDrivers(header: Option<string>, tokens: map<string, Claims>,
                     available: Option<string>, answer: seq<User>)
    returns (reply: Reply, request: Option<string>)
    ensures ReadGate(header, tokens).Deny? ==> reply == ReadGate(header, tokens).reply && request.None?
    // only the exact value "true" narrows the list to available drivers
    ensures ReadGate(header, tokens).Pass? && available == Some("true") ==>
      request == Some(DriversUrl + AvailableFilter)
    ensures ReadGate(header, tokens).Pass? && available != Some("true") ==> request == Some(DriversUrl)
    ensures ReadGate(header, tokens).Pass? ==> reply == Reply(200, DriverList(StripAll(answer)))
  {
    var gate := ReadGate(header, tokens);
    if gate.Deny? {
      return gate.reply, None;
    }
    var url := DriversUrl;
    if available == Some("true") {
      url := url + AvailableFilter;
    }
    request := Some(url);
    reply := Reply(200, DriverList(StripAll(answer)));
  }

  datatype DriverRequest = DriverRequest(
    name: Option<string>,
    email: Option<string>,
    phone: Option<string>,
    vehicleInfo: Option<string>,
    licenseNumber: Option<string>,
    password: Option<string>,
    role: Option<string>)

  predicate HasRequired(req: DriverRequest)
  {
    Present(req.name) && Present(req.email) && Present(req.password) && Present(req.role)
  }

  /** `value || ''`. */
  function OrEmpty(value: Option<string>): (r: string)
    ensures Present(value) ==> r == value.value
    ensures !Present(value) ==> r == ""
  {
    if Present(value) then value.value else ""
  }

  /**
   * The record POSTed to the store. The role is whatever the body says, the
   * driver is available, and the password is stored as given, unhashed.
   */
  function NewDriver(req: DriverRequest, id: Id, now: Time): (u: User)
    requires HasRequired(req)
  {
    User(id, req.email.value, Clear(req.password.value), req.role.value, req.name.value,
         Some(OrEmpty(req.phone)), Some(OrEmpty(req.vehicleInfo)), Some(OrEmpty(req.licenseNumber)),
         Some(true), now)
  }

  /** A new driver: defaults of `''` for the three optional fields, available, role and password from the body. */
  lemma NewDriverDefaults(req: DriverRequest, id: Id, now: Time)
    requires HasRequired(req)
    ensures var u := NewDriver(req, id, now);
      && u.phone == Some(OrEmpty(req.phone)) && u.vehicleInfo == Some(OrEmpty(req.vehicleInfo))
      && u.licenseNumber == Some(OrEmpty(req.licenseNumber))
      && (req.phone.None? ==> u.phone == Some(""))
      && IsTrue(u.isAvailable) && u.role == req.role.value
      && u.password == Clear(req.password.value) && u.email == req.email.value && u.name == req.name.value
  {
  }

  /**
   * A driver created here with a password whose JavaScript length is not 60
   * can not log in: the password is stored as typed, and bcryptjs rejects a
   * stored text that is not hash-sized without comparing anything.
   */
  lemma {:induction false} CreatedDriverLockedOut(users: seq<User>, req: DriverRequest, id: Id, now: Time,
                                                  password: string, rehash: (string, string) -> Comparison)
    requires HasRequired(req) && EmailIndex(users, req.email.value).None?
    requires Utf16Length(req.password.value) != HashLength
    ensures Login(users + [NewDriver(req, id, now)], req.email, Some(password), rehash).status != 200
  {
    AppendedIsFirstMatch(users, NewDriver(req, id, now));
  }

  /**
   * A driver created with a password that is itself a bcrypt hash of `p`
   * logs in with `p`.
   */
  lemma {:induction false} CreatedWithHashLogsIn(users: seq<User>, req: DriverRequest, id: Id, now: Time,
                                                 p: string, rehash: (string, string) -> Comparison)
    requires HasRequired(req) && EmailIndex(users, req.email.value).None?
    requires p != "" && Utf16Length(req.password.value) == HashLength && rehash(p, req.password.value) == Match
    ensures Login(users + [NewDriver(req, id, now)], req.email, Some(p), rehash)
            == SessionOf(NewDriver(req, id, now))
  {
    AppendedIsFirstMatch(users, NewDriver(req, id, now));
  }

  const MissingFields := Reply(400, Error("Missing required fields"))

  /** `POST /api/drivers`. `id` is the id the store gives the new user. */
  method CreateDriver(db: Store, header: Option<string>, tokens: map<string, Claims>,
                      req: DriverRequest, id: Id, now: Time)
    returns (reply: Reply)
    modifies db
    ensures db.orders == old(db.orders) && db.deliveries == old(db.deliveries)
    ensures AdminGate(header, tokens).Deny? ==> reply == AdminGate(header, tokens).reply && db.users == old(db.users)
    ensures AdminGate(header, tokens).Pass? && !HasRequired(req) ==> reply == MissingFields && db.users == old(db.users)
    ensures AdminGate(header, tokens).Pass? && HasRequired(req) ==>
      && db.users == old(db.users) + [NewDriver(req, id, now)]
      && reply == Reply(201, UserRecord(WithoutPassword(NewDriver(req, id, now))))
  {
    var gate := AdminGate(header, tokens);
    if gate.Deny? {
      return gate.reply;
    }
    if !HasRequired(req) {
      return MissingFields;
    }
    var driver := NewDriver(req, id, now);
    db.PostUser(driver);
    reply := Reply(201, UserRecord(WithoutPassword(driver)));
  }

  const IdRequired := Reply(400, Error("Driver ID is required"))
  const Deleted := Reply(200, Message("Driver deleted successfully"))

  /**
   * `DELETE /api/drivers?id=...`. The id is the query parameter `id`; an
   * unknown id is the store's 404, hence 500. Any user with that id goes,
   * whatever its role.
   */
  method DeleteDriver(db: Store, header: Option<string>, tokens: map<string, Claims>, id: Option<string>)
    returns (reply: Reply)
    modifies db
    ensures db.orders == old(db.orders) && db.deliveries == old(db.deliveries)
    ensures AdminGate(header, tokens).Deny? ==> reply == AdminGate(header, tokens).reply && db.users == old(db.users)
    ensures AdminGate(header, tokens).Pass? && !Present(id) ==> reply == IdRequired && db.users == old(db.users)
    ensures AdminGate(header, tokens).Pass? && Present(id) ==>
      if UserIndex(old(db.users), id.value).Some?
      then reply == Deleted && db.users == WithoutUser(old(db.users), id.value)
      else reply == InternalError && db.users == old(db.users)
  {
    var gate := AdminGate(header, tokens);
    if gate.Deny? {
      return gate.reply;
    }
    if !Present(id) {
      return IdRequired;
    }
    var found := db.DeleteUser(id.value);
    if !found {
      return InternalError;
    }
    reply := Deleted;
  }
}
