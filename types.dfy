/**
 * Records of the delivery-management system (src/types/index.ts) and the
 * small JavaScript value rules the handlers rely on: truthiness of request
 * fields, `String(x)` of a string-or-number id, `includes` and `startsWith`.
 */
module Types {

  datatype Option<T> = None | Some(value: T)

  /** Record ids as the JSON document store hands them out. */
  type Id = string

  /** Milliseconds since the epoch: `Date.now()`, or `new Date(iso).getTime()`. */
  type Time = int

  datatype OrderStatus = Pending | Assigned | InProgress | Delivered | Cancelled

  datatype DeliveryStatus = Pending | Accepted | Rejected | PickedUp | OnWay | Delivered

  function OrderStatusName(s: OrderStatus): string
  {
    match s
    case Pending => "pending"
    case Assigned => "assigned"
    case InProgress => "in_progress"
    case Delivered => "delivered"
    case Cancelled => "cancelled"
  }

  function DeliveryStatusName(s: DeliveryStatus): string
  {
    match s
    case Pending => "pending"
    case Accepted => "accepted"
    case Rejected => "rejected"
    case PickedUp => "picked_up"
    case OnWay => "on_way"
    case Delivered => "delivered"
  }

  /**
   * A stored password: `Digest(p)` is the 60-character string `bcrypt.hash`
   * produced for the plaintext `p` (its salt is not modelled); `Clear(text)`
   * is a text stored exactly as it was sent, which may or may not happen to
   * be a bcrypt hash.
   */
  datatype Secret = Digest(of: string) | Clear(text: string)

  datatype User = User(
    id: Id,
    email: string,
    password: Secret,
    role: string,
    name: string,
    phone: Option<string>,
    vehicleInfo: Option<string>,
    licenseNumber: Option<string>,
    isAvailable: Option<bool>,
    createdAt: Time)

  /** A user record with its `password` property removed (`const { password, ...rest } = user`). */
  datatype PublicUser = PublicUser(
    id: Id,
    email: string,
    role: string,
    name: string,
    phone: Option<string>,
    vehicleInfo: Option<string>,
    licenseNumber: Option<string>,
    isAvailable: Option<bool>,
    createdAt: Time)

  function WithoutPassword(u: User): PublicUser
  {
    PublicUser(u.id, u.email, u.role, u.name, u.phone, u.vehicleInfo, u.licenseNumber, u.isAvailable, u.createdAt)
  }

  function WithPassword(p: PublicUser, password: Secret): User
  {
    User(p.id, p.email, password, p.role, p.name, p.phone, p.vehicleInfo, p.licenseNumber, p.isAvailable, p.createdAt)
  }

  /** Stripping the password loses exactly the password: adding it back gives the stored record. */
  lemma StripRoundTrip(u: User)
    ensures WithPassword(WithoutPassword(u), u.password) == u
    ensures forall s: Secret :: WithoutPassword(WithPassword(WithoutPassword(u), s)) == WithoutPassword(u)
  {
  }

  /** JavaScript truthiness of an optional boolean (`undefined` and `false` are falsy). */
  predicate IsTrue(b: Option<bool>)
  {
    b == Some(true)
  }

  datatype Order = Order(
    id: Id,
    customerName: string,
    customerAddress: string,
    customerPhone: string,
    productInfo: string,
    orderValue: int,
    status: OrderStatus,
    assignedDriverId: Option<Id>,
    createdAt: Time,
    updatedAt: Time)

  datatype Delivery = Delivery(
    id: Id,
    orderId: Id,
    driverId: Id,
    status: DeliveryStatus,
    pickupTime: Option<Time>,
    deliveryTime: Option<Time>,
    notes: string,
    createdAt: Time,
    updatedAt: Time)

  /** `{ ...delivery, order }`: a delivery with its order attached. */
  datatype DeliveryWithOrder = DeliveryWithOrder(delivery: Delivery, order: Order)

  /** What `verifyToken` decodes from a valid token: `{ userId, role }`. */
  datatype Claims = Claims(userId: Id, role: string)

  datatype DashboardStats = DashboardStats(
    totalOrders: nat,
    totalAvailableDrivers: nat,
    totalCompletedOrders: nat,
    totalInProgressOrders: nat)

  datatype ServiceHealth = ServiceHealth(status: string, responseTime: Option<int>, error: Option<string>)

  datatype HealthReport = HealthReport(
    status: string,
    database: string,
    databaseService: ServiceHealth,
    apiService: ServiceHealth,
    error: Option<string>)

  /** The JSON bodies the API handlers answer with. */
  datatype Body =
    | Error(message: string)
    | Message(text: string)
    | OrderList(orders: seq<Order>)
    | OrderRecord(order: Order)
    | DeliveryList(deliveries: seq<Delivery>)
    | EnrichedList(items: seq<DeliveryWithOrder>)
    | DriverList(drivers: seq<PublicUser>)
    | UserRecord(user: PublicUser)
    | Session(user: PublicUser, token: Claims)
    | Assignment(order: Order, delivery: Delivery, note: string)
    | Stats(stats: DashboardStats)
    | Health(report: HealthReport)

  datatype Reply = Reply(status: int, body: Body)

  const InternalError := Reply(500, Error("Internal server error"))

  /**
   * A request field that JSON may carry as a string or a number, or leave
   * out. Numbers are integers: fractional ones are not modelled.
   */
  datatype Scalar = Undefined | Str(s: string) | Num(n: int)

  /** JavaScript truthiness: `undefined`, `""` and `0` are falsy. */
  predicate Truthy(x: Scalar)
  {
    match x
    case Undefined => false
    case Str(s) => s != ""
    case Num(n) => n != 0
  }

  /** Truthiness of an optional string field. */
  predicate Present(s: Option<string>)
  {
    s.Some? && s.value != ""
  }

  /** `String(x)`. */
  function Text(x: Scalar): string
  {
    match x
    case Undefined => "undefined"
    case Str(s) => s
    case Num(n) => IntText(n)
  }

  function DigitChar(d: nat): (c: char)
    requires d < 10
    ensures '0' <= c <= '9' && c as int - '0' as int == d
  {
    "0123456789"[d]
  }

  /**
   * The decimal numeral of `n`, as `String(n)` writes a whole number below
   * 10^21. From 10^21 on JavaScript writes exponent notation ("1e+21"),
   * which this numeral does not follow.
   */
  function NatText(n: nat): (s: string)
    ensures 1 <= |s|
    ensures forall i :: 0 <= i < |s| ==> '0' <= s[i] <= '9'
    ensures (|s| > 1 ==> s[0] != '0')
  {
    if n < 10 then [DigitChar(n)] else NatText(n / 10) + [DigitChar(n % 10)]
  }

  function IntText(n: int): string
  {
    if n < 0 then "-" + NatText(-n) else NatText(n)
  }

  /** Reads a string of decimal digits back as a number. */
  function DigitsValue(s: string): nat
    requires forall i :: 0 <= i < |s| ==> '0' <= s[i] <= '9'
  {
    if s == [] then 0 else DigitsValue(s[..|s| - 1]) * 10 + (s[|s| - 1] as int - '0' as int)
  }

  /** The numeral of a number denotes that number. */
  lemma {:induction false} NatTextValue(n: nat)
    ensures DigitsValue(NatText(n)) == n
  {
    if n >= 10 {
      NatTextValue(n / 10);
      var s := NatText(n);
      assert s[..|s| - 1] == NatText(n / 10);
    }
  }

  /** Different numbers have different numerals. */
  lemma NatTextInjective(m: nat, n: nat)
    requires NatText(m) == NatText(n)
    ensures m == n
  {
    NatTextValue(m);
    NatTextValue(n);
  }

  predicate StartsWith(s: string, prefix: string)
  {
    |prefix| <= |s| && s[..|prefix|] == prefix
  }

  /** `s.includes(part)`. */
  predicate Contains(s: string, part: string)
    decreases |s|
  {
    StartsWith(s, part) || (|s| > 0 && Contains(s[1..], part))
  }

  /** `part` occurs in `s` starting at position `i`. */
  predicate OccursAt(s: string, part: string, i: int)
  {
    0 <= i <= |s| - |part| && s[i..i + |part|] == part
  }

  /** `includes` finds `part` exactly when it occurs at some position of `s`. */
  lemma {:induction false} ContainsAt(s: string, part: string)
    ensures Contains(s, part) <==> exists i :: OccursAt(s, part, i)
    decreases |s|
  {
    if StartsWith(s, part) {
      assert OccursAt(s, part, 0);
    } else if |s| > 0 {
      ContainsAt(s[1..], part);
      if Contains(s[1..], part) {
        var i :| OccursAt(s[1..], part, i);
        assert s[i + 1..i + 1 + |part|] == s[1..][i..i + |part|];
        assert OccursAt(s, part, i + 1);
      }
      if exists i :: OccursAt(s, part, i) {
        var i :| OccursAt(s, part, i);
        assert i != 0;
        assert s[1..][i - 1..i - 1 + |part|] == s[i..i + |part|];
        assert OccursAt(s[1..], part, i - 1);
      }
    }
  }
}
