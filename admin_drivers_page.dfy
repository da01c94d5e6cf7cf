/**
 * The admin drivers page (src/app/admin/drivers/page.tsx): the sorted view
 * of the drivers `GET /api/drivers` returns, its sort state and presets, and
 * the request the "create driver" form sends.
 */
module AdminDriversPage {
  import opened Types
  import opened Sorting
  import opened SortControl
  import opened LoginRoute
  import opened DriversRoute
  import opened Bcrypt

  datatype DriverSort = ByName | ByEmail | ByAvailability | ByCreatedAt | Unsorted

  /** `isAvailable || false`, as the number `<` compares it by. */
  function AvailabilityRank(u: PublicUser): (r: int)
    ensures r == 1 <==> IsTrue(u.isAvailable)
    ensures r == 0 <==> !IsTrue(u.isAvailable)
  {
    if IsTrue(u.isAvailable) then 1 else 0
  }

  /** The value the comparator compares for each option; `Unsorted` never reaches the comparator. */
  function DriverKey(option: DriverSort, u: PublicUser): Key
  {
    match option
    case ByName => ByText(Lower(u.name))
    case ByEmail => ByText(Lower(u.email))
    case ByAvailability => ByNumber(AvailabilityRank(u))
    case ByCreatedAt => ByNumber(u.createdAt)
    case Unsorted => ByNumber(0)
  }

  /** `getSortedDrivers()`: the fetched list as is without a list or without an option, else a sorted copy. */
  function SortedDrivers(drivers: Option<seq<PublicUser>>, option: DriverSort, order: Direction)
    : (r: Option<seq<PublicUser>>)
    ensures drivers.None? || option == Unsorted ==> r == drivers
    ensures drivers.Some? && option != Unsorted ==> r.Some? && multiset(r.value) == multiset(drivers.value)
  {
    if drivers.None? || option == Unsorted then drivers
    else Some(SortBy(drivers.value, u => DriverKey(option, u), order))
  }

  /** A sorted view is ordered by its key. */
  lemma {:induction false} SortedDriversOrdered(drivers: seq<PublicUser>, option: DriverSort, order: Direction)
    requires option != Unsorted
    ensures var r := SortedDrivers(Some(drivers), option, order).value;
      forall i, j :: 0 <= i < j < |r| ==> Compare(DriverKey(option, r[i]), DriverKey(option, r[j]), order) <= 0
  {
    SortBySorted(drivers, u => DriverKey(option, u), order);
  }

  /**
   * "Show First (Available)" puts every available driver before every other
   * one; a driver without `isAvailable` counts as unavailable.
   */
  lemma {:induction false} AvailableFirst(drivers: seq<PublicUser>)
    ensures var r := SortedDrivers(Some(drivers), ByAvailability, Desc).value;
      forall i, j :: 0 <= i < j < |r| && IsTrue(r[j].isAvailable) ==> IsTrue(r[i].isAvailable)
  {
    SortBySorted(drivers, u => DriverKey(ByAvailability, u), Desc);
  }

  /** A missing `isAvailable` sorts exactly like `false`. */
  lemma MissingAvailabilityIsFalse(u: PublicUser)
    requires u.isAvailable.None?
    ensures DriverKey(ByAvailability, u) == DriverKey(ByAvailability, u.(isAvailable := Some(false)))
  {
  }

  /** Names and emails that differ only in letter case compare equal. */
  lemma CaseInsensitiveNames(a: PublicUser, b: PublicUser, order: Direction)
    requires Lower(a.name) == Lower(b.name) && Lower(a.email) == Lower(b.email)
    ensures Compare(DriverKey(ByName, a), DriverKey(ByName, b), order) == 0
    ensures Compare(DriverKey(ByEmail, a), DriverKey(ByEmail, b), order) == 0
  {
    LessOrder(DriverKey(ByName, a), DriverKey(ByName, b), DriverKey(ByName, a));
    LessOrder(DriverKey(ByEmail, a), DriverKey(ByEmail, b), DriverKey(ByEmail, a));
  }

  /** The page opens sorted by creation time, newest first. */
  method NewDriversSortState() returns (s: SortState<DriverSort>)
    ensures fresh(s) && s.option == ByCreatedAt && s.order == Desc
  {
    s := new SortState(ByCreatedAt, Desc);
  }

  /** The three preset buttons: "Clear Sort", "Show First (Available)", and newest first. */
  const ClearSort := (Unsorted, Asc)
  const AvailableFirstPreset := (ByAvailability, Desc)
  const NewestFirst := (ByCreatedAt, Desc)

  const DefaultPassword := "defaultPassword123"

  /** The default password has no character outside the Basic Multilingual Plane, so its JavaScript length is 18. */
  lemma {:induction false} DefaultPasswordLength()
    ensures Utf16Length(DefaultPassword) == 18
  {
    assert forall i :: 0 <= i < |DefaultPassword| ==> DefaultPassword[i] as int < 0x10000;
  }

  /** The create-driver form's fields. */
  datatype DriverForm = DriverForm(name: string, email: string, phone: string, vehicleInfo: string, licenseNumber: string)

  /** The body POSTed to `/api/drivers`: the form plus role `driver` and the fixed default password. */
  function CreationRequest(form: DriverForm): (req: DriverRequest)
    ensures req.role == Some("driver") && req.password == Some(DefaultPassword)
    ensures req.name == Some(form.name) && req.email == Some(form.email)
  {
    DriverRequest(Some(form.name), Some(form.email), Some(form.phone), Some(form.vehicleInfo),
                  Some(form.licenseNumber), Some(DefaultPassword), Some("driver"))
  }

  /**
   * A driver created from this page is an available driver, yet can not log
   * in, not even with the default password it was created with: that
   * password has length 18, not the 60 of a bcrypt hash.
   */
  lemma {:induction false} PageCreatedDriver(users: seq<User>, form: DriverForm, id: Id, now: Time,
                                             rehash: (string, string) -> Comparison)
    requires form.name != "" && form.email != ""
    requires EmailIndex(users, form.email).None?
    ensures HasRequired(CreationRequest(form))
    ensures var u := NewDriver(CreationRequest(form), id, now);
      && u.role == "driver" && IsTrue(u.isAvailable)
      && Login(users + [u], Some(form.email), Some(DefaultPassword), rehash).status != 200
  {
    DefaultPasswordLength();
    CreatedDriverLockedOut(users, CreationRequest(form), id, now, DefaultPassword, rehash);
  }
}
