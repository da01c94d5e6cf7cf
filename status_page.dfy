/**
 * The system status page (src/app/status/page.tsx): the counts it derives
 * from the drivers, orders and deliveries it fetches, the sorted views of its
 * six statistics and of its service probes, and its status badge colours.
 */
module StatusPage {
  import opened Types
  import opened Seqs
  import opened Sorting
  import opened SortControl
  import opened HealthRoute

  datatype SystemStats = SystemStats(
    totalUsers: nat,
    totalOrders: nat,
    totalDeliveries: nat,
    activeDrivers: nat,
    pendingOrders: nat,
    completedDeliveries: nat)

  predicate ActiveDriver(u: PublicUser)
  {
    u.role == "driver" && IsTrue(u.isAvailable)
  }

  predicate PendingOrder(o: Order)
  {
    o.status == OrderStatus.Pending
  }

  predicate CompletedDelivery(d: Delivery)
  {
    d.status == DeliveryStatus.Delivered
  }

  /** The counts of `fetchSystemStats`, over the lists `/api/drivers`, `/api/orders` and `/api/deliveries` returned. */
  function FetchStats(users: seq<PublicUser>, orders: seq<Order>, deliveries: seq<Delivery>): SystemStats
  {
    SystemStats(|users|, |orders|, |deliveries|,
                Count(users, ActiveDriver), Count(orders, PendingOrder), Count(deliveries, CompletedDelivery))
  }

  /** Each count is at most the length of the list it filters, and reaches it only when every element passes. */
  lemma {:induction false} StatsBounded(users: seq<PublicUser>, orders: seq<Order>, deliveries: seq<Delivery>)
    ensures var s := FetchStats(users, orders, deliveries);
      && s.activeDrivers <= s.totalUsers && s.pendingOrders <= s.totalOrders
      && s.completedDeliveries <= s.totalDeliveries
      && (s.activeDrivers == s.totalUsers <==> forall i :: 0 <= i < |users| ==> ActiveDriver(users[i]))
      && (s.pendingOrders == s.totalOrders <==> forall i :: 0 <= i < |orders| ==> PendingOrder(orders[i]))
      && (s.completedDeliveries == s.totalDeliveries <==>
          forall i :: 0 <= i < |deliveries| ==> CompletedDelivery(deliveries[i]))
  {
    CountBounds(users, ActiveDriver);
    CountBounds(orders, PendingOrder);
    CountBounds(deliveries, CompletedDelivery);
  }

  datatype StatItem = StatItem(name: string, value: int, color: string)

  /** The six statistics in their fixed order. */
  function StatItems(s: SystemStats): (items: seq<StatItem>)
    ensures |items| == 6
  {
    [ StatItem("Total Users", s.totalUsers, "blue"),
      StatItem("Active Drivers", s.activeDrivers, "green"),
      StatItem("Total Orders", s.totalOrders, "yellow"),
      StatItem("Total Deliveries", s.totalDeliveries, "purple"),
      StatItem("Pending Orders", s.pendingOrders, "orange"),
      StatItem("Completed Deliveries", s.completedDeliveries, "indigo") ]
  }

  datatype StatusSort = ByName | ByStatus | ByResponseTime | ByValue | Unsorted

  /**
   * What the statistics comparator compares: the value under `value` (the
   * sign of `a.value - b.value` is the sign of the comparison), the lower-case
   * name under `name`, and nothing (every pair ties) under any other option.
   */
  function StatKey(option: StatusSort, item: StatItem): Key
  {
    match option
    case ByValue => ByNumber(item.value)
    case ByName => ByText(Lower(item.name))
    case _ => ByNumber(0)
  }

  /** `getSortedStats()`. */
  function SortedStats(stats: Option<SystemStats>, option: StatusSort, order: Direction): (r: Option<seq<StatItem>>)
    ensures stats.None? <==> r.None?
    ensures stats.Some? && option == Unsorted ==> r == Some(StatItems(stats.value))
    ensures stats.Some? ==> multiset(r.value) == multiset(StatItems(stats.value))
  {
    if stats.None? then None
    else if option == Unsorted then Some(StatItems(stats.value))
    else Some(SortBy(StatItems(stats.value), i => StatKey(option, i), order))
  }

  /** Values never increase along `r` when descending, never decrease when ascending. */
  predicate ValueOrdered(r: seq<StatItem>, order: Direction)
  {
    if order == Desc then forall i, j :: 0 <= i < j < |r| ==> r[i].value >= r[j].value
    else forall i, j :: 0 <= i < j < |r| ==> r[i].value <= r[j].value
  }

  /** Under `value` the items are ordered by value, largest first when descending. */
  lemma {:induction false} SortedStatsByValue(stats: SystemStats, order: Direction)
    ensures ValueOrdered(SortedStats(Some(stats), ByValue, order).value, order)
  {
    SortedStatsSorts(stats, ByValue, order);
    ValueOrder(StatItems(stats), ByValue, order);
  }

  /** Under a sort option the items are those of `SortBy` with that option's key. */
  lemma {:induction false} SortedStatsSorts(stats: SystemStats, option: StatusSort, order: Direction)
    requires option != Unsorted
    ensures SortedStats(Some(stats), option, order) == Some(SortBy(StatItems(stats), i => StatKey(option, i), order))
  {
  }

  lemma {:induction false} ValueOrder(items: seq<StatItem>, option: StatusSort, order: Direction)
    requires option == ByValue
    ensures ValueOrdered(SortBy(items, i => StatKey(option, i), order), order)
  {
    SortBySorted(items, i => StatKey(option, i), order);
  }

  /**
   * Under `status` and `responseTime`, which the statistics comparator does
   * not know, the items keep their fixed order.
   */
  lemma {:induction false} SortedStatsUnknownKeys(stats: SystemStats, option: StatusSort, order: Direction)
    requires option == ByStatus || option == ByResponseTime
    ensures SortedStats(Some(stats), option, order) == Some(StatItems(stats))
  {
    TiesKeepOrder(StatItems(stats), option, order);
  }

  lemma {:induction false} TiesKeepOrder(items: seq<StatItem>, option: StatusSort, order: Direction)
    requires option == ByStatus || option == ByResponseTime
    ensures SortBy(items, i => StatKey(option, i), order) == items
  {
    EqualKeysKeepOrder(items, i => StatKey(option, i), order);
  }

  datatype ServiceStatus = ServiceStatus(name: string, status: string, responseTime: Option<int>)

  /**
   * How one `fetch` of a service ended: it answered after `elapsed`
   * milliseconds, it threw (caught inside the probe), or the probe's promise
   * itself was rejected (`Promise.allSettled` reports it).
   */
  datatype ProbeOutcome = Reached(elapsed: int) | Unreachable | Rejected

  /** The status `checkServices` records for a service. */
  function ServiceOf(name: string, outcome: ProbeOutcome): (s: ServiceStatus)
    ensures s.name == name
    ensures s.status == "online" <==> outcome.Reached?
    ensures s.status == "offline" <==> outcome.Unreachable?
    ensures s.status == "error" <==> outcome.Rejected?
    ensures s.responseTime.Some? <==> outcome.Reached?
    ensures outcome.Reached? ==> s.responseTime == Some(outcome.elapsed)
  {
    match outcome
    case Reached(elapsed) => ServiceStatus(name, "online", Some(elapsed))
    case Unreachable => ServiceStatus(name, "offline", None)
    case Rejected => ServiceStatus(name, "error", None)
  }

  /** The two services probed, in this order. */
  function CheckServices(frontend: ProbeOutcome, backend: ProbeOutcome): (r: seq<ServiceStatus>)
    ensures |r| == 2 && r[0].name == "Frontend App" && r[1].name == "Backend API"
  {
    [ServiceOf("Frontend App", frontend), ServiceOf("Backend API", backend)]
  }

  /** `a.responseTime || 0`. */
  function ResponseTimeOrZero(s: ServiceStatus): int
  {
    if s.responseTime.Some? then s.responseTime.value else 0
  }

  /** What the services comparator compares; `value` is not one of its options, so every pair ties. */
  function ServiceKey(option: StatusSort, s: ServiceStatus): Key
  {
    match option
    case ByName => ByText(Lower(s.name))
    case ByStatus => ByText(s.status)
    case ByResponseTime => ByNumber(ResponseTimeOrZero(s))
    case _ => ByNumber(0)
  }

  /** `getSortedServices()`. */
  function SortedServices(services: seq<ServiceStatus>, option: StatusSort, order: Direction): (r: seq<ServiceStatus>)
    ensures option == Unsorted ==> r == services
    ensures multiset(r) == multiset(services)
  {
    if option == Unsorted then services
    else SortBy(services, s => ServiceKey(option, s), order)
  }

  /**
   * Under `value`, the page's initial option, the services keep their order;
   * under `responseTime` they are ordered by it, a missing time counting as 0.
   */
  lemma {:induction false} SortedServicesOrder(services: seq<ServiceStatus>, order: Direction)
    ensures SortedServices(services, ByValue, order) == services
    ensures order == Asc ==>
      var r := SortedServices(services, ByResponseTime, order);
      forall i, j :: 0 <= i < j < |r| ==> ResponseTimeOrZero(r[i]) <= ResponseTimeOrZero(r[j])
  {
    EqualKeysKeepOrder(services, s => ServiceKey(ByValue, s), order);
    SortBySorted(services, s => ServiceKey(ByResponseTime, s), order);
  }

  /** The page opens sorted by value, largest first. */
  method NewStatusSortState() returns (s: SortState<StatusSort>)
    ensures fresh(s) && s.option == ByValue && s.order == Desc
  {
    s := new SortState(ByValue, Desc);
  }

  const BadgeGreen := "bg-green-100 text-green-800"
  const BadgeRed := "bg-red-100 text-red-800"
  const BadgeYellow := "bg-yellow-100 text-yellow-800"

  /** The page's own `getStatusColor`. */
  function StatusBadge(status: string): string
  {
    if status == "ok" || status == "online" || status == "connected" then BadgeGreen
    else if status == "error" || status == "offline" || status == "disconnected" then BadgeRed
    else BadgeYellow
  }

  /**
   * The two health badges, the overall status and the database, are never
   * yellow for a report of the health handler: it reports `ok` or `error`
   * and a database `connected` or `disconnected`.
   */
  lemma {:induction false} HealthBadges(report: HealthReport)
    requires report.status in {"ok", "error"}
    requires report.database in {"connected", "disconnected"}
    ensures StatusBadge(report.status) == (if report.status == "ok" then BadgeGreen else BadgeRed)
    ensures StatusBadge(report.database) == (if report.database == "connected" then BadgeGreen else BadgeRed)
  {
  }

  /** A probed service is never shown with the yellow badge: green when it answered, red otherwise. */
  lemma {:induction false} ServiceBadges(name: string, outcome: ProbeOutcome)
    ensures StatusBadge(ServiceOf(name, outcome).status) == (if outcome.Reached? then BadgeGreen else BadgeRed)
  {
    var s := ServiceOf(name, outcome);
    assert s.status in {"online", "offline", "error"};
  }
}
