/**
 * The admin orders page (src/app/admin/orders/page.tsx): the sorted view of
 * the fetched orders, its sort state and presets, and the assign selector
 * that is shown only on pending orders.
 */
module AdminOrdersPage {
  import opened Types
  import opened Sorting
  import opened SortControl
  import opened Auth
  import opened DocumentStore
  import opened AssignRoute

  datatype OrderSort = ByCustomerName | ByStatus | ByOrderValue | ByCreatedAt | Unsorted

  /** The value the comparator compares for each option; `Unsorted` never reaches the comparator. */
  function OrderKey(option: OrderSort, o: Order): Key
  {
    match option
    case ByCustomerName => ByText(Lower(o.customerName))
    case ByStatus => ByText(OrderStatusName(o.status))
    case ByOrderValue => ByNumber(o.orderValue)
    case ByCreatedAt => ByNumber(o.createdAt)
    case Unsorted => ByNumber(0)
  }

  /** `getSortedOrders()`: the fetched list as is without a list or without an option, else a sorted copy. */
  function SortedOrders(orders: Option<seq<Order>>, option: OrderSort, order: Direction): (r: Option<seq<Order>>)
    ensures orders.None? || option == Unsorted ==> r == orders
    ensures orders.Some? && option != Unsorted ==> r.Some? && multiset(r.value) == multiset(orders.value)
  {
    if orders.None? || option == Unsorted then orders
    else Some(SortBy(orders.value, o => OrderKey(option, o), order))
  }

  /**
   * A sorted view is ordered by its key: names compared in lower case,
   * statuses by their text, values and creation times as numbers.
   */
  lemma {:induction false} SortedOrdersOrdered(orders: seq<Order>, option: OrderSort, order: Direction)
    requires option != Unsorted
    ensures var r := SortedOrders(Some(orders), option, order).value;
      forall i, j :: 0 <= i < j < |r| ==> Compare(OrderKey(option, r[i]), OrderKey(option, r[j]), order) <= 0
  {
    SortBySorted(orders, o => OrderKey(option, o), order);
  }

  /** "Show First (Newest)" lists the newest order first, and "Show First (High Value)" the most valuable. */
  lemma {:induction false} PresetsPutLargestFirst(orders: seq<Order>)
    ensures var r := SortedOrders(Some(orders), ByCreatedAt, Desc).value;
      forall i, j :: 0 <= i < j < |r| ==> r[i].createdAt >= r[j].createdAt
    ensures var r := SortedOrders(Some(orders), ByOrderValue, Desc).value;
      forall i, j :: 0 <= i < j < |r| ==> r[i].orderValue >= r[j].orderValue
  {
    SortBySorted(orders, o => OrderKey(ByCreatedAt, o), Desc);
    SortBySorted(orders, o => OrderKey(ByOrderValue, o), Desc);
  }

  /** Customer names that differ only in letter case compare equal. */
  lemma CaseInsensitiveNames(a: Order, b: Order, order: Direction)
    requires Lower(a.customerName) == Lower(b.customerName)
    ensures Compare(OrderKey(ByCustomerName, a), OrderKey(ByCustomerName, b), order) == 0
  {
    LessOrder(OrderKey(ByCustomerName, a), OrderKey(ByCustomerName, b), OrderKey(ByCustomerName, a));
  }

  /** The page opens sorted by creation time, newest first. */
  method NewOrdersSortState() returns (s: SortState<OrderSort>)
    ensures fresh(s) && s.option == ByCreatedAt && s.order == Desc
  {
    s := new SortState(ByCreatedAt, Desc);
  }

  /** The three preset buttons: "Clear Sort", "Show First (High Value)", "Show First (Newest)". */
  const ClearSort := (Unsorted, Asc)
  const HighValueFirst := (ByOrderValue, Desc)
  const NewestFirst := (ByCreatedAt, Desc)

  /** The assign selector is rendered for an order exactly when it is pending. */
  predicate AssignSelectorShown(o: Order)
  {
    o.status == OrderStatus.Pending
  }

  /**
   * The page offers the assignment exactly when the server's order check
   * would pass: for an admin and a driver that can take orders, the
   * assignment of a listed order is accepted iff its selector is shown.
   */
  lemma {:induction false} SelectorMatchesServer(users: seq<User>, orders: seq<Order>, i: nat, header: Option<string>,
                                                 tokens: map<string, Claims>, driverId: Scalar)
    requires i < |orders| && orders[i].id != "" && OrderIndex(orders, orders[i].id) == Some(i)
    requires AdminGate(header, tokens).Pass? && Truthy(driverId)
    requires UserIndex(users, Text(driverId)).Some? && CanTakeOrders(users[UserIndex(users, Text(driverId)).value])
    ensures AssignSelectorShown(orders[i]) <==>
            Rejection(users, orders, header, tokens, Str(orders[i].id), driverId).None?
    ensures !AssignSelectorShown(orders[i]) ==>
            Rejection(users, orders, header, tokens, Str(orders[i].id), driverId) == Some(OrderUnavailable)
  {
    assert Text(Str(orders[i].id)) == orders[i].id;
  }
}
