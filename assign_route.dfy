/**
 * `POST /api/orders/assign` (src/app/api/orders/assign/route.ts): an
 * admin binds an available driver to a pending order. The handler runs an
 * ordered chain of guards and then makes two separate writes to the store:
 * it patches the order, then appends a delivery. Nothing undoes the first
 * write when the second one throws.
 */
module AssignRoute {
  import opened Types
  import opened Auth
  import opened DocumentStore

  const IdsRequired := Reply(400, Error("Order ID and Driver ID are required"))
  const DriverUnavailable := Reply(400, Error("Driver is not available"))
  const OrderUnavailable := Reply(400, Error("Order is not available for assignment"))
  const AssignedNote := "Driver assigned successfully"

  /** The driver test: `driver.role !== 'driver' || !driver.isAvailable` rejects. */
  predicate CanTakeOrders(u: User)
  {
    u.role == "driver" && IsTrue(u.isAvailable)
  }

  /**
   * The reply of the first guard that fails, in the handler's order (token,
   * admin role, both ids, driver lookup and availability, order lookup and
   * status); `None` when every guard passes.
   */
  function Rejection(users: seq<User>, orders: seq<Order>, header: Option<string>,
                     tokens: map<string, Claims>, orderId: Scalar, driverId: Scalar): (r: Option<Reply>)
    ensures r.Some? ==> r.value.status in {400, 401, 403, 500}
    ensures r.None? <==>
      && AdminGate(header, tokens).Pass?
      && Truthy(orderId) && Truthy(driverId)
      && UserIndex(users, Text(driverId)).Some?
      && CanTakeOrders(users[UserIndex(users, Text(driverId)).value])
      && OrderIndex(orders, Text(orderId)).Some?
      && orders[OrderIndex(orders, Text(orderId)).value].status == OrderStatus.Pending
    // the guards in order: the token gate's own 401 or 403 comes before anything else
    ensures AdminGate(header, tokens).Deny? ==> r == Some(AdminGate(header, tokens).reply)
    ensures AdminGate(header, tokens).Pass? && !(Truthy(orderId) && Truthy(driverId)) ==> r == Some(IdsRequired)
    ensures AdminGate(header, tokens).Pass? && Truthy(orderId) && Truthy(driverId) ==>
      && (UserIndex(users, Text(driverId)).None? ==> r == Some(InternalError))
      && (UserIndex(users, Text(driverId)).Some? && !CanTakeOrders(users[UserIndex(users, Text(driverId)).value])
          ==> r == Some(DriverUnavailable))
  {
    var gate := AdminGate(header, tokens);
    if gate.Deny? then Some(gate.reply)
    else if !Truthy(orderId) || !Truthy(driverId) then Some(IdsRequired)
    else
      var d := UserIndex(users, Text(driverId));
      if d.None? then Some(InternalError)
      else if !CanTakeOrders(users[d.value]) then Some(DriverUnavailable)
      else
        var o := OrderIndex(orders, Text(orderId));
        if o.None? then Some(InternalError)
        else if orders[o.value].status != OrderStatus.Pending then Some(OrderUnavailable)
        else None
  }

  /** The order patch: `{ assignedDriverId, status: 'assigned', updatedAt }`. */
  function AssignedOrder(o: Order, driverKey: Id, now: Time): (r: Order)
    ensures r.status == OrderStatus.Assigned && r.assignedDriverId == Some(driverKey) && r.updatedAt == now
    ensures r.(status := o.status, assignedDriverId := o.assignedDriverId, updatedAt := o.updatedAt) == o
  {
    o.(status := OrderStatus.Assigned, assignedDriverId := Some(driverKey), updatedAt := now)
  }

  /** The delivery record posted for a new assignment. */
  function NewDelivery(id: Id, orderKey: Id, driverKey: Id, now: Time): Delivery
  {
    Delivery(id, orderKey, driverKey, DeliveryStatus.Pending, None, None, "", now, now)
  }

  /**
   * The handler. `deliveryId` is the id the store gives the new delivery,
   * `now` the clock, and `insertThrows` says whether the delivery POST fails.
   */
  method Assign(db: Store, header: Option<string>, tokens: map<string, Claims>,
                orderId: Scalar, driverId: Scalar, deliveryId: Id, now: Time, insertThrows: bool)
    returns (reply: Reply)
    modifies db
    // the users collection, the driver's availability included, is never written
    ensures db.users == old(db.users)
    // a failing guard answers with its reply and writes nothing
    ensures var r := Rejection(old(db.users), old(db.orders), header, tokens, orderId, driverId);
      r.Some? ==> reply == r.value && db.orders == old(db.orders) && db.deliveries == old(db.deliveries)
    // past the guards the order is patched in place, and then one delivery is appended
    ensures var r := Rejection(old(db.users), old(db.orders), header, tokens, orderId, driverId);
      r.None? ==>
        var i := OrderIndex(old(db.orders), Text(orderId)).value;
        var updated := AssignedOrder(old(db.orders)[i], Text(driverId), now);
        var delivery := NewDelivery(deliveryId, Text(orderId), Text(driverId), now);
        && db.orders == old(db.orders)[i := updated]
        && (insertThrows ==> reply == InternalError && db.deliveries == old(db.deliveries))
        && (!insertThrows ==> reply == Reply(200, Assignment(updated, delivery, AssignedNote))
                              && db.deliveries == old(db.deliveries) + [delivery])
  {
    var gate := AdminGate(header, tokens);
    if gate.Deny? {
      return gate.reply;
    }
    if !Truthy(orderId) || !Truthy(driverId) {
      return IdsRequired;
    }
    var orderKey, driverKey := Text(orderId), Text(driverId);

    var d := UserIndex(db.users, driverKey);
    if d.None? {
      return InternalError;
    }
    if !CanTakeOrders(db.users[d.value]) {
      return DriverUnavailable;
    }

    var o := OrderIndex(db.orders, orderKey);
    if o.None? {
      return InternalError;
    }
    if db.orders[o.value].status != OrderStatus.Pending {
      return OrderUnavailable;
    }

    var updated := AssignedOrder(db.orders[o.value], driverKey, now);
    db.PatchOrder(o.value, updated);
    if insertThrows {
      return InternalError;
    }
    var delivery := NewDelivery(deliveryId, orderKey, driverKey, now);
    db.PostDelivery(delivery);
    reply := Reply(200, Assignment(updated, delivery, AssignedNote));
  }

  /** A missing id is reported before either record is looked up: the store does not matter. */
  lemma MissingIdsBeforeLookup(users: seq<User>, orders: seq<Order>, header: Option<string>,
                               tokens: map<string, Claims>, orderId: Scalar, driverId: Scalar)
    requires AdminGate(header, tokens).Pass?
    requires !Truthy(orderId) || !Truthy(driverId)
    ensures Rejection(users, orders, header, tokens, orderId, driverId) == Some(IdsRequired)
  {
  }

  /**
   * The driver is checked before the order: an unavailable driver is
   * reported whatever state the order is in, even when there is no such order.
   */
  lemma {:induction false} DriverCheckedFirst(users: seq<User>, orders: seq<Order>, header: Option<string>,
                                              tokens: map<string, Claims>, orderId: Scalar, driverId: Scalar, i: nat)
    requires AdminGate(header, tokens).Pass? && Truthy(orderId) && Truthy(driverId)
    requires i < |users| && users[i].id == Text(driverId) && !CanTakeOrders(users[i])
    requires forall j :: 0 <= j < i ==> users[j].id != Text(driverId)
    ensures Rejection(users, orders, header, tokens, orderId, driverId) == Some(DriverUnavailable)
  {
    var d := UserIndex(users, Text(driverId));
    assert d.Some?;
    assert !(d.value < i) && !(i < d.value);
  }

  /** An order that is not pending is refused once the driver qualifies. */
  lemma {:induction false} OnlyPendingOrders(users: seq<User>, orders: seq<Order>, header: Option<string>,
                                             tokens: map<string, Claims>, orderId: Scalar, driverId: Scalar)
    requires AdminGate(header, tokens).Pass? && Truthy(orderId) && Truthy(driverId)
    requires UserIndex(users, Text(driverId)).Some?
    requires CanTakeOrders(users[UserIndex(users, Text(driverId)).value])
    requires OrderById(orders, Text(orderId)).Some?
    ensures Rejection(users, orders, header, tokens, orderId, driverId).None?
            <==> OrderById(orders, Text(orderId)).value.status == OrderStatus.Pending
    ensures OrderById(orders, Text(orderId)).value.status != OrderStatus.Pending ==>
            Rejection(users, orders, header, tokens, orderId, driverId) == Some(OrderUnavailable)
  {
  }

  /**
   * After a successful assignment the same order can not be assigned again:
   * a second request, even one for another available driver, is refused.
   * (Two requests that interleave are not covered; see the README.)
   */
  lemma {:induction false} NoSecondAssignment(users: seq<User>, orders: seq<Order>, header: Option<string>,
                                              tokens: map<string, Claims>, orderId: Scalar, driverId: Scalar,
                                              otherDriver: Scalar, now: Time)
    requires Rejection(users, orders, header, tokens, orderId, driverId).None?
    ensures var i := OrderIndex(orders, Text(orderId)).value;
      Rejection(users, orders[i := AssignedOrder(orders[i], Text(driverId), now)],
                header, tokens, orderId, otherDriver).Some?
  {
    var i := OrderIndex(orders, Text(orderId)).value;
    var after := orders[i := AssignedOrder(orders[i], Text(driverId), now)];
    OrderIndexAfterPatch(orders, i, AssignedOrder(orders[i], Text(driverId), now), Text(orderId));
    assert OrderIndex(after, Text(orderId)) == Some(i);
    assert after[i].status == OrderStatus.Assigned;
  }

  /** The delivery created by an assignment points at an order that is now assigned to that driver. */
  lemma {:induction false} DeliveryReferencesAssignedOrder(orders: seq<Order>, i: nat, orderKey: Id,
                                                           driverKey: Id, deliveryId: Id, now: Time)
    requires OrderIndex(orders, orderKey) == Some(i)
    ensures var after := orders[i := AssignedOrder(orders[i], driverKey, now)];
      var d := NewDelivery(deliveryId, orderKey, driverKey, now);
      && OrderById(after, d.orderId).Some?
      && OrderById(after, d.orderId).value.status == OrderStatus.Assigned
      && OrderById(after, d.orderId).value.assignedDriverId == Some(d.driverId)
      && d.status == DeliveryStatus.Pending && d.pickupTime.None? && d.deliveryTime.None?
  {
    OrderIndexAfterPatch(orders, i, AssignedOrder(orders[i], driverKey, now), orderKey);
  }
}
