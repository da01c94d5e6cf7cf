/**
 * `GET /api/deliveries` (src/app/api/deliveries/route.ts): any verifiable
 * token may list deliveries filtered by `driverId` and `status`; a caller
 * with the driver role who gives a `driverId` gets each delivery with its
 * order attached. The handler writes nothing.
 *
 * `answer` is the store's reply to the list URL; `orders` is the orders
 * collection that answers the per-delivery `GET /orders/{id}` calls.
 */
module DeliveriesRoute {
  import opened Types
  import opened Auth
  import opened Query
  import opened DocumentStore

  /** Attaches its order to every delivery; `None` when some order is missing (a 404 rejects `Promise.all`). */
  function Enrich(ds: seq<Delivery>, orders: seq<Order>): (r: Option<seq<DeliveryWithOrder>>)
    ensures r.Some? <==> forall i :: 0 <= i < |ds| ==> OrderById(orders, ds[i].orderId).Some?
    ensures r.Some? ==> |r.value| == |ds|
    ensures r.Some? ==> forall i :: 0 <= i < |ds| ==>
      r.value[i].delivery == ds[i] && Some(r.value[i].order) == OrderById(orders, ds[i].orderId)
  {
    if ds == [] then Some([])
    else
      var o := OrderById(orders, ds[0].orderId);
      var rest := Enrich(ds[1..], orders);
      if o.None? || rest.None? then None
      else Some([DeliveryWithOrder(ds[0], o.value)] + rest.value)
  }

  /** The reply once the token has passed: only the role matters, never the caller's own id. */
  function DeliveriesReply(role: string, driverId: Option<string>, answer: seq<Delivery>, orders: seq<Order>): Reply
  {
    if role == "driver" && Present(driverId) then
      var enriched := Enrich(answer, orders);
      if enriched.None? then InternalError else Reply(200, EnrichedList(enriched.value))
    else Reply(200, DeliveryList(answer))
  }

  /** `GET /api/deliveries`. `request` is the list URL sent to the store, if one was sent. */
  method ListDeliveries(header: Option<string>, tokens: map<string, Claims>,
                        driverId: Option<string>, status: Option<string>,
                        answer: seq<Delivery>, orders: seq<Order>)
    returns (reply: Reply, request: Option<string>)
    ensures ReadGate(header, tokens).Deny? ==> reply == ReadGate(header, tokens).reply && request.None?
    ensures ReadGate(header, tokens).Pass? ==>
      && request == Some(StoreUrl("/deliveries", Keep("driverId", driverId) + Keep("status", status)))
      && reply == DeliveriesReply(ReadGate(header, tokens).claims.role, driverId, answer, orders)
  {
    var gate := ReadGate(header, tokens);
    if gate.Deny? {
      return gate.reply, None;
    }
    var url := BuildListUrl("/deliveries", "driverId", driverId, "status", status);
    request := Some(url);
    reply := DeliveriesReply(gate.claims.role, driverId, answer, orders);
  }

  /** A driver asking with a `driverId` gets every delivery, in order, each with its own order. */
  lemma {:induction false} DriverGetsOrders(driverId: string, answer: seq<Delivery>, orders: seq<Order>)
    requires driverId != ""
    requires forall i :: 0 <= i < |answer| ==> OrderById(orders, answer[i].orderId).Some?
    ensures var r := DeliveriesReply("driver", Some(driverId), answer, orders);
      && r.status == 200 && r.body.EnrichedList?
      && |r.body.items| == |answer|
      && forall i :: 0 <= i < |answer| ==>
           r.body.items[i].delivery == answer[i] && r.body.items[i].order.id == answer[i].orderId
  {
  }

  /** Any other caller, or a driver without `driverId`, gets the deliveries exactly as fetched. */
  lemma OthersGetListAsFetched(role: string, driverId: Option<string>, answer: seq<Delivery>, orders: seq<Order>)
    requires role != "driver" || !Present(driverId)
    ensures DeliveriesReply(role, driverId, answer, orders) == Reply(200, DeliveryList(answer))
  {
  }

  /**
   * The `driverId` filter is taken from the query string as given: a driver
   * token may list another driver's deliveries, with their orders.
   */
  lemma {:induction false} NoOwnershipCheck(token: string, tokens: map<string, Claims>, otherDriver: string,
                                            answer: seq<Delivery>, orders: seq<Order>)
    requires token != "" && token in tokens && tokens[token].role == "driver" && tokens[token].userId != otherDriver
    requires otherDriver != ""
    requires forall i :: 0 <= i < |answer| ==> OrderById(orders, answer[i].orderId).Some?
    ensures ReadGate(Some(BearerHeader(token)), tokens).Pass?
    ensures DeliveriesReply(ReadGate(Some(BearerHeader(token)), tokens).claims.role, Some(otherDriver), answer, orders).status == 200
  {
    HeaderRoundTrip(token);
  }
}
