/**
 * `GET` and `POST /api/orders` (src/app/api/orders/route.ts).
 *
 * GET needs any verifiable token and forwards the `status` and `search`
 * filters to the store; the store's answer to that URL is the parameter
 * `answer`. POST is admin-only, validates five fields and appends a new
 * pending order.
 */
module OrdersRoute {
  import opened Types
  import opened Auth
  import opened Query
  import opened DocumentStore

  /** `GET /api/orders`. `request` is the URL sent to the store, if one was sent. */
  method ListOrders(header: Option<string>, tokens: map<string, Claims>,
                    status: Option<string>, search: Option<string>, answer: seq<Order>)
    returns (reply: Reply, request: Option<string>)
    ensures ReadGate(header, tokens).Deny? ==> reply == ReadGate(header, tokens).reply && request.None?
    ensures ReadGate(header, tokens).Pass? ==>
      && request == Some(StoreUrl("/orders", Keep("status", status) + Keep("q", search)))
      && reply == Reply(200, OrderList(answer))
  {
    var gate := ReadGate(header, tokens);
    if gate.Deny? {
      return gate.reply, None;
    }
    var url := BuildListUrl("/orders", "status", status, "q", search);
    request := Some(url);
    reply := Reply(200, OrderList(answer));
  }

  /** The GET filters: `status` is sent as `status`, `search` as `q`, in that order. */
  lemma {:induction false} OrderFilters(status: string, search: string)
    requires status != "" && search != ""
    ensures Keep("status", Some(status)) + Keep("q", Some(search)) == [("status", status), ("q", search)]
    ensures ('?' in StoreUrl("/orders", Keep("status", None) + Keep("q", None))) == false
  {
    QuestionMarkIffParams("/orders", []);
  }

  datatype OrderRequest = OrderRequest(
    customerName: Option<string>,
    customerAddress: Option<string>,
    customerPhone: Option<string>,
    productInfo: Option<string>,
    orderValue: Option<int>)

  /** Every one of the five fields is truthy; an `orderValue` of 0 is falsy too. */
  predicate Complete(req: OrderRequest)
  {
    && Present(req.customerName) && Present(req.customerAddress) && Present(req.customerPhone)
    && Present(req.productInfo) && req.orderValue.Some? && req.orderValue.value != 0
  }

  /** The record POSTed to the store: pending, unassigned, stamped with the clock. */
  function NewOrder(req: OrderRequest, id: Id, now: Time): (o: Order)
    requires Complete(req)
    ensures o.status == OrderStatus.Pending && o.assignedDriverId.None?
    ensures o.customerName == req.customerName.value && o.customerAddress == req.customerAddress.value
    ensures o.customerPhone == req.customerPhone.value && o.productInfo == req.productInfo.value
    ensures o.orderValue == req.orderValue.value && o.orderValue != 0
    ensures o.createdAt == now && o.updatedAt == now
  {
    Order(id, req.customerName.value, req.customerAddress.value, req.customerPhone.value,
          req.productInfo.value, req.orderValue.value, OrderStatus.Pending, None, now, now)
  }

  const FieldsRequired := Reply(400, Error("All fields are required"))

  /** `POST /api/orders`. `id` is the id the store gives the new order. */
  method CreateOrder(db: Store, header: Option<string>, tokens: map<string, Claims>,
                     req: OrderRequest, id: Id, now: Time)
    returns (reply: Reply)
    modifies db
    ensures db.users == old(db.users) && db.deliveries == old(db.deliveries)
    ensures AdminGate(header, tokens).Deny? ==> reply == AdminGate(header, tokens).reply && db.orders == old(db.orders)
    ensures AdminGate(header, tokens).Pass? && !Complete(req) ==> reply == FieldsRequired && db.orders == old(db.orders)
    ensures AdminGate(header, tokens).Pass? && Complete(req) ==>
      db.orders == old(db.orders) + [NewOrder(req, id, now)] && reply == Reply(201, OrderRecord(NewOrder(req, id, now)))
  {
    var gate := AdminGate(header, tokens);
    if gate.Deny? {
      return gate.reply;
    }
    if !Complete(req) {
      return FieldsRequired;
    }
    var order := NewOrder(req, id, now);
    db.PostOrder(order);
    reply := Reply(201, OrderRecord(order));
  }

  /** A missing header is 401; a bad or non-admin token is 403 (unlike GET, which answers 401). */
  lemma {:induction false} CreateOrderGate(header: Option<string>, tokens: map<string, Claims>)
    ensures PresentedToken(header).None? ==> AdminGate(header, tokens).reply.status == 401
    ensures PresentedToken(header).Some? && AdminGate(header, tokens).Deny? ==> AdminGate(header, tokens).reply.status == 403
  {
  }

  /** A zero order value is rejected like a missing field. */
  lemma ZeroValueIsMissing(req: OrderRequest)
    requires req.orderValue == Some(0)
    ensures !Complete(req)
  {
  }
}
