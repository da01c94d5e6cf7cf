/**
 * The status badges of src/lib/utils.ts: `getStatusColor` for orders and
 * `getDeliveryStatusColor` for deliveries, each a `switch` from the status
 * text to a pair of Tailwind classes, gray for any other text.
 */
module Colors {
  import opened Types

  const Yellow := "bg-yellow-100 text-yellow-800"
  const Blue := "bg-blue-100 text-blue-800"
  const Orange := "bg-orange-100 text-orange-800"
  const Green := "bg-green-100 text-green-800"
  const Red := "bg-red-100 text-red-800"
  const Purple := "bg-purple-100 text-purple-800"
  const Gray := "bg-gray-100 text-gray-800"

  /** `getStatusColor(status)`. */
  function StatusColor(status: string): string
  {
    if status == "pending" then Yellow
    else if status == "assigned" then Blue
    else if status == "in_progress" then Orange
    else if status == "delivered" then Green
    else if status == "cancelled" then Red
    else Gray
  }

  /** `getDeliveryStatusColor(status)`. */
  function DeliveryStatusColor(status: string): string
  {
    if status == "pending" then Yellow
    else if status == "accepted" then Blue
    else if status == "rejected" then Red
    else if status == "picked_up" then Orange
    else if status == "on_way" then Purple
    else if status == "delivered" then Green
    else Gray
  }

  /**
   * Exactly the five order statuses get a colour of their own, and no two of
   * them share one; any other text is gray.
   */
  lemma {:induction false} OrderColorsDistinct(a: OrderStatus, b: OrderStatus, other: string)
    requires forall s: OrderStatus :: other != OrderStatusName(s)
    ensures StatusColor(OrderStatusName(a)) != Gray
    ensures StatusColor(OrderStatusName(a)) == StatusColor(OrderStatusName(b)) ==> a == b
    ensures StatusColor(other) == Gray
  {
    assert other != OrderStatusName(OrderStatus.Pending) && other != OrderStatusName(OrderStatus.Assigned);
    assert other != OrderStatusName(OrderStatus.InProgress) && other != OrderStatusName(OrderStatus.Delivered);
    assert other != OrderStatusName(OrderStatus.Cancelled);
  }

  /** The same for the six delivery statuses. */
  lemma {:induction false} DeliveryColorsDistinct(a: DeliveryStatus, b: DeliveryStatus, other: string)
    requires forall s: DeliveryStatus :: other != DeliveryStatusName(s)
    ensures DeliveryStatusColor(DeliveryStatusName(a)) != Gray
    ensures DeliveryStatusColor(DeliveryStatusName(a)) == DeliveryStatusColor(DeliveryStatusName(b)) ==> a == b
    ensures DeliveryStatusColor(other) == Gray
  {
    assert other != DeliveryStatusName(DeliveryStatus.Pending) && other != DeliveryStatusName(DeliveryStatus.Accepted);
    assert other != DeliveryStatusName(DeliveryStatus.Rejected) && other != DeliveryStatusName(DeliveryStatus.PickedUp);
    assert other != DeliveryStatusName(DeliveryStatus.OnWay) && other != DeliveryStatusName(DeliveryStatus.Delivered);
  }

  /**
   * The two maps agree on the statuses they share: `pending` is yellow and
   * `delivered` green in both, and a delivery status that is not an order
   * status is gray as an order status, and conversely.
   */
  lemma SharedColors()
    ensures StatusColor("pending") == DeliveryStatusColor("pending") == Yellow
    ensures StatusColor("delivered") == DeliveryStatusColor("delivered") == Green
    ensures StatusColor("picked_up") == DeliveryStatusColor("assigned") == Gray
  {
  }
}
