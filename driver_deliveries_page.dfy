/**
 * The driver's delivery page (src/app/driver/deliveries/page.tsx): which
 * status changes it offers for a delivery in each status, and the request an
 * offered change sends. The offers are the only statement of the delivery
 * life cycle in the code: pending, then accepted or rejected; accepted, then
 * picked up, on the way and delivered.
 */
module DriverDeliveriesPage {
  import opened Types

  /** One button: the status it sets and the note it sends, if any. */
  datatype Action = Action(target: DeliveryStatus, notes: Option<string>)

  /** The buttons shown for a delivery in `status`. */
  function Actions(status: DeliveryStatus): seq<Action>
  {
    match status
    case Pending => [Action(DeliveryStatus.Accepted, None), Action(DeliveryStatus.Rejected, None)]
    case Accepted => [Action(DeliveryStatus.PickedUp, Some("Package picked up successfully"))]
    case PickedUp => [Action(DeliveryStatus.OnWay, Some("On the way to delivery"))]
    case OnWay => [Action(DeliveryStatus.Delivered, Some("Package delivered successfully"))]
    case Rejected => []
    case Delivered => []
  }

  predicate Offered(from: DeliveryStatus, to: DeliveryStatus)
  {
    exists k :: 0 <= k < |Actions(from)| && Actions(from)[k].target == to
  }

  /** The life cycle, written as a relation on its own. */
  predicate NextStep(from: DeliveryStatus, to: DeliveryStatus)
  {
    || (from == DeliveryStatus.Pending && to == DeliveryStatus.Accepted)
    || (from == DeliveryStatus.Pending && to == DeliveryStatus.Rejected)
    || (from == DeliveryStatus.Accepted && to == DeliveryStatus.PickedUp)
    || (from == DeliveryStatus.PickedUp && to == DeliveryStatus.OnWay)
    || (from == DeliveryStatus.OnWay && to == DeliveryStatus.Delivered)
  }

  /** How far along the life cycle a status is; `rejected` ends the cycle right after `pending`. */
  function Stage(s: DeliveryStatus): nat
  {
    match s
    case Pending => 0
    case Accepted => 1
    case Rejected => 1
    case PickedUp => 2
    case OnWay => 3
    case Delivered => 4
  }

  /** The page offers exactly the next steps of the life cycle, each one a step forward. */
  lemma {:induction false} OffersAreNextSteps(from: DeliveryStatus, to: DeliveryStatus)
    ensures Offered(from, to) <==> NextStep(from, to)
    ensures Offered(from, to) ==> Stage(to) > Stage(from)
  {
    if NextStep(from, to) {
      var k := if to == DeliveryStatus.Rejected then 1 else 0;
      assert Actions(from)[k].target == to;
    }
  }

  /** `pending` offers two buttons, each later status one, and `rejected` and `delivered` none. */
  lemma ActionCounts()
    ensures |Actions(DeliveryStatus.Pending)| == 2
    ensures forall s :: s == DeliveryStatus.Accepted || s == DeliveryStatus.PickedUp || s == DeliveryStatus.OnWay ==>
      |Actions(s)| == 1 && Actions(s)[0].notes.Some?
    ensures Actions(DeliveryStatus.Rejected) == [] && Actions(DeliveryStatus.Delivered) == []
  {
  }

  /** A run of offered changes, each from the status the previous one set. */
  predicate Walk(path: seq<DeliveryStatus>)
  {
    forall i :: 0 <= i < |path| - 1 ==> Offered(path[i], path[i + 1])
  }

  /** Along a walk the stage grows by at least one per step. */
  lemma {:induction false} WalkAdvances(path: seq<DeliveryStatus>, i: nat)
    requires Walk(path) && i < |path|
    ensures Stage(path[i]) >= Stage(path[0]) + i
  {
    if i > 0 {
      WalkAdvances(path, i - 1);
      OffersAreNextSteps(path[i - 1], path[i]);
    }
  }

  /** No status is ever offered again once left, and a delivery takes at most four changes. */
  lemma {:induction false} WalksAreShort(path: seq<DeliveryStatus>)
    requires Walk(path)
    ensures |path| <= 5
    ensures forall i, j :: 0 <= i < j < |path| ==> path[i] != path[j]
  {
    if |path| > 5 {
      WalkAdvances(path, 5);
    }
    forall i, j | 0 <= i < j < |path| ensures path[i] != path[j] {
      WalkAdvances(path[i..], j - i);
      assert path[i..][j - i] == path[j];
    }
  }

  const DeliveriesPath := "/api/deliveries/"

  /** `api.put('/api/deliveries/' + id, { status, notes })`. */
  datatype UpdateRequest = UpdateRequest(path: string, status: string, notes: Option<string>)

  /** The request a button sends for the delivery `id`. */
  function Update(id: Id, action: Action): (r: UpdateRequest)
    ensures |r.path| == |DeliveriesPath| + |id| && r.path[..|DeliveriesPath|] == DeliveriesPath
    ensures r.path[|DeliveriesPath|..] == id
    ensures r.status == DeliveryStatusName(action.target) && r.notes == action.notes
  {
    UpdateRequest(DeliveriesPath + id, DeliveryStatusName(action.target), action.notes)
  }
}
