// Recent orders and the Accept / Reject buttons of the Orders view.
module Orders {

  datatype Status = Pending | Completed | Rejected

  datatype Order = Order(id: int, item: string, customer: string, status: Status)

  /** The orders loaded when the dashboard mounts. */
  const InitialOrders: seq<Order> := [
    Order(1, "Spicy Ramen", "John Doe", Pending),
    Order(2, "Sushi Platter", "Jane Smith", Pending),
    Order(3, "Tofu Stir-fry", "Mike Lee", Completed)
  ]

  /** No two orders share an id. */
  predicate UniqueIds(orders: seq<Order>) {
    forall i, j :: 0 <= i < j < |orders| ==> orders[i].id != orders[j].id
  }

  /** The status an action sets: only the action "Accept" completes an order;
      any other action string rejects it. No action leads back to Pending. */
  function StatusFor(action: string): (s: Status)
    ensures s == Completed <==> action == "Accept"
    ensures s == Rejected <==> action != "Accept"
  {
    if action == "Accept" then Completed else Rejected
  }

  /** `handleOrderAction(id, action)`: every order with the given id gets the
      status the action sets; all other orders, and every order's id, item and
      customer, stay as they were. */
  function OrderAction(orders: seq<Order>, id: int, action: string): (r: seq<Order>)
    ensures |r| == |orders|
    ensures forall i :: 0 <= i < |r| && orders[i].id != id ==> r[i] == orders[i]
    ensures forall i :: 0 <= i < |r| && orders[i].id == id ==>
      r[i].id == id && r[i].item == orders[i].item && r[i].customer == orders[i].customer &&
      r[i].status == StatusFor(action)
  {
    if orders == [] then []
    else
      var o := orders[0];
      [if o.id == id then o.(status := StatusFor(action)) else o] + OrderAction(orders[1..], id, action)
  }

  /** An id that names no order leaves the list as it was. */
  lemma OrderActionUnknownId(orders: seq<Order>, id: int, action: string)
    requires forall i :: 0 <= i < |orders| ==> orders[i].id != id
    ensures OrderAction(orders, id, action) == orders
  {
  }

  /** There is no transition guard: a second action on the same id simply
      overwrites the first (last write wins). */
  lemma OrderActionLastWriteWins(orders: seq<Order>, id: int, first: string, second: string)
    ensures OrderAction(OrderAction(orders, id, first), id, second) == OrderAction(orders, id, second)
  {
  }

  /** Accept followed by Reject leaves every order with that id Rejected, even
      one that was Completed in between. */
  lemma AcceptThenReject(orders: seq<Order>, id: int)
    ensures forall i :: 0 <= i < |orders| && orders[i].id == id ==>
      OrderAction(OrderAction(orders, id, "Accept"), id, "Reject")[i].status == Rejected
  {
  }

  /** Actions on two different ids do not interfere, in either order. */
  lemma OrderActionsCommute(orders: seq<Order>, id1: int, a1: string, id2: int, a2: string)
    requires id1 != id2
    ensures OrderAction(OrderAction(orders, id1, a1), id2, a2) ==
            OrderAction(OrderAction(orders, id2, a2), id1, a1)
  {
  }

  /** An action keeps the ids in place, so unique ids stay unique, and with
      unique ids exactly the one order at index `k` changes. */
  lemma OrderActionTouchesOnlyTarget(orders: seq<Order>, k: nat, action: string)
    requires UniqueIds(orders) && k < |orders|
    ensures UniqueIds(OrderAction(orders, orders[k].id, action))
    ensures forall j :: 0 <= j < |orders| && j != k ==>
      OrderAction(orders, orders[k].id, action)[j] == orders[j]
    ensures OrderAction(orders, orders[k].id, action)[k] == orders[k].(status := StatusFor(action))
  {
  }

  lemma InitialOrdersUniqueIds()
    ensures UniqueIds(InitialOrders)
  {
  }
}
