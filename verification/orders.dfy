/**
 * The buyer's order list (src/OrderDetails.tsx): the result of loading the orders, the optimistic
 * status update after the order service acknowledges a cancellation, and the rule that disables the
 * cancel button of an order that is already cancelled.
 */
module Orders {
  import opened Wrappers

  datatype Order = Order(
    orderId: int,
    productName: string,
    totalPrice: int,
    totalQuantity: int,
    status: string,
    productDesc: string,
    imageURL: string)

  const CancelledStatus := "Cancelled"
  const FetchFailedMessage := "Failed to fetch orders. Please try again."

  /** `order.orderId === orderId ? { ...order, status: "Cancelled" } : order`, over the whole list. */
  function CancelInList(orders: seq<Order>, orderId: int): (r: seq<Order>)
    ensures |r| == |orders|
  {
    seq(|orders|, i requires 0 <= i < |orders| =>
      if orders[i].orderId == orderId then orders[i].(status := CancelledStatus) else orders[i])
  }

  /**
   * After a cancellation every order with that id reads "Cancelled" and is otherwise as it was; every
   * other order is untouched; length and order are kept.
   */
  lemma CancelSpec(orders: seq<Order>, orderId: int)
    ensures |CancelInList(orders, orderId)| == |orders|
    ensures forall i :: 0 <= i < |orders| && orders[i].orderId == orderId ==>
              CancelInList(orders, orderId)[i].status == CancelledStatus &&
              CancelInList(orders, orderId)[i] == orders[i].(status := CancelledStatus)
    ensures forall i :: 0 <= i < |orders| && orders[i].orderId != orderId ==>
              CancelInList(orders, orderId)[i] == orders[i]
  {
  }

  /** Acknowledging the same cancellation twice leaves the list as one acknowledgement did. */
  lemma CancelIdempotent(orders: seq<Order>, orderId: int)
    ensures CancelInList(CancelInList(orders, orderId), orderId) == CancelInList(orders, orderId)
  {
  }

  /** Cancelling an order whose status already reads "Cancelled" (or an id not in the list) changes nothing. */
  lemma CancelNoOp(orders: seq<Order>, orderId: int)
    requires forall i :: 0 <= i < |orders| && orders[i].orderId == orderId ==> orders[i].status == CancelledStatus
    ensures CancelInList(orders, orderId) == orders
  {
  }

  /** `disabled={order.status === "Cancelled"}`. */
  predicate CancelDisabled(order: Order) {
    order.status == CancelledStatus
  }

  /** The cancel button's caption. */
  function ButtonLabel(order: Order): (caption: string)
    ensures caption == "Cancelled" <==> CancelDisabled(order)
  {
    if CancelDisabled(order) then "Cancelled" else "Cancel Order"
  }

  /** After a successful cancel the orders with that id can no longer be cancelled. */
  lemma CancelledButtonDisabled(orders: seq<Order>, orderId: int, i: nat)
    requires i < |orders| && orders[i].orderId == orderId
    ensures CancelDisabled(CancelInList(orders, orderId)[i])
  {
  }

  /** What the screen shows: a loading note, the error, the empty note, or one card per order. */
  datatype View = LoadingNote | ErrorNote(message: string) | NoOrdersNote | Cards(orders: seq<Order>)

  class OrdersView {
    var orders: seq<Order>
    var loading: bool
    var error: Option<string>

    constructor ()
      ensures orders == [] && loading && error == None
    {
      orders := [];
      loading := true;
      error := None;
    }

    /** The load settles: `Some(data)` is an ok answer with its list; `None` a non-ok answer or a throw. */
    method FetchSettled(result: Option<seq<Order>>)
      modifies this
      ensures result.Some? ==> orders == result.value && error == old(error)
      ensures result.None? ==> orders == old(orders) && error == Some(FetchFailedMessage)
      ensures !loading
    {
      match result {
        case Some(data) =>
          orders := data;
        case None =>
          error := Some(FetchFailedMessage);
      }
      loading := false;
    }

    /** `handleCancelOrder` once the service has answered: only an ok answer changes the list. */
    method CancelOrder(orderId: int, ok: bool)
      modifies this
      ensures ok ==> orders == CancelInList(old(orders), orderId)
      ensures !ok ==> orders == old(orders)
      ensures loading == old(loading) && error == old(error)
    {
      if ok {
        orders := CancelInList(orders, orderId);
      }
    }

    /**
     * What the screen renders: the loading note while loading, then the error when `error` is truthy
     * (a non-empty string), then the empty note or one card per order.
     */
    function Shown(): (v: View)
      reads this
      ensures v == LoadingNote <==> loading
      ensures v.ErrorNote? <==> !loading && error.Some? && error.value != ""
      ensures v.ErrorNote? ==> v == ErrorNote(error.value)
      ensures v == NoOrdersNote <==> !loading && (error.None? || error.value == "") && |orders| == 0
      ensures v.Cards? <==> !loading && (error.None? || error.value == "") && |orders| > 0
      ensures v.Cards? ==> v.orders == orders
    {
      if loading then LoadingNote
      else if error.Some? && error.value != "" then ErrorNote(error.value)
      else if |orders| == 0 then NoOrdersNote
      else Cards(orders)
    }
  }
}
