/**
 * The shopper's order history: loaded only with a stored user id and token, with a
 * confirmed cancel that drops the cancelled order from the list.
 */
module MyOrders {
  import opened Wrappers
  import opened Lists
  import opened Session

  datatype UserOrder = UserOrder(id: string, status: string, totalPrice: int)

  const MissingCredentials := "User ID or Token is missing!"
  const LoadFailed := "Failed to load order history."
  const CancelFailed := "Failed to cancel order. Please try again."

  function OrderId(o: UserOrder): string { o.id }

  /** The Cancel button is offered for every order that is not delivered, whatever else its status. */
  predicate CancelOffered(o: UserOrder) { o.status != "Delivered" }

  /** How the cancel request ended: the server's message, or a failure. */
  datatype CancelReply = Cancelled(message: string) | CancelError

  class MyOrdersPage {
    var orders: seq<UserOrder>
    var loading: bool
    var error: Option<string>

    constructor ()
      ensures orders == [] && loading && error == None
    {
      orders, loading, error := [], true, None;
    }

    /** The mount effect: without a user id or token an error is shown and nothing is fetched. */
    method Mount(store: BrowserStorage, fetched: Option<seq<UserOrder>>) returns (requested: bool)
      modifies this`orders, this`loading, this`error
      ensures requested <==> Present(store.local, "userId").Some? && Present(store.local, "token").Some?
      ensures !requested ==> error == Some(MissingCredentials) && orders == old(orders)
      ensures requested && fetched.Some? ==> orders == fetched.value && error == old(error)
      ensures requested && fetched.None? ==> orders == old(orders) && error == Some(LoadFailed)
      ensures !loading
    {
      if Present(store.local, "userId").None? || Present(store.local, "token").None? {
        error := Some(MissingCredentials);
        loading := false;
        return false;
      }
      requested := true;
      if fetched.Some? {
        orders := fetched.value;
      } else {
        error := Some(LoadFailed);
      }
      loading := false;
    }

    /**
     * `cancelOrder`: the delete is sent only after confirmation; a successful one removes
     * exactly the orders with that id and keeps the rest in order, a failed one changes nothing.
     */
    method CancelOrder(orderId: string, confirmed: bool, reply: CancelReply) returns (sent: bool, alert: string)
      modifies this`orders
      ensures sent == confirmed
      ensures !confirmed ==> orders == old(orders) && alert == ""
      ensures confirmed && reply.Cancelled? ==> orders == RemoveKey(old(orders), OrderId, orderId) && alert == reply.message
      ensures confirmed && reply.CancelError? ==> orders == old(orders) && alert == CancelFailed
    {
      if !confirmed {
        return false, "";
      }
      sent := true;
      match reply {
        case Cancelled(message) =>
          orders := RemoveKey(orders, OrderId, orderId);
          alert := message;
        case CancelError =>
          alert := CancelFailed;
      }
    }

    /**
     * A click on the Cancel button of the `i`-th listed order: the button exists only for an
     * order that is not delivered, so an order the server already marked "Cancelled" can be
     * cancelled again and its delete is sent a second time.
     */
    method ClickCancel(i: nat, confirmed: bool, reply: CancelReply) returns (sent: bool, alert: string)
      requires i < |orders|
      modifies this`orders
      ensures sent <==> confirmed && old(orders)[i].status != "Delivered"
      ensures confirmed && old(orders)[i].status == "Cancelled" ==> sent
      ensures !sent ==> orders == old(orders) && alert == ""
      ensures sent && reply.Cancelled? ==> orders == RemoveKey(old(orders), OrderId, old(orders)[i].id)
      ensures sent && reply.CancelError? ==> orders == old(orders) && alert == CancelFailed
      ensures sent && reply.Cancelled? ==> alert == reply.message
    {
      if !CancelOffered(orders[i]) {
        return false, "";
      }
      sent, alert := CancelOrder(orders[i].id, confirmed, reply);
    }
  }

  /** A successful cancel keeps every other order, in order, and leaves none with the cancelled id. */
  lemma CancelRemovesOnlyThatOrder(orders: seq<UserOrder>, orderId: string)
    ensures IsSubsequence(RemoveKey(orders, OrderId, orderId), orders)
    ensures forall o :: o in RemoveKey(orders, OrderId, orderId) <==> o in orders && o.id != orderId
    ensures (forall o :: o in orders ==> o.id != orderId) ==> RemoveKey(orders, OrderId, orderId) == orders
  {
    RemoveKeyIsSubsequence(orders, OrderId, orderId);
    if forall o :: o in orders ==> o.id != orderId {
      RemoveKeyUnchanged(orders, OrderId, orderId);
    }
  }
}
