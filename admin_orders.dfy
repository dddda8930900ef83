/**
 * The admin "All Orders" table: paging with Prev/Next buttons, the order details
 * modal with its status selector, and cancellation behind a confirmation dialog.
 */
module AdminOrders {
  import opened Wrappers
  import opened Pagination

  /** The values offered by the status selector, in display order. */
  const StatusOptions: seq<string> := ["Pending", "Processing", "Shipped", "Delivered", "Cancelled"]

  datatype Order = Order(id: string, userName: string, totalPrice: int, paymentMethod: string, status: string)

  /** `PUT /api/orders/updateOrderStatus/{id}` with body `{status}`. */
  datatype StatusUpdate = StatusUpdate(orderId: string, status: string)

  const FetchError := "Error fetching orders. Try again."
  const UpdateFailed := "Failed to update order status!"
  const OrderCancelled := "The order has been cancelled."
  const CancelFailed := "Failed to cancel the order!"

  /** Prev is disabled exactly on page 1. */
  predicate PrevDisabled(page: int) { page == 1 }

  /** Next is disabled once the last row of the page reaches the end of the list. */
  predicate NextDisabled(orders: seq<Order>, page: int) { page * PageSize >= |orders| }

  /** A page reached by an enabled Next has rows, and is within the page count shown. */
  lemma NextLandsOnRows(orders: seq<Order>, page: int)
    requires page >= 1 && !NextDisabled(orders, page)
    ensures PageSlice(orders, page + 1) != []
    ensures page + 1 <= PageCount(|orders|)
  {
    PageNonEmptyIffInRange(orders, page + 1);
  }

  /** Next is enabled exactly while a later page has rows. */
  lemma NextEnabledIffMoreRows(orders: seq<Order>, page: int)
    requires page >= 1
    ensures !NextDisabled(orders, page) <==> page < PageCount(|orders|)
  {
    PageNonEmptyIffInRange(orders, page + 1);
  }

  class OrdersTable {
    var orders: seq<Order>
    var loading: bool
    var error: string
    var selectedOrder: Option<Order>
    var showModal: bool
    var status: string
    var currentPage: int

    /** The page never drops below 1. */
    ghost predicate Valid()
      reads this
    {
      currentPage >= 1
    }

    /** The table and its pager are rendered only once loading has ended without an error. */
    predicate TableShown()
      reads this
    {
      !loading && error == ""
    }

    constructor ()
      ensures Valid()
      ensures orders == [] && loading && error == "" && selectedOrder == None
      ensures !showModal && status == "" && currentPage == 1
    {
      orders, loading, error := [], true, "";
      selectedOrder, showModal, status := None, false, "";
      currentPage := 1;
    }

    /** The rows shown: `orders.slice(indexOfFirstOrder, indexOfLastOrder)`. */
    function CurrentOrders(): (r: seq<Order>)
      reads this
      requires Valid()
      ensures |r| <= PageSize
      ensures r == orders[Min((currentPage - 1) * PageSize, |orders|)..Min(currentPage * PageSize, |orders|)]
    {
      PageSliceBounds(orders, currentPage);
      PageSlice(orders, currentPage)
    }

    /** The "of N" in "Page p of N". */
    function PagesShown(): nat
      reads this
    {
      PageCount(|orders|)
    }

    /** `fetchOrders`: replace the list on success, set the error on failure, stop loading. */
    method FetchOrders(response: Option<seq<Order>>)
      requires Valid()
      modifies this`orders, this`error, this`loading
      ensures Valid() && !loading
      ensures response.Some? ==> orders == response.value && error == old(error)
      ensures response.None? ==> orders == old(orders) && error == FetchError
    {
      if response.Some? {
        orders := response.value;
      } else {
        error := FetchError;
      }
      loading := false;
    }

    /** A click on Prev; it exists only in the rendered table, and the disabled button on page 1 ignores it. */
    method ClickPrev()
      requires Valid()
      modifies this`currentPage
      ensures Valid()
      ensures currentPage == if TableShown() && !PrevDisabled(old(currentPage)) then old(currentPage) - 1 else old(currentPage)
    {
      if TableShown() && !PrevDisabled(currentPage) {
        currentPage := currentPage - 1;
      }
    }

    /** A click on Next; it exists only in the rendered table, and the disabled button on the last page ignores it. */
    method ClickNext()
      requires Valid()
      modifies this`currentPage
      ensures Valid()
      ensures currentPage == if TableShown() && !NextDisabled(orders, old(currentPage)) then old(currentPage) + 1 else old(currentPage)
      ensures currentPage != old(currentPage) ==> CurrentOrders() != []
    {
      if TableShown() && !NextDisabled(orders, currentPage) {
        NextLandsOnRows(orders, currentPage);
        currentPage := currentPage + 1;
      }
    }

    /** View/Edit: open the modal with the selector preset to the order's current status. */
    method ShowModal(order: Order)
      modifies this`selectedOrder, this`status, this`showModal
      ensures selectedOrder == Some(order) && status == order.status && showModal
    {
      selectedOrder := Some(order);
      status := order.status;
      showModal := true;
    }

    method CloseModal()
      modifies this`selectedOrder, this`showModal
      ensures selectedOrder == None && !showModal
    {
      showModal := false;
      selectedOrder := None;
    }

    /** The status selector only produces one of its five options. */
    method SelectStatus(choice: string)
      requires choice in StatusOptions
      modifies this`status
      ensures status == choice
    {
      status := choice;
    }

    /**
     * `updateOrderStatus`: nothing without a selected order; otherwise send the selected
     * status, and on success refetch the list and close the modal, on failure alert.
     */
    method UpdateOrderStatus(succeeded: bool, refetched: Option<seq<Order>>)
      returns (request: Option<StatusUpdate>, alert: Option<string>)
      requires Valid()
      modifies this`orders, this`error, this`loading, this`showModal
      ensures Valid()
      ensures old(selectedOrder).None? ==>
                (request == None && alert == None && showModal == old(showModal)
                 && orders == old(orders) && error == old(error) && loading == old(loading))
      ensures old(selectedOrder).Some? ==> request == Some(StatusUpdate(selectedOrder.value.id, status))
      ensures old(selectedOrder).Some? && succeeded ==>
                (alert == None && !showModal && !loading
                 && orders == (if refetched.Some? then refetched.value else old(orders))
                 && error == (if refetched.Some? then old(error) else FetchError))
      ensures old(selectedOrder).Some? && !succeeded ==>
                (alert == Some(UpdateFailed) && showModal == old(showModal)
                 && orders == old(orders) && error == old(error) && loading == old(loading))
    {
      if selectedOrder.None? {
        return None, None;
      }
      request := Some(StatusUpdate(selectedOrder.value.id, status));
      if succeeded {
        FetchOrders(refetched);
        showModal := false;
        alert := None;
      } else {
        alert := Some(UpdateFailed);
      }
    }

    /**
     * `cancelOrder`: the delete goes out only when the dialog is confirmed; a successful
     * delete refetches the list and reports the cancellation, a failed one reports the error.
     */
    method CancelOrder(orderId: string, confirmed: bool, succeeded: bool, refetched: Option<seq<Order>>)
      returns (deleteSent: bool, alert: string)
      requires Valid()
      modifies this`orders, this`error, this`loading
      ensures Valid()
      ensures deleteSent == confirmed
      ensures !(confirmed && succeeded) ==> orders == old(orders) && error == old(error) && loading == old(loading)
      ensures confirmed && succeeded ==> !loading && orders == (if refetched.Some? then refetched.value else old(orders))
      ensures confirmed && succeeded ==> error == (if refetched.Some? then old(error) else FetchError)
      ensures !confirmed ==> alert == ""
      ensures confirmed && succeeded ==> alert == OrderCancelled
      ensures confirmed && !succeeded ==> alert == CancelFailed
    {
      deleteSent, alert := confirmed, "";
      if confirmed && succeeded {
        FetchOrders(refetched);
        alert := OrderCancelled;
      } else if confirmed {
        alert := CancelFailed;
      }
    }
  }
}
