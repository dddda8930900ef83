/**
 * The checkout page: an address form checked without trimming, a choice between
 * cash on delivery and online payment, and the order body sent to the server.
 * Online payment only starts the payment flow; the order is placed (and the
 * address checked) from the payment's success callback.
 */
module Checkout {
  import opened Wrappers
  import opened JsText
  import opened CartPage

  datatype Address = Address(street: string, city: string, state: string, postalCode: string)

  datatype AddressField = Street | City | State | PostalCode

  /** The two radio options. */
  datatype PaymentMethod = COD | Online

  /** `paymentInfo`: `{}` or `{ paymentId, status }`. */
  datatype PaymentInfo = NoInfo | Paid(paymentId: string, status: string)

  /** The body posted to place an order. */
  datatype Order = Order(
    userId: Option<string>, items: seq<CartEntry>, totalPrice: int,
    address: Address, paymentMethod: PaymentMethod, paymentInfo: PaymentInfo)

  /** How the order request ended: an ok or non-ok response, or a thrown error. */
  datatype OrderReply = Accepted | Refused | Thrown

  const EmptyAddress := Address("", "", "", "")
  const FillAllFields := "Please fill in all address fields."
  const BadPostalCode := "Please enter a valid postal code."
  const OrderPlaced := "Order Placed Successfully!"
  const OrderFailed := "Order Failed!"
  const OrderError := "Error!"

  /** `/^[0-9]{5,6}$/`: five or six ASCII digits and nothing else. */
  predicate PostalCodeOk(s: string) { 5 <= |s| <= 6 && AllDigits(s) }

  /** `validateForm`: the alert it raises, or none when the address is accepted. Fields are not trimmed. */
  function AddressAlert(a: Address): Option<string> {
    if a.street == "" || a.city == "" || a.state == "" || a.postalCode == "" then Some(FillAllFields)
    else if !PostalCodeOk(a.postalCode) then Some(BadPostalCode)
    else None
  }

  /** An address is accepted exactly when street, city and state are non-empty and the postal code has 5 or 6 digits. */
  lemma AddressAcceptedIff(a: Address)
    ensures AddressAlert(a) == None <==> a.street != "" && a.city != "" && a.state != "" && PostalCodeOk(a.postalCode)
    ensures AddressAlert(a) == Some(FillAllFields) <==> a.street == "" || a.city == "" || a.state == "" || a.postalCode == ""
  {
  }

  /** Fields of white space only pass: the check compares with the empty string and never trims. */
  lemma SpacesPassAddressCheck()
    ensures AddressAlert(Address(" ", " ", " ", "12345")) == None
  {
    assert PostalCodeOk("12345");
  }

  /** The `orderData` object `placeOrder` posts. */
  function OrderOf(userId: Option<string>, cart: seq<CartEntry>, total: int, a: Address, m: PaymentMethod, paymentId: string): (o: Order)
    ensures o.items == cart && o.totalPrice == total && o.address == a && o.paymentMethod == m && o.userId == userId
    ensures o.paymentInfo.Paid? <==> m == Online
    ensures m == Online ==> o.paymentInfo == Paid(paymentId, "Completed")
  {
    Order(userId, cart, total, a, m, if m == Online then Paid(paymentId, "Completed") else NoInfo)
  }

  /** How `handlePayment` got on: no payment SDK, a failed request to create the payment, or the popup opened. */
  datatype PaymentStart = SdkMissing | InitFailed | PopupOpened

  const SdkNotLoaded := "Razorpay SDK not loaded."
  const PaymentInitError := "Error initiating payment. Try again."

  class CheckoutPage {
    /** The `cart` and `total` passed in the navigation state, `[]` and 0 when there is none. */
    const cart: seq<CartEntry>
    const total: int
    var paymentMethod: PaymentMethod
    var address: Address
    var loading: bool
    /**
     * The address seen by the render whose submit opened the payment popup: the popup's success
     * handler calls that render's `placeOrder`, which reads that render's address and method.
     */
    var popupAddress: Option<Address>

    constructor (state: Option<(seq<CartEntry>, int)>)
      ensures state.Some? ==> cart == state.value.0 && total == state.value.1
      ensures state.None? ==> cart == [] && total == 0
      ensures paymentMethod == COD && address == EmptyAddress && !loading && popupAddress == None
    {
      if state.Some? {
        cart, total := state.value.0, state.value.1;
      } else {
        cart, total := [], 0;
      }
      paymentMethod, address, loading, popupAddress := COD, EmptyAddress, false, None;
    }

    /** The effect on the cart: an empty cart sends the shopper back to the home page. */
    method CheckCart() returns (redirectTo: Option<string>)
      ensures redirectTo.Some? <==> |cart| == 0
      ensures redirectTo.Some? ==> redirectTo.value == "/"
    {
      redirectTo := if |cart| == 0 then Some("/") else None;
    }

    /** Typing into one address input. */
    method ChangeAddress(f: AddressField, value: string)
      modifies this`address
      ensures f == Street ==> address == old(address).(street := value)
      ensures f == City ==> address == old(address).(city := value)
      ensures f == State ==> address == old(address).(state := value)
      ensures f == PostalCode ==> address == old(address).(postalCode := value)
    {
      match f {
        case Street => address := address.(street := value);
        case City => address := address.(city := value);
        case State => address := address.(state := value);
        case PostalCode => address := address.(postalCode := value);
      }
    }

    /** Picking a radio option. */
    method SelectPayment(m: PaymentMethod)
      modifies this`paymentMethod
      ensures paymentMethod == m
    {
      paymentMethod := m;
    }

    /**
     * `placeOrder(paymentId)` of the render that saw address `a` and method `m`: an address that
     * fails `validateForm` raises its alert and sends nothing; otherwise the order is posted, and
     * only an accepted one leads back home.
     */
    method PlaceOrder(a: Address, m: PaymentMethod, paymentId: string, userId: Option<string>, reply: OrderReply)
      returns (sent: Option<Order>, alert: string, navigateHome: bool)
      modifies this`loading
      ensures sent.Some? <==> AddressAlert(a) == None
      ensures sent.None? ==> alert == AddressAlert(a).value && !navigateHome && loading == old(loading)
      ensures sent.Some? ==> sent.value == OrderOf(userId, cart, total, a, m, paymentId) && !loading
      ensures sent.Some? ==> navigateHome == (reply == Accepted)
      ensures sent.Some? ==> alert == match reply
                                      case Accepted => OrderPlaced
                                      case Refused => OrderFailed
                                      case Thrown => OrderError
    {
      var problem := AddressAlert(a);
      if problem.Some? {
        return None, problem.value, false;
      }
      loading := true;
      sent := Some(OrderOf(userId, cart, total, a, m, paymentId));
      match reply {
        case Accepted => alert, navigateHome := OrderPlaced, true;
        case Refused => alert, navigateHome := OrderFailed, false;
        case Thrown => alert, navigateHome := OrderError, false;
      }
      loading := false;
    }

    /**
     * `handleSubmit`: online payment only asks for a payment of the total, whatever the address,
     * and an opened popup keeps the address of this render for its success handler; cash on
     * delivery places the order at once with an empty payment id.
     */
    method HandleSubmit(start: PaymentStart, userId: Option<string>, reply: OrderReply)
      returns (paymentRequest: Option<int>, sent: Option<Order>, alert: string, navigateHome: bool)
      modifies this`loading, this`popupAddress
      ensures paymentRequest.Some? <==> paymentMethod == Online && !start.SdkMissing?
      ensures paymentMethod == Online ==> sent == None && !navigateHome && loading == old(loading)
      ensures paymentMethod == Online && paymentRequest.Some? ==> paymentRequest.value == total
      ensures paymentMethod == Online ==>
                alert == (match start
                          case SdkMissing => SdkNotLoaded
                          case InitFailed => PaymentInitError
                          case PopupOpened => "")
      ensures paymentMethod == Online && start.PopupOpened? ==> popupAddress == Some(address)
      ensures !(paymentMethod == Online && start.PopupOpened?) ==> popupAddress == old(popupAddress)
      ensures paymentMethod == COD ==> (sent.Some? <==> AddressAlert(address) == None)
      ensures paymentMethod == COD && sent.Some? ==> sent.value == OrderOf(userId, cart, total, address, COD, "")
      ensures paymentMethod == COD && sent.Some? ==> sent.value.paymentInfo == NoInfo && sent.value.items == cart
      ensures paymentMethod == COD && sent.None? ==>
                alert == AddressAlert(address).value && !navigateHome && loading == old(loading)
      ensures paymentMethod == COD && sent.Some? ==> !loading && navigateHome == (reply == Accepted)
      ensures paymentMethod == COD && sent.Some? ==> alert == match reply
                                                         case Accepted => OrderPlaced
                                                         case Refused => OrderFailed
                                                         case Thrown => OrderError
    {
      if paymentMethod == Online {
        sent, navigateHome := None, false;
        match start {
          case SdkMissing =>
            paymentRequest, alert := None, SdkNotLoaded;
          case InitFailed =>
            paymentRequest, alert := Some(total), PaymentInitError;
          case PopupOpened =>
            paymentRequest, alert := Some(total), "";
            popupAddress := Some(address);
        }
        return;
      }
      paymentRequest := None;
      sent, alert, navigateHome := PlaceOrder(address, paymentMethod, "", userId, reply);
    }

    /**
     * The popup's success handler: it places the order with the payment id, and only now checks
     * the address, both as the submitting render saw them. Edits made while the popup was open
     * are not sent, and the order is always an online one.
     */
    method PaymentSucceeded(paymentId: string, userId: Option<string>, reply: OrderReply)
      returns (sent: Option<Order>, alert: string, navigateHome: bool)
      requires popupAddress.Some?
      modifies this`loading
      ensures sent.Some? <==> AddressAlert(popupAddress.value) == None
      ensures sent.Some? ==> sent.value == OrderOf(userId, cart, total, popupAddress.value, Online, paymentId)
      ensures sent.Some? ==> sent.value.paymentMethod == Online && sent.value.paymentInfo == Paid(paymentId, "Completed")
      ensures sent.None? ==> alert == AddressAlert(popupAddress.value).value && !navigateHome && loading == old(loading)
      ensures sent.Some? ==> !loading && navigateHome == (reply == Accepted)
      ensures sent.Some? ==> alert == match reply
                                      case Accepted => OrderPlaced
                                      case Refused => OrderFailed
                                      case Thrown => OrderError
    {
      sent, alert, navigateHome := PlaceOrder(popupAddress.value, Online, paymentId, userId, reply);
    }
  }
}
