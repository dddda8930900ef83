/**
 * The product grid shared by the home page and the products page: both require a
 * user id, keep the set of product ids already in the cart, rebuild that set from
 * a fresh copy of the cart after every add, and mirror its size into
 * `sessionStorage.cartCount` for the header.
 */
module Storefront {
  import opened Wrappers
  import opened JsNumbers
  import opened Session

  /** A product as the grid lists it; `stock` may be absent. */
  datatype StoreProduct = StoreProduct(id: string, name: string, description: string, price: int,
                                       category: string, stock: Option<int>)

  /** The body of `POST /api/cart/addToCart`. */
  datatype AddRequest = AddRequest(userId: string, productId: string, quantity: int)

  /**
   * How an add ended: the post failed, the post succeeded but the cart could not be
   * read again, or the cart was read again and lists these product ids.
   */
  datatype AddOutcome = PostFailed(message: Option<string>) | RefetchFailed(message: Option<string>) | Refetched(cartIds: seq<string>)

  /**
   * How the mount's two requests ended: either failed, or both answered and the cart reply
   * had no cart (the products are shown before the cart is read), or both were read.
   */
  datatype MountOutcome = RequestFailed | NoCart(products: seq<StoreProduct>) | Loaded(products: seq<StoreProduct>, cartIds: seq<string>)

  const LoginRequired := "Please log in to add products to the cart."
  const AddedToCart := "The product has been added to your cart successfully!"
  const AddFailed := "Failed to add product to cart!"

  /** `new Set(ids)` */
  function IdSet(ids: seq<string>): (s: set<string>)
    ensures forall id :: id in s <==> id in ids
  {
    set id | id in ids
  }

  /** A cart listing no product twice has as many distinct ids as entries: the stored count is the set's size. */
  lemma {:induction false} IdSetSize(ids: seq<string>)
    requires forall i, j :: 0 <= i < j < |ids| ==> ids[i] != ids[j]
    ensures |IdSet(ids)| == |ids|
  {
    if ids != [] {
      var last := ids[|ids| - 1];
      var init := ids[..|ids| - 1];
      IdSetSize(init);
      assert last !in init;
      assert IdSet(ids) == IdSet(init) + {last};
    }
  }

  /** The message of a failed add: the server's, or the default. */
  function FailureMessage(message: Option<string>): (msg: string)
    ensures Truthy(message) ==> msg == message.value
    ensures !Truthy(message) ==> msg == AddFailed
    ensures msg != ""
  {
    if Truthy(message) then message.value else AddFailed
  }

  class ProductGrid {
    var products: seq<StoreProduct>
    var userId: Option<string>
    var cartItems: set<string>
    var loading: bool

    constructor ()
      ensures products == [] && userId == None && cartItems == {} && loading
    {
      products, userId, cartItems, loading := [], None, {}, true;
    }

    /** The Add button of a product is disabled exactly when the product is already in the cart. */
    predicate AddDisabled(productId: string)
      reads this
    {
      productId in cartItems
    }

    /**
     * The mount effect: with no user id in either store it goes to the login page and fetches
     * nothing. Otherwise the products are shown once both requests answer, and the cart ids and
     * stored count follow only when the cart reply holds a cart.
     */
    method Mount(store: BrowserStorage, outcome: MountOutcome) returns (redirectToLogin: bool)
      modifies this`products, this`userId, this`cartItems, this`loading, store`session
      ensures redirectToLogin <==> CurrentUserId(store.local, store.session).None?
      ensures redirectToLogin ==> products == old(products) && cartItems == old(cartItems) && userId == old(userId)
                                  && loading == old(loading) && store.session == old(store.session)
      ensures !redirectToLogin ==> userId == CurrentUserId(store.local, store.session) && !loading
      ensures !redirectToLogin && outcome.Loaded? ==>
                && products == outcome.products && cartItems == IdSet(outcome.cartIds)
                && store.session == old(store.session)["cartCount" := ToDecimal(|outcome.cartIds|)]
      ensures !redirectToLogin && outcome.NoCart? ==>
                products == outcome.products && cartItems == old(cartItems) && store.session == old(store.session)
      ensures !redirectToLogin && outcome.RequestFailed? ==>
                products == old(products) && cartItems == old(cartItems) && store.session == old(store.session)
    {
      var storedUserId := CurrentUserId(store.local, store.session);
      if storedUserId.None? {
        return true;
      }
      redirectToLogin := false;
      userId := storedUserId;
      match outcome {
        case RequestFailed =>
        case NoCart(shown) =>
          products := shown;
        case Loaded(shown, ids) =>
          products := shown;
          cartItems := IdSet(ids);
          store.session := store.session["cartCount" := ToDecimal(|ids|)];
      }
      loading := false;
    }

    /**
     * `handleAddToCart`: without a user id only a warning is shown. Otherwise one unit is
     * posted; the cart-id set and stored count change only when the cart is read again.
     */
    method HandleAddToCart(store: BrowserStorage, productId: string, outcome: AddOutcome)
      returns (request: Option<AddRequest>, alert: string)
      modifies this`cartItems, store`session
      ensures request.Some? <==> userId.Some?
      ensures userId.None? ==> alert == LoginRequired
      ensures request.Some? ==> request.value == AddRequest(userId.value, productId, 1)
      ensures request.Some? && outcome.Refetched? ==>
                && cartItems == IdSet(outcome.cartIds) && alert == AddedToCart
                && store.session == old(store.session)["cartCount" := ToDecimal(|outcome.cartIds|)]
      ensures !(request.Some? && outcome.Refetched?) ==> cartItems == old(cartItems) && store.session == old(store.session)
      ensures request.Some? && !outcome.Refetched? ==> alert == FailureMessage(outcome.message)
    {
      if userId.None? {
        return None, LoginRequired;
      }
      request := Some(AddRequest(userId.value, productId, 1));
      match outcome {
        case PostFailed(message) =>
          alert := FailureMessage(message);
        case RefetchFailed(message) =>
          alert := FailureMessage(message);
        case Refetched(ids) =>
          alert := AddedToCart;
          cartItems := IdSet(ids);
          store.session := store.session["cartCount" := ToDecimal(|ids|)];
      }
    }
  }
}
