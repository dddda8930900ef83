/**
 * What the products page adds to the shared product grid: "Buy Now", which goes
 * straight to checkout with that one product, and the out-of-stock gate.
 */
module ProductPage {
  import opened Wrappers
  import opened CartPage
  import opened Storefront
  import opened Session
  import opened JsNumbers

  /**
   * `handleBuyNow`: the checkout state is a one-entry cart holding the product once, with
   * the product's price as the total.
   */
  function BuyNow(p: StoreProduct): (state: (seq<CartEntry>, int))
    ensures |state.0| == 1 && state.0[0].product == Product(p.id, p.name, p.price)
    ensures state.0[0].quantity == 1 && state.1 == p.price
  {
    ([CartEntry(Product(p.id, p.name, p.price), 1, false)], p.price)
  }

  /** The total handed to checkout is what the cart page would compute for that one-entry cart. */
  lemma BuyNowTotal(p: StoreProduct)
    ensures Total(BuyNow(p).0) == BuyNow(p).1
  {
    var cart := BuyNow(p).0;
    assert cart[..0] == [];
  }

  /** A product whose stock is exactly 0 shows "Out of Stock" instead of its Add and Buy buttons. */
  predicate OffersPurchase(p: StoreProduct) { p.stock != Some(0) }

  /**
   * A click on a product's "Add to Cart": the button is absent for a product out of stock and
   * disabled for one already in the cart, so a click posts only a product that is in stock and
   * not yet in the cart-id set.
   */
  method ClickAdd(grid: ProductGrid, store: BrowserStorage, p: StoreProduct, outcome: AddOutcome)
    returns (request: Option<AddRequest>, alert: string)
    modifies grid`cartItems, store`session
    ensures request.Some? <==> OffersPurchase(p) && p.id !in old(grid.cartItems) && grid.userId.Some?
    ensures request.Some? ==> request.value == AddRequest(grid.userId.value, p.id, 1)
    ensures request.Some? && outcome.Refetched? ==> grid.cartItems == IdSet(outcome.cartIds)
    ensures !(request.Some? && outcome.Refetched?) ==> grid.cartItems == old(grid.cartItems)
    ensures !OffersPurchase(p) || p.id in old(grid.cartItems) ==> alert == "" && store.session == old(store.session)
    ensures OffersPurchase(p) && p.id !in old(grid.cartItems) && grid.userId.None? ==>
              alert == LoginRequired && store.session == old(store.session)
    ensures request.Some? && outcome.Refetched? ==>
              alert == AddedToCart && store.session == old(store.session)["cartCount" := ToDecimal(|outcome.cartIds|)]
    ensures request.Some? && !outcome.Refetched? ==>
              alert == FailureMessage(outcome.message) && store.session == old(store.session)
  {
    if !OffersPurchase(p) || grid.AddDisabled(p.id) {
      return None, "";
    }
    request, alert := grid.HandleAddToCart(store, p.id, outcome);
  }

  /** A click on "Buy Now", offered only for a product in stock: the checkout state it navigates with. */
  function ClickBuyNow(p: StoreProduct): (state: Option<(seq<CartEntry>, int)>)
    ensures state.Some? <==> p.stock != Some(0)
    ensures state.Some? ==> Total(state.value.0) == state.value.1 == p.price && |state.value.0| == 1
  {
    BuyNowTotal(p);
    if OffersPurchase(p) then Some(BuyNow(p)) else None
  }
}
