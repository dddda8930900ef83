/**
 * The site header: the logged-in flag read from the stored token, the cart badge
 * mirrored from `sessionStorage.cartCount`, the count fetched from the server,
 * and logout.
 */
module Header {
  import opened Wrappers
  import opened JsNumbers
  import opened Session

  /** How `GET /api/cart/getCart/{userId}` ended: ok with the cart's product count, not ok, or thrown. */
  datatype CountReply = CountOk(products: nat) | CountNotOk | CountThrown

  /** `parseInt(stored, 10)` when a non-empty count is stored, 0 otherwise. */
  function StoredCount(session: map<string, string>): (c: JsInt)
    ensures Present(session, "cartCount").None? ==> c == Int(0)
  {
    var stored := GetItem(session, "cartCount");
    if Truthy(stored) then ParseInt(stored.value) else Int(0)
  }

  /** The badge is rendered only for a count above 0 (`NaN > 0` is false). */
  predicate BadgeShown(c: JsInt) { c.Int? && c.value > 0 }

  /** A count the header stored itself is read back as that count. */
  lemma StoredCountRoundTrip(session: map<string, string>, n: nat)
    ensures StoredCount(session["cartCount" := ToDecimal(n)]) == Int(n)
    ensures BadgeShown(StoredCount(session["cartCount" := ToDecimal(n)])) <==> n > 0
  {
    ParseIntOfDecimal(n);
  }

  class HeaderBar {
    var isLoggedIn: bool
    var cartCount: JsInt

    constructor ()
      ensures !isLoggedIn && cartCount == Int(0)
    {
      isLoggedIn, cartCount := false, Int(0);
    }

    /** `updateCartCount`, the "storage" listener: re-read the stored count. */
    method UpdateCartCount(store: BrowserStorage)
      modifies this`cartCount
      ensures cartCount == StoredCount(store.session)
    {
      var stored := GetItem(store.session, "cartCount");
      cartCount := if Truthy(stored) then ParseInt(stored.value) else Int(0);
    }

    /**
     * `fetchCartCount`: nothing without a stored user id; on an ok reply the count and the
     * stored `cartCount` become the number of cart products, and the broadcast re-reads it.
     */
    method FetchCartCount(store: BrowserStorage, reply: CountReply) returns (requested: bool)
      modifies this`cartCount, store`session
      ensures requested <==> Present(store.local, "userId").Some?
      ensures requested && reply.CountOk? ==>
                store.session == old(store.session)["cartCount" := ToDecimal(reply.products)]
                && cartCount == Int(reply.products)
      ensures !(requested && reply.CountOk?) ==> store.session == old(store.session) && cartCount == old(cartCount)
    {
      if Present(store.local, "userId").None? {
        return false;
      }
      requested := true;
      if reply.CountOk? {
        cartCount := Int(reply.products);
        store.session := store.session["cartCount" := ToDecimal(reply.products)];
        UpdateCartCount(store);
        StoredCountRoundTrip(old(store.session), reply.products);
      }
    }

    /** The mount effect: the flag is the token's truth, and the count is fetched only for a token. */
    method Mount(store: BrowserStorage, reply: CountReply) returns (requested: bool)
      modifies this`isLoggedIn, this`cartCount, store`session
      ensures isLoggedIn <==> Present(store.local, "token").Some?
      ensures requested ==> isLoggedIn
      ensures requested <==> isLoggedIn && Present(store.local, "userId").Some?
      ensures requested && reply.CountOk? ==>
                store.session == old(store.session)["cartCount" := ToDecimal(reply.products)]
                && cartCount == Int(reply.products) && BadgeShown(cartCount) == (reply.products > 0)
      ensures !(requested && reply.CountOk?) ==> store.session == old(store.session) && cartCount == old(cartCount)
    {
      isLoggedIn := Present(store.local, "token").Some?;
      requested := false;
      if isLoggedIn {
        requested := FetchCartCount(store, reply);
      }
    }

    /**
     * `handleLogout`: all of `localStorage` goes, the stored count goes, the badge reads 0
     * and the header shows the login link again.
     */
    method HandleLogout(store: BrowserStorage) returns (navigateTo: string)
      modifies this`isLoggedIn, this`cartCount, store`local, store`session
      ensures store.local == map[] && store.session == old(store.session) - {"cartCount"}
      ensures !isLoggedIn && cartCount == Int(0) && !BadgeShown(cartCount)
      ensures navigateTo == "/"
    {
      store.local := map[];
      store.session := store.session - {"cartCount"};
      isLoggedIn := false;
      cartCount := Int(0);
      navigateTo := "/";
      UpdateCartCount(store);
    }
  }
}
