/**
 * The shopping-cart page: the list of cart entries mirrored from the server, the
 * per-entry `updating` latch that guards a quantity change while its request is in
 * flight, removal by product id, and the total shown in the order summary.
 */
module CartPage {
  import opened Wrappers
  import opened Lists
  import opened Session

  /** The populated `productId` of a cart entry; prices are whole rupees here. */
  datatype Product = Product(id: string, name: string, price: int)

  datatype CartEntry = CartEntry(product: Product, quantity: int, updating: bool)

  function EntryId(e: CartEntry): string { e.product.id }

  function LineTotal(e: CartEntry): int { e.product.price * e.quantity }

  /** `cartItems.reduce((sum, item) => sum + price * quantity, 0)`, folded from the left. */
  function Total(items: seq<CartEntry>): int {
    if items == [] then 0 else Total(items[..|items| - 1]) + LineTotal(items[|items| - 1])
  }

  /** The entries of product `pid`. */
  function EntriesOf(items: seq<CartEntry>, pid: string): seq<CartEntry> {
    KeepKey(items, EntryId, pid)
  }

  function Latched(e: CartEntry): CartEntry { e.(updating := true) }

  function Unlatched(e: CartEntry): CartEntry { e.(updating := false) }

  function Committed(q: int): CartEntry -> CartEntry {
    (e: CartEntry) => e.(quantity := q, updating := false)
  }

  /** Before the request: `{...item, updating: true}` for the entries of `pid`. */
  function MarkUpdating(items: seq<CartEntry>, pid: string): seq<CartEntry> {
    MapKey(items, EntryId, pid, Latched)
  }

  /** After a successful request: the new quantity is committed and the latch released. */
  function Commit(items: seq<CartEntry>, pid: string, q: int): seq<CartEntry> {
    MapKey(items, EntryId, pid, Committed(q))
  }

  /** After a failed request: only the latch is released. */
  function Release(items: seq<CartEntry>, pid: string): seq<CartEntry> {
    MapKey(items, EntryId, pid, Unlatched)
  }

  /** After a successful delete: `filter(item => item.productId._id !== productId)`. */
  function Remove(items: seq<CartEntry>, pid: string): seq<CartEntry> {
    RemoveKey(items, EntryId, pid)
  }

  /** The "-" button: `disabled={item.quantity === 1 || item.updating}`. */
  predicate DecrementDisabled(e: CartEntry) { e.quantity == 1 || e.updating }

  /** The "+" button: `disabled={item.updating}`. */
  predicate IncrementDisabled(e: CartEntry) { e.updating }

  /** The body of `PUT /api/cart/updateCart`. */
  datatype QuantityRequest = QuantityRequest(userId: Option<string>, productId: string, quantity: int)

  /** What `GET /api/cart/getCart/{userId}` gave: a failure, or `cart.products` (possibly absent). */
  datatype CartFetch = FetchFailed | Fetched(products: Option<seq<CartEntry>>)

  lemma {:induction false} TotalAppend(a: seq<CartEntry>, b: seq<CartEntry>)
    ensures Total(a + b) == Total(a) + Total(b)
  {
    if b != [] {
      TotalAppend(a, b[..|b| - 1]);
      assert (a + b)[..|a + b| - 1] == a + b[..|b| - 1];
    } else {
      assert a + b == a;
    }
  }

  lemma TotalCons(e: CartEntry, s: seq<CartEntry>)
    ensures Total([e] + s) == LineTotal(e) + Total(s)
  {
    TotalAppend([e], s);
  }

  /** The total of an empty cart is 0, and of a one-entry cart its line total. */
  lemma TotalSmall(e: CartEntry)
    ensures Total([]) == 0 && Total([e]) == LineTotal(e)
  {
  }

  /** The total is what the entries of `pid` contribute plus what every other entry contributes. */
  lemma {:induction false} TotalSplit(items: seq<CartEntry>, pid: string)
    ensures Total(items) == Total(Remove(items, pid)) + Total(EntriesOf(items, pid))
  {
    if items != [] {
      var e, rest := items[0], items[1..];
      assert items == [e] + rest;
      TotalSplit(rest, pid);
      TotalCons(e, rest);
      if EntryId(e) == pid {
        assert EntriesOf(items, pid) == [e] + EntriesOf(rest, pid);
        assert Remove(items, pid) == Remove(rest, pid);
        TotalCons(e, EntriesOf(rest, pid));
      } else {
        assert Remove(items, pid) == [e] + Remove(rest, pid);
        assert EntriesOf(items, pid) == EntriesOf(rest, pid);
        TotalCons(e, Remove(rest, pid));
      }
    }
  }

  /** Removing product `pid` lowers the total by exactly the line totals of its entries. */
  lemma TotalAfterRemove(items: seq<CartEntry>, pid: string)
    ensures Total(Remove(items, pid)) == Total(items) - Total(EntriesOf(items, pid))
  {
    TotalSplit(items, pid);
  }

  /** Setting or releasing the latch never changes the total. */
  lemma {:induction false} LatchKeepsTotal(items: seq<CartEntry>, pid: string)
    ensures Total(MarkUpdating(items, pid)) == Total(items)
    ensures Total(Release(items, pid)) == Total(items)
  {
    if items != [] {
      var n := |items| - 1;
      LatchKeepsTotal(items[..n], pid);
      assert MarkUpdating(items, pid)[..n] == MarkUpdating(items[..n], pid);
      assert Release(items, pid)[..n] == Release(items[..n], pid);
    }
  }

  /** A commit changes the total only through the entries of `pid`; every other entry is kept. */
  lemma TotalAfterCommit(items: seq<CartEntry>, pid: string, q: int)
    ensures Remove(Commit(items, pid, q), pid) == Remove(items, pid)
    ensures Total(Commit(items, pid, q)) == Total(Remove(items, pid)) + Total(EntriesOf(Commit(items, pid, q), pid))
  {
    RemoveAfterMap(items, EntryId, pid, Committed(q));
    TotalSplit(Commit(items, pid, q), pid);
  }

  /** While a change is in flight both quantity buttons of that entry are disabled. */
  lemma LatchDisablesControls(items: seq<CartEntry>, pid: string, i: nat)
    requires i < |items| && EntryId(items[i]) == pid
    ensures DecrementDisabled(MarkUpdating(items, pid)[i]) && IncrementDisabled(MarkUpdating(items, pid)[i])
  {
  }

  /** Settling a change leaves no entry of `pid` latched, whatever the outcome. */
  lemma SettleReleasesLatch(items: seq<CartEntry>, pid: string, q: int, i: nat)
    requires i < |items| && EntryId(items[i]) == pid
    ensures !IncrementDisabled(Commit(items, pid, q)[i]) && !IncrementDisabled(Release(items, pid)[i])
  {
  }

  /** Latching and then failing gives back the cart with only the latch of `pid` released. */
  lemma ReleaseAfterMark(items: seq<CartEntry>, pid: string)
    ensures Release(MarkUpdating(items, pid), pid) == Release(items, pid)
    ensures (forall i :: 0 <= i < |items| && EntryId(items[i]) == pid ==> !items[i].updating) ==>
              Release(MarkUpdating(items, pid), pid) == items
  {
  }

  /** The worked example: 2 x 500 totals 1000, 3 x 500 totals 1500, an empty cart totals 0. */
  lemma ExampleTotals(p: Product)
    requires p.price == 500
    ensures Total([CartEntry(p, 2, false)]) == 1000
    ensures Total(Commit([CartEntry(p, 2, false)], p.id, 3)) == 1500
    ensures Remove(Commit([CartEntry(p, 2, false)], p.id, 3), p.id) == []
  {
    var c := Commit([CartEntry(p, 2, false)], p.id, 3);
    assert c == [CartEntry(p, 3, false)];
  }

  class CartView {
    var cartItems: seq<CartEntry>
    var loading: bool
    /** `sessionStorage.getItem("userId") || localStorage.getItem("userId")`, read once; `None` when neither holds a non-empty id. */
    const userId: Option<string>

    constructor (store: BrowserStorage)
      ensures userId == CurrentUserId(store.local, store.session) && cartItems == [] && !loading
    {
      userId := CurrentUserId(store.local, store.session);
      cartItems := [];
      loading := false;
    }

    /**
     * Mounting the page: without a user id it redirects to the login page and fetches
     * nothing; otherwise it loads the cart, keeping the old list when the request fails.
     */
    method Mount(response: CartFetch) returns (redirectToLogin: bool, fetched: bool)
      modifies this
      ensures redirectToLogin <==> userId.None?
      ensures fetched <==> userId.Some?
      ensures userId.None? ==> cartItems == old(cartItems) && loading == old(loading)
      ensures userId.Some? ==> !loading && cartItems == match response
                                             case FetchFailed => old(cartItems)
                                             case Fetched(p) => p.GetOr([])
    {
      if userId.None? {
        return true, false;
      }
      redirectToLogin, fetched := false, true;
      loading := true;
      match response {
        case FetchFailed =>
        case Fetched(p) => cartItems := p.GetOr([]);
      }
      loading := false;
    }

    /** `updateQuantity` up to the request: reject below 1, otherwise latch the entries of `pid`. */
    method BeginQuantityUpdate(pid: string, newQuantity: int) returns (request: Option<QuantityRequest>)
      modifies this
      ensures newQuantity < 1 ==> request == None && cartItems == old(cartItems)
      ensures newQuantity >= 1 ==>
                request == Some(QuantityRequest(userId, pid, newQuantity)) && cartItems == MarkUpdating(old(cartItems), pid)
      ensures loading == old(loading)
    {
      if newQuantity < 1 {
        return None;
      }
      cartItems := MarkUpdating(cartItems, pid);
      request := Some(QuantityRequest(userId, pid, newQuantity));
    }

    /** `updateQuantity` after the request settles: commit on success, release the latch on failure. */
    method SettleQuantityUpdate(pid: string, newQuantity: int, succeeded: bool)
      modifies this
      ensures cartItems == if succeeded then Commit(old(cartItems), pid, newQuantity)
                           else Release(old(cartItems), pid)
      ensures loading == old(loading)
    {
      if succeeded {
        cartItems := Commit(cartItems, pid, newQuantity);
      } else {
        cartItems := Release(cartItems, pid);
      }
    }

    /** The whole handler run to completion. */
    method UpdateQuantity(pid: string, newQuantity: int, succeeded: bool) returns (request: Option<QuantityRequest>)
      modifies this
      ensures newQuantity < 1 ==> request == None && cartItems == old(cartItems)
      ensures newQuantity >= 1 && succeeded ==> cartItems == Commit(old(cartItems), pid, newQuantity)
      ensures newQuantity >= 1 && !succeeded ==> cartItems == Release(old(cartItems), pid)
      ensures request.Some? <==> newQuantity >= 1
      ensures loading == old(loading)
    {
      request := BeginQuantityUpdate(pid, newQuantity);
      if request.Some? {
        ghost var before := old(cartItems);
        SettleQuantityUpdate(pid, newQuantity, succeeded);
        if succeeded {
          assert Commit(MarkUpdating(before, pid), pid, newQuantity) == Commit(before, pid, newQuantity);
        } else {
          ReleaseAfterMark(before, pid);
        }
      }
    }

    /** `removeItem`: on success the entries of `pid` go, the rest stay in order; on failure nothing changes. */
    method RemoveItem(pid: string, succeeded: bool)
      modifies this
      ensures cartItems == if succeeded then Remove(old(cartItems), pid) else old(cartItems)
      ensures loading == old(loading)
    {
      if succeeded {
        cartItems := Remove(cartItems, pid);
      }
    }

    /** The summary figure, recomputed from the entries on every render. */
    function CartTotal(): int
      reads this
    {
      Total(cartItems)
    }
  }
}
