/**
 * The admin "Product Management" table: five products per page, numbered page
 * buttons with Prev/Next, a guarded page change, and deletion behind a confirmation.
 */
module AdminProducts {
  import opened Wrappers
  import opened Lists
  import opened Pagination

  datatype Product = Product(
    id: string, name: string, description: string, price: int,
    categoryName: Option<string>, brand: string, image: string)

  function ProductId(p: Product): string { p.id }

  const ProductDeleted := "Your product has been deleted."
  const DeleteFailed := "There was an issue deleting the product."

  /** The category cell: the category's name, or "No Category" when the product has none. */
  function CategoryLabel(p: Product): (cell: string)
    ensures p.categoryName.Some? ==> cell == p.categoryName.value
    ensures p.categoryName.None? ==> cell == "No Category"
  {
    p.categoryName.GetOr("No Category")
  }

  /** The page `handlePageChange(newPage)` leaves in place for `n` products. */
  function PageAfterChange(n: nat, page: int, newPage: int): int {
    if newPage < 1 || newPage > PageCount(n) then page else newPage
  }

  /** Whatever page is asked for, a page within 1..totalPages stays within it, and a page from 1 never drops below 1. */
  lemma PageChangeKeepsRange(n: nat, page: int, newPage: int)
    ensures page >= 1 ==> PageAfterChange(n, page, newPage) >= 1
    ensures 1 <= page <= PageCount(n) ==> 1 <= PageAfterChange(n, page, newPage) <= PageCount(n)
    ensures PageAfterChange(n, page, newPage) != page ==> PageAfterChange(n, page, newPage) == newPage
  {
  }

  /** A page the guard accepts is taken and shows at least one product. */
  lemma AcceptedPageHasRows(products: seq<Product>, page: int, newPage: int)
    requires 1 <= newPage <= PageCount(|products|)
    ensures PageAfterChange(|products|, page, newPage) == newPage
    ensures PageSlice(products, newPage) != []
  {
    PageNonEmptyIffInRange(products, newPage);
  }

  /** Every numbered page button is accepted by the guard. */
  lemma PageButtonAccepted(n: nat, page: int, i: nat)
    requires i < PageCount(n)
    ensures PageAfterChange(n, page, PageNumbers(PageCount(n))[i]) == i + 1
  {
  }

  /**
   * With no products the page count is 0, so Next (disabled only when `page === totalPages`)
   * stays enabled on page 1, but its page change is refused.
   */
  lemma NextOnEmptyTableIsRefused(page: int)
    requires page == 1
    ensures page != PageCount(0)
    ensures PageAfterChange(0, page, page + 1) == page
  {
  }

  class ProductTable {
    var products: seq<Product>
    var page: int

    ghost predicate Valid()
      reads this
    {
      page >= 1
    }

    constructor ()
      ensures Valid() && products == [] && page == 1
    {
      products, page := [], 1;
    }

    function TotalPages(): nat
      reads this
    {
      PageCount(|products|)
    }

    /** `products.slice((page - 1) * 5, page * 5)` */
    function CurrentProducts(): (r: seq<Product>)
      reads this
      requires Valid()
      ensures |r| <= PageSize
      ensures r == products[Min((page - 1) * PageSize, |products|)..Min(page * PageSize, |products|)]
    {
      PageSliceBounds(products, page);
      PageSlice(products, page)
    }

    /** The mount request: the list is replaced only when the response carries `data`. */
    method FetchProducts(response: Option<seq<Product>>)
      modifies this`products
      ensures products == if response.Some? then response.value else old(products)
    {
      if response.Some? {
        products := response.value;
      }
    }

    /** `handlePageChange`: pages outside 1..totalPages are ignored. */
    method HandlePageChange(newPage: int)
      requires Valid()
      modifies this`page
      ensures Valid()
      ensures page == PageAfterChange(|products|, old(page), newPage)
      ensures old(page) <= TotalPages() ==> page <= TotalPages()
      ensures page != old(page) ==> CurrentProducts() != []
    {
      if newPage < 1 || newPage > TotalPages() {
        return;
      }
      AcceptedPageHasRows(products, page, newPage);
      page := newPage;
    }

    /** Prev, disabled on page 1. */
    method ClickPrev()
      requires Valid()
      modifies this`page
      ensures Valid()
      ensures page == if old(page) == 1 then old(page) else PageAfterChange(|products|, old(page), old(page) - 1)
      ensures old(page) <= TotalPages() ==> page <= TotalPages()
    {
      if page != 1 {
        HandlePageChange(page - 1);
      }
    }

    /** Next, disabled when the page equals the page count. */
    method ClickNext()
      requires Valid()
      modifies this`page
      ensures Valid()
      ensures page == if old(page) == TotalPages() then old(page) else PageAfterChange(|products|, old(page), old(page) + 1)
      ensures old(page) <= TotalPages() ==> page <= TotalPages()
    {
      if page != TotalPages() {
        HandlePageChange(page + 1);
      }
    }

    /**
     * `confirmDelete`: a confirmed, successful delete drops the product with that id; a sent
     * delete reports its outcome.
     */
    method ConfirmDelete(id: string, confirmed: bool, succeeded: bool) returns (deleteSent: bool, alert: string)
      modifies this`products
      ensures deleteSent == confirmed
      ensures products == if confirmed && succeeded then RemoveKey(old(products), ProductId, id) else old(products)
      ensures !confirmed ==> alert == ""
      ensures confirmed && succeeded ==> alert == ProductDeleted
      ensures confirmed && !succeeded ==> alert == DeleteFailed
    {
      deleteSent, alert := confirmed, "";
      if confirmed && succeeded {
        products := RemoveKey(products, ProductId, id);
        alert := ProductDeleted;
      } else if confirmed {
        alert := DeleteFailed;
      }
    }
  }
}
