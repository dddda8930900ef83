/**
 * The admin "Category List": five categories per page, pager controls shown only
 * when there is more than one page, and deletion behind a confirmation.
 */
module AdminCategories {
  import opened Wrappers
  import opened Lists
  import opened Pagination

  datatype Category = Category(id: string, name: string, description: string)

  function CategoryId(c: Category): string { c.id }

  const FetchFailed := "Failed to fetch categories"
  const CategoryDeleted := "Category has been deleted."
  const DeleteFailed := "Failed to delete category."

  /** The pager (Prev, the numbered buttons, Next) is rendered only for more than one page. */
  predicate ControlsShown(n: nat) { PageCount(n) > 1 }

  /** The page the corrected delete moves to: the current page, pulled back into 1..totalPages. */
  function ClampPage(p: int, n: nat): (r: int)
    ensures r >= 1
    ensures 1 <= p <= PageCount(n) ==> r == p
    ensures n > 0 ==> r <= PageCount(n)
  {
    Max(Min(p, PageCount(n)), 1)
  }

  /** After the corrected delete, a list with any category left shows rows on the current page. */
  lemma ClampedPageNonEmpty(items: seq<Category>, p: int)
    requires items != []
    ensures PageSlice(items, ClampPage(p, |items|)) != []
  {
    PageNonEmptyIffInRange(items, ClampPage(p, |items|));
  }

  /**
   * As written, deleting the only category of page 2 out of six leaves five categories:
   * one page, so the pager is hidden, while page 2 stays selected and shows nothing.
   */
  lemma DeleteStrandsLastPage(cs: seq<Category>, id: string)
    requires |cs| == 6 && cs[5].id == id
    requires forall i :: 0 <= i < 5 ==> cs[i].id != id
    ensures RemoveKey(cs, CategoryId, id) == cs[..5]
    ensures !ControlsShown(|RemoveKey(cs, CategoryId, id)|)
    ensures PageSlice(RemoveKey(cs, CategoryId, id), 2) == []
  {
    assert cs == cs[..5] + [cs[5]];
    RemoveKeyAppend(cs[..5], [cs[5]], CategoryId, id);
    RemoveKeyUnchanged(cs[..5], CategoryId, id);
    assert RemoveKey([cs[5]], CategoryId, id) == [];
    PageNonEmptyIffInRange(cs[..5], 2);
  }

  class CategoryTable {
    var categories: seq<Category>
    var loading: bool
    var error: Option<string>
    var currentPage: int

    ghost predicate Valid()
      reads this
    {
      currentPage >= 1
    }

    constructor ()
      ensures Valid() && categories == [] && loading && error == None && currentPage == 1
    {
      categories, loading, error, currentPage := [], true, None, 1;
    }

    function TotalPages(): nat
      reads this
    {
      PageCount(|categories|)
    }

    /** `categories.slice(startIndex, startIndex + 5)` */
    function CurrentCategories(): (r: seq<Category>)
      reads this
      requires Valid()
      ensures |r| <= PageSize
      ensures r == categories[Min((currentPage - 1) * PageSize, |categories|)..Min(currentPage * PageSize, |categories|)]
    {
      PageSliceBounds(categories, currentPage);
      PageSlice(categories, currentPage)
    }

    method FetchCategories(response: Option<seq<Category>>)
      modifies this`categories, this`error, this`loading
      ensures !loading
      ensures response.Some? ==> categories == response.value && error == old(error)
      ensures response.None? ==> categories == old(categories) && error == Some(FetchFailed)
    {
      if response.Some? {
        categories := response.value;
      } else {
        error := Some(FetchFailed);
      }
      loading := false;
    }

    /** Prev: `max(page - 1, 1)`, only while the pager is shown and the page is not 1. */
    method ClickPrev()
      requires Valid()
      modifies this`currentPage
      ensures Valid()
      ensures currentPage ==
                if ControlsShown(|categories|) && old(currentPage) != 1 then Max(old(currentPage) - 1, 1)
                else old(currentPage)
    {
      if ControlsShown(|categories|) && currentPage != 1 {
        currentPage := Max(currentPage - 1, 1);
      }
    }

    /** Next: `min(page + 1, totalPages)`, only while the pager is shown and the page is not the last. */
    method ClickNext()
      requires Valid()
      modifies this`currentPage
      ensures Valid()
      ensures currentPage ==
                if ControlsShown(|categories|) && old(currentPage) != TotalPages() then Min(old(currentPage) + 1, TotalPages())
                else old(currentPage)
      ensures currentPage != old(currentPage) ==> currentPage <= TotalPages()
    {
      if ControlsShown(|categories|) && currentPage != TotalPages() {
        currentPage := Min(currentPage + 1, TotalPages());
      }
    }

    /** The numbered button `i` of the shown pager selects page `i`. */
    method ClickPage(i: int)
      requires Valid()
      modifies this`currentPage
      ensures Valid()
      ensures currentPage == if ControlsShown(|categories|) && 1 <= i <= TotalPages() then i else old(currentPage)
      ensures currentPage != old(currentPage) ==> CurrentCategories() != []
    {
      if ControlsShown(|categories|) && 1 <= i <= TotalPages() {
        currentPage := i;
        PageNonEmptyIffInRange(categories, i);
      }
    }

    /**
     * `handleDelete` as written: once confirmed, the category is dropped and reported deleted
     * whenever the response body parses as JSON, whatever the HTTP status; the current page is
     * left as it was. A request that fails or a body that does not parse reports the error.
     */
    method HandleDelete(id: string, confirmed: bool, parsed: bool) returns (deleteSent: bool, alert: string)
      requires Valid()
      modifies this`categories
      ensures Valid()
      ensures deleteSent == confirmed
      ensures categories == if confirmed && parsed then RemoveKey(old(categories), CategoryId, id) else old(categories)
      ensures !confirmed ==> alert == ""
      ensures confirmed && parsed ==> alert == CategoryDeleted
      ensures confirmed && !parsed ==> alert == DeleteFailed
    {
      deleteSent, alert := confirmed, "";
      if confirmed && parsed {
        categories := RemoveKey(categories, CategoryId, id);
        alert := CategoryDeleted;
      } else if confirmed {
        alert := DeleteFailed;
      }
    }

    /** `handleDelete` with the current page pulled back into range after the list shrinks. */
    method HandleDeleteClamped(id: string, confirmed: bool, parsed: bool) returns (deleteSent: bool, alert: string)
      requires Valid()
      modifies this`categories, this`currentPage
      ensures Valid()
      ensures deleteSent == confirmed
      ensures categories == if confirmed && parsed then RemoveKey(old(categories), CategoryId, id) else old(categories)
      ensures currentPage == if confirmed && parsed then ClampPage(old(currentPage), |categories|) else old(currentPage)
      ensures !confirmed ==> alert == ""
      ensures confirmed && parsed ==> alert == CategoryDeleted
      ensures confirmed && !parsed ==> alert == DeleteFailed
      ensures confirmed && parsed && categories != [] ==> CurrentCategories() != []
    {
      deleteSent, alert := HandleDelete(id, confirmed, parsed);
      if confirmed && parsed {
        currentPage := ClampPage(currentPage, |categories|);
        if categories != [] {
          ClampedPageNonEmpty(categories, old(currentPage));
        }
      }
    }
  }
}
