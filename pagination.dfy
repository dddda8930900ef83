/**
 * Client-side paging of the admin tables (orders, users, products, categories):
 * five rows per page, page `p` shows `items.slice((p - 1) * 5, p * 5)`, and the
 * page count shown is `Math.ceil(items.length / 5)`.
 */
module Pagination {

  /** Rows per page in every admin table. */
  const PageSize: nat := 5

  function Min(a: int, b: int): int { if a <= b then a else b }

  function Max(a: int, b: int): int { if a >= b then a else b }

  /** `Math.ceil(n / 5)`: the least page count whose pages hold `n` rows. */
  function PageCount(n: nat): (c: nat)
    ensures c * PageSize >= n
    ensures c > 0 ==> (c - 1) * PageSize < n
  {
    (n + 4) / 5
  }

  /** The index `Array.prototype.slice` derives from a start or end argument. */
  function SliceIndex(len: nat, i: int): (k: nat)
    ensures k <= len
    ensures i >= 0 ==> k == Min(i, len)
    ensures i < 0 ==> k == Max(len + i, 0)
  {
    if i < 0 then (if len + i < 0 then 0 else len + i)
    else if i < len then i else len
  }

  /** `s.slice(start, end)`, negative arguments counting from the end as in JavaScript. */
  function JsSlice<T>(s: seq<T>, start: int, end: int): (r: seq<T>)
    ensures |r| == Max(SliceIndex(|s|, end) - SliceIndex(|s|, start), 0)
    ensures forall i :: 0 <= i < |r| ==> r[i] == s[SliceIndex(|s|, start) + i]
  {
    var a := SliceIndex(|s|, start);
    var b := SliceIndex(|s|, end);
    if a < b then s[a..b] else []
  }

  /** The rows on page `p`. */
  function PageSlice<T>(items: seq<T>, p: int): (r: seq<T>)
    ensures |r| <= PageSize
    ensures p >= 1 ==> (r != [] <==> (p - 1) * PageSize < |items|)
    ensures p >= 1 && r != [] ==> (p - 1) * PageSize + |r| <= |items|
    ensures p >= 1 ==> forall i :: 0 <= i < |r| ==> r[i] == items[(p - 1) * PageSize + i]
  {
    JsSlice(items, (p - 1) * PageSize, p * PageSize)
  }

  /** Page `p` (from 1) is the part of the list from row `(p-1)*5` to row `p*5`, clipped to its length. */
  lemma PageSliceBounds<T>(items: seq<T>, p: int)
    requires p >= 1
    ensures PageSlice(items, p) == items[Min((p - 1) * PageSize, |items|)..Min(p * PageSize, |items|)]
    ensures |PageSlice(items, p)| <= PageSize
  {
  }

  /** A page from 1 on has rows exactly when it is within the page count. */
  lemma PageNonEmptyIffInRange<T>(items: seq<T>, p: int)
    requires p >= 1
    ensures PageSlice(items, p) != [] <==> p <= PageCount(|items|)
  {
    PageSliceBounds(items, p);
  }

  /** Pages 1..k laid end to end. */
  function ConcatPages<T>(items: seq<T>, k: nat): seq<T> {
    if k == 0 then [] else ConcatPages(items, k - 1) + PageSlice(items, k)
  }

  /** The first `k` pages are the first `5k` rows. */
  lemma {:induction false} ConcatPagesPrefix<T>(items: seq<T>, k: nat)
    ensures ConcatPages(items, k) == items[..Min(k * PageSize, |items|)]
  {
    if k > 0 {
      ConcatPagesPrefix(items, k - 1);
      PageSliceBounds(items, k);
      var a := Min((k - 1) * PageSize, |items|);
      var b := Min(k * PageSize, |items|);
      assert items[..a] + items[a..b] == items[..b];
    }
  }

  /** Reading pages 1 to `Math.ceil(n / 5)` in order shows every row once, in order. */
  lemma PagesConcatenate<T>(items: seq<T>)
    ensures ConcatPages(items, PageCount(|items|)) == items
  {
    ConcatPagesPrefix(items, PageCount(|items|));
  }

  /** Row `i` is shown on page `i / 5 + 1`, at position `i % 5`. */
  lemma ItemOnPage<T>(items: seq<T>, i: nat)
    requires i < |items|
    ensures 1 <= i / PageSize + 1 <= PageCount(|items|)
    ensures i % PageSize < |PageSlice(items, i / PageSize + 1)|
    ensures PageSlice(items, i / PageSize + 1)[i % PageSize] == items[i]
  {
    PageSliceBounds(items, i / PageSize + 1);
  }

  /** The page-number buttons `Array.from({length: n}, (_, i) => i + 1)`. */
  function PageNumbers(n: nat): (r: seq<int>)
    ensures |r| == n
    ensures forall i :: 0 <= i < n ==> r[i] == i + 1
  {
    if n == 0 then [] else PageNumbers(n - 1) + [n]
  }
}
