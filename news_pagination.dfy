/**
  Client-side pagination of the fetched articles: the number of pages, the
  slice shown for the current page, and which page buttons the pager draws.
 */
module NewsPagination {
  import opened Api

  /** Articles per display page (ITEMS_PER_PAGE). */
  const ItemsPerPage := 10

  function Min(a: int, b: int): int { if a <= b then a else b }

  function Max(a: int, b: int): int { if a <= b then b else a }

  /** `Math.ceil(count / ITEMS_PER_PAGE)`. */
  function TotalPages(count: nat): (t: nat)
    ensures t * ItemsPerPage >= count
    ensures t == 0 || (t - 1) * ItemsPerPage < count
    ensures t == 0 <==> count == 0
  {
    (count + ItemsPerPage - 1) / ItemsPerPage
  }

  /** How `Array.prototype.slice` resolves one bound: negative counts from the end, and it is clamped to the length. */
  function SliceBound(i: int, len: nat): (b: nat)
    ensures b <= len
    ensures 0 <= i <= len ==> b == i
  {
    if i < 0 then (if len + i < 0 then 0 else len + i)
    else if i > len then len
    else i
  }

  /** `s.slice(start, end)`. */
  function Slice<T>(s: seq<T>, start: int, end: int): (r: seq<T>)
    ensures 0 <= start <= end <= |s| ==> r == s[start..end]
  {
    var b := SliceBound(start, |s|);
    var e := SliceBound(end, |s|);
    if b < e then s[b..e] else []
  }

  /** `currentArticles`: the articles shown on page `page`. */
  function PageItems<T>(articles: seq<T>, page: int): (r: seq<T>)
    ensures |r| <= ItemsPerPage
    ensures page >= 1 ==>
      r == articles[Min((page - 1) * ItemsPerPage, |articles|)..Min(page * ItemsPerPage, |articles|)]
    ensures 1 <= page <= TotalPages(|articles|) ==> r != []
    ensures page > TotalPages(|articles|) ==> r == []
  {
    var start := (page - 1) * ItemsPerPage;
    Slice(articles, start, start + ItemsPerPage)
  }

  /** Pages 1 to k, one after another. */
  function PagesUpTo<T>(articles: seq<T>, k: nat): seq<T>
  {
    if k == 0 then [] else PagesUpTo(articles, k - 1) + PageItems(articles, k)
  }

  lemma {:induction false} PagesUpToIsPrefix<T>(articles: seq<T>, k: nat)
    ensures PagesUpTo(articles, k) == articles[..Min(k * ItemsPerPage, |articles|)]
  {
    if k > 0 {
      PagesUpToIsPrefix(articles, k - 1);
      var a := Min((k - 1) * ItemsPerPage, |articles|);
      var b := Min(k * ItemsPerPage, |articles|);
      assert articles[..a] + articles[a..b] == articles[..b];
    }
  }

  /** Reading every page in order gives back exactly the fetched articles. */
  lemma PagesCoverArticles<T>(articles: seq<T>)
    ensures PagesUpTo(articles, TotalPages(|articles|)) == articles
  {
    PagesUpToIsPrefix(articles, TotalPages(|articles|));
    assert articles[..|articles|] == articles;
  }

  /** The Previous button is disabled on page 1. */
  predicate PreviousDisabled(currentPage: int)
  {
    currentPage == 1
  }

  /** The Next button is disabled on the last page. */
  predicate NextDisabled(currentPage: int, totalPages: nat)
  {
    currentPage == totalPages
  }

  /** What the pager draws for one page number. */
  datatype PageControl = PageButton(page: nat) | Ellipsis

  /** `shouldShow`: the first page, the last page and the pages next to the current one. */
  predicate ShouldShow(pageNum: int, totalPages: nat, currentPage: int)
  {
    pageNum == 1 || pageNum == totalPages || -1 <= currentPage - pageNum <= 1
  }

  function Slot(pageNum: nat, totalPages: nat, currentPage: int): Option<PageControl>
  {
    if ShouldShow(pageNum, totalPages, currentPage) then Some(PageButton(pageNum))
    else if pageNum == 2 || pageNum == totalPages - 1 then Some(Ellipsis)
    else None
  }

  /** `[...Array(totalPages)].map(...)`: slot i is for page i + 1; `None` draws nothing. */
  function PageSlots(totalPages: nat, currentPage: int): (slots: seq<Option<PageControl>>)
    ensures |slots| == totalPages
  {
    seq(totalPages, i requires 0 <= i => Slot(i + 1, totalPages, currentPage))
  }

  /**
    A button in slot i is for page i + 1; page p gets its button exactly when
    it is the first page, the last page or within one of the current page,
    so the first, last and current page always get one.
   */
  lemma ButtonsShown(totalPages: nat, currentPage: int)
    ensures var slots := PageSlots(totalPages, currentPage);
      && (forall i :: 0 <= i < totalPages && slots[i].Some? && slots[i].value.PageButton? ==>
            slots[i].value.page == i + 1)
      && (forall p :: 1 <= p <= totalPages ==>
            (slots[p - 1] == Some(PageButton(p)) <==> ShouldShow(p, totalPages, currentPage)))
      && (totalPages >= 1 ==> slots[0] == Some(PageButton(1)) && slots[totalPages - 1] == Some(PageButton(totalPages)))
      && (1 <= currentPage <= totalPages ==> slots[currentPage - 1] == Some(PageButton(currentPage)))
  {
  }

  /** A button is only ever drawn for page 1, page totalPages, or a page within one of the current page. */
  lemma FewButtons(totalPages: nat, currentPage: int, i: nat)
    requires i < totalPages
    requires PageSlots(totalPages, currentPage)[i].Some? && PageSlots(totalPages, currentPage)[i].value.PageButton?
    ensures i + 1 in {1, totalPages, currentPage - 1, currentPage, currentPage + 1}
  {
  }

  /** An ellipsis only ever stands in the slot of page 2 or page totalPages - 1. */
  lemma EllipsisPlaces(totalPages: nat, currentPage: int, i: nat)
    requires i < totalPages && PageSlots(totalPages, currentPage)[i] == Some(Ellipsis)
    ensures i + 1 == 2 || i + 1 == totalPages - 1
  {
  }

  /**
    While the current page is in range, every page without a button lies in a
    gap that is marked: before the current page by the ellipsis in page 2's
    slot, after it by the ellipsis in page totalPages - 1's slot.
   */
  lemma HiddenPagesMarked(totalPages: nat, currentPage: int, k: nat)
    requires 1 <= currentPage <= totalPages && 1 <= k <= totalPages
    requires !ShouldShow(k, totalPages, currentPage)
    ensures var slots := PageSlots(totalPages, currentPage);
      || (k < currentPage && slots[1] == Some(Ellipsis))
      || (currentPage < k && slots[totalPages - 2] == Some(Ellipsis))
  {
  }

  /** Within range, Previous and Next are enabled exactly when they lead to another page in range. */
  lemma StepButtonsStayInRange(totalPages: nat, currentPage: int)
    requires 1 <= currentPage <= totalPages
    ensures !PreviousDisabled(currentPage) <==> 1 <= currentPage - 1
    ensures !NextDisabled(currentPage, totalPages) <==> currentPage + 1 <= totalPages
  {
  }
}
