/**
 * The page navigation overlay (components/PaginationControls.tsx): whether
 * it renders, the page each arrow requests, when an arrow is disabled, and
 * the page indicator.
 */
module PageControls {
  import opened Optional
  import opened Media
  import opened Pagination

  /** An arrow: the page its click requests and whether it is disabled. */
  datatype Arrow = Arrow(target: int, disabled: bool)

  /** What the overlay shows; the indicator reads "Page shownPage / shownTotal". */
  datatype Controls = Controls(prev: Arrow, next: Arrow, shownPage: int, shownTotal: int)

  /** PaginationControls.tsx:21-55. */
  function Render(currentPage: int, totalPages: int): (r: Option<Controls>)
    ensures r.None? <==> totalPages <= 1
    ensures r.Some? ==> r.value.prev.target == currentPage - 1 && r.value.next.target == currentPage + 1
    ensures r.Some? ==> (r.value.prev.disabled <==> currentPage == 0) && (r.value.next.disabled <==> currentPage == totalPages - 1)
    ensures r.Some? ==> r.value.shownPage == currentPage + 1 && r.value.shownTotal == totalPages
  {
    if totalPages <= 1 then None
    else Some(Controls(Arrow(currentPage - 1, currentPage == 0),
                       Arrow(currentPage + 1, currentPage == totalPages - 1),
                       currentPage + 1, totalPages))
  }

  /** A click on a disabled arrow requests nothing. */
  function Click(a: Arrow): Option<int>
  {
    if a.disabled then None else Some(a.target)
  }

  /**
   * From a page inside the range, every request an enabled arrow makes is
   * inside the range too, at least one arrow is enabled, and the indicator
   * reads a page between 1 and the total.
   */
  lemma NavigationInRange(currentPage: int, totalPages: int)
    requires 0 <= currentPage < totalPages
    ensures var r := Render(currentPage, totalPages);
      r.Some? ==>
        && (forall page :: (Click(r.value.prev) == Some(page) || Click(r.value.next) == Some(page)) ==> 0 <= page < totalPages)
        && (!r.value.prev.disabled || !r.value.next.disabled)
        && 1 <= r.value.shownPage <= r.value.shownTotal
  {
  }

  /**
   * The overlay shows for a tile list exactly when it spans more than one
   * page, and after the clamp the page it starts from is inside the range.
   */
  lemma ControlsForTiles(ps: seq<Participant>, pinnedId: Option<string>, page: int)
    requires page >= 0
    ensures var total := TotalPages(ps, pinnedId);
      && (Render(ClampedPage(page, total), total).Some? <==> |Unpinned(ps, pinnedId)| > PageSize(pinnedId))
      && (total > 1 ==> 0 <= ClampedPage(page, total) < total)
  {
    ClampedPageInRange(page, TotalPages(ps, pinnedId));
  }
}
