/**
 * Paging of the tile list (hooks/usePagination.ts): the unpinned tiles, the
 * page size and count, the page clamp and reset, and the visible slice.
 */
module Pagination {
  import opened Optional
  import opened JsString
  import opened Media

  const MaxTilesPerPage: nat := 16
  const SidebarPageSize: nat := 4

  /** usePagination.ts:13-15: the filter applies only when `pinnedId` is truthy. */
  function Unpinned(ps: seq<Participant>, pinnedId: Option<string>): seq<Participant>
  {
    if Truthy(pinnedId) then Without(ps, pinnedId.value) else ps
  }

  /** No visible candidate carries the pinned id; nothing else is dropped. */
  lemma UnpinnedMembers(ps: seq<Participant>, pinnedId: Option<string>, p: Participant)
    ensures p in Unpinned(ps, pinnedId) <==> p in ps && !(Truthy(pinnedId) && p.id == pinnedId.value)
  {
  }

  /** usePagination.ts:17: four tiles beside a pinned one, sixteen in the grid. */
  function PageSize(pinnedId: Option<string>): (r: nat)
    ensures Truthy(pinnedId) ==> r == SidebarPageSize
    ensures !Truthy(pinnedId) ==> r == MaxTilesPerPage
    ensures r > 0
  {
    if Truthy(pinnedId) then SidebarPageSize else MaxTilesPerPage
  }

  /** `Math.ceil(count / size)` for a non-negative count and positive size. */
  function CeilDiv(count: nat, size: nat): (r: nat)
    requires size > 0
    ensures (r - 1) * size < count <= r * size
    ensures r == 0 <==> count == 0
  {
    (count + size - 1) / size
  }

  /** usePagination.ts:18. */
  function TotalPages(ps: seq<Participant>, pinnedId: Option<string>): nat
  {
    CeilDiv(|Unpinned(ps, pinnedId)|, PageSize(pinnedId))
  }

  /** No page is empty but possibly the last, and the pages hold every unpinned tile. */
  lemma TotalPagesTight(ps: seq<Participant>, pinnedId: Option<string>)
    ensures var n := |Unpinned(ps, pinnedId)|; var size := PageSize(pinnedId); var total := TotalPages(ps, pinnedId);
      total * size >= n && (total == 0 || (total - 1) * size < n) && (total == 0 <==> n == 0)
  {
  }

  /** The clamp of usePagination.ts:21-25. */
  function ClampedPage(page: int, totalPages: nat): int
  {
    if page >= totalPages && totalPages > 0 then totalPages - 1 else page
  }

  /** A non-negative page ends inside the range (when there are pages), and clamping again changes nothing. */
  lemma ClampedPageInRange(page: int, totalPages: nat)
    requires page >= 0
    ensures totalPages > 0 ==> 0 <= ClampedPage(page, totalPages) < totalPages
    ensures ClampedPage(ClampedPage(page, totalPages), totalPages) == ClampedPage(page, totalPages)
  {
  }

  /** Where `Array.prototype.slice` puts a bound: negative counts from the end, then clamped to [0, length]. */
  function SliceBound(length: nat, bound: int): (r: nat)
    ensures r <= length
    ensures 0 <= bound ==> r == if bound < length then bound else length
    ensures bound < 0 && 0 <= length + bound ==> r == length + bound
    ensures length + bound < 0 ==> r == 0
  {
    if bound < 0 then (if length + bound < 0 then 0 else length + bound)
    else if bound < length then bound else length
  }

  /** `s.slice(start, end)`. */
  function Slice<T>(s: seq<T>, start: int, end: int): (r: seq<T>)
    ensures |r| <= |s|
    ensures forall x :: x in r ==> x in s
  {
    var from := SliceBound(|s|, start);
    var to := SliceBound(|s|, end);
    if from < to then s[from..to] else []
  }

  /** usePagination.ts:32-35. */
  function Visible(ps: seq<Participant>, pinnedId: Option<string>, page: int): seq<Participant>
  {
    var size := PageSize(pinnedId);
    Slice(Unpinned(ps, pinnedId), page * size, page * size + size)
  }

  /**
   * The visible slice holds at most one page, never the pinned tile, is the
   * page's window of the unpinned list for a non-negative page, and is empty
   * once the page starts past the end.
   */
  lemma VisibleWindow(ps: seq<Participant>, pinnedId: Option<string>, page: int)
    ensures var v := Visible(ps, pinnedId, page); var u := Unpinned(ps, pinnedId);
      var size := PageSize(pinnedId); var start := page * size;
      && |v| <= size
      && (Truthy(pinnedId) ==> forall p :: p in v ==> p.id != pinnedId.value)
      && (forall p :: p in v ==> p in ps)
      && (0 <= start < |u| ==> v == u[start..if start + size < |u| then start + size else |u|])
      && (start >= |u| ==> v == [])
  {
    var v := Visible(ps, pinnedId, page);
    var u := Unpinned(ps, pinnedId);
    forall p | p in v ensures p in u {
    }
  }

  /** With the page clamped into range, the visible slice is a full page or the non-empty tail. */
  lemma ClampedPageShowsTiles(ps: seq<Participant>, pinnedId: Option<string>, page: int)
    requires 0 <= page < TotalPages(ps, pinnedId)
    ensures 0 < |Visible(ps, pinnedId, page)|
  {
    var size := PageSize(pinnedId);
    var u := Unpinned(ps, pinnedId);
    assert page * size < |u| by {
      assert page <= TotalPages(ps, pinnedId) - 1;
      assert page * size <= (TotalPages(ps, pinnedId) - 1) * size;
    }
    VisibleWindow(ps, pinnedId, page);
  }

  /** The state `usePagination` holds across renders, with its inputs. */
  class Paginator {
    var participants: seq<Participant>
    var pinnedId: Option<string>
    var currentPage: int

    constructor (participants: seq<Participant>, pinnedId: Option<string>)
      ensures this.participants == participants && this.pinnedId == pinnedId && currentPage == 0
    {
      this.participants := participants;
      this.pinnedId := pinnedId;
      currentPage := 0;
    }

    function Pages(): nat
      reads this
    {
      TotalPages(participants, pinnedId)
    }

    function VisibleParticipants(): seq<Participant>
      reads this
    {
      Visible(participants, pinnedId, currentPage)
    }

    /** The clamp effect (usePagination.ts:21-25). */
    method ClampPage()
      modifies this`currentPage
      ensures currentPage == ClampedPage(old(currentPage), Pages())
    {
      var total := TotalPages(participants, pinnedId);
      if currentPage >= total && total > 0 {
        currentPage := total - 1;
      }
    }

    /** A new pin: the reset effect (usePagination.ts:28-30) runs only when the pin changed. */
    method SetPinned(id: Option<string>)
      modifies this`pinnedId, this`currentPage
      ensures pinnedId == id
      ensures currentPage == if id != old(pinnedId) then 0 else old(currentPage)
    {
      if id != pinnedId {
        pinnedId := id;
        currentPage := 0;
      }
    }

    /** `setCurrentPage`, as handed to the page controls; the clamp effect, which depends on the page too, runs after it. */
    method SetCurrentPage(page: int)
      modifies this`currentPage
      ensures currentPage == ClampedPage(page, Pages())
    {
      currentPage := page;
      ClampPage();
    }

    /** A new tile list from the room, after which the clamp effect runs. */
    method SetParticipants(ps: seq<Participant>)
      modifies this`participants, this`currentPage
      ensures participants == ps
      ensures currentPage == ClampedPage(old(currentPage), TotalPages(ps, pinnedId))
    {
      participants := ps;
      ClampPage();
    }
  }
}
