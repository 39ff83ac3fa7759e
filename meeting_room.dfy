/**
 * The pin state of the meeting screen (components/MeetingRoom.tsx): the
 * manual pin toggle, the auto-pin that follows the featured screen share,
 * and the paging of the tiles that are not pinned, which repeats the
 * arithmetic of hooks/usePagination.ts.
 */
module Meeting {
  import opened Optional
  import opened JsString
  import opened Media
  import opened Pagination

  /** `participants.find(p => p.id === pinnedId)`. */
  function FindPinned(ps: seq<Participant>, pinnedId: Option<string>): (r: Option<Participant>)
    ensures r.Some? <==> pinnedId.Some? && exists i :: 0 <= i < |ps| && ps[i].id == pinnedId.value
    ensures r.Some? ==> r.value in ps && r.value.id == pinnedId.value
  {
    if ps == [] then None
    else if pinnedId == Some(ps[0].id) then Some(ps[0])
    else
      var rest := FindPinned(ps[1..], pinnedId);
      assert rest.Some? ==> exists i :: 0 <= i < |ps| && ps[i].id == pinnedId.value by {
        if rest.Some? {
          var i :| 0 <= i < |ps[1..]| && ps[1..][i].id == pinnedId.value;
          assert ps[i + 1].id == pinnedId.value;
        }
      }
      rest
  }

  /** The first tile carrying the pinned id is the one shown large. */
  lemma {:induction false} FindPinnedFirst(ps: seq<Participant>, pinnedId: Option<string>, i: int)
    requires 0 <= i < |ps| && pinnedId == Some(ps[i].id)
    requires forall j :: 0 <= j < i ==> ps[j].id != ps[i].id
    ensures FindPinned(ps, pinnedId) == Some(ps[i])
  {
    if i > 0 {
      FindPinnedFirst(ps[1..], pinnedId, i - 1);
    }
  }

  class MeetingRoom {
    /** The tile list the room hook currently returns. */
    var participants: seq<Participant>
    var pinnedId: Option<string>
    var currentPage: int
    var prevScreenSharingId: Option<string>

    constructor (participants: seq<Participant>)
      ensures this.participants == participants
      ensures pinnedId == None && currentPage == 0 && prevScreenSharingId == None
    {
      this.participants := participants;
      pinnedId := None;
      currentPage := 0;
      prevScreenSharingId := None;
    }

    /** MeetingRoom.tsx:143-145. */
    function UnpinnedParticipants(): seq<Participant>
      reads this
    {
      Unpinned(participants, pinnedId)
    }

    /** MeetingRoom.tsx:147-148. */
    function Pages(): nat
      reads this
    {
      TotalPages(participants, pinnedId)
    }

    /** MeetingRoom.tsx:156-159. */
    function VisibleParticipants(): seq<Participant>
      reads this
    {
      Visible(participants, pinnedId, currentPage)
    }

    /** MeetingRoom.tsx:161. */
    function PinnedParticipant(): Option<Participant>
      reads this
    {
      FindPinned(participants, pinnedId)
    }

    /** MeetingRoom.tsx:188: the pinned layout needs a truthy pin that matches a tile; otherwise the grid shows. */
    predicate ShowsPinnedView()
      reads this
    {
      Truthy(pinnedId) && PinnedParticipant().Some?
    }

    /** `handlePinToggle` (MeetingRoom.tsx:137-140). */
    method PinToggle(id: string)
      modifies this`pinnedId, this`currentPage
      ensures pinnedId == if old(pinnedId) == Some(id) then None else Some(id)
      ensures currentPage == 0
    {
      if pinnedId == Some(id) {
        pinnedId := None;
      } else {
        pinnedId := Some(id);
      }
      currentPage := 0;
    }

    /**
     * The auto-pin effect (MeetingRoom.tsx:120-134) for the room's current
     * `screenSharingId`. A release that changes the page count is followed by
     * the clamp effect (MeetingRoom.tsx:150-154), which depends on that count;
     * after a new pin the page is 0, which the clamp keeps.
     */
    method ScreenSharingChanged(screenSharingId: Option<string>)
      modifies this`pinnedId, this`currentPage, this`prevScreenSharingId
      ensures prevScreenSharingId == screenSharingId
      ensures screenSharingId == old(prevScreenSharingId) ==>
        pinnedId == old(pinnedId) && currentPage == old(currentPage)
      ensures screenSharingId != old(prevScreenSharingId) && Truthy(screenSharingId) ==>
        pinnedId == screenSharingId && currentPage == 0
      ensures screenSharingId != old(prevScreenSharingId) && !Truthy(screenSharingId) ==>
        pinnedId == (if old(pinnedId) == old(prevScreenSharingId) then None else old(pinnedId)) &&
        currentPage == (if Pages() != old(Pages()) then ClampedPage(old(currentPage), Pages()) else old(currentPage))
    {
      if screenSharingId != prevScreenSharingId {
        if Truthy(screenSharingId) {
          pinnedId := screenSharingId;
          currentPage := 0;
        } else {
          var oldId := prevScreenSharingId;
          var before := Pages();
          if pinnedId == oldId {
            pinnedId := None;
          }
          if Pages() != before {
            ClampPage();
          }
        }
        prevScreenSharingId := screenSharingId;
      }
    }

    /** The clamp effect (MeetingRoom.tsx:150-154). */
    method ClampPage()
      modifies this`currentPage
      ensures currentPage == ClampedPage(old(currentPage), Pages())
    {
      var total := TotalPages(participants, pinnedId);
      if currentPage >= total && total > 0 {
        currentPage := total - 1;
      }
    }

    /** `setCurrentPage`, wired to the page controls (MeetingRoom.tsx:251); the clamp effect, which depends on the page too, runs after it. */
    method SetCurrentPage(page: int)
      modifies this`currentPage
      ensures currentPage == ClampedPage(page, Pages())
    {
      currentPage := page;
      ClampPage();
    }

    /** A new tile list from the room hook, after which the clamp effect runs. */
    method SetParticipants(ps: seq<Participant>)
      modifies this`participants, this`currentPage
      ensures participants == ps
      ensures currentPage == ClampedPage(old(currentPage), TotalPages(ps, pinnedId))
    {
      participants := ps;
      ClampPage();
    }
  }

  /**
   * Pinning a tile that is listed switches to the pinned layout showing that
   * tile, and takes it out of the side list; toggling it again returns to the grid.
   */
  lemma PinToggleLayout(ps: seq<Participant>, pinned: Option<string>, id: string)
    requires id != "" && exists i :: 0 <= i < |ps| && ps[i].id == id
    ensures var after := if pinned == Some(id) then None else Some(id);
      && (pinned != Some(id) ==> FindPinned(ps, after).Some? && FindPinned(ps, after).value.id == id &&
                                  forall p :: p in Visible(ps, after, 0) ==> p.id != id)
      && (pinned == Some(id) ==> FindPinned(ps, after) == None && Unpinned(ps, after) == ps)
  {
    var after := if pinned == Some(id) then None else Some(id);
    VisibleWindow(ps, after, 0);
  }

  /** A share that starts and then stops: the pin follows it and is released with it. */
  method ShareStartThenStop(ps: seq<Participant>, share: string) returns (during: Option<string>, after: Option<string>)
    requires share != ""
    ensures during == Some(share) && after == None
  {
    var room := new MeetingRoom(ps);
    room.ScreenSharingChanged(Some(share));
    during := room.pinnedId;
    room.ScreenSharingChanged(None);
    after := room.pinnedId;
  }

  /**
   * Nine tiles, none of them the share: while the share is pinned there are
   * three side pages of four; once it stops, the grid holds a single page, and
   * a user who had moved to the third side page is brought back to it.
   */
  method StopReturnsToGrid(ps: seq<Participant>, share: string) returns (page: int, shown: seq<Participant>)
    requires |ps| == 9 && share != "" && forall i :: 0 <= i < |ps| ==> ps[i].id != share
    ensures page == 0 && shown == ps
  {
    var room := new MeetingRoom(ps);
    room.ScreenSharingChanged(Some(share));
    WithoutAbsent(ps, share);
    assert room.Pages() == 3;
    room.SetCurrentPage(2);
    room.ScreenSharingChanged(None);
    assert room.Pages() == 1;
    page := room.currentPage;
    shown := room.VisibleParticipants();
    assert shown == ps[0..9];
  }

  /** A tile the user pins by hand during a share stays pinned when the share stops. */
  method ManualPinSurvivesStop(ps: seq<Participant>, share: string, mine: string) returns (after: Option<string>, page: int)
    requires share != "" && mine != share
    ensures after == Some(mine) && page == 0
  {
    var room := new MeetingRoom(ps);
    room.ScreenSharingChanged(Some(share));
    room.PinToggle(mine);
    room.ScreenSharingChanged(None);
    after := room.pinnedId;
    page := room.currentPage;
  }
}
