/**
 * The offline room of hooks/useMockRoom.ts: the local camera tile and the
 * local presentation tile, kept in one list by two effects, and the id of
 * the featured presentation.
 */
module MockRoom {
  import opened Optional
  import opened Media

  const LocalUserId: string := "local-user"
  const LocalScreenId: string := "local-screen"

  /** `name || 'You'`. */
  function OrYou(name: string): (r: string)
    ensures name != "" ==> r == name
    ensures name == "" ==> r == "You"
  {
    if name != "" then name else "You"
  }

  predicate HasTile(ps: seq<Participant>, id: string)
  {
    exists i :: 0 <= i < |ps| && ps[i].id == id
  }

  /** The tile inserted for the local camera (useMockRoom.ts:28-37). */
  function LocalUserTile(name: string, audio: bool, video: bool, camera: Option<Stream>, now: int): Participant
  {
    Participant(LocalUserId, OrYou(name), true, audio, video, false, camera, now)
  }

  /** The tile appended for the local presentation (useMockRoom.ts:49-58). */
  function LocalScreenTile(name: string, screen: Stream, now: int): Participant
  {
    Participant(LocalScreenId, OrYou(name) + " (Presentation)", true, false, true, true, Some(screen), now)
  }

  /**
   * The local-user updater (useMockRoom.ts:18-39).  An existing `local-user`
   * tile gets the name verbatim and the two flags, and nothing else in the
   * list changes; otherwise a new tile, named with the fallback, goes first.
   */
  function UpsertLocalUser(ps: seq<Participant>, name: string, audio: bool, video: bool, camera: Option<Stream>, now: int): (r: seq<Participant>)
    ensures HasTile(r, LocalUserId)
    ensures HasTile(ps, LocalUserId) ==> |r| == |ps| && forall i :: 0 <= i < |ps| ==>
      if ps[i].id == LocalUserId then r[i] == ps[i].(name := name, isAudioEnabled := audio, isVideoEnabled := video)
      else r[i] == ps[i]
    ensures !HasTile(ps, LocalUserId) ==> |r| == |ps| + 1 && r[0] == LocalUserTile(name, audio, video, camera, now) && r[1..] == ps
  {
    if HasTile(ps, LocalUserId) then
      var r := seq(|ps|, i requires 0 <= i < |ps| =>
        if ps[i].id == LocalUserId then ps[i].(name := name, isAudioEnabled := audio, isVideoEnabled := video) else ps[i]);
      assert HasTile(r, LocalUserId) by {
        var i :| 0 <= i < |ps| && ps[i].id == LocalUserId;
        assert r[i].id == LocalUserId;
      }
      r
    else
      var r := [LocalUserTile(name, audio, video, camera, now)] + ps;
      assert r[0].id == LocalUserId;
      r
  }

  /** Running the local-user effect again with the same non-empty name changes nothing. */
  lemma UpsertLocalUserIdempotent(ps: seq<Participant>, name: string, audio: bool, video: bool, camera: Option<Stream>, now: int, later: int)
    requires name != ""
    ensures var once := UpsertLocalUser(ps, name, audio, video, camera, now);
      UpsertLocalUser(once, name, audio, video, camera, later) == once
  {
  }

  /**
   * With an empty name the fallback applies only on insertion: the next run
   * of the effect renames the tile to the empty string.
   */
  lemma EmptyNameFallbackIsInsertOnly(ps: seq<Participant>, audio: bool, video: bool, camera: Option<Stream>, now: int, later: int)
    requires !HasTile(ps, LocalUserId)
    ensures var once := UpsertLocalUser(ps, "", audio, video, camera, now);
      var twice := UpsertLocalUser(once, "", audio, video, camera, later);
      once[0].name == "You" && twice[0].name == ""
  {
  }

  /**
   * The presentation updater for a present stream (useMockRoom.ts:44-60):
   * the existing tile gets the new stream, or a new tile is appended; the
   * other tiles are untouched and keep their order.
   */
  function UpsertLocalScreen(ps: seq<Participant>, name: string, screen: Stream, now: int): (r: seq<Participant>)
    ensures HasTile(r, LocalScreenId)
    ensures HasTile(ps, LocalScreenId) ==> |r| == |ps| && forall i :: 0 <= i < |ps| ==>
      if ps[i].id == LocalScreenId then r[i] == ps[i].(stream := Some(screen)) else r[i] == ps[i]
    ensures !HasTile(ps, LocalScreenId) ==> r == ps + [LocalScreenTile(name, screen, now)]
  {
    if HasTile(ps, LocalScreenId) then
      var r := seq(|ps|, i requires 0 <= i < |ps| => if ps[i].id == LocalScreenId then ps[i].(stream := Some(screen)) else ps[i]);
      assert HasTile(r, LocalScreenId) by {
        var i :| 0 <= i < |ps| && ps[i].id == LocalScreenId;
        assert r[i].id == LocalScreenId;
      }
      r
    else
      var r := ps + [LocalScreenTile(name, screen, now)];
      assert r[|ps|].id == LocalScreenId;
      r
  }

  /** The presentation updater for an absent stream (useMockRoom.ts:63). */
  function RemoveLocalScreen(ps: seq<Participant>): (r: seq<Participant>)
    ensures !HasTile(r, LocalScreenId)
    ensures forall p :: p in r <==> p in ps && p.id != LocalScreenId
    ensures r == Without(ps, LocalScreenId)
  {
    var r := Without(ps, LocalScreenId);
    assert forall i :: 0 <= i < |r| ==> r[i] in r;
    r
  }

  /** useMockRoom.ts:64: the featured id is released only if it was the local presentation. */
  function ReleaseScreenSharingId(current: Option<string>): Option<string>
  {
    if current == Some(LocalScreenId) then None else current
  }

  /** The updater rewrites only presentation tiles, so stripping them gives back what stripping the input gives. */
  lemma {:induction false} RefreshedScreenStrips(ps: seq<Participant>, screen: Stream)
    ensures var r := seq(|ps|, i requires 0 <= i < |ps| => if ps[i].id == LocalScreenId then ps[i].(stream := Some(screen)) else ps[i]);
      Without(r, LocalScreenId) == Without(ps, LocalScreenId)
  {
    var r := seq(|ps|, i requires 0 <= i < |ps| => if ps[i].id == LocalScreenId then ps[i].(stream := Some(screen)) else ps[i]);
    if ps != [] {
      RefreshedScreenStrips(ps[1..], screen);
      var rest := seq(|ps[1..]|, i requires 0 <= i < |ps[1..]| => if ps[1..][i].id == LocalScreenId then ps[1..][i].(stream := Some(screen)) else ps[1..][i]);
      assert r[1..] == rest;
    }
  }

  /**
   * Starting and stopping a presentation leaves every other tile as it was:
   * stripping the presentation after the upsert is stripping it before; with
   * no presentation tile to begin with, stopping restores the list exactly.
   */
  lemma ScreenStartStop(ps: seq<Participant>, name: string, screen: Stream, now: int)
    ensures RemoveLocalScreen(UpsertLocalScreen(ps, name, screen, now)) == RemoveLocalScreen(ps)
    ensures !HasTile(ps, LocalScreenId) ==> RemoveLocalScreen(UpsertLocalScreen(ps, name, screen, now)) == ps
  {
    if HasTile(ps, LocalScreenId) {
      RefreshedScreenStrips(ps, screen);
    } else {
      WithoutAppend(ps, [LocalScreenTile(name, screen, now)], LocalScreenId);
      assert Without([LocalScreenTile(name, screen, now)], LocalScreenId) == [];
      forall p | p in ps ensures p.id != LocalScreenId {
        var i :| 0 <= i < |ps| && ps[i] == p;
      }
      WithoutAbsent(ps, LocalScreenId);
    }
  }

  /** The state `useMockRoom` holds: the tile list and the featured presentation. */
  class Room {
    var participants: seq<Participant>
    var screenSharingId: Option<string>

    constructor ()
      ensures participants == [] && screenSharingId == None
    {
      participants := [];
      screenSharingId := None;
    }

    /** The local-user effect (useMockRoom.ts:15-40); nothing happens before joining. */
    method LocalUserEffect(isJoined: bool, name: string, audio: bool, video: bool, camera: Option<Stream>, now: int)
      modifies this`participants
      ensures !isJoined ==> participants == old(participants)
      ensures isJoined ==> participants == UpsertLocalUser(old(participants), name, audio, video, camera, now)
    {
      if !isJoined {
        return;
      }
      participants := UpsertLocalUser(participants, name, audio, video, camera, now);
    }

    /** The presentation effect (useMockRoom.ts:42-66). */
    method LocalScreenEffect(screen: Option<Stream>, name: string, now: int)
      modifies this`participants, this`screenSharingId
      ensures screen.Some? ==> participants == UpsertLocalScreen(old(participants), name, screen.value, now) &&
                               screenSharingId == Some(LocalScreenId)
      ensures screen.None? ==> participants == RemoveLocalScreen(old(participants)) &&
                               screenSharingId == ReleaseScreenSharingId(old(screenSharingId))
    {
      if screen.Some? {
        participants := UpsertLocalScreen(participants, name, screen.value, now);
        screenSharingId := Some(LocalScreenId);
      } else {
        participants := RemoveLocalScreen(participants);
        screenSharingId := ReleaseScreenSharingId(screenSharingId);
      }
    }
  }

  /** Join, present, stop: one camera tile remains and nothing is featured. */
  method JoinPresentStop(name: string, camera: Option<Stream>, screen: Stream, now: int)
    returns (tiles: seq<Participant>, featured: Option<string>)
    ensures tiles == [LocalUserTile(name, true, true, camera, now)] && featured == None
  {
    var room := new Room();
    room.LocalUserEffect(true, name, true, true, camera, now);
    assert room.participants == [LocalUserTile(name, true, true, camera, now)];
    ghost var before := room.participants;
    assert !HasTile(before, LocalScreenId);
    ScreenStartStop(before, name, screen, now);
    room.LocalScreenEffect(Some(screen), name, now);
    assert room.participants == UpsertLocalScreen(before, name, screen, now);
    room.LocalScreenEffect(None, name, now);
    tiles := room.participants;
    featured := room.screenSharingId;
  }
}
