/**
 * The participant view rebuilt by `recalculateParticipants`
 * (hooks/useRoom.ts:201-273): a pure function of the local state, the two
 * directory snapshots and the received streams.
 */
module View {
  import opened Optional
  import opened Media
  import opened JsString
  import opened Signaling

  /** What the local client contributes to the view. */
  datatype LocalView = LocalView(
    userId: string,
    userName: string,
    isAudioEnabled: bool,
    isVideoEnabled: bool,
    camera: Option<Stream>,
    screen: Option<Stream>)

  datatype Projection = Projection(participants: seq<Participant>, screenSharingId: Option<string>)

  // ---------------------------------------------------------------------------
  // remoteScreens.sort((a, b) => b.createdAt - a.createdAt): a stable sort, newest first

  function Insert(x: ScreenShareData, sorted: seq<ScreenShareData>): seq<ScreenShareData>
  {
    if sorted == [] || sorted[0].createdAt <= x.createdAt then [x] + sorted
    else [sorted[0]] + Insert(x, sorted[1..])
  }

  function SortNewest(s: seq<ScreenShareData>): seq<ScreenShareData>
  {
    if s == [] then [] else Insert(s[0], SortNewest(s[1..]))
  }

  predicate NewestFirst(s: seq<ScreenShareData>)
  {
    forall i, j :: 0 <= i < j < |s| ==> s[i].createdAt >= s[j].createdAt
  }

  /** Record `i` is the newest of `s`, and the first of the newest in snapshot order. */
  predicate IsNewest(s: seq<ScreenShareData>, i: int)
  {
    && 0 <= i < |s|
    && (forall j :: 0 <= j < |s| ==> s[j].createdAt <= s[i].createdAt)
    && (forall j :: 0 <= j < i ==> s[j].createdAt < s[i].createdAt)
  }

  /**
   * The newest record of a non-empty snapshot, ties going to the one earliest
   * in snapshot order: a reference definition independent of the sort.
   */
  function NewestIndex(s: seq<ScreenShareData>): (i: nat)
    requires s != []
    ensures i < |s|
  {
    if |s| == 1 then 0
    else
      var j := NewestIndex(s[1..]) + 1;
      if s[j].createdAt <= s[0].createdAt then 0 else j
  }

  lemma {:induction false} NewestIndexIsNewest(s: seq<ScreenShareData>)
    requires s != []
    ensures IsNewest(s, NewestIndex(s))
  {
    if |s| > 1 {
      var t := s[1..];
      NewestIndexIsNewest(t);
      var j := NewestIndex(t) + 1;
      assert s[j] == t[j - 1];
      forall k | 0 < k < |s| ensures s[k].createdAt <= s[j].createdAt {
        assert s[k] == t[k - 1];
      }
      if s[0].createdAt < s[j].createdAt {
        forall k | 0 < k < j ensures s[k].createdAt < s[j].createdAt {
          assert s[k] == t[k - 1];
        }
      }
    }
  }

  /** Insertion adds exactly the one record. */
  lemma {:induction false} InsertElements(x: ScreenShareData, sorted: seq<ScreenShareData>)
    ensures |Insert(x, sorted)| == |sorted| + 1
    ensures multiset(Insert(x, sorted)) == multiset(sorted) + multiset{x}
  {
    if sorted != [] && x.createdAt < sorted[0].createdAt {
      InsertElements(x, sorted[1..]);
      assert sorted == [sorted[0]] + sorted[1..];
    }
  }

  /** A record no older than every element of a newest-first list can go in front of it. */
  lemma ConsNewestFirst(a: ScreenShareData, r: seq<ScreenShareData>)
    requires NewestFirst(r) && forall j :: 0 <= j < |r| ==> r[j].createdAt <= a.createdAt
    ensures NewestFirst([a] + r)
  {
    var c := [a] + r;
    forall i, j | 0 <= i < j < |c| ensures c[i].createdAt >= c[j].createdAt {
      assert c[j] == r[j - 1];
      if i > 0 { assert c[i] == r[i - 1]; }
    }
  }

  /** Insertion introduces no record newer than the ones it was given. */
  lemma {:induction false} InsertBelow(x: ScreenShareData, sorted: seq<ScreenShareData>, top: int)
    requires x.createdAt <= top && forall j :: 0 <= j < |sorted| ==> sorted[j].createdAt <= top
    ensures forall j :: 0 <= j < |Insert(x, sorted)| ==> Insert(x, sorted)[j].createdAt <= top
  {
    var r := Insert(x, sorted);
    if sorted == [] || sorted[0].createdAt <= x.createdAt {
      forall j | 0 < j < |r| ensures r[j].createdAt <= top {
        assert r[j] == sorted[j - 1];
      }
    } else {
      var tail := sorted[1..];
      forall j | 0 <= j < |tail| ensures tail[j].createdAt <= top {
        assert tail[j] == sorted[j + 1];
      }
      InsertBelow(x, tail, top);
      forall j | 0 < j < |r| ensures r[j].createdAt <= top {
        assert r[j] == Insert(x, tail)[j - 1];
      }
    }
  }

  /** Insertion into a newest-first list keeps it newest-first. */
  lemma {:induction false} InsertKeepsOrder(x: ScreenShareData, sorted: seq<ScreenShareData>)
    requires NewestFirst(sorted)
    ensures NewestFirst(Insert(x, sorted))
  {
    if sorted == [] || sorted[0].createdAt <= x.createdAt {
      ConsNewestFirst(x, sorted);
    } else {
      var tail := sorted[1..];
      assert NewestFirst(tail) by {
        forall i, j | 0 <= i < j < |tail| ensures tail[i].createdAt >= tail[j].createdAt {
          assert tail[i] == sorted[i + 1] && tail[j] == sorted[j + 1];
        }
      }
      InsertKeepsOrder(x, tail);
      forall j | 0 <= j < |tail| ensures tail[j].createdAt <= sorted[0].createdAt {
        assert tail[j] == sorted[j + 1];
      }
      InsertBelow(x, tail, sorted[0].createdAt);
      ConsNewestFirst(sorted[0], Insert(x, tail));
    }
  }

  /** The sort orders newest first. */
  lemma {:induction false} SortNewestOrders(s: seq<ScreenShareData>)
    ensures NewestFirst(SortNewest(s))
  {
    if s != [] {
      SortNewestOrders(s[1..]);
      InsertKeepsOrder(s[0], SortNewest(s[1..]));
    }
  }

  /** The sort keeps exactly the records it was given. */
  lemma {:induction false} SortNewestElements(s: seq<ScreenShareData>)
    ensures multiset(SortNewest(s)) == multiset(s)
    ensures |SortNewest(s)| == |s|
  {
    if s != [] {
      var tail := s[1..];
      SortNewestElements(tail);
      InsertElements(s[0], SortNewest(tail));
      assert s == [s[0]] + tail;
      assert multiset(s) == multiset(tail) + multiset{s[0]};
    }
  }

  /** The sort returns the same records, newest first. */
  lemma SortNewestSorts(s: seq<ScreenShareData>)
    ensures NewestFirst(SortNewest(s))
    ensures multiset(SortNewest(s)) == multiset(s)
    ensures |SortNewest(s)| == |s|
  {
    SortNewestOrders(s);
    SortNewestElements(s);
  }

  /** The head of the sorted list is the record `NewestIndex` picks. */
  lemma {:induction false} SortNewestHead(s: seq<ScreenShareData>)
    requires s != []
    ensures |SortNewest(s)| == |s| && SortNewest(s)[0] == s[NewestIndex(s)]
  {
    var t := s[1..];
    InsertElements(s[0], SortNewest(t));
    SortNewestSorts(t);
    if t != [] {
      SortNewestHead(t);
      assert s[NewestIndex(t) + 1] == t[NewestIndex(t)];
    }
  }

  // ---------------------------------------------------------------------------
  // The tiles

  function StreamOf(streams: map<string, Stream>, key: string): Option<Stream>
  {
    if key in streams then Some(streams[key]) else None
  }

  function SelfTile(l: LocalView): Participant
  {
    Participant(l.userId, l.userName, true, l.isAudioEnabled, l.isVideoEnabled, false, l.camera, 0)
  }

  function OwnScreenTile(l: LocalView, screen: Stream, now: int): Participant
  {
    Participant(ScreenKey(l.userId), l.userName + " (You)", true, HasAudio(screen), true, true, Some(screen), now)
  }

  function PeerTile(p: ParticipantData, streams: map<string, Stream>): Participant
  {
    Participant(p.id, p.name, false, p.isAudioEnabled, p.isVideoEnabled, false, StreamOf(streams, p.id), p.joinedAt)
  }

  function ScreenTile(s: ScreenShareData, streams: map<string, Stream>): Participant
  {
    Participant(ScreenKey(s.id), s.name, false, s.isAudioEnabled, true, true, StreamOf(streams, ScreenKey(s.id)), s.createdAt)
  }

  /** One remote tile per directory record other than my own, in snapshot order. */
  function PeerTiles(me: string, data: seq<ParticipantData>, streams: map<string, Stream>): (r: seq<Participant>)
    ensures forall t :: t in r ==> exists p :: p in data && p.id != me && t == PeerTile(p, streams)
    ensures forall p :: p in data && p.id != me ==> PeerTile(p, streams) in r
  {
    if data == [] then []
    else (if data[0].id == me then [] else [PeerTile(data[0], streams)]) + PeerTiles(me, data[1..], streams)
  }

  /** One remote screen tile per screen record other than my own, in the given order. */
  function ScreenTiles(me: string, screens: seq<ScreenShareData>, streams: map<string, Stream>): (r: seq<Participant>)
    ensures forall t :: t in r ==> exists s :: s in screens && s.id != me && t == ScreenTile(s, streams)
    ensures forall s :: s in screens && s.id != me ==> ScreenTile(s, streams) in r
  {
    if screens == [] then []
    else (if screens[0].id == me then [] else [ScreenTile(screens[0], streams)]) + ScreenTiles(me, screens[1..], streams)
  }

  /** Peer tiles distribute over concatenation: each record's tile stays at its record's place. */
  lemma {:induction false} PeerTilesAppend(me: string, a: seq<ParticipantData>, b: seq<ParticipantData>, streams: map<string, Stream>)
    ensures PeerTiles(me, a + b, streams) == PeerTiles(me, a, streams) + PeerTiles(me, b, streams)
  {
    if a == [] {
      assert a + b == b;
    } else {
      assert (a + b)[1..] == a[1..] + b;
      PeerTilesAppend(me, a[1..], b, streams);
    }
  }

  /** Screen tiles distribute over concatenation likewise. */
  lemma {:induction false} ScreenTilesAppend(me: string, a: seq<ScreenShareData>, b: seq<ScreenShareData>, streams: map<string, Stream>)
    ensures ScreenTiles(me, a + b, streams) == ScreenTiles(me, a, streams) + ScreenTiles(me, b, streams)
  {
    if a == [] {
      assert a + b == b;
    } else {
      assert (a + b)[1..] == a[1..] + b;
      ScreenTilesAppend(me, a[1..], b, streams);
    }
  }

  /** Without my own record, there is exactly one peer tile per record, at the record's position. */
  lemma {:induction false} PeerTilesPositions(me: string, data: seq<ParticipantData>, streams: map<string, Stream>)
    requires forall i :: 0 <= i < |data| ==> data[i].id != me
    ensures |PeerTiles(me, data, streams)| == |data|
    ensures forall i :: 0 <= i < |data| ==> PeerTiles(me, data, streams)[i] == PeerTile(data[i], streams)
  {
    if data != [] {
      var rest := PeerTiles(me, data[1..], streams);
      PeerTilesPositions(me, data[1..], streams);
      assert PeerTiles(me, data, streams) == [PeerTile(data[0], streams)] + rest;
      forall i | 1 <= i < |data| ensures PeerTiles(me, data, streams)[i] == PeerTile(data[i], streams) {
        assert data[1..][i - 1] == data[i];
      }
    }
  }

  /** Tiles ordered by non-increasing `joinedAt`. */
  predicate JoinedNewestFirst(ts: seq<Participant>)
  {
    forall i, j :: 0 <= i < j < |ts| ==> ts[i].joinedAt >= ts[j].joinedAt
  }

  /** No screen tile is newer than the records it comes from. */
  lemma {:induction false} ScreenTilesBelow(me: string, screens: seq<ScreenShareData>, streams: map<string, Stream>, top: int)
    requires forall j :: 0 <= j < |screens| ==> screens[j].createdAt <= top
    ensures forall j :: 0 <= j < |ScreenTiles(me, screens, streams)| ==> ScreenTiles(me, screens, streams)[j].joinedAt <= top
  {
    if screens != [] {
      var tail := screens[1..];
      var rest := ScreenTiles(me, tail, streams);
      forall j | 0 <= j < |tail| ensures tail[j].createdAt <= top {
        assert tail[j] == screens[j + 1];
      }
      ScreenTilesBelow(me, tail, streams, top);
      var head: seq<Participant> := if screens[0].id == me then [] else [ScreenTile(screens[0], streams)];
      assert ScreenTiles(me, screens, streams) == head + rest;
      forall j | 0 <= j < |head + rest| ensures (head + rest)[j].joinedAt <= top {
        if j >= |head| { assert (head + rest)[j] == rest[j - |head|]; }
      }
    }
  }

  /** Screen tiles of a newest-first list are ordered by non-increasing `joinedAt`. */
  lemma {:induction false} ScreenTilesNewestFirst(me: string, sorted: seq<ScreenShareData>, streams: map<string, Stream>)
    requires NewestFirst(sorted)
    ensures JoinedNewestFirst(ScreenTiles(me, sorted, streams))
  {
    if sorted != [] {
      var tail := sorted[1..];
      var rest := ScreenTiles(me, tail, streams);
      assert NewestFirst(tail) by {
        forall i, j | 0 <= i < j < |tail| ensures tail[i].createdAt >= tail[j].createdAt {
          assert tail[i] == sorted[i + 1] && tail[j] == sorted[j + 1];
        }
      }
      ScreenTilesNewestFirst(me, tail, streams);
      if sorted[0].id != me {
        forall j | 0 <= j < |tail| ensures tail[j].createdAt <= sorted[0].createdAt {
          assert tail[j] == sorted[j + 1];
        }
        ScreenTilesBelow(me, tail, streams, sorted[0].createdAt);
        var ts := [ScreenTile(sorted[0], streams)] + rest;
        assert ScreenTiles(me, sorted, streams) == ts;
        forall i, j | 0 <= i < j < |ts| ensures ts[i].joinedAt >= ts[j].joinedAt {
          assert ts[j] == rest[j - 1];
          if i > 0 { assert ts[i] == rest[i - 1]; }
        }
      } else {
        assert ScreenTiles(me, sorted, streams) == rest;
      }
    }
  }

  function LocalTiles(l: LocalView, now: int): seq<Participant>
  {
    [SelfTile(l)] + (if l.screen.Some? then [OwnScreenTile(l, l.screen.value, now)] else [])
  }

  /** The remote tiles: other participants in snapshot order, then other sharers in `sorted` order. */
  function RemoteTiles(me: string, data: seq<ParticipantData>, sorted: seq<ScreenShareData>, streams: map<string, Stream>): seq<Participant>
  {
    PeerTiles(me, data, streams) + ScreenTiles(me, sorted, streams)
  }

  /** The id to feature: `<id>_screen` of the first sorted record (both branches of useRoom.ts:252 agree). */
  function Featured(me: string, sorted: seq<ScreenShareData>): Option<string>
  {
    if |sorted| > 0 then
      var newest := sorted[0];
      Some(if newest.id == me then ScreenKey(me) else ScreenKey(newest.id))
    else None
  }

  /** `recalculateParticipants`: the tiles and the id of the screen share to feature. */
  function Project(l: LocalView, data: seq<ParticipantData>, screens: seq<ScreenShareData>,
                   streams: map<string, Stream>, now: int): Projection
  {
    var sorted := SortNewest(screens);
    Projection(LocalTiles(l, now) + RemoteTiles(l.userId, data, sorted, streams), Featured(l.userId, sorted))
  }

  /** Self is always the first tile, local, not a screen, with joinedAt 0. */
  lemma ProjectSelfFirst(l: LocalView, data: seq<ParticipantData>, screens: seq<ScreenShareData>, streams: map<string, Stream>, now: int)
    ensures var ps := Project(l, data, screens, streams, now).participants;
      |ps| >= 1 && ps[0].id == l.userId && ps[0].isLocal && !ps[0].isScreenSharing &&
      ps[0].joinedAt == 0 && ps[0].stream == l.camera
  {
  }

  lemma RemoteNotLocal(me: string, data: seq<ParticipantData>, sorted: seq<ScreenShareData>, streams: map<string, Stream>)
    ensures forall i :: 0 <= i < |RemoteTiles(me, data, sorted, streams)| ==> !RemoteTiles(me, data, sorted, streams)[i].isLocal
  {
    var remote := RemoteTiles(me, data, sorted, streams);
    forall i | 0 <= i < |remote| ensures !remote[i].isLocal {
      assert remote[i] in PeerTiles(me, data, streams) || remote[i] in ScreenTiles(me, sorted, streams);
    }
  }

  /**
   * The second tile is a local one exactly when I share my screen, and it is
   * then `<me>_screen` with my screen stream; every later tile is remote.
   */
  lemma ProjectLocalTiles(l: LocalView, data: seq<ParticipantData>, screens: seq<ScreenShareData>, streams: map<string, Stream>, now: int)
    ensures var ps := Project(l, data, screens, streams, now).participants;
      && ((|ps| >= 2 && ps[1].isLocal) <==> l.screen.Some?)
      && (l.screen.Some? ==> ps[1].id == ScreenKey(l.userId) && ps[1].isScreenSharing && ps[1].stream == l.screen)
      && forall i :: |LocalTiles(l, now)| <= i < |ps| ==> !ps[i].isLocal
  {
    var ps := Project(l, data, screens, streams, now).participants;
    var local := LocalTiles(l, now);
    var remote := RemoteTiles(l.userId, data, SortNewest(screens), streams);
    assert ps == local + remote;
    RemoteNotLocal(l.userId, data, SortNewest(screens), streams);
    forall i | |local| <= i < |ps| ensures !ps[i].isLocal {
      assert ps[i] == remote[i - |local|];
    }
    if l.screen.None? && |ps| >= 2 {
      assert ps[1] == remote[0];
    }
  }

  /** The screen tiles of the view come newest first: by non-increasing `joinedAt`. */
  lemma ProjectScreensNewestFirst(l: LocalView, data: seq<ParticipantData>, screens: seq<ScreenShareData>, streams: map<string, Stream>, now: int)
    ensures var ps := Project(l, data, screens, streams, now).participants;
      var from := |LocalTiles(l, now)| + |PeerTiles(l.userId, data, streams)|;
      from <= |ps| && JoinedNewestFirst(ps[from..])
  {
    SortNewestSorts(screens);
    ScreenTilesNewestFirst(l.userId, SortNewest(screens), streams);
    var ps := Project(l, data, screens, streams, now).participants;
    var from := |LocalTiles(l, now)| + |PeerTiles(l.userId, data, streams)|;
    var ts := ScreenTiles(l.userId, SortNewest(screens), streams);
    assert ps == LocalTiles(l, now) + PeerTiles(l.userId, data, streams) + ts;
    assert ps[from..] == ts;
  }

  /** Tile `t` is the tile of another participant's record or of another sharer's record. */
  predicate FromDirectory(t: Participant, me: string, data: seq<ParticipantData>, screens: seq<ScreenShareData>, streams: map<string, Stream>)
  {
    (exists p :: p in data && p.id != me && t == PeerTile(p, streams)) ||
    (exists s :: s in screens && s.id != me && t == ScreenTile(s, streams))
  }

  /** Every other participant and every other sharer has its tile, with the stream received under its key. */
  lemma ProjectRemoteTilesComplete(l: LocalView, data: seq<ParticipantData>, screens: seq<ScreenShareData>, streams: map<string, Stream>, now: int)
    ensures var ps := Project(l, data, screens, streams, now).participants;
      && (forall p :: p in data && p.id != l.userId ==> PeerTile(p, streams) in ps)
      && (forall s :: s in screens && s.id != l.userId ==> ScreenTile(s, streams) in ps)
  {
    var sorted := SortNewest(screens);
    SortNewestSorts(screens);
    forall s | s in screens && s.id != l.userId
      ensures ScreenTile(s, streams) in ScreenTiles(l.userId, sorted, streams)
    {
      assert s in multiset(sorted);
    }
  }

  /**
   * Every tile after the local ones comes from another participant's or
   * another sharer's record; my id never appears among them, nor my screen
   * key on a screen tile (for an id not itself shaped like a screen key).
   */
  lemma ProjectRemoteTilesSound(l: LocalView, data: seq<ParticipantData>, screens: seq<ScreenShareData>, streams: map<string, Stream>, now: int)
    requires !EndsWith(l.userId, ScreenMarker)
    ensures var ps := Project(l, data, screens, streams, now).participants;
      forall i :: |LocalTiles(l, now)| <= i < |ps| ==>
        && FromDirectory(ps[i], l.userId, data, screens, streams)
        && ps[i].id != l.userId
        && (ps[i].isScreenSharing ==> ps[i].id != ScreenKey(l.userId))
  {
    var ps := Project(l, data, screens, streams, now).participants;
    var sorted := SortNewest(screens);
    SortNewestSorts(screens);
    var remote := RemoteTiles(l.userId, data, sorted, streams);
    var n := |LocalTiles(l, now)|;
    assert ps == LocalTiles(l, now) + remote;
    forall i | n <= i < |ps|
      ensures FromDirectory(ps[i], l.userId, data, screens, streams)
      ensures ps[i].id != l.userId && (ps[i].isScreenSharing ==> ps[i].id != ScreenKey(l.userId))
    {
      assert ps[i] == remote[i - n];
      RemoteTile(remote[i - n], l.userId, data, screens, sorted, streams);
    }
  }

  lemma RemoteTile(t: Participant, me: string, data: seq<ParticipantData>, screens: seq<ScreenShareData>,
                   sorted: seq<ScreenShareData>, streams: map<string, Stream>)
    requires !EndsWith(me, ScreenMarker) && multiset(sorted) == multiset(screens)
    requires t in RemoteTiles(me, data, sorted, streams)
    ensures FromDirectory(t, me, data, screens, streams)
    ensures t.id != me && (t.isScreenSharing ==> t.id != ScreenKey(me))
  {
    if t !in PeerTiles(me, data, streams) {
      var s :| s in sorted && s.id != me && t == ScreenTile(s, streams);
      assert s in multiset(sorted);
      assert EndsWith(ScreenKey(s.id), ScreenMarker) by {
        assert ScreenKey(s.id)[|s.id|..] == ScreenMarker;
      }
      if ScreenKey(s.id) == ScreenKey(me) { ScreenKeyInjective(s.id, me); }
    }
  }

  /**
   * The featured screen share is `<id>_screen` of the newest record (the
   * first of the newest in snapshot order), or none without records.
   */
  lemma ProjectScreenSharingId(l: LocalView, data: seq<ParticipantData>, screens: seq<ScreenShareData>, streams: map<string, Stream>, now: int)
    ensures var id := Project(l, data, screens, streams, now).screenSharingId;
      && (id.None? <==> screens == [])
      && (screens != [] ==> id == Some(ScreenKey(screens[NewestIndex(screens)].id)))
  {
    SortNewestSorts(screens);
    if screens != [] {
      SortNewestHead(screens);
    }
  }
}
