/**
 * What each handler of the session coordinator in hooks/useRoom.ts does to
 * the session registry, the received-stream table and the mailbox pushes,
 * as functions of the state before it; and what that means: the initiator
 * rule, the cleanup guarantees, the negotiation guards.  The class in
 * coordinator.dfy performs the same updates step by step.
 */
module RoomSpec {
  import opened Optional
  import opened JsString
  import opened Media
  import opened Signaling
  import opened Sessions

  type Registry = map<string, Session>
  type StreamTable = map<string, Stream>

  /** The local client's part of the coordinator state that the handlers read. */
  datatype Local = Local(userId: string, roomId: string, userName: string, camera: Option<Stream>, screen: Option<Stream>)

  /** Registry, received streams and mailbox pushes after a directory snapshot. */
  datatype Outcome = Outcome(sessions: Registry, streams: StreamTable, outbox: seq<Push>)

  /** Registry and mailbox pushes after an inbound signal. */
  datatype Exchange = Exchange(sessions: Registry, outbox: seq<Push>)

  /** The camera-mesh rule of useRoom.ts:437-438: I initiate with `peer` when my id sorts after it. */
  predicate Initiates(me: string, peer: string)
  {
    peer != me && Less(peer, me)
  }

  /** For two different ids exactly one side initiates, and both sides compute the same answer. */
  lemma InitiatorUnique(a: string, b: string)
    requires a != b
    ensures Initiates(a, b) != Initiates(b, a)
  {
    LessTrichotomy(a, b);
  }

  /** The offer an initiator pushes to `signals/<key>` (useRoom.ts:445-450, 492-497). */
  function OfferTo(l: Local, key: string): Push
  {
    Push(InboxPath(l.roomId, key), SignalData(Offer, l.userId, l.userName))
  }

  function OfferPushes(l: Local, keys: seq<string>): (r: seq<Push>)
    ensures |r| == |keys|
  {
    seq(|keys|, i requires 0 <= i < |keys| => OfferTo(l, keys[i]))
  }

  /** How many pushes of this kind went to this mailbox. */
  function CountTo(pushes: seq<Push>, path: string, kind: SignalKind): nat
  {
    if pushes == [] then 0
    else (if pushes[0].path == path && pushes[0].signal.kind == kind then 1 else 0) + CountTo(pushes[1..], path, kind)
  }

  predicate Distinct(keys: seq<string>)
  {
    forall i, j :: 0 <= i < j < |keys| ==> keys[i] != keys[j]
  }

  /** Offers to distinct keys reach each key's mailbox exactly once. */
  lemma {:induction false} OfferPushesCount(l: Local, keys: seq<string>, key: string)
    requires Distinct(keys)
    ensures CountTo(OfferPushes(l, keys), InboxPath(l.roomId, key), Offer) == if key in keys then 1 else 0
  {
    if keys != [] {
      assert OfferPushes(l, keys)[1..] == OfferPushes(l, keys[1..]);
      OfferPushesCount(l, keys[1..], key);
      if InboxPath(l.roomId, keys[0]) == InboxPath(l.roomId, key) {
        InboxPathInjective(l.roomId, keys[0], key);
        assert key !in keys[1..];
      }
      assert keys == [keys[0]] + keys[1..];
    }
  }

  /** A session that has sent its offer: `createOffer` then `setLocalDescription(offer)`. */
  function Offering(s: Session): Session
    requires s.signaling != HaveRemoteOffer
  {
    SetLocalOffer(s)
  }

  /** A camera session I initiate, sending my camera stream, replies going to `signals/<id>`. */
  function CameraOffering(l: Local, key: string): Session
  {
    Offering(NewSession(InboxPath(l.roomId, key), l.camera))
  }

  /** A screen-watch session: no stream to send, receive-only video then audio, offer sent (useRoom.ts:485-491). */
  function WatchOffering(l: Local, key: string): (s: Session)
    ensures s.signaling == HaveLocalOffer && !s.hasRemoteDescription
    ensures s.transceivers == [Transceiver(Video, RecvOnly, None), Transceiver(Audio, RecvOnly, None)]
    ensures s.replyTarget == InboxPath(l.roomId, key)
  {
    Offering(AddRecvOnly(AddRecvOnly(NewSession(InboxPath(l.roomId, key), None), Video), Audio))
  }

  // ---------------------------------------------------------------------------
  // Participants snapshot (useRoom.ts:413-458)

  /** A camera key whose peer is gone: closed, and its received stream dropped (useRoom.ts:418-422). */
  predicate StaleCameraKey(key: string, data: seq<ParticipantData>)
  {
    IsCameraKey(key) && !HasParticipant(data, key)
  }

  /** A viewer key whose viewer is gone: closed (useRoom.ts:424-431). */
  predicate StaleViewerKey(key: string, data: seq<ParticipantData>)
  {
    EndsWith(key, ViewerMarker) && !HasParticipant(data, ReplaceFirst(key, ViewerMarker, ""))
  }

  function PruneOnParticipants(reg: Registry, data: seq<ParticipantData>): Registry
  {
    map k | k in reg && !StaleCameraKey(k, data) && !StaleViewerKey(k, data) :: reg[k]
  }

  /** Only keys the loop visits (those of the registry) lose their stream. */
  function PruneStreamsOnParticipants(streams: StreamTable, reg: Registry, data: seq<ParticipantData>): StreamTable
  {
    map k | k in streams && !(k in reg && StaleCameraKey(k, data)) :: streams[k]
  }

  /**
   * The peers I open a camera session with, in snapshot order: each other id
   * that sorts below mine and has no session yet, once.
   */
  function CameraTargets(me: string, data: seq<ParticipantData>, existing: set<string>): seq<string>
  {
    if data == [] then []
    else
      var prev := CameraTargets(me, data[..|data| - 1], existing);
      var id := data[|data| - 1].id;
      if id != me && Less(id, me) && id !in existing && id !in prev then prev + [id] else prev
  }

  lemma {:induction false} CameraTargetsSpec(me: string, data: seq<ParticipantData>, existing: set<string>)
    ensures Distinct(CameraTargets(me, data, existing))
    ensures forall id :: id in CameraTargets(me, data, existing) <==>
      HasParticipant(data, id) && Initiates(me, id) && id !in existing
  {
    if data != [] {
      var init := data[..|data| - 1];
      CameraTargetsSpec(me, init, existing);
      forall id ensures HasParticipant(data, id) <==> HasParticipant(init, id) || data[|data| - 1].id == id {
        if HasParticipant(data, id) {
          var i :| 0 <= i < |data| && data[i].id == id;
          if i < |data| - 1 { assert init[i].id == id; }
        }
        if HasParticipant(init, id) {
          var i :| 0 <= i < |init| && init[i].id == id;
          assert data[i].id == id;
        }
      }
    }
  }

  /** One more directory record: its id joins the targets when I initiate with it and it is new. */
  lemma CameraTargetsStep(me: string, data: seq<ParticipantData>, existing: set<string>, i: int)
    requires 0 <= i < |data|
    ensures var prev := CameraTargets(me, data[..i], existing);
      var id := data[i].id;
      CameraTargets(me, data[..i + 1], existing) ==
        if id != me && Less(id, me) && id !in existing && id !in prev then prev + [id] else prev
  {
    assert data[..i + 1][..i] == data[..i];
  }

  /** The registry with an offering camera session added under each key. */
  function WithCameraSessions(reg: Registry, l: Local, keys: seq<string>): Registry
  {
    reg + map k | k in keys :: CameraOffering(l, k)
  }

  lemma WithCameraSessionsAppend(reg: Registry, l: Local, keys: seq<string>, key: string)
    ensures WithCameraSessions(reg, l, keys + [key]) == WithCameraSessions(reg, l, keys)[key := CameraOffering(l, key)]
  {
  }

  lemma WithCameraSessionsHas(reg: Registry, l: Local, keys: seq<string>, key: string)
    ensures key in WithCameraSessions(reg, l, keys) <==> key in reg || key in keys
  {
  }

  lemma OfferPushesAppend(l: Local, keys: seq<string>, key: string)
    ensures OfferPushes(l, keys + [key]) == OfferPushes(l, keys) + [OfferTo(l, key)]
  {
  }

  /** One iteration of the creation pass: the record opens a session exactly when it becomes a target. */
  lemma CameraPassStep(reg0: Registry, l: Local, data: seq<ParticipantData>, i: int)
    requires 0 <= i < |data|
    ensures var prev := CameraTargets(l.userId, data[..i], reg0.Keys);
      var next := CameraTargets(l.userId, data[..i + 1], reg0.Keys);
      var id := data[i].id;
      var opens := id != l.userId && Less(id, l.userId) && id !in WithCameraSessions(reg0, l, prev);
      && (opens ==>
            && WithCameraSessions(reg0, l, next) == WithCameraSessions(reg0, l, prev)[id := CameraOffering(l, id)]
            && OfferPushes(l, next) == OfferPushes(l, prev) + [OfferTo(l, id)])
      && (!opens ==> next == prev)
  {
    var prev := CameraTargets(l.userId, data[..i], reg0.Keys);
    CameraTargetsStep(l.userId, data, reg0.Keys, i);
    WithCameraSessionsAppend(reg0, l, prev, data[i].id);
    WithCameraSessionsHas(reg0, l, prev, data[i].id);
    OfferPushesAppend(l, prev, data[i].id);
  }

  /** The participants snapshot: prune, then open and offer to every peer I initiate with. */
  function OnParticipantsSpec(reg: Registry, streams: StreamTable, outbox: seq<Push>, data: seq<ParticipantData>, l: Local): Outcome
  {
    var pruned := PruneOnParticipants(reg, data);
    var targets := CameraTargets(l.userId, data, pruned.Keys);
    Outcome(WithCameraSessions(pruned, l, targets),
            PruneStreamsOnParticipants(streams, reg, data),
            outbox + OfferPushes(l, targets))
  }

  /** Every received stream under a camera key belongs to a live session. */
  predicate StreamsBacked(reg: Registry, streams: StreamTable)
  {
    forall k :: k in streams && IsCameraKey(k) ==> k in reg
  }

  /** All directory ids are plain ids (they are generated as `user_` plus base-36 digits). */
  predicate PlainIds(data: seq<ParticipantData>)
  {
    forall i :: 0 <= i < |data| ==> IsCameraKey(data[i].id)
  }

  /**
   * Camera-mesh initiation: for each id, exactly one offer goes to its
   * mailbox, and a freshly offering camera session is registered under it,
   * if and only if it is another participant that sorts below me and had no
   * surviving session; otherwise no offer goes there and the id keeps its
   * surviving session, or stays without one.
   */
  lemma CameraInitiation(reg: Registry, streams: StreamTable, outbox: seq<Push>, data: seq<ParticipantData>, l: Local, id: string)
    ensures var o := OnParticipantsSpec(reg, streams, outbox, data, l);
      var isNew := HasParticipant(data, id) && Initiates(l.userId, id) && id !in PruneOnParticipants(reg, data);
      && o.outbox[..|outbox|] == outbox
      && CountTo(o.outbox[|outbox|..], InboxPath(l.roomId, id), Offer) == (if isNew then 1 else 0)
      && (isNew ==> id in o.sessions && o.sessions[id] == CameraOffering(l, id) && o.sessions[id].signaling == HaveLocalOffer)
      && (!isNew ==> (id in o.sessions <==> id in PruneOnParticipants(reg, data))
                     && (id in o.sessions ==> o.sessions[id] == PruneOnParticipants(reg, data)[id]))
  {
    var pruned := PruneOnParticipants(reg, data);
    var targets := CameraTargets(l.userId, data, pruned.Keys);
    CameraTargetsSpec(l.userId, data, pruned.Keys);
    OfferPushesCount(l, targets, id);
    var o := OnParticipantsSpec(reg, streams, outbox, data, l);
    assert o.outbox[|outbox|..] == OfferPushes(l, targets);
  }

  /**
   * After a participants snapshot (with plain directory ids): no camera key of
   * an absent peer is left in the registry or the stream table; a viewer
   * session survives exactly when its viewer is present; every other key
   * (the `_screen` ones) keeps its session and its stream.
   */
  lemma ParticipantsCleanup(reg: Registry, streams: StreamTable, outbox: seq<Push>, data: seq<ParticipantData>, l: Local)
    requires PlainIds(data) && StreamsBacked(reg, streams)
    ensures var o := OnParticipantsSpec(reg, streams, outbox, data, l);
      && (forall k :: k in o.sessions && IsCameraKey(k) ==> HasParticipant(data, k))
      && (forall k :: k in o.streams && IsCameraKey(k) ==> HasParticipant(data, k))
      && (forall k :: k in reg && EndsWith(k, ViewerMarker) ==>
            (k in o.sessions <==> HasParticipant(data, ReplaceFirst(k, ViewerMarker, ""))))
      && (forall k :: k in reg && !IsCameraKey(k) && !EndsWith(k, ViewerMarker) ==> k in o.sessions && o.sessions[k] == reg[k])
      && (forall k :: k in streams && !IsCameraKey(k) ==> k in o.streams && o.streams[k] == streams[k])
  {
    var pruned := PruneOnParticipants(reg, data);
    var targets := CameraTargets(l.userId, data, pruned.Keys);
    CameraTargetsSpec(l.userId, data, pruned.Keys);
    forall k | k in targets ensures IsCameraKey(k) && HasParticipant(data, k) {
      var i :| 0 <= i < |data| && data[i].id == k;
    }
    forall k | EndsWith(k, ViewerMarker) ensures !IsCameraKey(k) {
      EndsWithIncludes(k, ViewerMarker);
    }
  }

  /** A participants snapshot never leaves a camera stream without its session. */
  lemma ParticipantsKeepStreamsBacked(reg: Registry, streams: StreamTable, outbox: seq<Push>, data: seq<ParticipantData>, l: Local)
    requires StreamsBacked(reg, streams)
    ensures var o := OnParticipantsSpec(reg, streams, outbox, data, l);
      StreamsBacked(o.sessions, o.streams)
  {
    forall k | IsCameraKey(k) ensures !EndsWith(k, ViewerMarker) {
      EndsWithIncludes(k, ViewerMarker);
    }
  }

  // ---------------------------------------------------------------------------
  // Screens snapshot (useRoom.ts:461-504)

  /** A watch key whose sharer stopped sharing: closed, and its stream dropped (useRoom.ts:467-474). */
  predicate StaleScreenKey(key: string, screens: seq<ScreenShareData>)
  {
    EndsWith(key, ScreenMarker) && !HasScreen(screens, ReplaceFirst(key, ScreenMarker, ""))
  }

  function PruneOnScreens(reg: Registry, screens: seq<ScreenShareData>): Registry
  {
    map k | k in reg && !StaleScreenKey(k, screens) :: reg[k]
  }

  function PruneStreamsOnScreens(streams: StreamTable, reg: Registry, screens: seq<ScreenShareData>): StreamTable
  {
    map k | k in streams && !(k in reg && StaleScreenKey(k, screens)) :: streams[k]
  }

  /** The watch keys I open, in snapshot order: `<id>_screen` of each other sharer without one, once. */
  function ScreenTargets(me: string, screens: seq<ScreenShareData>, existing: set<string>): seq<string>
  {
    if screens == [] then []
    else
      var prev := ScreenTargets(me, screens[..|screens| - 1], existing);
      var id := screens[|screens| - 1].id;
      if id != me && ScreenKey(id) !in existing && ScreenKey(id) !in prev then prev + [ScreenKey(id)] else prev
  }

  lemma {:induction false} ScreenTargetsSpec(me: string, screens: seq<ScreenShareData>, existing: set<string>)
    ensures Distinct(ScreenTargets(me, screens, existing))
    ensures forall key :: key in ScreenTargets(me, screens, existing) ==>
      exists i :: 0 <= i < |screens| && screens[i].id != me && key == ScreenKey(screens[i].id) && key !in existing
    ensures forall i :: 0 <= i < |screens| && screens[i].id != me && ScreenKey(screens[i].id) !in existing ==>
      ScreenKey(screens[i].id) in ScreenTargets(me, screens, existing)
  {
    ScreenTargetsDistinct(me, screens, existing);
    ScreenTargetsSound(me, screens, existing);
    ScreenTargetsComplete(me, screens, existing);
  }

  lemma {:induction false} ScreenTargetsDistinct(me: string, screens: seq<ScreenShareData>, existing: set<string>)
    ensures Distinct(ScreenTargets(me, screens, existing))
  {
    if screens != [] {
      ScreenTargetsDistinct(me, screens[..|screens| - 1], existing);
    }
  }

  lemma {:induction false} ScreenTargetsSound(me: string, screens: seq<ScreenShareData>, existing: set<string>)
    ensures forall key :: key in ScreenTargets(me, screens, existing) ==>
      exists i :: 0 <= i < |screens| && screens[i].id != me && key == ScreenKey(screens[i].id) && key !in existing
  {
    if screens != [] {
      var init := screens[..|screens| - 1];
      ScreenTargetsSound(me, init, existing);
      forall key | key in ScreenTargets(me, screens, existing)
        ensures exists i :: 0 <= i < |screens| && screens[i].id != me && key == ScreenKey(screens[i].id) && key !in existing
      {
        if key in ScreenTargets(me, init, existing) {
          var i :| 0 <= i < |init| && init[i].id != me && key == ScreenKey(init[i].id) && key !in existing;
          assert screens[i] == init[i];
        } else {
          assert screens[|screens| - 1].id != me && key == ScreenKey(screens[|screens| - 1].id);
        }
      }
    }
  }

  lemma {:induction false} ScreenTargetsComplete(me: string, screens: seq<ScreenShareData>, existing: set<string>)
    ensures forall i :: 0 <= i < |screens| && screens[i].id != me && ScreenKey(screens[i].id) !in existing ==>
      ScreenKey(screens[i].id) in ScreenTargets(me, screens, existing)
  {
    if screens != [] {
      var init := screens[..|screens| - 1];
      ScreenTargetsComplete(me, init, existing);
      forall i | 0 <= i < |screens| && screens[i].id != me && ScreenKey(screens[i].id) !in existing
        ensures ScreenKey(screens[i].id) in ScreenTargets(me, screens, existing)
      {
        if i < |init| { assert init[i] == screens[i]; }
      }
    }
  }

  /** One more screen record: its watch key joins the targets when it is another sharer's and new. */
  lemma ScreenTargetsStep(me: string, screens: seq<ScreenShareData>, existing: set<string>, i: int)
    requires 0 <= i < |screens|
    ensures var prev := ScreenTargets(me, screens[..i], existing);
      var key := ScreenKey(screens[i].id);
      ScreenTargets(me, screens[..i + 1], existing) ==
        if screens[i].id != me && key !in existing && key !in prev then prev + [key] else prev
  {
    assert screens[..i + 1][..i] == screens[..i];
  }

  /** The registry with an offering watch session added under each key. */
  function WithWatchSessions(reg: Registry, l: Local, keys: seq<string>): Registry
  {
    reg + map k | k in keys :: WatchOffering(l, k)
  }

  lemma WithWatchSessionsAppend(reg: Registry, l: Local, keys: seq<string>, key: string)
    ensures WithWatchSessions(reg, l, keys + [key]) == WithWatchSessions(reg, l, keys)[key := WatchOffering(l, key)]
  {
  }

  lemma WithWatchSessionsHas(reg: Registry, l: Local, keys: seq<string>, key: string)
    ensures key in WithWatchSessions(reg, l, keys) <==> key in reg || key in keys
  {
  }

  /** One iteration of the watch pass: the record opens a watch session exactly when its key becomes a target. */
  lemma ScreenPassStep(reg0: Registry, l: Local, screens: seq<ScreenShareData>, i: int)
    requires 0 <= i < |screens|
    ensures var prev := ScreenTargets(l.userId, screens[..i], reg0.Keys);
      var next := ScreenTargets(l.userId, screens[..i + 1], reg0.Keys);
      var key := ScreenKey(screens[i].id);
      var opens := screens[i].id != l.userId && key !in WithWatchSessions(reg0, l, prev);
      && (opens ==>
            && WithWatchSessions(reg0, l, next) == WithWatchSessions(reg0, l, prev)[key := WatchOffering(l, key)]
            && OfferPushes(l, next) == OfferPushes(l, prev) + [OfferTo(l, key)])
      && (!opens ==> next == prev)
  {
    var prev := ScreenTargets(l.userId, screens[..i], reg0.Keys);
    var key := ScreenKey(screens[i].id);
    ScreenTargetsStep(l.userId, screens, reg0.Keys, i);
    WithWatchSessionsAppend(reg0, l, prev, key);
    WithWatchSessionsHas(reg0, l, prev, key);
    OfferPushesAppend(l, prev, key);
  }

  function OnScreensSpec(reg: Registry, streams: StreamTable, outbox: seq<Push>, screens: seq<ScreenShareData>, l: Local): Outcome
  {
    var pruned := PruneOnScreens(reg, screens);
    var targets := ScreenTargets(l.userId, screens, pruned.Keys);
    Outcome(WithWatchSessions(pruned, l, targets),
            PruneStreamsOnScreens(streams, reg, screens),
            outbox + OfferPushes(l, targets))
  }

  /** Screen-share ids are plain too. */
  predicate PlainScreenIds(screens: seq<ScreenShareData>)
  {
    forall i :: 0 <= i < |screens| ==> !Includes(screens[i].id, ScreenMarker)
  }

  /**
   * After a screens snapshot: every `O_screen` key whose owner O has no
   * screen record is gone from the registry and the stream table (and, with
   * plain ids, every surviving or new watch key has a sharer); every key not
   * ending in `_screen` keeps its session and stream.
   */
  lemma ScreensCleanup(reg: Registry, streams: StreamTable, outbox: seq<Push>, screens: seq<ScreenShareData>, l: Local)
    ensures var o := OnScreensSpec(reg, streams, outbox, screens, l);
      && (forall k :: k in reg && StaleScreenKey(k, screens) ==> k !in PruneOnScreens(reg, screens) && k !in o.streams)
      && (forall k :: k in reg && !EndsWith(k, ScreenMarker) ==> k in o.sessions && o.sessions[k] == reg[k])
      && (forall k :: k in streams && !EndsWith(k, ScreenMarker) ==> k in o.streams && o.streams[k] == streams[k])
      && (PlainScreenIds(screens) ==> forall k :: k in o.sessions && EndsWith(k, ScreenMarker) ==>
            HasScreen(screens, ReplaceFirst(k, ScreenMarker, "")))
  {
    var pruned := PruneOnScreens(reg, screens);
    var targets := ScreenTargets(l.userId, screens, pruned.Keys);
    ScreenTargetsSpec(l.userId, screens, pruned.Keys);
    forall k | k in targets
      ensures EndsWith(k, ScreenMarker)
      ensures PlainScreenIds(screens) ==> HasScreen(screens, ReplaceFirst(k, ScreenMarker, ""))
    {
      var i :| 0 <= i < |screens| && screens[i].id != l.userId && k == ScreenKey(screens[i].id) && k !in pruned.Keys;
      assert k[|screens[i].id|..] == ScreenMarker;
      if PlainScreenIds(screens) {
        StripMarker(screens[i].id, ScreenMarker);
      }
    }
  }

  /**
   * A screens snapshot keeps every session that is not stale, watch sessions
   * of sharers who are still sharing included, and the stream of every key
   * whose session was not pruned.
   */
  lemma ScreensKeepSurvivors(reg: Registry, streams: StreamTable, outbox: seq<Push>, screens: seq<ScreenShareData>, l: Local)
    ensures var o := OnScreensSpec(reg, streams, outbox, screens, l);
      && (forall k :: k in reg && !StaleScreenKey(k, screens) ==> k in o.sessions && o.sessions[k] == reg[k])
      && (forall k :: k in streams && !(k in reg && StaleScreenKey(k, screens)) ==> k in o.streams && o.streams[k] == streams[k])
  {
    var pruned := PruneOnScreens(reg, screens);
    ScreenTargetsSpec(l.userId, screens, pruned.Keys);
  }

  /** A screens snapshot never leaves a camera stream without its session. */
  lemma ScreensKeepStreamsBacked(reg: Registry, streams: StreamTable, outbox: seq<Push>, screens: seq<ScreenShareData>, l: Local)
    requires StreamsBacked(reg, streams)
    ensures var o := OnScreensSpec(reg, streams, outbox, screens, l);
      StreamsBacked(o.sessions, o.streams)
  {
    forall k | IsCameraKey(k) ensures !EndsWith(k, ScreenMarker) {
      EndsWithIncludes(k, ScreenMarker);
    }
  }

  /**
   * Every other sharer ends up with a watch session; one that had none gets a
   * new one with receive-only video and audio, which has sent exactly one
   * offer, to `signals/<sharer>_screen`.
   */
  lemma ScreenWatchInitiation(reg: Registry, streams: StreamTable, outbox: seq<Push>, screens: seq<ScreenShareData>, l: Local, i: int)
    requires 0 <= i < |screens| && screens[i].id != l.userId
    ensures var o := OnScreensSpec(reg, streams, outbox, screens, l);
      var key := ScreenKey(screens[i].id);
      var isNew := key !in PruneOnScreens(reg, screens);
      && key in o.sessions
      && o.outbox[..|outbox|] == outbox
      && CountTo(o.outbox[|outbox|..], InboxPath(l.roomId, key), Offer) == (if isNew then 1 else 0)
      && (isNew ==> o.sessions[key].transceivers == [Transceiver(Video, RecvOnly, None), Transceiver(Audio, RecvOnly, None)]
                    && o.sessions[key].signaling == HaveLocalOffer)
  {
    var pruned := PruneOnScreens(reg, screens);
    var targets := ScreenTargets(l.userId, screens, pruned.Keys);
    ScreenTargetsSpec(l.userId, screens, pruned.Keys);
    var key := ScreenKey(screens[i].id);
    OfferPushesCount(l, targets, key);
    var o := OnScreensSpec(reg, streams, outbox, screens, l);
    assert o.outbox[|outbox|..] == OfferPushes(l, targets);
    if key !in pruned {
      forall j | 0 <= j < |targets| && targets[j] == key ensures true { }
    } else {
      assert key !in targets;
    }
  }

  // ---------------------------------------------------------------------------
  // Inbound signal (useRoom.ts:333-403)

  function AnswerFrom(l: Local, route: Routing): Push
  {
    Push(route.targetInbox, SignalData(Answer, route.replySenderId, l.userName))
  }

  function HandleSignalSpec(reg: Registry, outbox: seq<Push>, l: Local, data: Option<SignalData>,
                            isScreenInbox: bool, accepted: bool): Exchange
  {
    if data.None? then Exchange(reg, outbox)
    else
      var route := Route(l.userId, l.roomId, data.value.senderId, isScreenInbox);
      var key := route.key;
      match data.value.kind
      case Offer =>
        var toSend := if isScreenInbox then l.screen else l.camera;
        var s := if key in reg then reg[key] else NewSession(route.targetInbox, toSend);
        if accepted then Exchange(reg[key := AnswerOffer(s)], outbox + [AnswerFrom(l, route)])
        else Exchange(reg[key := s], outbox)
      case Answer =>
        if key in reg && reg[key].signaling != Stable then Exchange(reg[key := ApplyAnswer(reg[key], accepted)], outbox)
        else Exchange(reg, outbox)
      case Candidate =>
        if key in reg && reg[key].hasRemoteDescription then Exchange(reg[key := ApplyCandidate(reg[key], accepted)], outbox)
        else Exchange(reg, outbox)
      case Unrecognised => Exchange(reg, outbox)
  }

  /** A signal only ever touches the session its routing names; the mailbox gets at most one push. */
  lemma SignalIsolated(reg: Registry, outbox: seq<Push>, l: Local, data: Option<SignalData>, isScreenInbox: bool, accepted: bool, k: string)
    requires data.None? || k != Route(l.userId, l.roomId, data.value.senderId, isScreenInbox).key
    ensures var e := HandleSignalSpec(reg, outbox, l, data, isScreenInbox, accepted);
      && (k in e.sessions <==> k in reg)
      && (k in reg ==> e.sessions[k] == reg[k])
      && (e.outbox == outbox || (|e.outbox| == |outbox| + 1 && e.outbox[..|outbox|] == outbox))
  {
  }

  /**
   * An accepted offer leaves its session stable with a remote description and
   * pushes exactly one answer, to the routed mailbox with the routed sender id;
   * a session it had to create sends the screen stream on the screen inbox and
   * the camera stream otherwise.
   */
  lemma OfferConverges(reg: Registry, outbox: seq<Push>, l: Local, msg: SignalData, isScreenInbox: bool)
    requires msg.kind == Offer
    ensures var e := HandleSignalSpec(reg, outbox, l, Some(msg), isScreenInbox, true);
      var route := Route(l.userId, l.roomId, msg.senderId, isScreenInbox);
      && route.key in e.sessions
      && e.sessions[route.key].signaling == Stable && e.sessions[route.key].hasRemoteDescription
      && e.outbox == outbox + [Push(route.targetInbox, SignalData(Answer, route.replySenderId, l.userName))]
      && (route.key !in reg ==>
            e.sessions[route.key].transceivers == NewSession(route.targetInbox, if isScreenInbox then l.screen else l.camera).transceivers)
      && (route.key in reg ==> e.sessions[route.key].transceivers == reg[route.key].transceivers)
  {
  }

  /** An answer changes something only for an existing session with a pending local offer; it never pushes. */
  lemma AnswerGuarded(reg: Registry, outbox: seq<Push>, l: Local, msg: SignalData, isScreenInbox: bool, accepted: bool)
    requires msg.kind == Answer
    ensures var e := HandleSignalSpec(reg, outbox, l, Some(msg), isScreenInbox, accepted);
      var key := Route(l.userId, l.roomId, msg.senderId, isScreenInbox).key;
      && e.outbox == outbox
      && (e.sessions != reg <==> key in reg && reg[key].signaling == HaveLocalOffer && accepted)
      && (e.sessions != reg ==> e.sessions == reg[key := reg[key].(signaling := Stable, hasRemoteDescription := true)])
  {
    var e := HandleSignalSpec(reg, outbox, l, Some(msg), isScreenInbox, accepted);
    var key := Route(l.userId, l.roomId, msg.senderId, isScreenInbox).key;
    if key in reg && reg[key].signaling == HaveLocalOffer && accepted {
      assert e.sessions[key] != reg[key];
    }
  }

  /**
   * A candidate is applied only to an existing session with a remote
   * description; one arriving earlier is dropped without effect.
   */
  lemma CandidateGuarded(reg: Registry, outbox: seq<Push>, l: Local, msg: SignalData, isScreenInbox: bool, accepted: bool)
    requires msg.kind == Candidate
    ensures var e := HandleSignalSpec(reg, outbox, l, Some(msg), isScreenInbox, accepted);
      var key := Route(l.userId, l.roomId, msg.senderId, isScreenInbox).key;
      && e.outbox == outbox
      && (e.sessions != reg <==> key in reg && reg[key].hasRemoteDescription && accepted)
      && (e.sessions != reg ==> e.sessions[key].candidatesApplied == reg[key].candidatesApplied + 1)
  {
    var e := HandleSignalSpec(reg, outbox, l, Some(msg), isScreenInbox, accepted);
    var key := Route(l.userId, l.roomId, msg.senderId, isScreenInbox).key;
    if key in reg && reg[key].hasRemoteDescription && accepted {
      assert e.sessions[key] != reg[key];
    }
  }

  /**
   * An inbox holding an offer from X and then two candidates from X, for a
   * session that does not exist yet: the offer creates it and both candidates apply.
   */
  lemma OfferThenCandidates(reg: Registry, outbox: seq<Push>, l: Local, x: string, name: string, isScreenInbox: bool)
    requires Route(l.userId, l.roomId, x, isScreenInbox).key !in reg
    ensures var key := Route(l.userId, l.roomId, x, isScreenInbox).key;
      var e1 := HandleSignalSpec(reg, outbox, l, Some(SignalData(Offer, x, name)), isScreenInbox, true);
      var e2 := HandleSignalSpec(e1.sessions, e1.outbox, l, Some(SignalData(Candidate, x, name)), isScreenInbox, true);
      var e3 := HandleSignalSpec(e2.sessions, e2.outbox, l, Some(SignalData(Candidate, x, name)), isScreenInbox, true);
      key in e3.sessions && e3.sessions[key].candidatesApplied == 2 && e3.sessions[key].signaling == Stable
  {
  }

  /** The directory snapshot listing A < B, seen by A: A opens nothing and offers nothing. */
  lemma LowerIdWaits(la: Local, pa: ParticipantData, pb: ParticipantData)
    requires la.userId == pa.id && Less(pa.id, pb.id)
    ensures var oa := OnParticipantsSpec(map[], map[], [], [pa, pb], la);
      oa.outbox == [] && oa.sessions == map[]
  {
    var data := [pa, pb];
    LessAsymmetric(pa.id, pb.id);
    LessIrreflexive(pa.id);
    assert data[..1] == [pa] && [pa][..0] == [];
    assert PruneOnParticipants(map[], data).Keys == {};
    assert CameraTargets(la.userId, [pa], {}) == [];
    assert CameraTargets(la.userId, data, {}) == [];
  }

  /** The same snapshot seen by B: B opens one offering session to A and offers once. */
  lemma HigherIdOffers(lb: Local, pa: ParticipantData, pb: ParticipantData)
    requires lb.userId == pb.id && Less(pa.id, pb.id)
    ensures var ob := OnParticipantsSpec(map[], map[], [], [pa, pb], lb);
      ob.outbox == [OfferTo(lb, pa.id)] && ob.sessions == map[pa.id := CameraOffering(lb, pa.id)]
  {
    var data := [pa, pb];
    assert PruneOnParticipants(map[], data) == map[];
    assert PruneOnParticipants(map[], data).Keys == {};
    HigherIdTargets(lb.userId, pa, pb);
    assert OfferPushes(lb, [pa.id]) == [OfferTo(lb, pa.id)];
    assert WithCameraSessions(map[], lb, [pa.id]) == map[pa.id := CameraOffering(lb, pa.id)];
  }

  lemma HigherIdTargets(me: string, pa: ParticipantData, pb: ParticipantData)
    requires me == pb.id && Less(pa.id, pb.id)
    ensures CameraTargets(me, [pa, pb], {}) == [pa.id]
  {
    LessIrreflexive(pb.id);
    assert [pa, pb][..1] == [pa] && [pa][..0] == [];
    assert CameraTargets(me, [pa], {}) == [pa.id];
  }

  /**
   * Two peers A < B in the same room, both listed in the directory: only B
   * offers, A answers into B's mailbox, and after B applies the answer both
   * camera sessions are stable with remote descriptions.
   */
  lemma TwoPeerHandshake(la: Local, lb: Local, pa: ParticipantData, pb: ParticipantData)
    requires la.roomId == lb.roomId && la.userId == pa.id && lb.userId == pb.id
    requires Less(pa.id, pb.id)
    requires IsCameraKey(pa.id) && IsCameraKey(pb.id)
    requires !EndsWith(pa.id, ScreenMarker) && !EndsWith(pb.id, ScreenMarker)
    ensures var ob := OnParticipantsSpec(map[], map[], [], [pa, pb], lb);
      var oa := OnParticipantsSpec(map[], map[], [], [pa, pb], la);
      && oa.outbox == [] && oa.sessions == map[]
      && ob.outbox == [OfferTo(lb, pa.id)]
      && var ea := HandleSignalSpec(oa.sessions, oa.outbox, la, Some(ob.outbox[0].signal), false, true);
      && ea.outbox == [Push(InboxPath(la.roomId, pb.id), SignalData(Answer, pa.id, la.userName))]
      && var eb := HandleSignalSpec(ob.sessions, ob.outbox, lb, Some(ea.outbox[0].signal), false, true);
      && ea.sessions.Keys == {pb.id} && eb.sessions.Keys == {pa.id}
      && ea.sessions[pb.id].signaling == Stable && ea.sessions[pb.id].hasRemoteDescription
      && eb.sessions[pa.id].signaling == Stable && eb.sessions[pa.id].hasRemoteDescription
  {
    LowerIdWaits(la, pa, pb);
    HigherIdOffers(lb, pa, pb);
    CameraHandshakeRoutes(la.roomId, pa.id, pb.id);
    var offer := SignalData(Offer, pb.id, lb.userName);
    var ea := HandleSignalSpec(map[], [], la, Some(offer), false, true);
    assert ea.sessions == map[pb.id := AnswerOffer(NewSession(InboxPath(la.roomId, pb.id), la.camera))];
    var answer := SignalData(Answer, pa.id, la.userName);
    var eb := HandleSignalSpec(map[pa.id := CameraOffering(lb, pa.id)], [OfferTo(lb, pa.id)], lb, Some(answer), false, true);
    assert eb.sessions == map[pa.id := ApplyAnswer(CameraOffering(lb, pa.id), true)];
  }

  // ---------------------------------------------------------------------------
  // Track synchronisation (useRoom.ts:61-114) and screen-share stop (useRoom.ts:179-184)

  function SyncAll(reg: Registry, camera: Option<Stream>): Registry
  {
    map k | k in reg :: if IsCameraKey(k) then SyncSession(reg[k], camera) else reg[k]
  }

  /** The registry part-way through the sync loop: the camera sessions under `done` are synchronised. */
  function SyncSome(reg: Registry, camera: Option<Stream>, done: set<string>): Registry
  {
    map k | k in reg :: if k in done && IsCameraKey(k) then SyncSession(reg[k], camera) else reg[k]
  }

  /** One more key visited by the sync loop. */
  lemma SyncSomeStep(reg: Registry, camera: Option<Stream>, done: set<string>, key: string)
    requires key in reg && key !in done
    ensures SyncSome(reg, camera, done + {key}) ==
      SyncSome(reg, camera, done)[key := if IsCameraKey(key) then SyncSession(reg[key], camera) else reg[key]]
  {
  }

  lemma SyncSomeEnds(reg: Registry, camera: Option<Stream>)
    ensures SyncSome(reg, camera, {}) == reg
    ensures SyncSome(reg, camera, reg.Keys) == SyncAll(reg, camera)
  {
  }

  /** Track sync keeps the registry's keys, leaves screen and viewer sessions alone, and changes no signaling state. */
  lemma SyncAllScope(reg: Registry, camera: Option<Stream>)
    ensures SyncAll(reg, camera).Keys == reg.Keys
    ensures forall k :: k in reg && !IsCameraKey(k) ==> SyncAll(reg, camera)[k] == reg[k]
    ensures forall k :: k in reg ==> SyncAll(reg, camera)[k].signaling == reg[k].signaling
  {
    forall k | k in reg ensures SyncAll(reg, camera)[k].signaling == reg[k].signaling {
      SyncKeepsNegotiation(reg[k], camera);
    }
  }

  function DropViewers(reg: Registry): Registry
  {
    map k | k in reg && !EndsWith(k, ViewerMarker) :: reg[k]
  }

  // ---------------------------------------------------------------------------
  // Re-subscription of the directory listeners (useRoom.ts:406-525)

  /**
   * A new `recalculateParticipants` (after a change of the flags or the local
   * streams) re-subscribes the listeners, and each delivers its current
   * snapshot at once: the participants handler runs again, then the screens
   * handler.
   */
  function Resubscribed(reg: Registry, streams: StreamTable, outbox: seq<Push>,
                        data: seq<ParticipantData>, screens: seq<ScreenShareData>, l: Local): Outcome
  {
    var mid := OnParticipantsSpec(reg, streams, outbox, data, l);
    OnScreensSpec(mid.sessions, mid.streams, mid.outbox, screens, l)
  }

  /** The participants pass opens a session to a new peer below me and pushes its offer after the earlier pushes. */
  lemma ParticipantsOpen(reg: Registry, streams: StreamTable, outbox: seq<Push>, data: seq<ParticipantData>, l: Local, id: string)
    requires HasParticipant(data, id) && Initiates(l.userId, id) && id !in reg
    ensures var o := OnParticipantsSpec(reg, streams, outbox, data, l);
      && |outbox| <= |o.outbox| && o.outbox[..|outbox|] == outbox
      && id in o.sessions && o.sessions[id] == CameraOffering(l, id)
      && OfferTo(l, id) in o.outbox[|outbox|..]
  {
    var pruned := PruneOnParticipants(reg, data);
    var targets := CameraTargets(l.userId, data, pruned.Keys);
    CameraInitiation(reg, streams, outbox, data, l, id);
    CameraTargetsSpec(l.userId, data, pruned.Keys);
    var k :| 0 <= k < |targets| && targets[k] == id;
    assert OfferPushes(l, targets)[k] == OfferTo(l, id);
    assert OnParticipantsSpec(reg, streams, outbox, data, l).outbox[|outbox|..] == OfferPushes(l, targets);
  }

  /** The screens pass keeps a camera session and every earlier push. */
  lemma ScreensKeepCamera(reg: Registry, streams: StreamTable, outbox: seq<Push>, screens: seq<ScreenShareData>, l: Local, id: string)
    requires IsCameraKey(id) && id in reg
    ensures var o := OnScreensSpec(reg, streams, outbox, screens, l);
      && |outbox| <= |o.outbox| && o.outbox[..|outbox|] == outbox
      && id in o.sessions && o.sessions[id] == reg[id]
  {
    EndsWithIncludes(id, ScreenMarker);
    ScreensKeepSurvivors(reg, streams, outbox, screens, l);
  }

  /**
   * A camera session to a listed peer that I initiate with, which is gone from
   * the registry (say its connection failed), is opened again by the
   * re-subscription, and an offer goes to the peer's mailbox.
   */
  lemma ResubscribeReopens(reg: Registry, streams: StreamTable, outbox: seq<Push>,
                           data: seq<ParticipantData>, screens: seq<ScreenShareData>, l: Local, id: string)
    requires HasParticipant(data, id) && Initiates(l.userId, id) && IsCameraKey(id) && id !in reg
    ensures var o := Resubscribed(reg, streams, outbox, data, screens, l);
      && |outbox| <= |o.outbox| && o.outbox[..|outbox|] == outbox
      && id in o.sessions && o.sessions[id] == CameraOffering(l, id)
      && OfferTo(l, id) in o.outbox[|outbox|..]
  {
    var mid := OnParticipantsSpec(reg, streams, outbox, data, l);
    ParticipantsOpen(reg, streams, outbox, data, l, id);
    ScreensKeepCamera(mid.sessions, mid.streams, mid.outbox, screens, l, id);
    var o := Resubscribed(reg, streams, outbox, data, screens, l);
    assert o.outbox[..|mid.outbox|] == mid.outbox;
    assert o.outbox[|outbox|..|mid.outbox|] == mid.outbox[|outbox|..];
  }
}
