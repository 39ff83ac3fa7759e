/**
 * The peer-session coordinator of hooks/useRoom.ts as an object: the session
 * registry (`pcsRef`), the received streams (`streamsRef`), the last directory
 * snapshots, the local media and flags, the projected tiles, and the pushes it
 * has made to the mailbox service.  Each method is one event handler run to
 * completion; its result is tied to the functions of RoomSpec and View.
 */
module Room {
  import opened Optional
  import opened JsString
  import opened Media
  import opened Signaling
  import opened Sessions
  import opened View
  import opened RoomSpec

  datatype ConnectionState = New | Connecting | Connected | Disconnected | Failed | Closed

  class Coordinator {
    const userId: string
    const roomId: string
    var userName: string
    var isAudioEnabled: bool
    var isVideoEnabled: bool
    var camera: Option<Stream>
    var screen: Option<Stream>
    var sessions: Registry
    var streams: StreamTable
    var participantsData: seq<ParticipantData>
    var screensData: seq<ScreenShareData>
    var participants: seq<Participant>
    var screenSharingId: Option<string>
    /** Every signal pushed to a mailbox, oldest first. */
    var outbox: seq<Push>

    /** Every received camera stream belongs to a live camera session. */
    predicate Valid()
      reads this
    {
      StreamsBacked(sessions, streams)
    }

    function Ctx(): Local
      reads this
    {
      Local(userId, roomId, userName, camera, screen)
    }

    function LocalState(): LocalView
      reads this
    {
      LocalView(userId, userName, isAudioEnabled, isVideoEnabled, camera, screen)
    }

    /** The tiles and the featured screen share are the projection of the current state. */
    predicate Projected(now: int)
      reads this
    {
      Projection(participants, screenSharingId) == Project(LocalState(), participantsData, screensData, streams, now)
    }

    /** Mount: no sessions, no snapshots yet, and the first projection (self only, plus my screen). */
    constructor (userId: string, roomId: string, userName: string, camera: Option<Stream>, screen: Option<Stream>,
                 isAudioEnabled: bool, isVideoEnabled: bool, now: int)
      ensures this.userId == userId && this.roomId == roomId && this.userName == userName
      ensures this.camera == camera && this.screen == screen
      ensures this.isAudioEnabled == isAudioEnabled && this.isVideoEnabled == isVideoEnabled
      ensures sessions == map[] && streams == map[] && outbox == []
      ensures participantsData == [] && screensData == []
      ensures Valid() && Projected(now)
    {
      this.userId := userId;
      this.roomId := roomId;
      this.userName := userName;
      this.camera := camera;
      this.screen := screen;
      this.isAudioEnabled := isAudioEnabled;
      this.isVideoEnabled := isVideoEnabled;
      sessions := map[];
      streams := map[];
      participantsData := [];
      screensData := [];
      outbox := [];
      new;
      Recalculate(now);
    }

    /** `recalculateParticipants` (useRoom.ts:201-273). */
    method Recalculate(now: int)
      modifies this`participants, this`screenSharingId
      ensures Projected(now)
    {
      var p := Project(LocalState(), participantsData, screensData, streams, now);
      participants := p.participants;
      screenSharingId := p.screenSharingId;
    }

    /** `createPC` (useRoom.ts:283-292): returns the existing session for `key`, or registers a new one. */
    method CreatePC(key: string, targetInbox: string, toSend: Option<Stream>) returns (s: Session)
      modifies this`sessions
      ensures key in old(sessions) ==> s == old(sessions)[key] && sessions == old(sessions)
      ensures key !in old(sessions) ==> s == NewSession(targetInbox, toSend) && sessions == old(sessions)[key := s]
    {
      if key in sessions {
        return sessions[key];
      }
      s := NewSession(targetInbox, toSend);
      sessions := sessions[key := s];
    }

    /** The participants listener (useRoom.ts:413-458). */
    method OnParticipants(data: seq<ParticipantData>, now: int)
      requires Valid()
      modifies this`participantsData, this`sessions, this`streams, this`outbox, this`participants, this`screenSharingId
      ensures participantsData == data
      ensures Outcome(sessions, streams, outbox) == OnParticipantsSpec(old(sessions), old(streams), old(outbox), data, Ctx())
      ensures Valid() && Projected(now)
    {
      participantsData := data;
      ParticipantsKeepStreamsBacked(sessions, streams, outbox, data, Ctx());
      PruneForParticipants(data);
      OfferToNewPeers(data);
      Recalculate(now);
    }

    /** The cleanup pass of useRoom.ts:417-434: stale camera sessions with their streams, and stale viewer sessions. */
    method PruneForParticipants(data: seq<ParticipantData>)
      modifies this`sessions, this`streams
      ensures sessions == PruneOnParticipants(old(sessions), data)
      ensures streams == PruneStreamsOnParticipants(old(streams), old(sessions), data)
    {
      ghost var reg0 := sessions;
      ghost var streams0 := streams;
      var keys := sessions.Keys;
      while keys != {}
        invariant keys <= reg0.Keys
        invariant sessions == map k | k in reg0 && (k in keys || (!StaleCameraKey(k, data) && !StaleViewerKey(k, data))) :: reg0[k]
        invariant streams == map k | k in streams0 && !(k in reg0 && k !in keys && StaleCameraKey(k, data)) :: streams0[k]
        decreases keys
      {
        var key :| key in keys;
        if IsCameraKey(key) && !HasParticipant(data, key) {
          sessions := sessions - {key};
          streams := streams - {key};
        } else if EndsWith(key, ViewerMarker) {
          var viewerId := ReplaceFirst(key, ViewerMarker, "");
          if !HasParticipant(data, viewerId) {
            sessions := sessions - {key};
          }
        }
        keys := keys - {key};
      }
    }

    /** The creation pass of useRoom.ts:436-455: an offering camera session for each peer I initiate with. */
    method OfferToNewPeers(data: seq<ParticipantData>)
      modifies this`sessions, this`outbox
      ensures var c := Ctx(); var targets := CameraTargets(userId, data, old(sessions).Keys);
        sessions == WithCameraSessions(old(sessions), c, targets) && outbox == old(outbox) + OfferPushes(c, targets)
    {
      ghost var reg0 := sessions;
      ghost var out0 := outbox;
      ghost var c := Ctx();
      var i := 0;
      while i < |data|
        invariant 0 <= i <= |data|
        invariant sessions == WithCameraSessions(reg0, c, CameraTargets(userId, data[..i], reg0.Keys))
        invariant outbox == out0 + OfferPushes(c, CameraTargets(userId, data[..i], reg0.Keys))
      {
        var p := data[i];
        CameraPassStep(reg0, c, data, i);
        if p.id != userId && Less(p.id, userId) && p.id !in sessions {
          OpenCamera(p.id);
        }
        i := i + 1;
      }
      assert data[..|data|] == data;
    }

    /** One camera session of useRoom.ts:440-451: created sending my camera stream, then the offer to the peer's mailbox. */
    method OpenCamera(peer: string)
      requires peer !in sessions
      modifies this`sessions, this`outbox
      ensures sessions == old(sessions)[peer := CameraOffering(Ctx(), peer)]
      ensures outbox == old(outbox) + [OfferTo(Ctx(), peer)]
    {
      var targetInbox := InboxPath(roomId, peer);
      var s := CreatePC(peer, targetInbox, camera);
      sessions := sessions[peer := Offering(s)];
      outbox := outbox + [Push(targetInbox, SignalData(Offer, userId, userName))];
    }

    /** The screens listener (useRoom.ts:461-504). */
    method OnScreens(screens: seq<ScreenShareData>, now: int)
      requires Valid()
      modifies this`screensData, this`sessions, this`streams, this`outbox, this`participants, this`screenSharingId
      ensures screensData == screens
      ensures Outcome(sessions, streams, outbox) == OnScreensSpec(old(sessions), old(streams), old(outbox), screens, Ctx())
      ensures Valid() && Projected(now)
    {
      screensData := screens;
      ScreensKeepStreamsBacked(sessions, streams, outbox, screens, Ctx());
      PruneForScreens(screens);
      WatchNewScreens(screens);
      Recalculate(now);
    }

    /** The cleanup pass of useRoom.ts:466-476: watch sessions (and their streams) of sharers that stopped. */
    method PruneForScreens(screens: seq<ScreenShareData>)
      modifies this`sessions, this`streams
      ensures sessions == PruneOnScreens(old(sessions), screens)
      ensures streams == PruneStreamsOnScreens(old(streams), old(sessions), screens)
    {
      ghost var reg0 := sessions;
      ghost var streams0 := streams;
      var keys := sessions.Keys;
      while keys != {}
        invariant keys <= reg0.Keys
        invariant sessions == map k | k in reg0 && (k in keys || !StaleScreenKey(k, screens)) :: reg0[k]
        invariant streams == map k | k in streams0 && !(k in reg0 && k !in keys && StaleScreenKey(k, screens)) :: streams0[k]
        decreases keys
      {
        var key :| key in keys;
        if EndsWith(key, ScreenMarker) {
          var ownerId := ReplaceFirst(key, ScreenMarker, "");
          if !HasScreen(screens, ownerId) {
            sessions := sessions - {key};
            streams := streams - {key};
          }
        }
        keys := keys - {key};
      }
    }

    /** The creation pass of useRoom.ts:478-501: a receive-only watch session for each other sharer. */
    method WatchNewScreens(screens: seq<ScreenShareData>)
      modifies this`sessions, this`outbox
      ensures var c := Ctx(); var targets := ScreenTargets(userId, screens, old(sessions).Keys);
        sessions == WithWatchSessions(old(sessions), c, targets) && outbox == old(outbox) + OfferPushes(c, targets)
    {
      ghost var reg0 := sessions;
      ghost var out0 := outbox;
      ghost var c := Ctx();
      var i := 0;
      while i < |screens|
        invariant 0 <= i <= |screens|
        invariant sessions == WithWatchSessions(reg0, c, ScreenTargets(userId, screens[..i], reg0.Keys))
        invariant outbox == out0 + OfferPushes(c, ScreenTargets(userId, screens[..i], reg0.Keys))
      {
        var sh := screens[i];
        var key := ScreenKey(sh.id);
        ScreenPassStep(reg0, c, screens, i);
        if sh.id != userId && key !in sessions {
          OpenWatch(key);
        }
        i := i + 1;
      }
      assert screens[..|screens|] == screens;
    }

    /** One watch session of useRoom.ts:484-498: receive-only video and audio, then the offer to the sharer's screen inbox. */
    method OpenWatch(key: string)
      requires key !in sessions
      modifies this`sessions, this`outbox
      ensures sessions == old(sessions)[key := WatchOffering(Ctx(), key)]
      ensures outbox == old(outbox) + [OfferTo(Ctx(), key)]
    {
      var targetInbox := InboxPath(roomId, key);
      var s := CreatePC(key, targetInbox, None);
      s := AddRecvOnly(s, Video);
      s := AddRecvOnly(s, Audio);
      sessions := sessions[key := Offering(s)];
      outbox := outbox + [Push(targetInbox, SignalData(Offer, userId, userName))];
    }

    /** `handleSignal` (useRoom.ts:333-403), with `accepted` false when the transport rejects the payload. */
    method HandleSignal(data: Option<SignalData>, isScreenInbox: bool, accepted: bool)
      requires Valid()
      modifies this`sessions, this`outbox
      ensures Exchange(sessions, outbox) == HandleSignalSpec(old(sessions), old(outbox), Ctx(), data, isScreenInbox, accepted)
      ensures Valid()
    {
      if data.None? {
        return;
      }
      var msg := data.value;
      var route := Route(userId, roomId, msg.senderId, isScreenInbox);
      var key := route.key;
      match msg.kind {
        case Offer =>
          var toSend := if isScreenInbox then screen else camera;
          var s: Session;
          if key in sessions {
            s := sessions[key];
          } else {
            s := CreatePC(key, route.targetInbox, toSend);
          }
          if accepted {
            if s.signaling != Stable {
              s := Rollback(s);
            }
            s := SetRemoteOffer(s);
            s := SetLocalAnswer(s);
            sessions := sessions[key := s];
            outbox := outbox + [Push(route.targetInbox, SignalData(Answer, route.replySenderId, userName))];
          }
        case Answer =>
          if key in sessions && sessions[key].signaling != Stable {
            sessions := sessions[key := ApplyAnswer(sessions[key], accepted)];
          }
        case Candidate =>
          if key in sessions && sessions[key].hasRemoteDescription {
            sessions := sessions[key := ApplyCandidate(sessions[key], accepted)];
          }
        case Unrecognised =>
      }
    }

    /** `onicecandidate` (useRoom.ts:294-306): the candidate goes to the session's reply mailbox. */
    method IceCandidate(key: string)
      requires key in sessions
      modifies this`outbox
      ensures outbox == old(outbox) + [Push(sessions[key].replyTarget, SignalData(Candidate, CandidateSenderId(userId, key), userName))]
    {
      outbox := outbox + [Push(sessions[key].replyTarget, SignalData(Candidate, CandidateSenderId(userId, key), userName))];
    }

    /** `ontrack` (useRoom.ts:308-312): the stream is recorded under the session's key and the tiles recomputed. */
    method TrackReceived(key: string, stream: Stream, now: int)
      requires Valid() && key in sessions
      modifies this`streams, this`participants, this`screenSharingId
      ensures streams == old(streams)[key := stream]
      ensures Valid() && Projected(now)
    {
      streams := streams[key := stream];
      Recalculate(now);
    }

    /** `onconnectionstatechange` (useRoom.ts:314-321): a failed or disconnected session is dropped with its stream. */
    method ConnectionStateChange(key: string, state: ConnectionState, now: int)
      requires Valid() && key in sessions
      modifies this`sessions, this`streams, this`participants, this`screenSharingId
      ensures state == Failed || state == Disconnected ==>
        sessions == old(sessions) - {key} && streams == old(streams) - {key} && Projected(now)
      ensures state != Failed && state != Disconnected ==>
        sessions == old(sessions) && streams == old(streams) && participants == old(participants) && screenSharingId == old(screenSharingId)
      ensures Valid()
    {
      if state == Failed || state == Disconnected {
        sessions := sessions - {key};
        streams := streams - {key};
        Recalculate(now);
      }
    }

    /**
     * The listeners effect subscribing again (useRoom.ts:406-525): both
     * snapshot listeners deliver the snapshots they last delivered, and their
     * handlers run in order.
     */
    method Resubscribe(now: int)
      requires Valid()
      modifies this`participantsData, this`screensData, this`sessions, this`streams, this`outbox, this`participants, this`screenSharingId
      ensures participantsData == old(participantsData) && screensData == old(screensData)
      ensures Outcome(sessions, streams, outbox) == Resubscribed(old(sessions), old(streams), old(outbox), participantsData, screensData, Ctx())
      ensures Valid() && Projected(now)
    {
      OnParticipants(participantsData, now);
      OnScreens(screensData, now);
    }

    /**
     * A new camera stream (useRoom.ts:51 and 61-114): every camera session is
     * brought in line with it; screen and viewer sessions are left alone. The
     * stream is a dependency of `recalculateParticipants` (useRoom.ts:273), so
     * the tiles are recomputed and the listeners subscribe again. Each of these
     * effects runs only when the stream changed.
     */
    method SetLocalStream(newCamera: Option<Stream>, now: int)
      requires Valid()
      modifies this`camera, this`participantsData, this`screensData, this`sessions, this`streams, this`outbox, this`participants, this`screenSharingId
      ensures camera == newCamera
      ensures participantsData == old(participantsData) && screensData == old(screensData)
      ensures newCamera != old(camera) ==>
        Outcome(sessions, streams, outbox) == Resubscribed(SyncAll(old(sessions), newCamera), old(streams), old(outbox), participantsData, screensData, Ctx())
      ensures newCamera != old(camera) ==> Projected(now)
      ensures newCamera == old(camera) ==>
        sessions == old(sessions) && streams == old(streams) && outbox == old(outbox)
        && participants == old(participants) && screenSharingId == old(screenSharingId)
      ensures Valid()
    {
      if newCamera == camera {
        return;
      }
      camera := newCamera;
      SyncAllScope(sessions, newCamera);
      SyncCameraSessions(newCamera);
      Resubscribe(now);
    }

    /** The loop of useRoom.ts:63-113 over the registry: each camera session is synchronised in turn. */
    method SyncCameraSessions(newCamera: Option<Stream>)
      modifies this`sessions
      ensures sessions == SyncAll(old(sessions), newCamera)
    {
      ghost var reg0 := sessions;
      SyncSomeEnds(reg0, newCamera);
      var keys := sessions.Keys;
      while keys != {}
        invariant keys <= reg0.Keys
        invariant sessions == SyncSome(reg0, newCamera, reg0.Keys - keys)
        decreases keys
      {
        var key :| key in keys;
        ghost var done := reg0.Keys - keys;
        SyncSomeStep(reg0, newCamera, done, key);
        assert reg0.Keys - (keys - {key}) == done + {key};
        SyncOne(key, newCamera);
        keys := keys - {key};
      }
      assert reg0.Keys - keys == reg0.Keys;
    }

    /** One iteration of that loop: a camera session is synchronised, any other left as it is. */
    method SyncOne(key: string, newCamera: Option<Stream>)
      requires key in sessions
      modifies this`sessions
      ensures sessions == old(sessions)[key := if IsCameraKey(key) then SyncSession(old(sessions)[key], newCamera) else old(sessions)[key]]
    {
      if IsCameraKey(key) {
        var s := SyncSessionTracks(sessions[key], newCamera);
        sessions := sessions[key := s];
      }
    }

    /**
     * A new screen stream (useRoom.ts:52 and 157-185): when a share ends or is
     * replaced, every viewer session is closed; then, the stream being a
     * dependency of `recalculateParticipants`, the listeners subscribe again.
     */
    method SetScreenStream(newScreen: Option<Stream>, now: int)
      requires Valid()
      modifies this`screen, this`participantsData, this`screensData, this`sessions, this`streams, this`outbox, this`participants, this`screenSharingId
      ensures screen == newScreen
      ensures participantsData == old(participantsData) && screensData == old(screensData)
      ensures newScreen != old(screen) ==>
        Outcome(sessions, streams, outbox) ==
        Resubscribed(if old(screen).Some? then DropViewers(old(sessions)) else old(sessions), old(streams), old(outbox), participantsData, screensData, Ctx())
      ensures newScreen != old(screen) ==> Projected(now)
      ensures newScreen == old(screen) ==>
        sessions == old(sessions) && streams == old(streams) && outbox == old(outbox)
        && participants == old(participants) && screenSharingId == old(screenSharingId)
      ensures Valid()
    {
      if newScreen == screen {
        return;
      }
      if screen.Some? {
        StopScreenShare();
      }
      screen := newScreen;
      Resubscribe(now);
    }

    /** The cleanup of useRoom.ts:179-184: close every session that broadcasts my screen. */
    method StopScreenShare()
      requires Valid()
      modifies this`sessions
      ensures sessions == DropViewers(old(sessions))
      ensures Valid()
    {
      ghost var reg0 := sessions;
      var keys := sessions.Keys;
      while keys != {}
        invariant keys <= reg0.Keys
        invariant sessions == map k | k in reg0 && (k in keys || !EndsWith(k, ViewerMarker)) :: reg0[k]
        decreases keys
      {
        var key :| key in keys;
        if EndsWith(key, ViewerMarker) {
          sessions := sessions - {key};
        }
        keys := keys - {key};
      }
      forall k | IsCameraKey(k) ensures !EndsWith(k, ViewerMarker) {
        EndsWithIncludes(k, ViewerMarker);
      }
    }

    /**
     * New microphone or camera flags (useRoom.ts:273-276): a changed flag gives
     * `recalculateParticipants` a new identity, so the tiles are recomputed and
     * the listeners subscribe again; unchanged flags do nothing.
     */
    method SetMediaFlags(audio: bool, video: bool, now: int)
      requires Valid()
      modifies this`isAudioEnabled, this`isVideoEnabled, this`participantsData, this`screensData, this`sessions, this`streams, this`outbox, this`participants, this`screenSharingId
      ensures isAudioEnabled == audio && isVideoEnabled == video
      ensures participantsData == old(participantsData) && screensData == old(screensData)
      ensures (audio, video) != old((isAudioEnabled, isVideoEnabled)) ==>
        Outcome(sessions, streams, outbox) == Resubscribed(old(sessions), old(streams), old(outbox), participantsData, screensData, Ctx())
      ensures (audio, video) != old((isAudioEnabled, isVideoEnabled)) ==> Projected(now)
      ensures (audio, video) == old((isAudioEnabled, isVideoEnabled)) ==>
        sessions == old(sessions) && streams == old(streams) && outbox == old(outbox)
        && participants == old(participants) && screenSharingId == old(screenSharingId)
      ensures Valid()
    {
      if audio != isAudioEnabled || video != isVideoEnabled {
        isAudioEnabled := audio;
        isVideoEnabled := video;
        Resubscribe(now);
      }
    }

    /** A new display name (useRoom.ts:53): read by later pushes and projections, with no recomputation now. */
    method SetUserName(name: string)
      modifies this`userName
      ensures userName == name
    {
      userName := name;
    }
  }
}
