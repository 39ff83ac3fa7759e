/**
 * One peer session (an `RTCPeerConnection` in hooks/useRoom.ts), abstracted to
 * its signaling state, whether a remote description is set, its transceivers
 * with their sender tracks, the mailbox its ICE candidates go to, and how many
 * remote candidates it has accepted.  The negotiation steps the room code
 * performs are functions on this value; each step's precondition is the
 * signaling state in which the transport accepts it.
 */
module Sessions {
  import opened Optional
  import opened Media

  datatype SignalingState = Stable | HaveLocalOffer | HaveRemoteOffer

  datatype Direction = SendRecv | RecvOnly

  /** A transceiver: its media kind (the receiver track's kind), direction, and the id of the track its sender sends. */
  datatype Transceiver = Transceiver(kind: MediaKind, direction: Direction, sender: Option<string>)

  datatype Session = Session(
    signaling: SignalingState,
    hasRemoteDescription: bool,
    transceivers: seq<Transceiver>,
    replyTarget: string,
    candidatesApplied: nat)

  /** `pc.addTrack(track)` when no transceiver can be reused: a new send-receive transceiver sending it. */
  function SenderFor(track: Track): Transceiver
  {
    Transceiver(track.kind, SendRecv, Some(track.id))
  }

  function SendersFor(tracks: seq<Track>): (r: seq<Transceiver>)
    ensures |r| == |tracks|
    ensures forall i :: 0 <= i < |tracks| ==> r[i] == SenderFor(tracks[i])
  {
    if tracks == [] then [] else [SenderFor(tracks[0])] + SendersFor(tracks[1..])
  }

  /** A fresh connection, with every track of the stream to send attached (useRoom.ts:287-292). */
  function NewSession(replyTarget: string, toSend: Option<Stream>): (s: Session)
    ensures s.signaling == Stable && !s.hasRemoteDescription && s.candidatesApplied == 0
    ensures s.replyTarget == replyTarget
    ensures toSend.None? ==> s.transceivers == []
    ensures toSend.Some? ==> |s.transceivers| == |toSend.value.tracks|
    ensures toSend.Some? ==> forall i :: 0 <= i < |s.transceivers| ==>
      s.transceivers[i].direction == SendRecv && s.transceivers[i].kind == toSend.value.tracks[i].kind &&
      s.transceivers[i].sender == Some(toSend.value.tracks[i].id)
  {
    Session(Stable, false, if toSend.None? then [] else SendersFor(toSend.value.tracks), replyTarget, 0)
  }

  /** `pc.addTransceiver(kind, { direction: 'recvonly' })`. */
  function AddRecvOnly(s: Session, kind: MediaKind): Session
  {
    s.(transceivers := s.transceivers + [Transceiver(kind, RecvOnly, None)])
  }

  /** `setLocalDescription(offer)`: not allowed while a remote offer is pending. */
  function SetLocalOffer(s: Session): Session
    requires s.signaling != HaveRemoteOffer
  {
    s.(signaling := HaveLocalOffer)
  }

  /** `setLocalDescription({type: 'rollback'})`: discards the pending offer. */
  function Rollback(s: Session): Session
    requires s.signaling != Stable
  {
    s.(signaling := Stable)
  }

  /** `setRemoteDescription(offer)`: refused while our own offer is pending (glare). */
  function SetRemoteOffer(s: Session): Session
    requires s.signaling != HaveLocalOffer
  {
    s.(signaling := HaveRemoteOffer, hasRemoteDescription := true)
  }

  /** `setLocalDescription(answer)`. */
  function SetLocalAnswer(s: Session): Session
    requires s.signaling == HaveRemoteOffer
  {
    s.(signaling := Stable)
  }

  /** `setRemoteDescription(answer)`. */
  function SetRemoteAnswer(s: Session): Session
    requires s.signaling == HaveLocalOffer
  {
    s.(signaling := Stable, hasRemoteDescription := true)
  }

  /** `addIceCandidate`: needs a remote description. */
  function AddCandidate(s: Session): Session
    requires s.hasRemoteDescription
  {
    s.(candidatesApplied := s.candidatesApplied + 1)
  }

  /**
   * The responder path of useRoom.ts:370-380: roll back a pending state,
   * apply the remote offer, create and apply the answer.  Whatever the state
   * it starts in, the session ends stable with a remote description, and
   * nothing else about it changes.
   */
  function AnswerOffer(s: Session): (r: Session)
    ensures r.signaling == Stable && r.hasRemoteDescription
    ensures r.transceivers == s.transceivers && r.replyTarget == s.replyTarget
    ensures r.candidatesApplied == s.candidatesApplied
  {
    var ready := if s.signaling != Stable then Rollback(s) else s;
    SetLocalAnswer(SetRemoteOffer(ready))
  }

  /**
   * An inbound answer on an existing session (useRoom.ts:391-394).  Ignored
   * when stable; in `have-remote-offer` the transport refuses it and the error
   * is swallowed; `accepted` is false when the transport rejects the payload.
   */
  function ApplyAnswer(s: Session, accepted: bool): (r: Session)
    ensures r != s <==> s.signaling == HaveLocalOffer && accepted
    ensures r != s ==> r.signaling == Stable && r.hasRemoteDescription
    ensures r.transceivers == s.transceivers && r.replyTarget == s.replyTarget
  {
    if s.signaling == Stable then s
    else if s.signaling == HaveLocalOffer && accepted then SetRemoteAnswer(s)
    else s
  }

  /** An inbound candidate on an existing session (useRoom.ts:395-398). */
  function ApplyCandidate(s: Session, accepted: bool): (r: Session)
    ensures r.candidatesApplied == s.candidatesApplied + (if s.hasRemoteDescription && accepted then 1 else 0)
    ensures r.signaling == s.signaling && r.hasRemoteDescription == s.hasRemoteDescription
    ensures r.transceivers == s.transceivers && r.replyTarget == s.replyTarget
  {
    if s.hasRemoteDescription && accepted then AddCandidate(s) else s
  }

  // ---------------------------------------------------------------------------
  // Track synchronisation (useRoom.ts:61-114)

  /**
   * One transceiver of a camera session after the local stream changed: an
   * audio sender switches to the new audio track if there is one and keeps
   * its track otherwise; a video sender follows the new video track, or is
   * emptied when there is none.  Kind and direction never change.
   */
  function Retarget(t: Transceiver, audio: Option<Track>, video: Option<Track>): (r: Transceiver)
    ensures r.kind == t.kind && r.direction == t.direction
    ensures t.kind == Audio ==> r.sender == if audio.Some? then Some(audio.value.id) else t.sender
    ensures t.kind == Video ==> r.sender == if video.Some? then Some(video.value.id) else None
  {
    match t.kind
    case Audio =>
      if audio.Some? && t.sender != Some(audio.value.id) then t.(sender := Some(audio.value.id)) else t
    case Video =>
      if video.Some? then
        if t.sender != Some(video.value.id) then t.(sender := Some(video.value.id)) else t
      else if t.sender != None then t.(sender := None) else t
  }

  function RetargetAll(ts: seq<Transceiver>, audio: Option<Track>, video: Option<Track>): (r: seq<Transceiver>)
    ensures |r| == |ts|
  {
    seq(|ts|, i requires 0 <= i < |ts| => Retarget(ts[i], audio, video))
  }

  /** `transceivers.some(t => t.receiver.track.kind === kind)`. */
  predicate HasKind(ts: seq<Transceiver>, kind: MediaKind)
  {
    exists i :: 0 <= i < |ts| && ts[i].kind == kind
  }

  /**
   * The transceivers `addTrack` creates for the tracks of the new stream
   * (useRoom.ts:103-111): one per track whose kind has no transceiver in the
   * list taken before the update, and only in a stable session.
   */
  function Additions(ts: seq<Transceiver>, tracks: seq<Track>, stable: bool): (r: seq<Transceiver>)
    ensures forall t :: t in r ==> stable && !HasKind(ts, t.kind) && t.direction == SendRecv
    ensures forall t :: t in r ==> exists k :: k in tracks && t == SenderFor(k)
    ensures forall k :: k in tracks && stable && !HasKind(ts, k.kind) ==> SenderFor(k) in r
  {
    if tracks == [] then []
    else
      var last := tracks[|tracks| - 1];
      assert tracks == tracks[..|tracks| - 1] + [last];
      Additions(ts, tracks[..|tracks| - 1], stable) + (if stable && !HasKind(ts, last.kind) then [SenderFor(last)] else [])
  }

  /** One more track of the loop over the stream: it adds its sender exactly when it is missing from a stable session. */
  lemma AdditionsStep(ts: seq<Transceiver>, tracks: seq<Track>, k: int, stable: bool)
    requires 0 <= k < |tracks|
    ensures Additions(ts, tracks[..k + 1], stable) ==
      Additions(ts, tracks[..k], stable) + (if stable && !HasKind(ts, tracks[k].kind) then [SenderFor(tracks[k])] else [])
  {
    assert tracks[..k + 1][..k] == tracks[..k];
  }

  /** A camera session after the local stream changed (the body of the forEach at useRoom.ts:63-113). */
  function SyncSession(s: Session, camera: Option<Stream>): Session
  {
    var tracks := if camera.None? then [] else camera.value.tracks;
    var added := Additions(s.transceivers, tracks, s.signaling == Stable);
    s.(transceivers := RetargetAll(s.transceivers, FirstTrack(camera, Audio), FirstTrack(camera, Video)) + added)
  }

  /** The same update, done the way the source does it: a pass over the transceivers, then a pass over the tracks. */
  method SyncSessionTracks(s: Session, camera: Option<Stream>) returns (r: Session)
    ensures r == SyncSession(s, camera)
  {
    var audio := FirstTrack(camera, Audio);
    var video := FirstTrack(camera, Video);
    var ts := s.transceivers;
    var updated: seq<Transceiver> := [];
    var i := 0;
    while i < |ts|
      invariant 0 <= i <= |ts|
      invariant |updated| == i
      invariant forall j :: 0 <= j < i ==> updated[j] == Retarget(ts[j], audio, video)
    {
      updated := updated + [Retarget(ts[i], audio, video)];
      i := i + 1;
    }
    var tracks := if camera.None? then [] else camera.value.tracks;
    var added: seq<Transceiver> := [];
    var k := 0;
    while k < |tracks|
      invariant 0 <= k <= |tracks|
      invariant added == Additions(ts, tracks[..k], s.signaling == Stable)
    {
      var track := tracks[k];
      AdditionsStep(ts, tracks, k, s.signaling == Stable);
      if !HasKind(ts, track.kind) && s.signaling == Stable {
        added := added + [SenderFor(track)];
      }
      k := k + 1;
    }
    assert tracks[..k] == tracks;
    assert updated == RetargetAll(ts, audio, video);
    r := s.(transceivers := updated + added);
  }

  /** Synchronising tracks never touches the negotiation: state, remote description, reply mailbox and candidates stay. */
  lemma SyncKeepsNegotiation(s: Session, camera: Option<Stream>)
    ensures SyncSession(s, camera).signaling == s.signaling
    ensures SyncSession(s, camera).hasRemoteDescription == s.hasRemoteDescription
    ensures SyncSession(s, camera).replyTarget == s.replyTarget
    ensures SyncSession(s, camera).candidatesApplied == s.candidatesApplied
  {
  }

  /**
   * What happens to an existing transceiver: a sender changes only when a new
   * track of its kind exists with a different id, or when it is a video sender
   * that still sends and there is no video track; an audio sender is never emptied.
   */
  lemma SyncChangesSenderOnlyWhenNeeded(s: Session, camera: Option<Stream>, i: int)
    requires 0 <= i < |s.transceivers|
    ensures var t, t' := s.transceivers[i], SyncSession(s, camera).transceivers[i];
      var next := FirstTrack(camera, t.kind);
      && t'.kind == t.kind && t'.direction == t.direction
      && (t'.sender != t.sender <==>
            (next.Some? && t.sender != Some(next.value.id)) ||
            (t.kind == Video && next.None? && t.sender.Some?))
      && (t.kind == Audio && t.sender.Some? ==> t'.sender.Some?)
  {
    var t := s.transceivers[i];
    assert SyncSession(s, camera).transceivers[i] == Retarget(t, FirstTrack(camera, Audio), FirstTrack(camera, Video));
  }

  /** The synchronised transceivers are the old ones, retargeted in place, followed by the additions. */
  lemma SyncSessionParts(s: Session, camera: Option<Stream>)
    ensures var r := SyncSession(s, camera).transceivers;
      var added := Additions(s.transceivers, if camera.None? then [] else camera.value.tracks, s.signaling == Stable);
      |r| == |s.transceivers| + |added| && r[|s.transceivers|..] == added
  {
    var r := SyncSession(s, camera).transceivers;
    var retargeted := RetargetAll(s.transceivers, FirstTrack(camera, Audio), FirstTrack(camera, Video));
    assert r == retargeted + Additions(s.transceivers, if camera.None? then [] else camera.value.tracks, s.signaling == Stable);
    assert |retargeted| == |s.transceivers|;
  }

  /** A transceiver is added only to a stable session and only for a kind it had none of. */
  lemma SyncAddsOnlyMissingKinds(s: Session, camera: Option<Stream>)
    ensures |SyncSession(s, camera).transceivers| >= |s.transceivers|
    ensures forall j :: |s.transceivers| <= j < |SyncSession(s, camera).transceivers| ==>
      var t := SyncSession(s, camera).transceivers[j];
      s.signaling == Stable && !HasKind(s.transceivers, t.kind) && camera.Some? &&
      exists k :: k in camera.value.tracks && t == SenderFor(k)
    ensures s.signaling != Stable ==> |SyncSession(s, camera).transceivers| == |s.transceivers|
  {
    var tracks := if camera.None? then [] else camera.value.tracks;
    var added := Additions(s.transceivers, tracks, s.signaling == Stable);
    var r := SyncSession(s, camera).transceivers;
    SyncSessionParts(s, camera);
    forall j | |s.transceivers| <= j < |r|
      ensures s.signaling == Stable && !HasKind(s.transceivers, r[j].kind) && camera.Some? &&
        exists k :: k in camera.value.tracks && r[j] == SenderFor(k)
    {
      assert r[j] == added[j - |s.transceivers|];
      assert r[j] in added;
    }
    if s.signaling != Stable {
      AdditionsEmpty(s.transceivers, tracks, false);
    }
  }

  lemma {:induction false} AdditionsEmpty(ts: seq<Transceiver>, tracks: seq<Track>, stable: bool)
    requires !stable || forall k :: k in tracks ==> HasKind(ts, k.kind)
    ensures Additions(ts, tracks, stable) == []
  {
    if tracks != [] {
      AdditionsEmpty(ts, tracks[..|tracks| - 1], stable);
    }
  }

  /** The stream carries at most one track of each kind (a camera/microphone stream). */
  predicate OneTrackPerKind(camera: Option<Stream>)
  {
    camera.Some? ==> forall i, j :: 0 <= i < j < |camera.value.tracks| ==>
      camera.value.tracks[i].kind != camera.value.tracks[j].kind
  }

  /** The senders that a sync adds already carry the stream's only track of their kind. */
  lemma AddedSendersCurrent(s: Session, camera: Option<Stream>)
    requires OneTrackPerKind(camera)
    ensures var once := SyncSession(s, camera);
      forall j :: |s.transceivers| <= j < |once.transceivers| ==>
        Retarget(once.transceivers[j], FirstTrack(camera, Audio), FirstTrack(camera, Video)) == once.transceivers[j]
  {
    var once := SyncSession(s, camera);
    SyncAddsOnlyMissingKinds(s, camera);
    forall j | |s.transceivers| <= j < |once.transceivers|
      ensures Retarget(once.transceivers[j], FirstTrack(camera, Audio), FirstTrack(camera, Video)) == once.transceivers[j]
    {
      var t := once.transceivers[j];
      var k :| k in camera.value.tracks && t == SenderFor(k);
      OnlyTrackOfKind(camera, k);
    }
  }

  /** After a sync of a stable session, every track of the stream has a transceiver of its kind. */
  lemma SyncCoversKinds(s: Session, camera: Option<Stream>)
    requires s.signaling == Stable
    ensures var tracks := if camera.None? then [] else camera.value.tracks;
      forall k :: k in tracks ==> HasKind(SyncSession(s, camera).transceivers, k.kind)
  {
    var once := SyncSession(s, camera);
    var tracks := if camera.None? then [] else camera.value.tracks;
    var added := Additions(s.transceivers, tracks, true);
    var n := |s.transceivers|;
    SyncSessionParts(s, camera);
    forall k | k in tracks
      ensures HasKind(once.transceivers, k.kind)
    {
      if HasKind(s.transceivers, k.kind) {
        var i :| 0 <= i < n && s.transceivers[i].kind == k.kind;
        assert once.transceivers[i].kind == k.kind;
      } else {
        assert SenderFor(k) in added;
        var i :| 0 <= i < |added| && added[i] == SenderFor(k);
        assert once.transceivers[n + i] == added[i];
      }
    }
  }

  /**
   * Re-running the update with the same stream changes nothing: every sender
   * already carries the current track and every missing kind was added.
   */
  lemma {:induction false} SyncIdempotent(s: Session, camera: Option<Stream>)
    requires OneTrackPerKind(camera)
    ensures SyncSession(SyncSession(s, camera), camera) == SyncSession(s, camera)
  {
    var audio, video := FirstTrack(camera, Audio), FirstTrack(camera, Video);
    var once := SyncSession(s, camera);
    var twice := SyncSession(once, camera);
    var tracks := if camera.None? then [] else camera.value.tracks;
    AddedSendersCurrent(s, camera);
    if s.signaling == Stable {
      SyncCoversKinds(s, camera);
      AdditionsEmpty(once.transceivers, tracks, true);
    } else {
      AdditionsEmpty(once.transceivers, tracks, false);
    }
    assert twice.transceivers == once.transceivers;
  }

  lemma OnlyTrackOfKind(camera: Option<Stream>, k: Track)
    requires OneTrackPerKind(camera) && camera.Some? && k in camera.value.tracks
    ensures FirstTrack(camera, k.kind) == Some(k)
  {
    var f := FirstTrack(camera, k.kind);
    var ts := camera.value.tracks;
    var a :| 0 <= a < |ts| && ts[a] == k;
    var b :| 0 <= b < |ts| && ts[b] == f.value;
    assert a == b;
  }

  /**
   * Turning the camera off and on again against a session that already has a
   * video transceiver reuses it: no transceiver is added, the negotiation
   * state is untouched, and the video senders end up on the new track.
   */
  lemma VideoToggleReusesTransceiver(s: Session, off: Stream, on: Stream, v: Track)
    requires forall t :: t in on.tracks ==> HasKind(s.transceivers, t.kind)
    requires forall t :: t in off.tracks ==> t.kind != Video
    requires FirstTrack(Some(on), Video) == Some(v)
    ensures var r := SyncSession(SyncSession(s, Some(off)), Some(on));
      && |r.transceivers| == |SyncSession(s, Some(off)).transceivers|
      && r.signaling == s.signaling
      && forall i :: 0 <= i < |s.transceivers| && s.transceivers[i].kind == Video ==> r.transceivers[i].sender == Some(v.id)
  {
    var mid := SyncSession(s, Some(off));
    forall t | t in on.tracks
      ensures HasKind(mid.transceivers, t.kind)
    {
      var i :| 0 <= i < |s.transceivers| && s.transceivers[i].kind == t.kind;
      assert mid.transceivers[i].kind == t.kind;
    }
    AdditionsEmpty(mid.transceivers, on.tracks, mid.signaling == Stable);
  }
}
