/**
 * Values shared by the room hooks: media tracks and streams, the directory
 * records written by each client, and the participant entries shown by the UI.
 * Field sets follow how hooks/useRoom.ts and hooks/useMockRoom.ts use them.
 */
module Media {
  import opened Optional

  datatype MediaKind = Audio | Video

  /** A local or remote media track; only its id and kind matter to the room logic. */
  datatype Track = Track(id: string, kind: MediaKind)

  /** A media stream: its tracks in `getTracks()` order. */
  datatype Stream = Stream(id: string, tracks: seq<Track>)

  /** Track `i` is of the kind and no earlier track is: `getXTracks()[0]` is `tracks[i]`. */
  predicate FirstOfKindAt(tracks: seq<Track>, kind: MediaKind, i: int)
  {
    0 <= i < |tracks| && tracks[i].kind == kind && forall j :: 0 <= j < i ==> tracks[j].kind != kind
  }

  /** `stream?.getAudioTracks()[0]` / `stream?.getVideoTracks()[0]`. */
  function FirstTrack(stream: Option<Stream>, kind: MediaKind): (r: Option<Track>)
    ensures r.Some? ==> stream.Some? && exists i :: FirstOfKindAt(stream.value.tracks, kind, i) && stream.value.tracks[i] == r.value
    ensures r.None? ==> stream.None? || forall t :: t in stream.value.tracks ==> t.kind != kind
  {
    if stream.None? then None else FirstOfKind(stream.value.tracks, kind)
  }

  function FirstOfKind(tracks: seq<Track>, kind: MediaKind): (r: Option<Track>)
    ensures r.Some? ==> exists i :: FirstOfKindAt(tracks, kind, i) && tracks[i] == r.value
    ensures r.None? ==> forall t :: t in tracks ==> t.kind != kind
  {
    if tracks == [] then None
    else if tracks[0].kind == kind then
      assert FirstOfKindAt(tracks, kind, 0);
      Some(tracks[0])
    else
      var r := FirstOfKind(tracks[1..], kind);
      if r.Some? then
        var i :| FirstOfKindAt(tracks[1..], kind, i) && tracks[1..][i] == r.value;
        assert FirstOfKindAt(tracks, kind, i + 1);
        r
      else
        assert forall t :: t in tracks ==> t == tracks[0] || t in tracks[1..];
        r
  }

  /** `stream.getAudioTracks().length > 0`. */
  predicate HasAudio(stream: Stream)
  {
    exists t :: t in stream.tracks && t.kind == Audio
  }

  /** A participant record in the room directory (`rooms/<room>/participants/<id>`). */
  datatype ParticipantData = ParticipantData(id: string, name: string, isAudioEnabled: bool, isVideoEnabled: bool, joinedAt: int)

  /** A screen-share record in the room directory (`rooms/<room>/screens/<id>`). */
  datatype ScreenShareData = ScreenShareData(id: string, name: string, isAudioEnabled: bool, createdAt: int)

  /** One tile of the participant view. */
  datatype Participant = Participant(
    id: string,
    name: string,
    isLocal: bool,
    isAudioEnabled: bool,
    isVideoEnabled: bool,
    isScreenSharing: bool,
    stream: Option<Stream>,
    joinedAt: int)

  /** `data[id]` is truthy: some record of the snapshot is stored under (and carries) this id. */
  predicate HasParticipant(data: seq<ParticipantData>, id: string)
  {
    exists i :: 0 <= i < |data| && data[i].id == id
  }

  predicate HasScreen(data: seq<ScreenShareData>, id: string)
  {
    exists i :: 0 <= i < |data| && data[i].id == id
  }

  /** Every tile except those carrying `id`, in order. */
  function Without(ps: seq<Participant>, id: string): (r: seq<Participant>)
    ensures |r| <= |ps|
    ensures forall p :: p in r <==> p in ps && p.id != id
  {
    if ps == [] then []
    else (if ps[0].id != id then [ps[0]] else []) + Without(ps[1..], id)
  }

  /** The filter keeps the relative order: it distributes over concatenation. */
  lemma {:induction false} WithoutAppend(ps: seq<Participant>, qs: seq<Participant>, id: string)
    ensures Without(ps + qs, id) == Without(ps, id) + Without(qs, id)
  {
    if ps != [] {
      assert (ps + qs)[1..] == ps[1..] + qs;
      WithoutAppend(ps[1..], qs, id);
    } else {
      assert ps + qs == qs;
    }
  }

  /** Removing an id nobody carries changes nothing. */
  lemma {:induction false} WithoutAbsent(ps: seq<Participant>, id: string)
    requires forall p :: p in ps ==> p.id != id
    ensures Without(ps, id) == ps
  {
    if ps != [] {
      WithoutAbsent(ps[1..], id);
    }
  }
}
