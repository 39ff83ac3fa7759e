/**
 * Session keys, mailbox paths and the routing of an inbound signal to the
 * session it concerns (hooks/useRoom.ts).  Three key namespaces share one
 * registry: `id` (camera mesh with `id`), `id_screen` (watching `id`'s screen)
 * and `id_viewer` (broadcasting my screen to `id`).
 */
module Signaling {
  import opened Optional
  import opened JsString

  const ScreenMarker: string := "_screen"
  const ViewerMarker: string := "_viewer"

  function ScreenKey(id: string): string { id + ScreenMarker }

  function ViewerKey(id: string): string { id + ViewerMarker }

  /** A camera-mesh key: contains neither marker (the `includes` tests of useRoom.ts:65 and 418). */
  predicate IsCameraKey(key: string)
  {
    !Includes(key, ScreenMarker) && !Includes(key, ViewerMarker)
  }

  /** The mailbox of `id`: `rooms/<room>/signals/<id>`. */
  function InboxPath(roomId: string, id: string): string
  {
    "rooms/" + roomId + "/signals/" + id
  }

  datatype SignalKind = Offer | Answer | Candidate | Unrecognised

  /** A mailbox message; SDP and ICE payloads are not modelled. */
  datatype SignalData = SignalData(kind: SignalKind, senderId: string, senderName: string)

  /** One `push` to the mailbox service. */
  datatype Push = Push(path: string, signal: SignalData)

  /** Where an inbound signal goes: the session key, the reply mailbox, and the id replies carry. */
  datatype Routing = Routing(key: string, targetInbox: string, replySenderId: string)

  /** The routing of useRoom.ts:341-355 and the reply sender of useRoom.ts:382. */
  function Route(me: string, roomId: string, senderId: string, isScreenInbox: bool): Routing
  {
    var replySenderId := if isScreenInbox then ScreenKey(me) else me;
    if isScreenInbox then
      Routing(ViewerKey(senderId), InboxPath(roomId, senderId), replySenderId)
    else if EndsWith(senderId, ScreenMarker) then
      Routing(ScreenKey(ReplaceFirst(senderId, ScreenMarker, "")), "", replySenderId)
    else
      Routing(senderId, InboxPath(roomId, senderId), replySenderId)
  }

  /** The id an ICE candidate generated by session `key` is tagged with (useRoom.ts:296-297). */
  function CandidateSenderId(me: string, key: string): string
  {
    if EndsWith(key, ViewerMarker) then ScreenKey(me) else me
  }

  lemma MarkersAreMarkerShaped()
    ensures MarkerShaped(ScreenMarker) && MarkerShaped(ViewerMarker)
  {
  }

  /** No id ends with both markers, and a marked key is never a camera key. */
  lemma NamespacesDisjoint(id: string)
    ensures !IsCameraKey(ScreenKey(id)) && !IsCameraKey(ViewerKey(id))
    ensures !EndsWith(ScreenKey(id), ViewerMarker) && !EndsWith(ViewerKey(id), ScreenMarker)
  {
    var s, v := ScreenKey(id), ViewerKey(id);
    assert OccursAt(s, ScreenMarker, |id|) && OccursAt(v, ViewerMarker, |id|);
    assert s[|s| - 1] == 'n' && v[|v| - 1] == 'r';
  }

  lemma InboxPathInjective(roomId: string, a: string, b: string)
    requires InboxPath(roomId, a) == InboxPath(roomId, b)
    ensures a == b
  {
    var prefix := "rooms/" + roomId + "/signals/";
    assert InboxPath(roomId, a) == prefix + a && InboxPath(roomId, b) == prefix + b;
    assert a == (prefix + a)[|prefix|..];
  }

  lemma ScreenKeyInjective(a: string, b: string)
    requires ScreenKey(a) == ScreenKey(b)
    ensures a == b
  {
    assert a == ScreenKey(a)[..|a|];
  }

  /**
   * Camera mesh: the initiator A keyed its session `B` and wrote to B's mailbox.
   * B files A's offer under key `A` and answers into A's mailbox as `B`; A then
   * files that answer, and every candidate either side sends, under the keys
   * they created.
   */
  lemma CameraHandshakeRoutes(roomId: string, a: string, b: string)
    requires !EndsWith(a, ScreenMarker) && !EndsWith(b, ScreenMarker)
    requires IsCameraKey(a) && IsCameraKey(b)
    ensures Route(b, roomId, a, false) == Routing(a, InboxPath(roomId, a), b)
    ensures Route(a, roomId, b, false) == Routing(b, InboxPath(roomId, b), a)
    ensures CandidateSenderId(a, b) == a && CandidateSenderId(b, a) == b
  {
    EndsWithIncludes(a, ViewerMarker);
    EndsWithIncludes(b, ViewerMarker);
  }

  /**
   * Screen broadcast: viewer V keyed its watch session `S_screen` and wrote
   * its offer to S's screen mailbox `signals/S_screen`.  The sharer S files it
   * under `V_viewer` and answers into V's camera mailbox as `S_screen`; V files
   * that answer (and S's candidates, also tagged `S_screen`) under `S_screen`,
   * and S files V's candidates under `V_viewer`.
   */
  lemma ScreenHandshakeRoutes(roomId: string, s: string, v: string)
    requires !Includes(s, ScreenMarker)
    ensures Route(s, roomId, v, true) == Routing(ViewerKey(v), InboxPath(roomId, v), ScreenKey(s))
    ensures CandidateSenderId(s, ViewerKey(v)) == ScreenKey(s)
    ensures Route(v, roomId, ScreenKey(s), false).key == ScreenKey(s)
    ensures Route(v, roomId, ScreenKey(s), false).targetInbox == ""
    ensures CandidateSenderId(v, ScreenKey(s)) == v
  {
    StripMarker(s, ScreenMarker);
    NamespacesDisjoint(s);
    assert EndsWith(ViewerKey(v), ViewerMarker) by {
      assert ViewerKey(v)[|v|..] == ViewerMarker;
    }
  }

  lemma EndsWithIncludes(s: string, suffix: string)
    ensures EndsWith(s, suffix) ==> Includes(s, suffix)
  {
    if EndsWith(s, suffix) {
      assert OccursAt(s, suffix, |s| - |suffix|);
    }
  }
}
