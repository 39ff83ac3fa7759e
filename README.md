# Meeting-room session coordinator, modelled in Dafny

The system is a browser video-meeting client. Every participant of a named
room keeps one peer-to-peer media session per remote peer, plus sessions for
screen sharing. A shared realtime directory holds `rooms/<room>/participants`,
`rooms/<room>/screens` and one mailbox per id, `rooms/<room>/signals/<id>`.
The mailboxes carry the offer, answer and candidate messages.

The coordinator in `hooks/useRoom.ts` does four things:

- It watches both directories.
- It decides who initiates: the side whose id sorts after the other's.
- It drives each session's offer/answer/candidate exchange.
- It keeps the sessions in line with the local camera and microphone, and tears them down when a peer leaves.

It keys its session registry in three namespaces:

- `id`: the camera mesh with `id`.
- `id_screen`: watching `id`'s screen.
- `id_viewer`: broadcasting my screen to `id`.

Around it sit the paging of the tile list (`hooks/usePagination.ts`), the
pin / auto-pin logic of the meeting screen (`components/MeetingRoom.tsx`), the
offline room used by that screen (`hooks/useMockRoom.ts`), and the page
arrows (`components/PaginationControls.tsx`).

The model is organised by module:

- `JsString` (js_string.dfy): the JavaScript string operations the code relies on.
  - `includes`, `endsWith`, and `replace` of the first occurrence only.
  - Truthiness of a possibly-null string.
  - `>` as lexicographic order by code unit. It is proved to be a strict total order.
- `Media` (media.dfy): tracks, streams, directory records and view tiles.
- `Signaling` (signaling.dfy): the key namespaces, mailbox paths, and the routing of an inbound signal to a session key, a reply mailbox and a reply sender id.
- `Sessions` (sessions.dfy): one session as an abstract value.
  - Its signaling state, whether a remote description is set, its transceivers with their sender tracks, its reply mailbox, and the count of applied candidates.
  - The negotiation steps, each allowed only in the state where the transport accepts it.
  - Track synchronisation, done the way the code does it: a loop over transceivers, then a loop over tracks.
- `View` (view.dfy): `recalculateParticipants` as a pure function. It includes the newest-first sort of screen shares.
- `RoomSpec` (room_spec.dfy): each handler's effect on the registry, the stream table and the outbox, as functions of the state before it. The lemmas state what those effects mean.
- `Room` (coordinator.dfy): the class `Coordinator`.
  - Its fields are the registry (`pcsRef`), the received streams (`streamsRef`), the two directory snapshots, the local media and flags, the projected tiles, and an outbox that records every push to a mailbox.
  - Each event handler is a method that changes these fields step by step, in loops over the registry's keys.
  - Each method's postcondition equals the matching `RoomSpec` or `View` function.
- `Pagination`, `Meeting`, `MockRoom`, `PageControls`: pure functions for the list arithmetic, and classes for the state held across renders.

Directory snapshots are sequences of records in the order the directory
returns them. "`data[key]` is truthy" means some record carries that id.

Each handler runs to completion as one step. The `createOffer().then(...)`
continuation is folded into the handler that starts it. The transport's
refusal of a remote payload is the parameter `accepted` of `HandleSignal`.

## Model

| member | source | states |
|---|---|---|
| JsString.LessIrreflexive | hooks/useRoom.ts:438 | no id sorts before itself |
| JsString.LessTransitive | hooks/useRoom.ts:438 | the string order used for the initiator rule is transitive |
| JsString.LessConnected | hooks/useRoom.ts:438 | of two different ids one sorts before the other |
| JsString.LessAsymmetric | hooks/useRoom.ts:438 | two ids never sort before each other |
| JsString.LessTrichotomy | hooks/useRoom.ts:438 | exactly one of a<b, a=b, b<a holds |
| JsString.StripMarker | hooks/useRoom.ts:349 | for an id without the marker, `id+marker` ends with and includes the marker, and replacing its first occurrence gives back the id |
| Media.FirstTrack | hooks/useRoom.ts:67-68 | the track of the kind that comes before every other track of that kind in the stream, or none when the stream is absent or has no such track |
| Media.Without | hooks/usePagination.ts:14 | the tiles kept are exactly those not carrying the id |
| Media.WithoutAppend | hooks/usePagination.ts:14 | the filter keeps relative order: it distributes over concatenation |
| Media.WithoutAbsent | hooks/useMockRoom.ts:63 | filtering an id nobody carries returns the list unchanged |
| Signaling.NamespacesDisjoint | hooks/useRoom.ts:65 | `id_screen` and `id_viewer` keys are never camera keys, and neither ends with the other marker |
| Signaling.InboxPathInjective | hooks/useRoom.ts:445 | different ids have different mailboxes |
| Signaling.ScreenKeyInjective | hooks/useRoom.ts:480 | different sharers have different watch keys |
| Signaling.CameraHandshakeRoutes | hooks/useRoom.ts:341-355 | between two plain ids, each side files the other's signals under the other's id, replies to the other's mailbox as itself, and tags candidates with its own id |
| Signaling.ScreenHandshakeRoutes | hooks/useRoom.ts:341-355 | the sharer files a viewer's signals under `viewer_viewer` and replies as `sharer_screen`; the viewer files the sharer's replies under `sharer_screen` with an empty reply mailbox; viewer-session candidates are tagged `sharer_screen` |
| Signaling.EndsWithIncludes | hooks/useRoom.ts:418-424 | a key that ends with a marker includes it, so a `_viewer` or `_screen` key is never a camera key |
| Sessions.NewSession | hooks/useRoom.ts:287-292 | a new session is stable, has no remote description, and has one send-receive transceiver per track of the stream to send |
| Sessions.AnswerOffer | hooks/useRoom.ts:370-380 | from any state, rollback if needed, then the remote offer and the local answer, ending stable with a remote description and nothing else changed |
| Sessions.ApplyAnswer | hooks/useRoom.ts:391-394 | the session changes exactly when it had a pending local offer and the transport accepted the answer, and then it is stable |
| Sessions.ApplyCandidate | hooks/useRoom.ts:395-398 | the candidate count grows by one exactly when a remote description is set and the transport accepted it; nothing else changes |
| Sessions.Retarget | hooks/useRoom.ts:70-99 | an audio sender takes the new audio track if any and keeps its track otherwise; a video sender takes the new video track or is emptied |
| Sessions.Additions | hooks/useRoom.ts:103-111 | tracks are added only to a stable session, only for kinds with no transceiver, and every such track is added |
| Sessions.SyncSessionTracks | hooks/useRoom.ts:63-113 | the two loops of the track-sync effect compute `SyncSession` |
| Sessions.SyncKeepsNegotiation | hooks/useRoom.ts:61-114 | track sync never changes signaling state, remote description, reply mailbox or candidates |
| Sessions.SyncChangesSenderOnlyWhenNeeded | hooks/useRoom.ts:74-98 | a sender changes only when a new track of its kind has a different id, or when a video sender still sends and there is no video track |
| Sessions.SyncAddsOnlyMissingKinds | hooks/useRoom.ts:103-111 | transceivers are only appended, only in a stable session, and only for a missing kind with a track in the stream |
| Sessions.AdditionsEmpty | hooks/useRoom.ts:106 | nothing is added to a non-stable session or when every kind is present |
| Sessions.AddedSendersCurrent | hooks/useRoom.ts:70-111 | with one track per kind, a sender that sync adds already carries the track that sync would put there |
| Sessions.SyncCoversKinds | hooks/useRoom.ts:103-111 | after sync of a stable session, every track of the stream has a transceiver of its kind |
| Sessions.SyncIdempotent | hooks/useRoom.ts:61-114 | re-running track sync with the same camera stream changes nothing |
| Sessions.OnlyTrackOfKind | hooks/useRoom.ts:67-68 | in a stream with one track per kind, that track is the one picked |
| Sessions.VideoToggleReusesTransceiver | hooks/useRoom.ts:88-98 | camera off then on reuses the video transceiver: no transceiver added, state untouched, video senders on the new track |
| View.InsertKeepsOrder | hooks/useRoom.ts:248 | inserting into a newest-first list keeps it newest-first |
| View.InsertElements | hooks/useRoom.ts:248 | insertion adds exactly the inserted record to the multiset of records |
| View.SortNewestOrders | hooks/useRoom.ts:247-248 | the sort is newest-first |
| View.SortNewestElements | hooks/useRoom.ts:247-248 | the sort is a permutation of the input |
| View.SortNewestSorts | hooks/useRoom.ts:247-248 | the sort is newest-first and a permutation of the input |
| View.NewestIndexIsNewest | hooks/useRoom.ts:247-251 | the reference choice `NewestIndex` is a record of maximal `createdAt`, and the first such in snapshot order |
| View.SortNewestHead | hooks/useRoom.ts:247-251 | the head of the sorted list is the record `NewestIndex` picks |
| View.PeerTiles | hooks/useRoom.ts:231-243 | every tile is the tile of a directory record other than self, with its stream, and every such record has one |
| View.PeerTilesAppend | hooks/useRoom.ts:231-243 | the peer tiles of two concatenated snapshots are the first's followed by the second's, so tiles keep snapshot order |
| View.PeerTilesPositions | hooks/useRoom.ts:231-243 | without my own record, tile i is the tile of record i and there is one tile per record |
| View.ScreenTiles | hooks/useRoom.ts:257-270 | every tile is the `id_screen` tile of a screen record other than mine, with its stream, and every such record has one |
| View.ScreenTilesAppend | hooks/useRoom.ts:257-270 | the screen tiles of two concatenated lists are the first's followed by the second's |
| View.ScreenTilesNewestFirst | hooks/useRoom.ts:247-270 | the screen tiles of a newest-first list have non-increasing `joinedAt` |
| View.ProjectScreensNewestFirst | hooks/useRoom.ts:247-270 | in the view, the screen tiles after the local and peer tiles come newest first |
| View.ProjectSelfFirst | hooks/useRoom.ts:206-215 | self is the first tile, local, not a screen, joinedAt 0, showing the camera stream |
| View.ProjectLocalTiles | hooks/useRoom.ts:218-229 | the second tile is local exactly when a local screen stream exists, and is then `userId_screen` with that stream; every later tile is remote |
| View.RemoteNotLocal | hooks/useRoom.ts:231-270 | no remote tile is marked local |
| View.ProjectRemoteTilesComplete | hooks/useRoom.ts:231-270 | every other participant and every other sharer gets a tile |
| View.ProjectRemoteTilesSound | hooks/useRoom.ts:231-270 | every remote tile comes from a directory record that is not self |
| View.RemoteTile | hooks/useRoom.ts:231-270 | a single tile after the local ones is a peer tile or a screen tile from the directory |
| View.ProjectScreenSharingId | hooks/useRoom.ts:247-255 | the featured id is null exactly when there are no screen records, and otherwise `id_screen` of the record `NewestIndex` picks |
| RoomSpec.InitiatorUnique | hooks/useRoom.ts:437-438 | for two different ids exactly one side initiates |
| RoomSpec.OfferPushesCount | hooks/useRoom.ts:445-450 | offers to distinct keys reach each mailbox exactly once |
| RoomSpec.CameraTargetsSpec | hooks/useRoom.ts:436-441 | the peers offered to are distinct and are exactly the listed ids that sort below mine and have no session |
| RoomSpec.CameraTargetsStep | hooks/useRoom.ts:436-440 | one more directory record adds its id exactly when it sorts below mine, is not me, and is new |
| RoomSpec.CameraPassStep | hooks/useRoom.ts:436-455 | one iteration of the creation pass opens a session and pushes an offer exactly when its record becomes a target, and otherwise changes nothing |
| RoomSpec.ParticipantsOpen | hooks/useRoom.ts:436-451 | a listed peer below me without a session gets an offering camera session and an offer, after the earlier pushes |
| RoomSpec.CameraInitiation | hooks/useRoom.ts:436-455 | after a participants snapshot, exactly one offer goes to `signals/id` if id is another listed participant that sorts below me and has no surviving session, and none otherwise; such an id then has a new offering camera session, and any other id keeps its surviving session or stays without one; earlier pushes are kept |
| RoomSpec.ParticipantsCleanup | hooks/useRoom.ts:417-434 | no camera key of an absent peer remains in sessions or streams; a viewer session survives exactly when its viewer is present; `_screen` sessions and streams are untouched |
| RoomSpec.ParticipantsKeepStreamsBacked | hooks/useRoom.ts:417-422 | a participants snapshot leaves no camera stream without its session |
| RoomSpec.ScreenTargetsSpec | hooks/useRoom.ts:478-484 | the watch keys opened are distinct, belong to other sharers without one, and cover them all |
| RoomSpec.ScreenTargetsDistinct | hooks/useRoom.ts:484 | no watch key is opened twice |
| RoomSpec.ScreenTargetsSound | hooks/useRoom.ts:478-484 | every watch key opened belongs to another sharer and had no session |
| RoomSpec.ScreenTargetsComplete | hooks/useRoom.ts:478-484 | every other sharer without a watch session gets one |
| RoomSpec.ScreenTargetsStep | hooks/useRoom.ts:478-484 | one more screen record adds its watch key exactly when it is another sharer's and new |
| RoomSpec.ScreenPassStep | hooks/useRoom.ts:478-501 | one iteration of the watch pass opens a watch session and pushes an offer exactly when its key becomes a target, and otherwise changes nothing |
| RoomSpec.ScreensCleanup | hooks/useRoom.ts:466-476 | every `O_screen` whose owner has no screen record leaves sessions and streams; keys not ending in `_screen` keep their session and stream; with plain ids every remaining watch key has a sharer |
| RoomSpec.ScreensKeepSurvivors | hooks/useRoom.ts:466-501 | every session that is not stale, including the watch session of a sharer still sharing, survives a screens snapshot unchanged, and so does the stream of every key whose session was not pruned |
| RoomSpec.ScreensKeepStreamsBacked | hooks/useRoom.ts:466-476 | a screens snapshot leaves no camera stream without its session |
| RoomSpec.ScreenWatchInitiation | hooks/useRoom.ts:478-501 | every other sharer has a watch session; a new one has receive-only video then audio, a pending offer, and exactly one offer to `signals/S_screen` |
| RoomSpec.WatchOffering | hooks/useRoom.ts:485-491 | a watch session has two receive-only transceivers (video, audio), a local offer and replies to the sharer's screen mailbox |
| RoomSpec.SignalIsolated | hooks/useRoom.ts:333-403 | a signal touches no session but the one its routing names, and pushes at most one message |
| RoomSpec.OfferConverges | hooks/useRoom.ts:363-390 | an accepted offer leaves the session stable with a remote description and pushes exactly one answer, routed as specified; a session it creates sends the screen stream on the screen inbox and the camera stream otherwise |
| RoomSpec.AnswerGuarded | hooks/useRoom.ts:391-394 | an answer changes something exactly when its session exists with a pending local offer and the transport accepts it; it never pushes |
| RoomSpec.CandidateGuarded | hooks/useRoom.ts:395-398 | a candidate applies exactly when its session exists with a remote description and the transport accepts it |
| RoomSpec.OfferThenCandidates | hooks/useRoom.ts:363-398 | an offer followed by two candidates from the same sender, with no session before, ends stable with two candidates applied |
| RoomSpec.LowerIdWaits | hooks/useRoom.ts:436-455 | with A < B both listed, A opens no session and pushes nothing |
| RoomSpec.HigherIdOffers | hooks/useRoom.ts:436-455 | with A < B both listed, B opens exactly one offering session, to A, and pushes exactly one offer, to A's mailbox |
| RoomSpec.HigherIdTargets | hooks/useRoom.ts:437-438 | in a directory `[A, B]` with A < B, B's only target is A |
| RoomSpec.TwoPeerHandshake | hooks/useRoom.ts:333-455 | two peers converge: B offers, A answers into B's mailbox, both camera sessions end stable with remote descriptions |
| RoomSpec.SyncAllScope | hooks/useRoom.ts:63-65 | track sync keeps the registry's keys, leaves `_screen`/`_viewer` sessions alone and changes no signaling state |
| RoomSpec.SyncSomeStep | hooks/useRoom.ts:63-65 | visiting one more key synchronises exactly that key if it is a camera key |
| RoomSpec.SyncSomeEnds | hooks/useRoom.ts:63-113 | before the loop nothing is synchronised; after visiting every key the registry is `SyncAll` |
| RoomSpec.ScreensKeepCamera | hooks/useRoom.ts:466-476 | a screens snapshot keeps every camera session and every earlier push |
| RoomSpec.ResubscribeReopens | hooks/useRoom.ts:406-525 | after the listeners subscribe again, a listed peer below me whose camera session was gone has a new offering session and has been sent an offer |
| Room.Coordinator.constructor | hooks/useRoom.ts:25-48 | a fresh coordinator has no sessions, streams or snapshots and shows the first projection |
| Room.Coordinator.Recalculate | hooks/useRoom.ts:201-273 | the tiles and featured id become the projection of the current state |
| Room.Coordinator.CreatePC | hooks/useRoom.ts:284-292 | an existing key returns its session and leaves the registry unchanged; a new key adds exactly that key |
| Room.Coordinator.OnParticipants | hooks/useRoom.ts:413-458 | the new registry, streams and outbox are `OnParticipantsSpec` of the old ones; the invariant holds; the tiles are recomputed |
| Room.Coordinator.PruneForParticipants | hooks/useRoom.ts:417-434 | the cleanup loop removes exactly the stale camera and viewer keys, and streams of stale camera keys only |
| Room.Coordinator.OfferToNewPeers | hooks/useRoom.ts:436-455 | the creation loop adds an offering camera session and one offer per camera target |
| Room.Coordinator.OpenCamera | hooks/useRoom.ts:440-451 | one camera session, sending my camera stream, is registered with a pending offer, and its offer is pushed to the peer's mailbox |
| Room.Coordinator.OnScreens | hooks/useRoom.ts:461-504 | the new registry, streams and outbox are `OnScreensSpec` of the old ones; the invariant holds; the tiles are recomputed |
| Room.Coordinator.PruneForScreens | hooks/useRoom.ts:466-476 | the cleanup loop removes exactly the stale watch keys with their streams |
| Room.Coordinator.WatchNewScreens | hooks/useRoom.ts:478-501 | the creation loop adds a watch session and one offer per screen target |
| Room.Coordinator.OpenWatch | hooks/useRoom.ts:484-498 | one watch session is registered and its offer pushed |
| Room.Coordinator.HandleSignal | hooks/useRoom.ts:333-403 | the new registry and outbox are `HandleSignalSpec` of the old ones |
| Room.Coordinator.IceCandidate | hooks/useRoom.ts:294-306 | one candidate is pushed to the session's reply mailbox with the session's sender id |
| Room.Coordinator.TrackReceived | hooks/useRoom.ts:308-312 | the stream is stored under the session's key and the tiles recomputed |
| Room.Coordinator.ConnectionStateChange | hooks/useRoom.ts:314-321 | failed or disconnected removes exactly that key from sessions and streams; other states change nothing |
| Room.Coordinator.Resubscribe | hooks/useRoom.ts:406-525 | the listeners subscribing again re-run the participants handler and then the screens handler on the last snapshots (`Resubscribed`); the tiles are recomputed |
| Room.Coordinator.SetLocalStream | hooks/useRoom.ts:51-114 | a changed stream synchronises every camera session with it (`SyncAll`), then the listeners subscribe again (`Resubscribed`), which also recomputes the tiles; the same stream again changes nothing |
| Room.Coordinator.SyncCameraSessions | hooks/useRoom.ts:63-113 | the loop over the registry leaves it equal to `SyncAll` of the old registry |
| Room.Coordinator.SyncOne | hooks/useRoom.ts:65-112 | a camera key's session is synchronised and any other key's session is left alone |
| Room.Coordinator.SetScreenStream | hooks/useRoom.ts:157-186 | ending or replacing a share removes every `_viewer` session, then the listeners subscribe again (`Resubscribed`); the same stream again changes nothing |
| Room.Coordinator.StopScreenShare | hooks/useRoom.ts:179-184 | every `_viewer` key is removed and no other |
| Room.Coordinator.SetMediaFlags | hooks/useRoom.ts:273-276 | a changed flag makes the listeners subscribe again (`Resubscribed`), which recomputes the tiles; unchanged flags change nothing |
| Room.Coordinator.SetUserName | hooks/useRoom.ts:53 | the name is stored for later pushes and projections, with no recomputation of the tiles |
| Pagination.UnpinnedMembers | hooks/usePagination.ts:13-15 | a tile is unpinned exactly when it is listed and does not carry a truthy pin; a falsy pin (null or "") filters nothing |
| Pagination.PageSize | hooks/usePagination.ts:17 | 4 exactly when pinned, 16 otherwise |
| Pagination.CeilDiv | hooks/usePagination.ts:18 | the ceiling of count / size, zero exactly when the count is zero |
| Pagination.TotalPagesTight | hooks/usePagination.ts:18 | the pages hold every unpinned tile, only the last may be partial, and there are none exactly when nothing is unpinned |
| Pagination.ClampedPageInRange | hooks/usePagination.ts:21-25 | a non-negative page lands inside a non-empty range, and clamping is idempotent |
| Pagination.Paginator.constructor | hooks/usePagination.ts:11 | the page starts at 0 |
| Pagination.SliceBound | hooks/usePagination.ts:34 | a slice bound counts from the end when negative and is clamped into the list |
| Pagination.Slice | hooks/usePagination.ts:34 | the slice is no longer than the list and holds only its elements |
| Pagination.VisibleWindow | hooks/usePagination.ts:32-35 | the visible slice holds at most one page and never the pinned tile; it is the page's window for a page starting inside the list and empty past the end |
| Pagination.ClampedPageShowsTiles | hooks/usePagination.ts:18-35 | a page inside the range shows at least one tile |
| Pagination.Paginator.ClampPage | hooks/usePagination.ts:21-25 | the page becomes the clamped page |
| Pagination.Paginator.SetPinned | hooks/usePagination.ts:28-30 | a change of pin resets the page to 0; the same pin leaves it |
| Pagination.Paginator.SetCurrentPage | hooks/usePagination.ts:21-25 | the requested page is stored and then clamped into the page range |
| Pagination.Paginator.SetParticipants | hooks/usePagination.ts:21-25 | a new tile list is followed by the clamp |
| Meeting.FindPinned | components/MeetingRoom.tsx:161 | some tile exactly when one carries the pinned id, and then a listed tile with that id |
| Meeting.FindPinnedFirst | components/MeetingRoom.tsx:161 | the tile found is the first one carrying the id |
| Meeting.MeetingRoom.constructor | components/MeetingRoom.tsx:120-121 | nothing is pinned, the page is 0 and no share has been seen |
| Meeting.MeetingRoom.PinToggle | components/MeetingRoom.tsx:137-140 | toggling the pinned id unpins, any other id pins it; the page is 0 |
| Meeting.MeetingRoom.ScreenSharingChanged | components/MeetingRoom.tsx:120-134 | no change does nothing; a new truthy id is pinned with page 0; a change to falsy clears the pin only if it was the previous share, and the page is then clamped if the page count changed; the previous id is recorded |
| Meeting.MeetingRoom.ClampPage | components/MeetingRoom.tsx:150-154 | the page becomes the clamped page |
| Meeting.MeetingRoom.SetCurrentPage | components/MeetingRoom.tsx:150-154 | a page requested by the controls is stored and then clamped into the page range |
| Meeting.MeetingRoom.SetParticipants | components/MeetingRoom.tsx:143-154 | a new tile list is followed by the clamp |
| Meeting.PinToggleLayout | components/MeetingRoom.tsx:137-188 | pinning a listed tile shows it large and keeps it out of the side list; toggling it again returns to the full grid |
| Meeting.ShareStartThenStop | components/MeetingRoom.tsx:120-134 | the pin follows a starting share and is released when it stops |
| Meeting.StopReturnsToGrid | components/MeetingRoom.tsx:120-159 | with nine tiles, a user on the third side page of a share is back on the single grid page, seeing every tile, once the share stops |
| Meeting.ManualPinSurvivesStop | components/MeetingRoom.tsx:120-140 | a tile pinned by hand during a share stays pinned when the share stops, on page 0 |
| MockRoom.OrYou | hooks/useMockRoom.ts:31 | an empty name falls back to "You" |
| MockRoom.UpsertLocalUser | hooks/useMockRoom.ts:18-39 | an existing `local-user` gets the name verbatim and the flags, nothing else changes; otherwise a new tile with the fallback name is prepended |
| MockRoom.UpsertLocalUserIdempotent | hooks/useMockRoom.ts:18-39 | with a non-empty name, running the effect twice equals running it once |
| MockRoom.EmptyNameFallbackIsInsertOnly | hooks/useMockRoom.ts:22-31 | with an empty name the tile is inserted as "You" and renamed to "" by the next run |
| MockRoom.UpsertLocalScreen | hooks/useMockRoom.ts:44-60 | an existing `local-screen` gets the new stream, others untouched; otherwise a presentation tile is appended |
| MockRoom.RemoveLocalScreen | hooks/useMockRoom.ts:63 | exactly the non-`local-screen` tiles remain, in their order (`Without`, which distributes over concatenation) |
| MockRoom.ScreenStartStop | hooks/useMockRoom.ts:42-65 | presenting then stopping leaves the other tiles as they were, exactly so when there was no presentation tile |
| MockRoom.RefreshedScreenStrips | hooks/useMockRoom.ts:47 | updating presentation streams does not change the other tiles |
| MockRoom.Room.constructor | hooks/useMockRoom.ts:12-13 | the room starts with no tiles and nothing featured |
| MockRoom.Room.LocalUserEffect | hooks/useMockRoom.ts:15-40 | nothing changes before joining; otherwise the local-user upsert |
| MockRoom.Room.LocalScreenEffect | hooks/useMockRoom.ts:42-66 | a stream upserts the presentation and features `local-screen`; no stream removes the presentation and clears the featured id only if it was `local-screen` |
| MockRoom.JoinPresentStop | hooks/useMockRoom.ts:15-66 | join, present, stop leaves one camera tile and nothing featured |
| PageControls.Render | components/PaginationControls.tsx:21-54 | nothing renders when there is at most one page; prev requests page-1 and is disabled on page 0; next requests page+1 and is disabled on the last page; the indicator reads page+1 of the total |
| PageControls.NavigationInRange | components/PaginationControls.tsx:32-54 | from a page in range, every enabled request is in range, some arrow is enabled, and the indicator shows a page between 1 and the total |
| PageControls.ControlsForTiles | components/PaginationControls.tsx:21 | the arrows show exactly when the unpinned tiles exceed one page, and the clamped page is in range |

## Definitions

These functions define what the code computes. They carry no contract of their own; the rows above state their properties.

- `Signaling.Route`: the routing of an inbound signal (hooks/useRoom.ts:341-355); see `Signaling.CameraHandshakeRoutes` and `Signaling.ScreenHandshakeRoutes`.
- `Sessions.SyncSession`: one camera session after track sync (hooks/useRoom.ts:65-112); see the `Sessions.Sync…` rows.
- `View.SortNewest`: the stable newest-first sort (hooks/useRoom.ts:247-248); see `View.SortNewestOrders`, `View.SortNewestElements` and `View.SortNewestHead`.
- `View.NewestIndex`: a reference choice of the newest record, independent of the sort; see `View.NewestIndexIsNewest`.
- `View.Project`: `recalculateParticipants` (hooks/useRoom.ts:201-273); see the `View.Project…` rows.
- `RoomSpec.OnParticipantsSpec`: the participants handler (hooks/useRoom.ts:413-458); see `RoomSpec.CameraInitiation` and `RoomSpec.ParticipantsCleanup`.
- `RoomSpec.OnScreensSpec`: the screens handler (hooks/useRoom.ts:461-504); see `RoomSpec.ScreensCleanup`, `RoomSpec.ScreensKeepSurvivors` and `RoomSpec.ScreenWatchInitiation`.
- `RoomSpec.HandleSignalSpec`: the signal handler (hooks/useRoom.ts:333-403); see `RoomSpec.SignalIsolated` and the rows after it.
- `RoomSpec.SyncAll`: the track-sync effect over the registry (hooks/useRoom.ts:63-113); see `RoomSpec.SyncAllScope`.
- `RoomSpec.DropViewers`: the share cleanup (hooks/useRoom.ts:179-184); see `Room.Coordinator.StopScreenShare`.
- `RoomSpec.Resubscribed`: both handlers run again (hooks/useRoom.ts:406-525); see `RoomSpec.ResubscribeReopens`.
- `Pagination.Unpinned` (hooks/usePagination.ts:13-15); see `Pagination.UnpinnedMembers`.
- `Pagination.TotalPages` (hooks/usePagination.ts:18); see `Pagination.TotalPagesTight`.
- `Pagination.ClampedPage` (hooks/usePagination.ts:21-25); see `Pagination.ClampedPageInRange`.
- `Pagination.Visible` (hooks/usePagination.ts:32-35); see `Pagination.VisibleWindow`.
- `MockRoom.ReleaseScreenSharingId` (hooks/useMockRoom.ts:64); see `MockRoom.Room.LocalScreenEffect`.

## Left out

- The realtime directory is not modelled as a service.
  - Its reads and writes (`ref`, `push`, `set`, `update`, `remove`, `onDisconnect`, `onValue`, `onChildAdded`) are left out, and services/roomService.ts is not part of this model.
  - Pushes to mailboxes are appended to `outbox`. Snapshots are method inputs.
  - Removing a consumed inbox message is the consumption of the `HandleSignal` input.
  - The presence writes (hooks/useRoom.ts:117-154) and screen-share writes (hooks/useRoom.ts:157-198) are not recorded.
- WebRTC internals are abstracted to the session value in `Sessions`: SDP contents, ICE servers, ICE candidate payloads and the connection itself are not modelled.
  - Transceivers that a remote offer creates on the answering side are not added to the session. What this changes for track sync is stated under "Where the model departs from the code".
  - A failed negotiation step leaves the session as it was before the message. The transport may in fact have applied part of the step, e.g. a rollback.
- Asynchrony is not modelled: each handler is one atomic step, and promise interleavings and React effect scheduling are left out.
- `Math.random`/`sessionStorage` user ids and `Date.now` are not modelled. The id and the time `now` are inputs.
- `event.streams[0]` in `ontrack` is taken to exist.
- String order compares characters; JavaScript compares UTF-16 code units. The two agree on the generated ids, which are ASCII.
- Room.Coordinator.TrackReceived: recomputes the tiles with the current mute flags, not those captured when the session was opened; see "Where the model departs from the code".
- Room.Coordinator.ConnectionStateChange: the same captured-flags difference as TrackReceived.
- Sessions.AnswerOffer: does not record the transceivers that the remote offer creates, so later track sync may append one where the code reuses the offer's; see "Where the model departs from the code".
- Room.Coordinator.Resubscribe: the listeners deliver again the snapshots they last delivered, the participants one first. A directory change in between would already have run its handler.
- Room.Coordinator.HandleSignal: does not model the guard on `createPCRef.current` (hooks/useRoom.ts:358-359), because the factory is installed on mount, before any signal arrives.
- Room.Coordinator.IceCandidate: requires the session to be in the registry; a closed connection does not raise events.
- RoomSpec.ParticipantsCleanup: proved for directories whose ids contain neither marker. Generated ids are `user_` plus base-36 digits.
- RoomSpec.ScreensCleanup: the "every remaining watch key has a sharer" half is proved for sharer ids without `_screen`, for the same reason.
- MockRoom.UpsertLocalUser: the meeting screen calls the hook without a name or flags, which are then `undefined`. The model takes a string name (empty for the falsy case) and booleans.
- Layout math (utils/layout.ts), the media and permission hooks, the idle timers, the small-screen warning and all rendering are not part of this model.

## Where the code and the description differ

The model follows the code in each of these cases:

- Track sync adds a transceiver to a stable session that has none of a track's kind, but the code installs no `onnegotiationneeded` handler. No new offer follows, so the added track is not negotiated until some later offer.
- The featured screen share is the first record of maximal `createdAt` in snapshot order, which is what the stable sort at hooks/useRoom.ts:248 gives. No id tie-break is applied.
- Both branches of the ternary at hooks/useRoom.ts:252 give `newest.id + "_screen"`.
- A signal whose sender ends in `_screen` on the camera inbox gets an empty reply mailbox (hooks/useRoom.ts:347-350). If such an offer ever created a session, its answer and candidates would be pushed to path `""`.
- The local-user update sets the name verbatim (hooks/useMockRoom.ts:22). The fallback "You" applies only on insertion, and the tile's stream is set only on insertion.

## Where the model departs from the code

The "## Left out" lines on these members point here:

- Track events and connection failures (hooks/useRoom.ts:308-321) call the `recalculateParticipants` that the factory captured when the session was opened. That closure reads my mute flags from its own capture (hooks/useRoom.ts:210-211). So after a mute toggle, an event on an older session shows the old flags until the next snapshot or flag change. Room.Coordinator.TrackReceived and Room.Coordinator.ConnectionStateChange recompute with the current flags instead.
- An answering session gets its transceivers from the remote offer, and the model does not record them. Take an offer that carried video to an answerer who joined without a camera. When the camera comes on, the code replaces that existing transceiver's sender track (hooks/useRoom.ts:88-98) and adds nothing (hooks/useRoom.ts:103-111). The model's `Additions` sees no video transceiver and appends a send-receive one instead.
