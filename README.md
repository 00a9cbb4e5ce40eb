# Studio session, admission and friend relations — a Dafny model

This project models the core of a live-broadcast studio service. The service is written in
TypeScript on top of Socket.IO and a mediasoup SFU. The model has three parts:

- **The studio session state** kept by `SocketService`:
  - the rooms and their participants, one record per user id, in join order;
  - the user-to-socket map;
  - the transport, producer and consumer tables;
  - the per-socket fields (room, user, transports, producer ids).

  Each socket handler is a method of the class `Studio.SocketService`. Every handler is proved
  against specification functions over values (in `Session` and `Admission`). These handlers
  are covered: join, reconnect, invite verification, join requests, approve and deny,
  transport/produce/consume/resume/close, and disconnect with its cleanup. Everything the
  service sends is appended to an event log. What a handler answers through its callback is
  its `Reply`.
- **The friend-relation store** (`Friends`). It covers the send, accept and block/unblock use
  cases, each written as a specification function on a `map<Edge, Relation>` and as a method
  that drives a repository class step by step. Two read-side queries sit in `FriendQueries`:
  the friendship-status label shown next to each streamer, and the deduplicated list of
  accepted friends.
- **Two stream use cases** (`Streams`): adding a participant to a stream's persisted list
  unless its user is already listed, and validating and building a new stream.

Files:

- `common.dfy`: `Option` and `Result`.
- `session.dfy`: rooms, upsert, departure, producer-id splicing and the notifications.
- `admission.dfy`: the guest quota, invite verification and the decisions of the admission
  handlers.
- `streams.dfy`, `friends.dfy`, `friend_queries.dfy`.
- `studio.dfy`: the service class.

The media engine, the clock, the user and latest-stream lookups, and the ids the engine or
the database assign are parameters of each handler:

- `freshId` is the id of a created handle;
- `engineOk` says whether the engine call succeeded;
- `canConsume` is the router's consume check;
- `latest` maps a channel to its latest stream;
- `users` maps a user id to its stored username;
- `now` is the time in milliseconds.

Where the code and the service's specification disagree, the model follows the code:

- `verifyInviteToken` never checks that the invite targets the requested room. Only
  approveGuest compares the invite's channel.
- There is no host fast path: the host joins through `joinStudio` like any role.
- Disconnect closes transports and producers, but not consumers. A consumer goes only when
  the engine reports its producer closed.
- The guest quota counts the `guest` entries of the persisted participant list of the
  channel's latest stream. It does not count the in-memory room.
- A non-approved invite is only confirmed by `verifyInvite`. The token stays usable.

Two properties that may surprise a reader:

- In verifyInvite, a missing invite reports "User not found", not "Invite expired or
  invalid". The user lookup comes first.
- A user blocking themself does not round-trip. Both lookups of the block use case find the
  same row, so the reverse-relation update overwrites the new BLOCKED status with REJECTED.
  `Friends.SelfBlockDoesNotRoundTrip` exhibits this, and `Friends.BlockRoundTrip` is stated
  for distinct users.

## Model

| member | source | states |
|---|---|---|
| Session.IndexOfUser | src/infrastructure/service/socketServiceManager.ts:164-170 | the position found holds the user's record; none is found exactly when no record has that user id |
| Session.IndexOfUserIsUnique | src/infrastructure/service/socketServiceManager.ts:62 | in a room keyed by user id, the record found for a user is the one at its only position |
| Session.AnyHost | src/infrastructure/service/socketServiceManager.ts:158-160 | true exactly when some participant has role "host" |
| Session.HasHostInRoom | src/infrastructure/service/socketServiceManager.ts:154-161 | false for an unknown room; otherwise true iff some participant of the room has role "host" |
| Session.IsUserAlreadyInRoom | src/infrastructure/service/socketServiceManager.ts:164-170 | false for an unknown room; otherwise true iff the room holds a record for the user |
| Session.Upsert | src/infrastructure/service/socketServiceManager.ts:293-336 | isNew iff no record has the user id; a new record has no producers and is appended; an existing one keeps role and producers and takes the new socket id and username in place; the room still has one record per user and is non-empty |
| Session.UpsertIdempotent | src/infrastructure/service/socketServiceManager.ts:293-336 | a second join of the same user with the same socket and name, under any role, changes nothing and reports isNew = false |
| Session.Replaced | src/infrastructure/service/socketServiceManager.ts:314-315 | overwriting one record with a record for the same user changes no other position and keeps user ids unique |
| Session.RemoveAt | src/infrastructure/service/socketServiceManager.ts:435 | deleting one record keeps every other record, in order |
| Session.Depart | src/infrastructure/service/socketServiceManager.ts:428-450 | the record is removed iff the room and user are set and the user's record names this socket; otherwise the rooms are unchanged; the room stays registered iff other participants remain; other rooms are untouched; rooms stay non-empty and keyed by user |
| Session.ReconnectSurvivesStaleDisconnect | src/infrastructure/service/socketServiceManager.ts:428-443 | after a user rejoins through a new socket, a disconnect of any other socket leaves the registry as it was |
| Session.DepartAt | src/infrastructure/service/socketServiceManager.ts:428-448 | given the user's record, the disconnect removes it exactly when it names the socket, and unregisters a room left empty |
| Session.DepartLast | src/infrastructure/service/socketServiceManager.ts:428-448 | a disconnect through the socket of a room's last record removes just that record (or the room, if it was alone) |
| Session.JoinThenDepartRestores | src/infrastructure/service/socketServiceManager.ts:428-448 | a new user joining and then disconnecting through the same socket restores the registry, unregistering a room the join created |
| Session.IndexOf | src/infrastructure/service/socketServiceManager.ts:1111-1113 | the index found is the first occurrence of the id; none iff the id is absent |
| Session.SpliceOut | src/infrastructure/service/socketServiceManager.ts:1111-1116 | an absent id leaves the list unchanged; otherwise exactly its first occurrence is cut out and the rest keep their order (the multiset loses one copy) |
| Session.SpliceOutDistinct | src/infrastructure/service/socketServiceManager.ts:1111-1116 | on a list without repeats, the splice removes the id altogether and keeps the list repeat-free |
| Session.SpliceOutUndoesAppend | src/infrastructure/service/socketServiceManager.ts:1111-1116 | closing a producer that produce just appended gives the participant its old list back |
| Session.CloseAll | src/infrastructure/service/socketServiceManager.ts:413-424 | after closing the socket's producers, a producer remains iff it was open and not listed, with its handle unchanged |
| Session.ClosedIds | src/infrastructure/service/socketServiceManager.ts:413-424 | the ids actually closed are exactly the listed ids that were open, each once |
| Session.ParticipantNotices | src/infrastructure/service/socketServiceManager.ts:338-357 | one participantJoined per participant, in room order, to the one socket |
| Session.NoticesFor | src/infrastructure/service/socketServiceManager.ts:368-381 | one newProducer per producer id of the participant, in list order |
| Session.ExistingProducerNotices | src/infrastructure/service/socketServiceManager.ts:360-384 | one notice per producer of each participant on another socket: the length is the sum of their producer counts |
| Session.ExistingProducerNoticesConcat | src/infrastructure/service/socketServiceManager.ts:366-381 | the notices follow room order: those for an earlier part of the room all come before those for a later part |
| Session.ExistingProducerNoticesSingle | src/infrastructure/service/socketServiceManager.ts:366-381 | a participant on another socket contributes its newProducer notices in list order; the asking socket's own participant contributes none |
| Session.ExistingProducerNoticesSound | src/infrastructure/service/socketServiceManager.ts:360-384 | every notice announces a producer of a participant on another socket that has producers |
| Session.ExistingProducerNoticesComplete | src/infrastructure/service/socketServiceManager.ts:360-384 | every producer of every participant on another socket is announced |
| Session.ExistingProducerNoticesSkipOwnSocket | src/infrastructure/service/socketServiceManager.ts:366-369 | every notice goes to the asking socket and none announces a producer of that socket |
| Session.ClosedNotices | src/infrastructure/service/socketServiceManager.ts:419-421 | one producerClosed to the room per closed id, in order |
| Admission.GuestCount | src/infrastructure/service/socketServiceManager.ts:139-140 | the count is the number of positions whose entry has role "guest"; hence at most the whole list, and zero exactly when no entry is a guest |
| Admission.CanAddGuestParticipant | src/infrastructure/service/socketServiceManager.ts:135-142 | true iff the stream exists and lists fewer than three guests (a missing list counts as empty) |
| Admission.QuotaHoldsAfterAdmission | src/infrastructure/service/socketServiceManager.ts:135-142 | adding one participant to a list that passed the quota check leaves at most three guests |
| Admission.IsUserStreamHost | src/infrastructure/service/socketServiceManager.ts:145-151 | true iff the stream exists and was created by the user |
| Admission.VerifyInviteToken | src/infrastructure/service/socketServiceManager.ts:172-203 | verifies iff the invite exists, is unexpired, names this user and its channel has an active stream; otherwise each failed check reports its own message, in that order |
| Admission.InviteBindsOneUser | src/infrastructure/service/socketServiceManager.ts:187-189 | one token never verifies for two different users |
| Admission.InviteVerifiesEarlier | src/infrastructure/service/socketServiceManager.ts:182-184 | an invite that verifies now verifies, with the same result, at every earlier time |
| Admission.GuestJoinOutcome | src/infrastructure/service/socketServiceManager.ts:206-290 | refused iff verification fails (with its message); then host absent, reconnect (approved invite and user in the room) or ask the host, each exactly under its condition |
| Admission.VerifyInviteOutcome | src/infrastructure/service/socketServiceManager.ts:561-673 | "User not found" unless the invite names a stored user; only an unexpired invite passes; a room is entered only with an approved invite, an active stream and a host present, as a reconnect iff the user is already in the room; an unapproved valid invite is only confirmed; a new guest's record takes the given username or the stored one |
| Admission.ApproveGate | src/infrastructure/service/socketServiceManager.ts:697-751 | admits iff the stream is active, the approver created it, a host is present, the quota allows, the invite is valid for this channel and the guest is connected; each refusal goes to the approver or to the guest with its message, in the source's order |
| Admission.AdmissionRespectsQuota | src/infrastructure/service/socketServiceManager.ts:720-770 | adding an admitted guest to the latest-stream list the quota check read leaves at most three guests on it |
| Streams.AddIfAbsent | src/application/usecases/stream/UpdateStreamParticpantUsecase.ts:18-22 | the participant is appended iff its user id is not listed, otherwise the list is unchanged; a missing list counts as empty; the user is listed afterwards |
| Streams.AddIfAbsentKeepsEntries | src/application/usecases/stream/UpdateStreamParticpantUsecase.ts:18-22 | the old list is a prefix of the new one, which is at most one longer |
| Streams.AddIfAbsentIdempotent | src/application/usecases/stream/UpdateStreamParticpantUsecase.ts:20 | a second add with the same user id, whatever its role and name, changes nothing |
| Streams.AddIfAbsentKeepsUnique | src/application/usecases/stream/UpdateStreamParticpantUsecase.ts:18-22 | unique user ids stay unique |
| Streams.UpdateStreamParticipants | src/application/usecases/stream/UpdateStreamParticpantUsecase.ts:8-39 | an unknown stream fails with "Stream with id … not found" and changes nothing; otherwise only that stream's participant list changes, to AddIfAbsent of the old one, and the stored record is returned |
| Streams.BuildStream | src/application/usecases/stream/CreateStreamUsecase.ts:11-47 | title, channel id, broadcast type, category and visibility are required in that order, the first missing one naming the error; on success the listed fields are copied verbatim and liveChat defaults to (true, false, "Anyone", true, false, "60") |
| Streams.BuildStreamIgnoresStatusAndParticipants | src/application/usecases/stream/CreateStreamUsecase.ts:27-47 | a status or participant list in the request never reaches the built stream |
| Streams.StreamRepository.Create | src/application/usecases/stream/CreateStreamUsecase.ts:49 | the new stream is stored under a fresh id with an empty participant list, the column's default |
| Streams.CreateStream | src/application/usecases/stream/CreateStreamUsecase.ts:7-54 | a failed validation returns its error and stores nothing; otherwise exactly the built stream is stored |
| Friends.Patched | src/infrastructure/repositories/FriendRepository.ts:36-37 | a partial update always writes the status and writes previousStatus only when given |
| Friends.SendRequest | src/application/usecases/friend/sendFriendUsecase.ts:11-36 | fails iff a relation exists in either direction ("already exists" first, then the reverse message); on success exactly one PENDING requester-to-accepter relation is added and the others are unchanged |
| Friends.AcceptRequest | src/application/usecases/friend/acceptFriendUsecase.ts:11-21 | succeeds iff a PENDING requester-to-accepter relation exists; then only its status changes, to ACCEPTED |
| Friends.BlockToggle | src/application/usecases/friend/blockFriendUsecase.ts:14-76 | no relation: a BLOCKED one without a previous status is created; an unblocked one becomes BLOCKED and remembers its status; applying a block sets the reverse relation to REJECTED; a block with a previous status is lifted to it and the previous status cleared; one without is deleted and null returned; lifting touches only the forward relation, applying only the pair |
| Friends.SendKeepsOnePerPair | src/application/usecases/friend/sendFriendUsecase.ts:11-36 | a store with at most one relation per pair of distinct users keeps that property after a send |
| Friends.AcceptTwiceFails | src/application/usecases/friend/acceptFriendUsecase.ts:16-18 | a second accept of the same pair fails |
| Friends.AcceptLeavesReverse | src/application/usecases/friend/acceptFriendUsecase.ts:12-21 | accepting never changes the relation in the opposite direction |
| Friends.BlockRoundTrip | src/application/usecases/friend/blockFriendUsecase.ts:29-68 | for distinct users, block then toggle restores the forward relation's status (previous status cleared), or removes it when there was none |
| Friends.SelfBlockDoesNotRoundTrip | src/application/usecases/friend/blockFriendUsecase.ts:18-53 | for a self-relation the block leaves REJECTED and the second toggle blocks again |
| Friends.FriendRepository.FindFriendByUserAndFriend | src/infrastructure/repositories/FriendRepository.ts:79-100 | finds the directed pair's relation iff stored |
| Friends.FriendRepository.CreateFriend | src/infrastructure/repositories/FriendRepository.ts:15-34 | stores the entity under its pair and returns it |
| Friends.FriendRepository.UpdateFriend | src/infrastructure/repositories/FriendRepository.ts:36-55 | patches the pair's relation if present |
| Friends.FriendRepository.DeleteFriend | src/infrastructure/repositories/FriendRepository.ts:57-59 | removes the pair's relation |
| Friends.SendFriendRequest | src/application/usecases/friend/sendFriendUsecase.ts:11-37 | the lookups and insert give exactly SendRequest: its error with the store unchanged, or the PENDING entity and the new store |
| Friends.AcceptFriendRequest | src/application/usecases/friend/acceptFriendUsecase.ts:11-22 | the lookup and update give exactly AcceptRequest |
| Friends.BlockFriend | src/application/usecases/friend/blockFriendUsecase.ts:14-76 | the lookups and writes of each branch give exactly BlockToggle's store and returned relation |
| FriendQueries.GetFriendshipStatus | src/application/usecases/user/GetStreamerUsecase.ts:64-81 | PENDING_SENT iff a sent PENDING relation; a sent relation wins over a received one; PENDING_RECEIVED and BLOCKED_BY_THEM only from a received relation; NONE iff neither; any other status is passed through |
| FriendQueries.FindFirst | src/application/usecases/user/GetStreamerUsecase.ts:48-51 | the first matching row, or none iff no row matches |
| FriendQueries.AnnotateStreamers | src/application/usecases/user/GetStreamerUsecase.ts:47-61 | same length and order as the streamers, each with the status of its first sent and first received relation |
| FriendQueries.SentRelationDecides | src/application/usecases/user/GetStreamerUsecase.ts:48-69 | the first sent relation naming the streamer decides the label, whatever was received |
| FriendQueries.ReceivedRelationDecides | src/application/usecases/user/GetStreamerUsecase.ts:48-79 | with no sent relation, the first received relation from the streamer decides the label |
| FriendQueries.SentFriends | src/infrastructure/repositories/FriendRepository.ts:103-113 | exactly the friend side of the accepted relations the user sent |
| FriendQueries.ReceivedFriends | src/infrastructure/repositories/FriendRepository.ts:107-114 | exactly the user side of the accepted relations the user received |
| FriendQueries.IndexOfId | src/infrastructure/repositories/FriendRepository.ts:117-119 | the position of a key among the Map's entries, none iff absent |
| FriendQueries.SetById | src/infrastructure/repositories/FriendRepository.ts:117-119 | Map.set: an existing key keeps its position and takes the new user, a new key goes last, keys stay unique |
| FriendQueries.UniqueById | src/infrastructure/repositories/FriendRepository.ts:117-119 | no two results share an id; the result has exactly the input's ids and only input users |
| FriendQueries.UniqueByIdKeepsFirstOccurrenceOrder | src/infrastructure/repositories/FriendRepository.ts:112-119 | ids come out in the order of their first occurrence in the input |
| FriendQueries.UniqueByIdKeepsLastValue | src/infrastructure/repositories/FriendRepository.ts:117-119 | each user kept is the last one in the input with its id |
| FriendQueries.GetFriendsOfUser | src/infrastructure/repositories/FriendRepository.ts:102-121 | no two results share an id; every result is on the other side of an accepted relation of the user, and every such user's id is in the result |
| Studio.SocketService.constructor | src/infrastructure/service/socketServiceManager.ts:56-63 | the service starts with empty rooms, maps, tables and event log |
| Studio.SocketService.Connect | src/infrastructure/service/socketServiceManager.ts:455-456 | a connected socket has no room, user, transports or producers |
| Studio.SocketService.GenerateInvite | src/infrastructure/service/socketServiceManager.ts:475-481 | stores an unapproved invite for the channel and user, expiring 24 hours after now, and sends the link with the token to the socket |
| Studio.SocketService.AddParticipantToRoom | src/infrastructure/service/socketServiceManager.ts:293-336 | the room becomes Upsert of the old one (created if absent), with its record and isNew; the user's socket becomes this one |
| Studio.SocketService.Reattach | src/infrastructure/service/socketServiceManager.ts:606-612 | the user's record and userSocketMap take the new socket id; nothing else in the room changes |
| Studio.SocketService.SendCurrentParticipants | src/infrastructure/service/socketServiceManager.ts:338-357 | appends ParticipantNotices of the room, or nothing for an unknown room |
| Studio.SocketService.SendExistingProducers | src/infrastructure/service/socketServiceManager.ts:360-384 | appends ExistingProducerNotices of the room, or nothing for an unknown room |
| Studio.SocketService.ProducerNoticesOf | src/infrastructure/service/socketServiceManager.ts:370-381 | the notices for one participant are NoticesFor its producer ids |
| Studio.SocketService.CleanupUserResources | src/infrastructure/service/socketServiceManager.ts:387-452 | a socket without a user changes nothing; otherwise its transports are closed, its open producers closed (announced to its room if it has one), and it leaves its room as Depart says, with userSocketMap and participantLeft following Depart |
| Studio.SocketService.CloseTransportsOf | src/infrastructure/service/socketServiceManager.ts:396-411 | exactly the socket's set send and receive transports are removed |
| Studio.SocketService.LeaveRoom | src/infrastructure/service/socketServiceManager.ts:428-450 | the rooms become Depart's; the user leaves userSocketMap and the room hears participantLeft exactly when the record was removed |
| Studio.SocketService.CloseProducersOf | src/infrastructure/service/socketServiceManager.ts:413-424 | the producer table becomes CloseAll, and one producerClosed per id actually closed is announced to the room when it is set |
| Studio.SocketService.Disconnect | src/infrastructure/service/socketServiceManager.ts:1125-1128 | the cleanup's effect on every table and the log, and the socket is gone |
| Studio.SocketService.Greet | src/infrastructure/service/socketServiceManager.ts:555-556 | appends the participants and then the other sockets' producers |
| Studio.SocketService.Enter | src/infrastructure/service/socketServiceManager.ts:503-515 | the socket records the room and user, and the room becomes Upsert of the old one |
| Studio.SocketService.GreetHost | src/infrastructure/service/socketServiceManager.ts:519-541 | a host is added to the persisted list unless listed; the room is sent the stored stream and the host's arrival, the host the snapshot; nothing is sent if the stream is not stored |
| Studio.SocketService.GreetMember | src/infrastructure/service/socketServiceManager.ts:542-552 | a non-host is sent the stream as queried; the room hears of the arrival only for a new record; the user gets the snapshot |
| Studio.SocketService.JoinStudio | src/infrastructure/service/socketServiceManager.ts:484-558 | no active stream: only an error to the socket; otherwise the user is upserted (username falling back to "Unknown"), sent the router capabilities, and the host or member part follows |
| Studio.SocketService.ResumeSession | src/infrastructure/service/socketServiceManager.ts:601-625 | the socket takes room and user, the user's record and userSocketMap take the socket, and the socket gets the capabilities and the snapshot |
| Studio.SocketService.SeatInvitedGuest | src/infrastructure/service/socketServiceManager.ts:626-664 | the guest is upserted under its record name, sent the capabilities, announced to the room under the given name or "Guest", and sent the snapshot |
| Studio.SocketService.VerifyInvite | src/infrastructure/service/socketServiceManager.ts:561-673 | a refused or unapproved invite changes no state and answers the refusal or the confirmation; an approved one reconnects or seats the guest as VerifyInviteOutcome decides |
| Studio.SocketService.RejoinAfterRequest | src/infrastructure/service/socketServiceManager.ts:242-270 | the reconnect answer goes to the callback or is emitted as joinApproved (reconnected), then the session resumes |
| Studio.SocketService.AnswerVerifiedRequest | src/infrastructure/service/socketServiceManager.ts:227-289 | the socket records the user; host absent: a denial and no participant added; reconnect; or a guestRequest to the room and "Waiting for host approval" |
| Studio.SocketService.RequestToJoin | src/infrastructure/service/socketServiceManager.ts:206-290 | an unverified invite changes nothing but the answer (reply or error emit); otherwise each GuestJoinOutcome has its state change and messages; a reply is given iff there is a callback |
| Studio.SocketService.SeatApprovedGuest | src/infrastructure/service/socketServiceManager.ts:758-811 | a failed participant write tells the guest "Internal server error"; otherwise the guest is persisted, seated and announced, and sent its approval, the capabilities and the snapshot |
| Studio.SocketService.ApproveGuest | src/infrastructure/service/socketServiceManager.ts:694-812 | any refusal of ApproveGate leaves invites, stream list, sockets and rooms unchanged and sends its message; an admission marks the invite approved and seats the guest; when the stored list is the one the quota check read, it holds at most three guests afterwards |
| Studio.SocketService.DenyGuest | src/infrastructure/service/socketServiceManager.ts:815-832 | only the stream's creator denies (joinDenied to the guest); anyone else gets an error |
| Studio.SocketService.CreateTransport | src/infrastructure/service/socketServiceManager.ts:898-936 | an engine failure changes nothing; otherwise the new transport is registered and recorded on the socket under its direction |
| Studio.SocketService.ConnectTransport | src/infrastructure/service/socketServiceManager.ts:938-958 | an unknown transport is refused with "Transport not found" and nothing changes; an engine failure changes nothing; otherwise it is connected |
| Studio.SocketService.Produce | src/infrastructure/service/socketServiceManager.ts:961-1022 | an unknown transport or engine failure changes nothing; otherwise the producer is registered, appended to the socket's list and, if the user's record is in its room, to the record, with newProducer to the room |
| Studio.SocketService.Consume | src/infrastructure/service/socketServiceManager.ts:1025-1076 | refused (with no change) iff the transport is unknown, the router cannot consume or the engine fails; otherwise a paused consumer is registered |
| Studio.SocketService.ResumeConsumer | src/infrastructure/service/socketServiceManager.ts:1079-1090 | an unknown consumer gets "Consumer not found"; a known one is unpaused |
| Studio.SocketService.CloseProducer | src/infrastructure/service/socketServiceManager.ts:1093-1123 | an unknown id changes nothing; a known one is dropped, announced to the socket's room, and spliced out of the user's record there |
| Studio.SocketService.TransportRouterClosed | src/infrastructure/service/socketServiceManager.ts:927-930 | the transport is forgotten |
| Studio.SocketService.ProducerTransportClosed | src/infrastructure/service/socketServiceManager.ts:1013-1016 | the producer is forgotten and nobody is told |
| Studio.SocketService.ConsumerProducerClosed | src/infrastructure/service/socketServiceManager.ts:1066-1070 | the consumer is forgotten and its socket is told which producer closed |

## Left out

- Media engine: worker and router setup, codecs, and the ICE and DTLS parameters are left out. Engine calls are oracles (`freshId`, `engineOk`, `canConsume`). Closing an engine handle is modelled only as removing it from its table.
- Socket.IO plumbing is left out: `socket.join`, the `onAny` logging and the patched `emit`. A room emit is an event with target `ToRoom`. Which sockets receive it is not modelled; the sender is one of them.
- Ordering between a callback and emits is not captured. A handler's `Reply` is kept apart from the event log.
- Studio.SocketService.SendExistingProducers: the notices are appended to the log once, after the loop. The final log is the same as emitting inside the loop.
- The stream-settings socket handlers and use cases are left out. They pass straight through to a repository.
- Persistence libraries (TypeORM, Mongoose) are left out:
  - the stream table is a map held by `Streams.StreamRepository`;
  - the relation table is a map held by `Friends.FriendRepository`;
  - the invite ledger is the service's `invites` map;
  - user and latest-stream lookups are map parameters.
- Invites: the stored invite model has no `userId` or `isApproved` column, and the repository interface has no `updateByToken`. The model uses the fields the service reads and writes, and `updateByToken` sets `isApproved`.
- Studio.SocketService.GenerateInvite: the random token is a parameter. It is required to be new. The 24 hours are added to `now` in milliseconds.
- Error paths left out: verifyInvite's "Internal server error" catch, verifyInviteToken's catch, and denyGuest's "Failed to process denial" catch. Each is reached only when a repository or lookup throws, and the lookups here are total maps.
- Admission.AdmissionRespectsQuota: it bounds the latest-stream list the quota check read, not the stored list. The latest-stream lookup is a parameter that the model does not tie to the stream table, so a stored list that differs from the one read is not bounded. Studio.SocketService.ApproveGuest states the bound on the stored list when the two agree.
- Studio.SocketService.ApproveGuest: the invite stays approved when the later participant write fails. This matches the source. A failing write is the only throwing path modelled, since the stream record is missing from the command store.
- Studio.SocketService.GreetHost: the source's participant update throws for a stream missing from the command store. The exception is not caught there, so the handler stops after the router capabilities. The model stops there too.
- Studio.SocketService.SeatApprovedGuest: the joinApproved payload has no `reconnected` field. It is modelled as `reconnected = false`.
- Studio.SocketService.CleanupUserResources: consumers are not closed on disconnect, and neither does the source close them.
- Studio.SocketService.CloseProducer: the id is not spliced out of the socket's own list, and neither does the source splice it.
- The payloads are left out:
  - a streamUpdate carries the stream id and participant list, not the whole record;
  - an inviteLink carries the link and user id;
  - RTP capabilities are a constant message.
- Concurrency is left out. Each handler runs as one atomic step, with no interleaving of its awaits.
- The HTTP layer, RabbitMQ messaging, the entity constructors and the other repository methods are left out. Per-request logging is left out as well.
