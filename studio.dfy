/**
  SocketService: the studio's live session state and the socket handlers
  that change it.  The media engine, the user and stream lookups and the
  clock are parameters of each handler; what the service sends is appended
  to `events`, and what a handler answers through its callback is its
  `Reply`.
*/
module Studio {
  import opened Common
  import opened Streams
  import opened Session
  import opened Admission

  /** A media transport handle; `connected` once DTLS parameters were accepted. */
  datatype Transport = Transport(connected: bool)

  /** A consumer handle: the producer it reads, whether it is paused, and the socket that asked for it. */
  datatype Consumer = Consumer(producerId: string, paused: bool, socketId: string)

  /**
    What the service stores on a connected socket.  The empty string stands
    for a field that is not set.
  */
  datatype Conn = Conn(roomId: string, userId: string, sendTransport: string, recvTransport: string, producerIds: seq<string>)

  const Fresh := Conn("", "", "", "", [])

  datatype Direction = Send | Recv

  /** The answers handed to a handler's callback. */
  datatype Reply =
    | Ack
    | ErrorReply(error: string)
    | Denied(message: string)
    | InviteAccepted(roomId: string, streamId: Option<string>, reconnected: bool)
    | JoinAccepted(message: string, streamId: Option<string>)
    | Created(id: string)
    | Consumed(id: string, producerId: string)

  const InviteBase := "http://localhost:3001/dashboard/streamer/live?token="
  /** Invites expire 24 hours after they are issued (times are in milliseconds). */
  const InviteLifetime := 24 * 60 * 60 * 1000
  const NoStreamForChannel := "No active stream found for this channel"
  const TransportNotFound := "Transport not found"
  const ConsumerNotFound := "Consumer not found"
  const CannotConsume := "Cannot consume this producer"
  const AwaitingHost := "Waiting for host approval"
  const Reconnecting := "Already approved, reconnecting"
  const CreateTransportFailed := "Failed to create transport"
  const ConnectTransportFailed := "Failed to connect transport"
  const ProduceFailed := "Failed to produce"
  const ConsumeFailed := "Failed to consume"
  const InternalError := "Internal server error"
  const HostDenied := "Host denied your request"
  const OnlyHostDenies := "Only the host can deny guest requests"

  /** The transports a socket holds, by their set ids. */
  function TransportsOf(c: Conn): set<string> {
    (if c.sendTransport != "" then {c.sendTransport} else {}) + (if c.recvTransport != "" then {c.recvTransport} else {})
  }

  /** What a socket is sent on entering a room: the participants, then the other sockets' producers. */
  function Snapshot(to: string, rooms: map<string, Room>, streamId: string): seq<Event> {
    if streamId in rooms then ParticipantNotices(to, rooms[streamId]) + ExistingProducerNotices(to, rooms[streamId]) else []
  }

  class SocketService {
    var transports: map<string, Transport>
    var producers: map<string, Producer>
    var consumers: map<string, Consumer>
    var userSocketMap: map<string, string>
    var rooms: map<string, Room>
    var sockets: map<string, Conn>
    var invites: map<string, Invite>
    var events: seq<Event>
    const streamRepo: StreamRepository

    ghost predicate Valid()
      reads this
    {
      RoomsWellFormed(rooms)
    }

    constructor(repo: StreamRepository, ledger: map<string, Invite>)
      ensures Valid() && streamRepo == repo && invites == ledger
      ensures transports == map[] && producers == map[] && consumers == map[]
      ensures userSocketMap == map[] && rooms == map[] && sockets == map[] && events == []
    {
      streamRepo := repo;
      invites := ledger;
      transports, producers, consumers := map[], map[], map[];
      userSocketMap, rooms, sockets, events := map[], map[], map[], [];
    }

    /** A new socket connects with nothing set on it. */
    method Connect(sid: string)
      requires sid !in sockets
      modifies this`sockets
      ensures sockets == old(sockets)[sid := Fresh]
    {
      sockets := sockets[sid := Fresh];
    }

    /** generateInvite: store an unapproved invite valid for 24 hours and send the link back. */
    method GenerateInvite(sid: string, channelId: string, userId: string, token: string, now: int)
      requires token !in invites
      modifies this`invites, this`events
      ensures invites == old(invites)[token := Invite(channelId, userId, now + InviteLifetime, false)]
      ensures events == old(events) + [Emit(ToSocket(sid), InviteLink(InviteBase + token, userId))]
    {
      invites := invites[token := Invite(channelId, userId, now + InviteLifetime, false)];
      events := events + [Emit(ToSocket(sid), InviteLink(InviteBase + token, userId))];
    }

    /** addParticipantToRoom: the upsert keyed by userId, and the user's current socket recorded. */
    method AddParticipantToRoom(streamId: string, userId: string, socketId: string, role: string, username: string)
      returns (participant: Participant, isNew: bool)
      requires Valid()
      modifies this`rooms, this`userSocketMap
      ensures Valid()
      ensures var u := Upsert(RoomOrEmpty(old(rooms), streamId), userId, socketId, role, username);
        rooms == old(rooms)[streamId := u.room] && participant == u.participant && isNew == u.isNew
      ensures userSocketMap == old(userSocketMap)[userId := socketId]
    {
      if streamId !in rooms {
        rooms := rooms[streamId := []];
      }
      var room := rooms[streamId];
      var found := IndexOfUser(room, userId);
      if found.Some? {
        var k := found.value;
        participant := room[k].(socketId := socketId, username := username);
        rooms := rooms[streamId := Replaced(room, k, participant)];
        userSocketMap := userSocketMap[userId := socketId];
        return participant, false;
      }
      participant := Participant(userId, role, username, [], socketId);
      rooms := rooms[streamId := room + [participant]];
      userSocketMap := userSocketMap[userId := socketId];
      isNew := true;
    }

    /** The reconnect path: the user's record takes the new socket id, and so does userSocketMap. */
    method Reattach(streamId: string, userId: string, socketId: string)
      requires Valid() && IsUserAlreadyInRoom(rooms, streamId, userId)
      modifies this`rooms, this`userSocketMap
      ensures Valid()
      ensures var k := IndexOfUser(old(rooms)[streamId], userId).value;
        rooms == old(rooms)[streamId := old(rooms)[streamId][k := old(rooms)[streamId][k].(socketId := socketId)]]
      ensures userSocketMap == old(userSocketMap)[userId := socketId]
    {
      var room := rooms[streamId];
      var k := IndexOfUser(room, userId).value;
      rooms := rooms[streamId := Replaced(room, k, room[k].(socketId := socketId))];
      userSocketMap := userSocketMap[userId := socketId];
    }

    /** sendCurrentParticipants: one participantJoined per participant, in room order. */
    method SendCurrentParticipants(sid: string, streamId: string)
      modifies this`events
      ensures events == old(events) + if streamId in rooms then ParticipantNotices(sid, rooms[streamId]) else []
    {
      if streamId !in rooms {
        return;
      }
      var room := rooms[streamId];
      var i := 0;
      while i < |room|
        invariant 0 <= i <= |room|
        invariant events == old(events) + ParticipantNotices(sid, room[..i])
      {
        assert room[..i + 1][..i] == room[..i];
        events := events + [JoinedNotice(sid, room[i])];
        i := i + 1;
      }
      assert room[..i] == room;
    }

    /** sendExistingProducers: every producer of every participant on another socket. */
    method SendExistingProducers(sid: string, streamId: string)
      modifies this`events
      ensures events == old(events) + if streamId in rooms then ExistingProducerNotices(sid, rooms[streamId]) else []
    {
      if streamId !in rooms {
        return;
      }
      var room := rooms[streamId];
      var sent := [];
      var i := 0;
      while i < |room|
        invariant 0 <= i <= |room|
        invariant events == old(events)
        invariant sent == ExistingProducerNotices(sid, room[..i])
      {
        var p := room[i];
        assert room[..i + 1][..i] == room[..i];
        if p.socketId != sid && |p.producerIds| > 0 {
          var notices := ProducerNoticesOf(sid, p);
          sent := sent + notices;
        }
        i := i + 1;
      }
      assert room[..i] == room;
      events := events + sent;
    }

    /** The inner loop of sendExistingProducers: one newProducer per producer of `p`, in order. */
    method ProducerNoticesOf(sid: string, p: Participant) returns (notices: seq<Event>)
      ensures notices == NoticesFor(sid, p, p.producerIds)
    {
      notices := [];
      var j := 0;
      while j < |p.producerIds|
        invariant 0 <= j <= |p.producerIds|
        invariant notices == NoticesFor(sid, p, p.producerIds[..j])
      {
        assert p.producerIds[..j + 1][..j] == p.producerIds[..j];
        notices := notices + [ProducerNotice(sid, p, p.producerIds[j])];
        j := j + 1;
      }
      assert p.producerIds[..j] == p.producerIds;
    }

    /**
      cleanupUserResources: for a socket with a user, close its transports
      and its open producers (telling its room), then leave the room if the
      user's record still names this socket.
    */
    method CleanupUserResources(sid: string)
      requires Valid() && sid in sockets
      modifies this`transports, this`producers, this`rooms, this`userSocketMap, this`events
      ensures Valid()
      ensures var c := old(sockets[sid]);
        c.userId == "" ==> unchanged(this)
      ensures var c := old(sockets[sid]);
        var d := Depart(old(rooms), c.roomId, c.userId, sid);
        c.userId != "" ==>
          && transports == old(transports) - TransportsOf(c)
          && producers == CloseAll(old(producers), c.producerIds)
          && rooms == d.rooms
          && userSocketMap == (if d.removed then old(userSocketMap) - {c.userId} else old(userSocketMap))
          && events == old(events)
               + (if c.roomId != "" then ClosedNotices(c.roomId, ClosedIds(old(producers), c.producerIds)) else [])
               + (if d.removed then [Emit(ToRoom(c.roomId), ParticipantLeft(c.userId, sid))] else [])
    {
      var c := sockets[sid];
      if c.userId == "" {
        return;
      }
      CloseTransportsOf(c);
      CloseProducersOf(c.producerIds, c.roomId, c.roomId != "");
      LeaveRoom(c.roomId, c.userId, sid);
    }

    /** The transport part of cleanupUserResources: the socket's send and receive transports, where set, are closed. */
    method CloseTransportsOf(c: Conn)
      modifies this`transports
      ensures transports == old(transports) - TransportsOf(c)
    {
      if c.sendTransport != "" && c.sendTransport in transports {
        transports := transports - {c.sendTransport};
      }
      if c.recvTransport != "" && c.recvTransport in transports {
        transports := transports - {c.recvTransport};
      }
    }

    /** The room part of cleanupUserResources. */
    method LeaveRoom(roomId: string, userId: string, sid: string)
      requires Valid() && userId != ""
      modifies this`rooms, this`userSocketMap, this`events
      ensures Valid()
      ensures var d := Depart(old(rooms), roomId, userId, sid);
        && rooms == d.rooms
        && userSocketMap == (if d.removed then old(userSocketMap) - {userId} else old(userSocketMap))
        && events == old(events) + if d.removed then [Emit(ToRoom(roomId), ParticipantLeft(userId, sid))] else []
    {
      if roomId == "" || roomId !in rooms {
        return;
      }
      var room := rooms[roomId];
      var found := IndexOfUser(room, userId);
      if found.None? {
        return;
      }
      DepartAt(rooms, roomId, userId, sid, found.value);
      if room[found.value].socketId != sid {
        return;
      }
      var rest := RemoveAt(room, found.value);
      rooms := rooms[roomId := rest];
      userSocketMap := userSocketMap - {userId};
      events := events + [Emit(ToRoom(roomId), ParticipantLeft(userId, sid))];
      if |rest| == 0 {
        rooms := rooms - {roomId};
      }
    }

    /**
      The producer loop of cleanupUserResources: each listed producer still
      open is closed and announced to the socket's room; a socket outside any
      room closes its producers silently.
    */
    method CloseProducersOf(pids: seq<string>, roomId: string, announce: bool)
      modifies this`producers, this`events
      ensures producers == CloseAll(old(producers), pids)
      ensures events == old(events) + if announce then ClosedNotices(roomId, ClosedIds(old(producers), pids)) else []
    {
      var open, sent := producers, [];
      var i := 0;
      ghost var closed: seq<string> := [];
      while i < |pids|
        invariant 0 <= i <= |pids|
        invariant producers == old(producers) && events == old(events)
        invariant open == CloseAll(producers, pids[..i])
        invariant closed == ClosedIds(producers, pids[..i])
        invariant sent == ClosedNotices(roomId, closed)
      {
        var pid := pids[i];
        CloseStep(producers, pids, i);
        if pid in open {
          open := open - {pid};
          ClosedNoticesAppend(roomId, closed, pid);
          sent := sent + [Emit(ToRoom(roomId), ProducerClosed(pid))];
          closed := closed + [pid];
        } else {
          assert open - {pid} == open;
        }
        i := i + 1;
      }
      assert pids[..i] == pids;
      producers := open;
      if announce {
        events := events + sent;
      }
    }

    /** disconnect: clean up, then the socket is gone. */
    method Disconnect(sid: string)
      requires Valid() && sid in sockets
      modifies this`transports, this`producers, this`rooms, this`userSocketMap, this`events, this`sockets
      ensures Valid()
      ensures sockets == old(sockets) - {sid}
      ensures var c := old(sockets[sid]);
        c.userId == "" ==>
          && transports == old(transports) && producers == old(producers) && rooms == old(rooms)
          && userSocketMap == old(userSocketMap) && events == old(events)
      ensures var c := old(sockets[sid]);
        var d := Depart(old(rooms), c.roomId, c.userId, sid);
        c.userId != "" ==>
          && transports == old(transports) - TransportsOf(c)
          && producers == CloseAll(old(producers), c.producerIds)
          && rooms == d.rooms
          && userSocketMap == (if d.removed then old(userSocketMap) - {c.userId} else old(userSocketMap))
          && events == old(events)
               + (if c.roomId != "" then ClosedNotices(c.roomId, ClosedIds(old(producers), c.producerIds)) else [])
               + (if d.removed then [Emit(ToRoom(c.roomId), ParticipantLeft(c.userId, sid))] else [])
    {
      CleanupUserResources(sid);
      sockets := sockets - {sid};
    }

    /** What sendCurrentParticipants and sendExistingProducers send together. */
    method Greet(sid: string, streamId: string)
      modifies this`events
      ensures events == old(events) + Snapshot(sid, rooms, streamId)
    {
      SendCurrentParticipants(sid, streamId);
      SendExistingProducers(sid, streamId);
      if streamId in rooms {
        var room := rooms[streamId];
        assert old(events) + ParticipantNotices(sid, room) + ExistingProducerNotices(sid, room)
            == old(events) + (ParticipantNotices(sid, room) + ExistingProducerNotices(sid, room));
      }
    }

    /** A socket enters a room: it records the room and user, and the user is upserted into the room. */
    method Enter(sid: string, streamId: string, userId: string, role: string, username: string) returns (isNew: bool)
      requires Valid() && sid in sockets
      modifies this`sockets, this`rooms, this`userSocketMap
      ensures Valid()
      ensures sockets == old(sockets)[sid := old(sockets)[sid].(roomId := streamId, userId := userId)]
      ensures var u := Upsert(RoomOrEmpty(old(rooms), streamId), userId, sid, role, username);
        rooms == old(rooms)[streamId := u.room] && isNew == u.isNew
      ensures userSocketMap == old(userSocketMap)[userId := sid]
    {
      sockets := sockets[sid := sockets[sid].(roomId := streamId, userId := userId)];
      var participant;
      participant, isNew := AddParticipantToRoom(streamId, userId, sid, role, username);
    }

    /**
      joinStudio for the host, once the user is in the room and has the
      router capabilities: the host is written to the persisted participant
      list, the room is sent the stored stream and the host's arrival, and
      the host the room's snapshot.  Should the write fail (the stream is
      not stored), the handler ends there.
    */
    method GreetHost(sid: string, streamId: string, userId: string, username: string)
      modifies this`events, streamRepo
      ensures streamId !in old(streamRepo.streams) ==>
        streamRepo.streams == old(streamRepo.streams) && events == old(events)
      ensures streamId in old(streamRepo.streams) ==>
        && streamRepo.streams == old(streamRepo.streams)[streamId := old(streamRepo.streams)[streamId].(participants :=
             Some(AddIfAbsent(old(streamRepo.streams)[streamId].participants, StreamParticipant(userId, "host", username))))]
        && events == old(events)
             + [Emit(ToRoom(streamId), StreamUpdate(streamRepo.streams[streamId].id, streamRepo.streams[streamId].participants)),
                Emit(ToRoom(streamId), ParticipantJoined(sid, userId, "host", username))]
             + Snapshot(sid, rooms, streamId)
    {
      var updated := UpdateStreamParticipants(streamRepo, streamId, StreamParticipant(userId, "host", username));
      if updated.Failure? {
        return;
      }
      events := events + [Emit(ToRoom(streamId), StreamUpdate(updated.value.id, updated.value.participants)),
                          Emit(ToRoom(streamId), ParticipantJoined(sid, userId, "host", username))];
      Greet(sid, streamId);
    }

    /**
      joinStudio for any other role: the user is sent the stream as the
      query reported it, the room hears of the arrival only for a new
      record, and the user is sent the room's snapshot.
    */
    method GreetMember(sid: string, s: StreamInfo, userId: string, role: string, username: string, isNew: bool)
      modifies this`events
      ensures events == old(events) + [Emit(ToSocket(sid), StreamUpdate(s.id, s.participants))]
        + (if isNew then [Emit(ToRoom(s.id), ParticipantJoined(sid, userId, role, username))] else [])
        + Snapshot(sid, rooms, s.id)
    {
      events := events + [Emit(ToSocket(sid), StreamUpdate(s.id, s.participants))];
      if isNew {
        events := events + [Emit(ToRoom(s.id), ParticipantJoined(sid, userId, role, username))];
      }
      Greet(sid, s.id);
    }

    /**
      joinStudio: a host or other role enters the latest stream of a
      channel; the room record falls back to "Unknown" for a missing
      username.  The user is sent the router capabilities, then the
      role-specific part follows (GreetHost, GreetMember).
    */
    method JoinStudio(sid: string, role: string, userId: string, username: string, channelId: string,
                      latest: map<string, StreamInfo>)
      requires Valid() && sid in sockets
      modifies this`sockets, this`rooms, this`userSocketMap, this`events, streamRepo
      ensures Valid()
      ensures !Active(LatestStream(latest, channelId)) ==>
        && sockets == old(sockets) && rooms == old(rooms) && userSocketMap == old(userSocketMap)
        && streamRepo.streams == old(streamRepo.streams)
        && events == old(events) + [Emit(ToSocket(sid), ErrorMessage(NoStreamForChannel))]
      ensures Active(LatestStream(latest, channelId)) ==>
        var s := latest[channelId];
        var u := Upsert(RoomOrEmpty(old(rooms), s.id), userId, sid, role, if username != "" then username else "Unknown");
        && sockets == old(sockets)[sid := old(sockets)[sid].(roomId := s.id, userId := userId)]
        && rooms == old(rooms)[s.id := u.room]
        && userSocketMap == old(userSocketMap)[userId := sid]
      ensures Active(LatestStream(latest, channelId)) && role != "host" ==>
        var s := latest[channelId];
        var u := Upsert(RoomOrEmpty(old(rooms), s.id), userId, sid, role, if username != "" then username else "Unknown");
        && streamRepo.streams == old(streamRepo.streams)
        && events == old(events) + [Emit(ToSocket(sid), RouterRtpCapabilities)]
             + [Emit(ToSocket(sid), StreamUpdate(s.id, s.participants))]
             + (if u.isNew then [Emit(ToRoom(s.id), ParticipantJoined(sid, userId, role, username))] else [])
             + Snapshot(sid, rooms, s.id)
      ensures Active(LatestStream(latest, channelId)) && role == "host" && latest[channelId].id !in old(streamRepo.streams) ==>
        && streamRepo.streams == old(streamRepo.streams)
        && events == old(events) + [Emit(ToSocket(sid), RouterRtpCapabilities)]
      ensures Active(LatestStream(latest, channelId)) && role == "host" && latest[channelId].id in old(streamRepo.streams) ==>
        var s := latest[channelId];
        && streamRepo.streams == old(streamRepo.streams)[s.id := old(streamRepo.streams)[s.id].(participants :=
             Some(AddIfAbsent(old(streamRepo.streams)[s.id].participants, StreamParticipant(userId, "host", username))))]
        && events == old(events) + [Emit(ToSocket(sid), RouterRtpCapabilities)]
             + [Emit(ToRoom(s.id), StreamUpdate(streamRepo.streams[s.id].id, streamRepo.streams[s.id].participants)),
                Emit(ToRoom(s.id), ParticipantJoined(sid, userId, "host", username))]
             + Snapshot(sid, rooms, s.id)
    {
      var stream := LatestStream(latest, channelId);
      if !Active(stream) {
        events := events + [Emit(ToSocket(sid), ErrorMessage(NoStreamForChannel))];
        return;
      }
      var s := stream.value;
      var isNew := Enter(sid, s.id, userId, role, if username != "" then username else "Unknown");
      events := events + [Emit(ToSocket(sid), RouterRtpCapabilities)];
      if role == "host" {
        GreetHost(sid, s.id, userId, username);
      } else {
        GreetMember(sid, s, userId, role, username, isNew);
      }
    }

    // -------------------------------------------------------------------------
    // Guest admission.  Invites are keyed by token in `invites`; `users` maps
    // a user id to its stored username; `latest` maps a channel to the
    // stream the latest-stream query reports.
    // -------------------------------------------------------------------------

    /**
      The reconnect path shared by verifyInvite and requestToJoin: the
      socket takes the room and the user, the user's record and
      userSocketMap take the socket, and the socket is sent the router
      capabilities and the room's snapshot.
    */
    method ResumeSession(sid: string, streamId: string, userId: string)
      requires Valid() && sid in sockets && IsUserAlreadyInRoom(rooms, streamId, userId)
      modifies this`sockets, this`rooms, this`userSocketMap, this`events
      ensures Valid()
      ensures sockets == old(sockets)[sid := old(sockets)[sid].(roomId := streamId, userId := userId)]
      ensures var k := IndexOfUser(old(rooms)[streamId], userId).value;
        rooms == old(rooms)[streamId := old(rooms)[streamId][k := old(rooms)[streamId][k].(socketId := sid)]]
      ensures userSocketMap == old(userSocketMap)[userId := sid]
      ensures events == old(events) + [Emit(ToSocket(sid), RouterRtpCapabilities)] + Snapshot(sid, rooms, streamId)
    {
      sockets := sockets[sid := sockets[sid].(roomId := streamId, userId := userId)];
      Reattach(streamId, userId, sid);
      events := events + [Emit(ToSocket(sid), RouterRtpCapabilities)];
      Greet(sid, streamId);
    }

    /**
      verifyInvite's new-guest path: the guest is seated under `recordName`
      and sent the router capabilities, the room hears of the guest under
      `announcedName`, and the guest is sent the room's snapshot.
    */
    method SeatInvitedGuest(sid: string, streamId: string, userId: string, recordName: string, announcedName: string)
      requires Valid() && sid in sockets
      modifies this`sockets, this`rooms, this`userSocketMap, this`events
      ensures Valid()
      ensures sockets == old(sockets)[sid := old(sockets)[sid].(roomId := streamId, userId := userId)]
      ensures rooms == old(rooms)[streamId := Upsert(RoomOrEmpty(old(rooms), streamId), userId, sid, "guest", recordName).room]
      ensures userSocketMap == old(userSocketMap)[userId := sid]
      ensures events == old(events)
        + [Emit(ToSocket(sid), RouterRtpCapabilities), Emit(ToRoom(streamId), ParticipantJoined(sid, userId, "guest", announcedName))]
        + Snapshot(sid, rooms, streamId)
    {
      var isNew := Enter(sid, streamId, userId, "guest", recordName);
      events := events
        + [Emit(ToSocket(sid), RouterRtpCapabilities), Emit(ToRoom(streamId), ParticipantJoined(sid, userId, "guest", announcedName))];
      Greet(sid, streamId);
    }

    /**
      verifyInvite: decided by VerifyInviteOutcome.  A refused or not yet
      approved invite changes nothing; an approved one reconnects its user's
      record or seats the guest (the record takes the given username or the
      stored one, the room is told the given username or "Guest").
    */
    method VerifyInvite(sid: string, token: string, username: string, users: map<string, string>,
                        latest: map<string, StreamInfo>, now: int) returns (reply: Reply)
      requires Valid() && sid in sockets
      modifies this`sockets, this`rooms, this`userSocketMap, this`events
      ensures Valid()
      ensures var o := VerifyInviteOutcome(invites, users, latest, old(rooms), token, username, now);
        o.Refused? || o.AwaitApproval? ==>
        && sockets == old(sockets) && rooms == old(rooms) && userSocketMap == old(userSocketMap) && events == old(events)
        && reply == if o.Refused? then Denied(o.message) else InviteAccepted(o.invite.channelId, None, false)
      ensures var o := VerifyInviteOutcome(invites, users, latest, old(rooms), token, username, now);
        o.Reconnect? ==>
        var k := IndexOfUser(old(rooms)[o.stream.id], o.invite.userId).value;
        && reply == InviteAccepted(o.invite.channelId, Some(o.stream.id), true)
        && sockets == old(sockets)[sid := old(sockets)[sid].(roomId := o.stream.id, userId := o.invite.userId)]
        && rooms == old(rooms)[o.stream.id := old(rooms)[o.stream.id][k := old(rooms)[o.stream.id][k].(socketId := sid)]]
        && userSocketMap == old(userSocketMap)[o.invite.userId := sid]
        && events == old(events) + [Emit(ToSocket(sid), RouterRtpCapabilities)] + Snapshot(sid, rooms, o.stream.id)
      ensures var o := VerifyInviteOutcome(invites, users, latest, old(rooms), token, username, now);
        o.NewGuest? ==>
        && reply == InviteAccepted(o.invite.channelId, Some(o.stream.id), false)
        && sockets == old(sockets)[sid := old(sockets)[sid].(roomId := o.stream.id, userId := o.invite.userId)]
        && rooms == old(rooms)[o.stream.id := Upsert(RoomOrEmpty(old(rooms), o.stream.id), o.invite.userId, sid, "guest", o.username).room]
        && userSocketMap == old(userSocketMap)[o.invite.userId := sid]
        && events == old(events)
             + [Emit(ToSocket(sid), RouterRtpCapabilities),
                Emit(ToRoom(o.stream.id), ParticipantJoined(sid, o.invite.userId, "guest", if username != "" then username else "Guest"))]
             + Snapshot(sid, rooms, o.stream.id)
    {
      var o := VerifyInviteOutcome(invites, users, latest, rooms, token, username, now);
      match o
      case Refused(message) =>
        reply := Denied(message);
      case AwaitApproval(invite) =>
        reply := InviteAccepted(invite.channelId, None, false);
      case Reconnect(invite, stream) =>
        ResumeSession(sid, stream.id, invite.userId);
        reply := InviteAccepted(invite.channelId, Some(stream.id), true);
      case NewGuest(invite, stream, recordName) =>
        SeatInvitedGuest(sid, stream.id, invite.userId, recordName, if username != "" then username else "Guest");
        reply := InviteAccepted(invite.channelId, Some(stream.id), false);
    }

    /** requestToJoin's reconnect path: the approval is answered or emitted, then the session resumes. */
    method RejoinAfterRequest(sid: string, streamId: string, userId: string, withCallback: bool)
      returns (reply: Option<Reply>)
      requires Valid() && sid in sockets && IsUserAlreadyInRoom(rooms, streamId, userId)
      modifies this`sockets, this`rooms, this`userSocketMap, this`events
      ensures Valid()
      ensures sockets == old(sockets)[sid := old(sockets)[sid].(roomId := streamId, userId := userId)]
      ensures var k := IndexOfUser(old(rooms)[streamId], userId).value;
        rooms == old(rooms)[streamId := old(rooms)[streamId][k := old(rooms)[streamId][k].(socketId := sid)]]
      ensures userSocketMap == old(userSocketMap)[userId := sid]
      ensures reply == if withCallback then Some(JoinAccepted(Reconnecting, Some(streamId))) else None
      ensures events == old(events)
        + (if withCallback then [] else [Emit(ToSocket(sid), JoinApproved(streamId, true))])
        + [Emit(ToSocket(sid), RouterRtpCapabilities)] + Snapshot(sid, rooms, streamId)
    {
      reply := if withCallback then Some(JoinAccepted(Reconnecting, Some(streamId))) else None;
      events := events + if withCallback then [] else [Emit(ToSocket(sid), JoinApproved(streamId, true))];
      ResumeSession(sid, streamId, userId);
    }

    /**
      requestToJoin once the invite verified: the socket records the user,
      then a room without a host refuses, an approved invite whose user is
      in the room reconnects (RejoinAfterRequest), and any other request is
      passed to the room for the host's decision.
    */
    method AnswerVerifiedRequest(sid: string, o: JoinRequestOutcome, token: string, username: string, userId: string,
                                 channelId: string, cameraOn: bool, micOn: bool, withCallback: bool)
      returns (reply: Option<Reply>)
      requires Valid() && sid in sockets && !o.NotVerified?
      requires o.Rejoin? ==> IsUserAlreadyInRoom(rooms, o.stream.id, userId)
      modifies this`sockets, this`rooms, this`userSocketMap, this`events
      ensures Valid()
      ensures reply.Some? <==> withCallback
      ensures !o.Rejoin? ==>
        && sockets == old(sockets)[sid := old(sockets)[sid].(userId := userId)]
        && rooms == old(rooms) && userSocketMap == old(userSocketMap)
      ensures o.HostNotPresent? ==>
        && (withCallback ==> reply == Some(Denied(HostAbsent)) && events == old(events))
        && (!withCallback ==> events == old(events) + [Emit(ToSocket(sid), JoinDenied(HostAbsent))])
      ensures o.AskHost? ==>
        && (withCallback ==> reply == Some(JoinAccepted(AwaitingHost, None)))
        && events == old(events)
             + [Emit(ToRoom(o.stream.id), GuestRequest(token, username, channelId, sid, userId, cameraOn, micOn))]
             + (if withCallback then [] else [Emit(ToSocket(sid), JoinRequestResponse(AwaitingHost))])
      ensures o.Rejoin? ==>
        var k := IndexOfUser(old(rooms)[o.stream.id], userId).value;
        && sockets == old(sockets)[sid := old(sockets)[sid].(roomId := o.stream.id, userId := userId)]
        && rooms == old(rooms)[o.stream.id := old(rooms)[o.stream.id][k := old(rooms)[o.stream.id][k].(socketId := sid)]]
        && userSocketMap == old(userSocketMap)[userId := sid]
        && (withCallback ==> reply == Some(JoinAccepted(Reconnecting, Some(o.stream.id))))
        && events == old(events)
             + (if withCallback then [] else [Emit(ToSocket(sid), JoinApproved(o.stream.id, true))])
             + [Emit(ToSocket(sid), RouterRtpCapabilities)] + Snapshot(sid, rooms, o.stream.id)
    {
      sockets := sockets[sid := sockets[sid].(userId := userId)];
      reply := None;
      match o
      case HostNotPresent(_, _) =>
        if withCallback {
          reply := Some(Denied(HostAbsent));
        } else {
          events := events + [Emit(ToSocket(sid), JoinDenied(HostAbsent))];
        }
      case Rejoin(_, stream) =>
        reply := RejoinAfterRequest(sid, stream.id, userId, withCallback);
      case AskHost(_, stream) =>
        events := events + [Emit(ToRoom(stream.id), GuestRequest(token, username, channelId, sid, userId, cameraOn, micOn))];
        if withCallback {
          reply := Some(JoinAccepted(AwaitingHost, None));
        } else {
          events := events + [Emit(ToSocket(sid), JoinRequestResponse(AwaitingHost))];
        }
    }

    /**
      requestToJoin (handleGuestJoinRequest): decided by GuestJoinOutcome.
      With a callback the answer is the reply; without one it is emitted to
      the socket.  A request whose invite does not verify changes nothing
      but the answer.
    */
    method RequestToJoin(sid: string, token: string, username: string, userId: string, channelId: string,
                         cameraOn: bool, micOn: bool, withCallback: bool, latest: map<string, StreamInfo>, now: int)
      returns (reply: Option<Reply>)
      requires Valid() && sid in sockets
      modifies this`sockets, this`rooms, this`userSocketMap, this`events
      ensures Valid()
      ensures reply.Some? <==> withCallback
      ensures var o := GuestJoinOutcome(invites, latest, old(rooms), token, userId, now);
        o.NotVerified? ==>
        && sockets == old(sockets) && rooms == old(rooms) && userSocketMap == old(userSocketMap)
        && (withCallback ==> reply == Some(Denied(o.message)) && events == old(events))
        && (!withCallback ==> events == old(events) + [Emit(ToSocket(sid), ErrorMessage(o.message))])
      ensures var o := GuestJoinOutcome(invites, latest, old(rooms), token, userId, now);
        o.HostNotPresent? || o.AskHost? ==>
        && sockets == old(sockets)[sid := old(sockets)[sid].(userId := userId)]
        && rooms == old(rooms) && userSocketMap == old(userSocketMap)
      ensures var o := GuestJoinOutcome(invites, latest, old(rooms), token, userId, now);
        o.HostNotPresent? ==>
        && (withCallback ==> reply == Some(Denied(HostAbsent)) && events == old(events))
        && (!withCallback ==> events == old(events) + [Emit(ToSocket(sid), JoinDenied(HostAbsent))])
      ensures var o := GuestJoinOutcome(invites, latest, old(rooms), token, userId, now);
        o.AskHost? ==>
        && (withCallback ==> reply == Some(JoinAccepted(AwaitingHost, None)))
        && events == old(events)
             + [Emit(ToRoom(o.stream.id), GuestRequest(token, username, channelId, sid, userId, cameraOn, micOn))]
             + (if withCallback then [] else [Emit(ToSocket(sid), JoinRequestResponse(AwaitingHost))])
      ensures var o := GuestJoinOutcome(invites, latest, old(rooms), token, userId, now);
        o.Rejoin? ==>
        var k := IndexOfUser(old(rooms)[o.stream.id], userId).value;
        && sockets == old(sockets)[sid := old(sockets)[sid].(roomId := o.stream.id, userId := userId)]
        && rooms == old(rooms)[o.stream.id := old(rooms)[o.stream.id][k := old(rooms)[o.stream.id][k].(socketId := sid)]]
        && userSocketMap == old(userSocketMap)[userId := sid]
        && (withCallback ==> reply == Some(JoinAccepted(Reconnecting, Some(o.stream.id))))
        && events == old(events)
             + (if withCallback then [] else [Emit(ToSocket(sid), JoinApproved(o.stream.id, true))])
             + [Emit(ToSocket(sid), RouterRtpCapabilities)] + Snapshot(sid, rooms, o.stream.id)
    {
      var o := GuestJoinOutcome(invites, latest, rooms, token, userId, now);
      if o.NotVerified? {
        if withCallback {
          reply := Some(Denied(o.message));
        } else {
          reply := None;
          events := events + [Emit(ToSocket(sid), ErrorMessage(o.message))];
        }
        return;
      }
      reply := AnswerVerifiedRequest(sid, o, token, username, userId, channelId, cameraOn, micOn, withCallback);
    }

    /**
      approveGuest once every check passed and the invite is marked
      approved: the guest is written to the persisted participant list; if
      that fails the guest is told of an internal error.  Otherwise the
      guest's socket takes the room and the user, the guest is seated, the
      room is sent the stored stream, the guest its approval, the room the
      guest's arrival, and the guest the router capabilities and the room's
      snapshot.
    */
    method SeatApprovedGuest(guestSocket: string, streamId: string, userId: string, username: string)
      requires Valid() && guestSocket in sockets
      modifies this`sockets, this`rooms, this`userSocketMap, this`events, streamRepo
      ensures Valid()
      ensures streamId !in old(streamRepo.streams) ==>
        && streamRepo.streams == old(streamRepo.streams)
        && sockets == old(sockets) && rooms == old(rooms) && userSocketMap == old(userSocketMap)
        && events == old(events) + [Emit(ToSocket(guestSocket), JoinDenied(InternalError))]
      ensures streamId in old(streamRepo.streams) ==>
        && streamRepo.streams == old(streamRepo.streams)[streamId := old(streamRepo.streams)[streamId].(participants :=
             Some(AddIfAbsent(old(streamRepo.streams)[streamId].participants, StreamParticipant(userId, "guest", username))))]
        && sockets == old(sockets)[guestSocket := old(sockets)[guestSocket].(roomId := streamId, userId := userId)]
        && rooms == old(rooms)[streamId := Upsert(RoomOrEmpty(old(rooms), streamId), userId, guestSocket, "guest", username).room]
        && userSocketMap == old(userSocketMap)[userId := guestSocket]
        && events == old(events)
             + [Emit(ToRoom(streamId), StreamUpdate(streamRepo.streams[streamId].id, streamRepo.streams[streamId].participants)),
                Emit(ToSocket(guestSocket), JoinApproved(streamId, false)),
                Emit(ToRoom(streamId), ParticipantJoined(guestSocket, userId, "guest", username)),
                Emit(ToSocket(guestSocket), RouterRtpCapabilities)]
             + Snapshot(guestSocket, rooms, streamId)
    {
      var updated := UpdateStreamParticipants(streamRepo, streamId, StreamParticipant(userId, "guest", username));
      if updated.Failure? {
        events := events + [Emit(ToSocket(guestSocket), JoinDenied(InternalError))];
        return;
      }
      var isNew := Enter(guestSocket, streamId, userId, "guest", username);
      events := events
        + [Emit(ToRoom(streamId), StreamUpdate(updated.value.id, updated.value.participants)),
           Emit(ToSocket(guestSocket), JoinApproved(streamId, false)),
           Emit(ToRoom(streamId), ParticipantJoined(guestSocket, userId, "guest", username)),
           Emit(ToSocket(guestSocket), RouterRtpCapabilities)];
      Greet(guestSocket, streamId);
    }

    /**
      approveGuest: decided by ApproveGate over the connected sockets.  A
      refusal goes to the approver or to the guest and changes nothing;
      an admission marks the invite approved before anything else (see
      SeatApprovedGuest).
    */
    method ApproveGuest(sid: string, token: string, username: string, channelId: string, guestSocket: string,
                        approverId: string, latest: map<string, StreamInfo>, now: int)
      requires Valid()
      modifies this`invites, this`sockets, this`rooms, this`userSocketMap, this`events, streamRepo
      ensures Valid()
      ensures var v := ApproveGate(latest, old(invites), old(rooms), old(sockets).Keys, channelId, approverId, token, guestSocket, now);
        !v.Admit? ==>
        && invites == old(invites) && streamRepo.streams == old(streamRepo.streams)
        && sockets == old(sockets) && rooms == old(rooms) && userSocketMap == old(userSocketMap)
        && events == old(events) + [if v.ErrorToApprover? then Emit(ToSocket(sid), ErrorMessage(v.message))
                                    else Emit(ToSocket(guestSocket), JoinDenied(v.message))]
      ensures var v := ApproveGate(latest, old(invites), old(rooms), old(sockets).Keys, channelId, approverId, token, guestSocket, now);
        v.Admit? ==> invites == old(invites)[token := v.invite.(isApproved := true)]
      ensures var v := ApproveGate(latest, old(invites), old(rooms), old(sockets).Keys, channelId, approverId, token, guestSocket, now);
        v.Admit? && v.stream.id !in old(streamRepo.streams) ==>
        && streamRepo.streams == old(streamRepo.streams)
        && sockets == old(sockets) && rooms == old(rooms) && userSocketMap == old(userSocketMap)
        && events == old(events) + [Emit(ToSocket(guestSocket), JoinDenied(InternalError))]
      ensures var v := ApproveGate(latest, old(invites), old(rooms), old(sockets).Keys, channelId, approverId, token, guestSocket, now);
        v.Admit? && v.stream.id in old(streamRepo.streams) ==>
        && streamRepo.streams == old(streamRepo.streams)[v.stream.id := old(streamRepo.streams)[v.stream.id].(participants :=
             Some(AddIfAbsent(old(streamRepo.streams)[v.stream.id].participants, StreamParticipant(v.invite.userId, "guest", username))))]
        && sockets == old(sockets)[guestSocket := old(sockets)[guestSocket].(roomId := v.stream.id, userId := v.invite.userId)]
        && rooms == old(rooms)[v.stream.id := Upsert(RoomOrEmpty(old(rooms), v.stream.id), v.invite.userId, guestSocket, "guest", username).room]
        && userSocketMap == old(userSocketMap)[v.invite.userId := guestSocket]
        && events == old(events)
             + [Emit(ToRoom(v.stream.id), StreamUpdate(streamRepo.streams[v.stream.id].id, streamRepo.streams[v.stream.id].participants)),
                Emit(ToSocket(guestSocket), JoinApproved(v.stream.id, false)),
                Emit(ToRoom(v.stream.id), ParticipantJoined(guestSocket, v.invite.userId, "guest", username)),
                Emit(ToSocket(guestSocket), RouterRtpCapabilities)]
             + Snapshot(guestSocket, rooms, v.stream.id)
      ensures var v := ApproveGate(latest, old(invites), old(rooms), old(sockets).Keys, channelId, approverId, token, guestSocket, now);
        v.Admit? && v.stream.id in old(streamRepo.streams)
        && old(streamRepo.streams)[v.stream.id].participants == v.stream.participants ==>
        GuestCount(ListOrEmpty(streamRepo.streams[v.stream.id].participants)) <= MaxGuests
    {
      var v := ApproveGate(latest, invites, rooms, sockets.Keys, channelId, approverId, token, guestSocket, now);
      if v.Admit? {
        QuotaHoldsAfterAdmission(Some(v.stream), StreamParticipant(v.invite.userId, "guest", username));
      }
      match v
      case ErrorToApprover(message) =>
        events := events + [Emit(ToSocket(sid), ErrorMessage(message))];
      case DeniedToGuest(message) =>
        events := events + [Emit(ToSocket(guestSocket), JoinDenied(message))];
      case Admit(stream, invite) =>
        invites := invites[token := invite.(isApproved := true)];
        SeatApprovedGuest(guestSocket, stream.id, invite.userId, username);
    }

    /** denyGuest: only the stream's creator may turn a guest away. */
    method DenyGuest(sid: string, guestSocket: string, approverId: string, channelId: string,
                     latest: map<string, StreamInfo>)
      modifies this`events
      ensures IsUserStreamHost(LatestStream(latest, channelId), approverId) ==>
        events == old(events) + [Emit(ToSocket(guestSocket), JoinDenied(HostDenied))]
      ensures !IsUserStreamHost(LatestStream(latest, channelId), approverId) ==>
        events == old(events) + [Emit(ToSocket(sid), ErrorMessage(OnlyHostDenies))]
    {
      if IsUserStreamHost(LatestStream(latest, channelId), approverId) {
        events := events + [Emit(ToSocket(guestSocket), JoinDenied(HostDenied))];
      } else {
        events := events + [Emit(ToSocket(sid), ErrorMessage(OnlyHostDenies))];
      }
    }

    // -------------------------------------------------------------------------
    // Media handlers.  The engine is an oracle: it hands out `freshId` for a
    // created handle, and `engineOk` says whether its call succeeded.
    // -------------------------------------------------------------------------

    /** createTransport: register a new transport and record it on the socket under its direction. */
    method CreateTransport(sid: string, direction: Direction, freshId: string, engineOk: bool) returns (reply: Reply)
      requires sid in sockets && freshId != "" && freshId !in transports
      modifies this`transports, this`sockets
      ensures !engineOk ==>
        reply == ErrorReply(CreateTransportFailed) && transports == old(transports) && sockets == old(sockets)
      ensures engineOk ==>
        && reply == Created(freshId)
        && transports == old(transports)[freshId := Transport(false)]
        && sockets == old(sockets)[sid := if direction == Send then old(sockets)[sid].(sendTransport := freshId)
                                           else old(sockets)[sid].(recvTransport := freshId)]
    {
      if !engineOk {
        return ErrorReply(CreateTransportFailed);
      }
      transports := transports[freshId := Transport(false)];
      var c := sockets[sid];
      if direction == Send {
        c := c.(sendTransport := freshId);
      } else {
        c := c.(recvTransport := freshId);
      }
      sockets := sockets[sid := c];
      reply := Created(freshId);
    }

    /** connectTransport: an unknown transport is refused; a known one is connected unless the engine fails. */
    method ConnectTransport(transportId: string, engineOk: bool) returns (reply: Reply)
      modifies this`transports
      ensures transportId !in old(transports) ==> reply == ErrorReply(TransportNotFound) && transports == old(transports)
      ensures transportId in old(transports) && !engineOk ==>
        reply == ErrorReply(ConnectTransportFailed) && transports == old(transports)
      ensures transportId in old(transports) && engineOk ==>
        reply == Ack && transports == old(transports)[transportId := Transport(true)]
    {
      if transportId !in transports {
        return ErrorReply(TransportNotFound);
      }
      if !engineOk {
        return ErrorReply(ConnectTransportFailed);
      }
      transports := transports[transportId := Transport(true)];
      reply := Ack;
    }

    /**
      produce: a new producer on a known transport.  Its id is appended to the
      socket's list and, when the socket's user is in its room, to the user's
      record, and the room is told about it.
    */
    method Produce(sid: string, transportId: string, kind: string, freshId: string, engineOk: bool)
      returns (reply: Reply)
      requires Valid() && sid in sockets && freshId !in producers
      modifies this`producers, this`sockets, this`rooms, this`events
      ensures Valid()
      ensures transportId !in old(transports) ==>
        && reply == ErrorReply(TransportNotFound)
        && producers == old(producers) && sockets == old(sockets) && rooms == old(rooms) && events == old(events)
      ensures transportId in old(transports) && !engineOk ==>
        && reply == ErrorReply(ProduceFailed)
        && producers == old(producers) && sockets == old(sockets) && rooms == old(rooms) && events == old(events)
      ensures transportId in old(transports) && engineOk ==>
        && reply == Created(freshId)
        && producers == old(producers)[freshId := Producer(kind, transportId)]
        && sockets == old(sockets)[sid := old(sockets)[sid].(producerIds := old(sockets)[sid].producerIds + [freshId])]
      ensures var c := old(sockets)[sid];
        transportId in old(transports) && engineOk ==>
        if c.roomId != "" && c.userId != "" && c.roomId in old(rooms) && IndexOfUser(old(rooms)[c.roomId], c.userId).Some? then
          var room := old(rooms)[c.roomId];
          var k := IndexOfUser(room, c.userId).value;
          && rooms == old(rooms)[c.roomId := room[k := room[k].(producerIds := room[k].producerIds + [freshId])]]
          && events == old(events)
               + [Emit(ToRoom(c.roomId), NewProducer(freshId, sid, room[k].userId, room[k].role, room[k].username))]
        else
          rooms == old(rooms) && events == old(events)
    {
      if transportId !in transports {
        return ErrorReply(TransportNotFound);
      }
      if !engineOk {
        return ErrorReply(ProduceFailed);
      }
      producers := producers[freshId := Producer(kind, transportId)];
      var c := sockets[sid];
      sockets := sockets[sid := c.(producerIds := c.producerIds + [freshId])];
      if c.roomId != "" && c.userId != "" && c.roomId in rooms {
        var room := rooms[c.roomId];
        var found := IndexOfUser(room, c.userId);
        if found.Some? {
          var k := found.value;
          var p := room[k];
          rooms := rooms[c.roomId := Replaced(room, k, p.(producerIds := p.producerIds + [freshId]))];
          events := events + [Emit(ToRoom(c.roomId), NewProducer(freshId, sid, p.userId, p.role, p.username))];
        }
      }
      reply := Created(freshId);
    }

    /** consume: a paused consumer of a producer, through a known transport, when the engine allows it. */
    method Consume(sid: string, transportId: string, producerId: string, canConsume: bool, freshId: string, engineOk: bool)
      returns (reply: Reply)
      requires freshId !in consumers
      modifies this`consumers
      ensures transportId !in transports ==> reply == ErrorReply(TransportNotFound)
      ensures transportId in transports && !canConsume ==> reply == ErrorReply(CannotConsume)
      ensures transportId in transports && canConsume && !engineOk ==> reply == ErrorReply(ConsumeFailed)
      ensures reply.ErrorReply? <==> !(transportId in transports && canConsume && engineOk)
      ensures reply.ErrorReply? ==> consumers == old(consumers)
      ensures !reply.ErrorReply? ==>
        && reply == Consumed(freshId, producerId)
        && consumers == old(consumers)[freshId := Consumer(producerId, true, sid)]
    {
      if transportId !in transports {
        return ErrorReply(TransportNotFound);
      }
      if !canConsume {
        return ErrorReply(CannotConsume);
      }
      if !engineOk {
        return ErrorReply(ConsumeFailed);
      }
      consumers := consumers[freshId := Consumer(producerId, true, sid)];
      reply := Consumed(freshId, producerId);
    }

    /** resumeConsumer: unpause a known consumer. */
    method ResumeConsumer(consumerId: string) returns (reply: Reply)
      modifies this`consumers
      ensures consumerId !in old(consumers) ==> reply == ErrorReply(ConsumerNotFound) && consumers == old(consumers)
      ensures consumerId in old(consumers) ==>
        reply == Ack && consumers == old(consumers)[consumerId := old(consumers)[consumerId].(paused := false)]
    {
      if consumerId !in consumers {
        return ErrorReply(ConsumerNotFound);
      }
      consumers := consumers[consumerId := consumers[consumerId].(paused := false)];
      reply := Ack;
    }

    /**
      closeProducer: an unknown id is ignored.  A known one is dropped and
      announced to the socket's room, and spliced out of the user's record
      there; the socket's own list keeps it.
    */
    method CloseProducer(sid: string, producerId: string)
      requires Valid() && sid in sockets
      modifies this`producers, this`rooms, this`events
      ensures Valid()
      ensures producerId !in old(producers) ==>
        producers == old(producers) && rooms == old(rooms) && events == old(events)
      ensures var c := sockets[sid];
        producerId in old(producers) ==>
        && producers == old(producers) - {producerId}
        && events == old(events) + (if c.roomId != "" then [Emit(ToRoom(c.roomId), ProducerClosed(producerId))] else [])
        && if c.roomId != "" && c.userId != "" && c.roomId in old(rooms) && IndexOfUser(old(rooms)[c.roomId], c.userId).Some? then
             var room := old(rooms)[c.roomId];
             var k := IndexOfUser(room, c.userId).value;
             rooms == old(rooms)[c.roomId := room[k := room[k].(producerIds := SpliceOut(room[k].producerIds, producerId))]]
           else
             rooms == old(rooms)
    {
      if producerId !in producers {
        return;
      }
      producers := producers - {producerId};
      var c := sockets[sid];
      if c.roomId == "" {
        return;
      }
      events := events + [Emit(ToRoom(c.roomId), ProducerClosed(producerId))];
      if c.userId != "" && c.roomId in rooms {
        var room := rooms[c.roomId];
        var found := IndexOfUser(room, c.userId);
        if found.Some? {
          var k := found.value;
          var p := room[k];
          rooms := rooms[c.roomId := Replaced(room, k, p.(producerIds := SpliceOut(p.producerIds, producerId)))];
        }
      }
    }

    // -------------------------------------------------------------------------
    // Engine notifications.
    // -------------------------------------------------------------------------

    /** A transport's router closed: the transport is forgotten. */
    method TransportRouterClosed(transportId: string)
      modifies this`transports
      ensures transports == old(transports) - {transportId}
    {
      transports := transports - {transportId};
    }

    /** A producer's transport closed: the producer is forgotten, and nobody is told. */
    method ProducerTransportClosed(producerId: string)
      modifies this`producers
      ensures producers == old(producers) - {producerId}
    {
      producers := producers - {producerId};
    }

    /** A consumer's producer closed: the consumer is forgotten and its socket told which producer went. */
    method ConsumerProducerClosed(consumerId: string)
      requires consumerId in consumers
      modifies this`consumers, this`events
      ensures consumers == old(consumers) - {consumerId}
      ensures events == old(events) + [Emit(ToSocket(old(consumers)[consumerId].socketId),
                                            ProducerClosed(old(consumers)[consumerId].producerId))]
    {
      var c := consumers[consumerId];
      consumers := consumers - {consumerId};
      events := events + [Emit(ToSocket(c.socketId), ProducerClosed(c.producerId))];
    }
  }
}
