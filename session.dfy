/**
  The studio's in-memory room registry, as values: the participants of a
  room in the order they joined, the upsert used on every join, the removal
  used on disconnect, the producer-id bookkeeping, and the notifications
  the service emits.
*/
module Session {
  import opened Common
  import opened Streams

  /** A participant of a live studio room. */
  datatype Participant = Participant(
    userId: string,
    role: string,
    username: string,
    producerIds: seq<string>,
    socketId: string)

  /**
    The participants of one room, in insertion order (the iteration order
    of the userId-keyed map the service keeps).  A room holds at most one
    record per userId: see `UniqueUsers`.
  */
  type Room = seq<Participant>

  ghost predicate UniqueUsers(room: Room) {
    forall i, j :: 0 <= i < j < |room| ==> room[i].userId != room[j].userId
  }

  /** Every registered room is non-empty and keyed by userId. */
  ghost predicate RoomsWellFormed(rooms: map<string, Room>) {
    forall id :: id in rooms ==> |rooms[id]| > 0 && UniqueUsers(rooms[id])
  }

  /** The position of the record for `userId`, if the room has one. */
  function IndexOfUser(room: Room, userId: string): (r: Option<nat>)
    ensures r.Some? ==> r.value < |room| && room[r.value].userId == userId
    ensures r.None? <==> forall i :: 0 <= i < |room| ==> room[i].userId != userId
  {
    if |room| == 0 then None
    else if room[0].userId == userId then Some(0)
    else match IndexOfUser(room[1..], userId) {
      case None => assert forall i :: 1 <= i < |room| ==> room[i] == room[1..][i - 1]; None
      case Some(k) => Some(k + 1)
    }
  }

  /** In a well-formed room the record found is the only one for that user. */
  lemma IndexOfUserIsUnique(room: Room, userId: string, i: nat)
    requires UniqueUsers(room)
    requires i < |room| && room[i].userId == userId
    ensures IndexOfUser(room, userId) == Some(i)
  {
  }

  /** Array.prototype.some over the room: whether any participant has role "host". */
  function AnyHost(room: Room): (r: bool)
    ensures r <==> exists i :: 0 <= i < |room| && room[i].role == "host"
  {
    if |room| == 0 then false
    else if room[0].role == "host" then true
    else
      var r := AnyHost(room[1..]);
      assert forall i :: 1 <= i < |room| ==> room[i] == room[1..][i - 1];
      r
  }

  /** hasHostInRoom: false for an unknown room. */
  function HasHostInRoom(rooms: map<string, Room>, streamId: string): (r: bool)
    ensures r <==> streamId in rooms && exists i :: 0 <= i < |rooms[streamId]| && rooms[streamId][i].role == "host"
  {
    streamId in rooms && AnyHost(rooms[streamId])
  }

  /** isUserAlreadyInRoom: false for an unknown room. */
  function IsUserAlreadyInRoom(rooms: map<string, Room>, streamId: string, userId: string): (r: bool)
    ensures r <==> streamId in rooms && exists i :: 0 <= i < |rooms[streamId]| && rooms[streamId][i].userId == userId
  {
    streamId in rooms && IndexOfUser(rooms[streamId], userId).Some?
  }

  function RoomOrEmpty(rooms: map<string, Room>, streamId: string): Room {
    if streamId in rooms then rooms[streamId] else []
  }

  /** The room after a join, the record now held for the user, and whether it is new. */
  datatype Upserted = Upserted(room: Room, participant: Participant, isNew: bool)

  /**
    addParticipantToRoom on one room: an existing record gets the new socket
    id and username and keeps its role and producers; otherwise a record
    with no producers is appended.
  */
  function Upsert(room: Room, userId: string, socketId: string, role: string, username: string): (r: Upserted)
    requires UniqueUsers(room)
    ensures r.isNew <==> forall i :: 0 <= i < |room| ==> room[i].userId != userId
    ensures r.isNew ==>
      r.participant == Participant(userId, role, username, [], socketId) && r.room == room + [r.participant]
    ensures !r.isNew ==> exists k :: (0 <= k < |room| && room[k].userId == userId
      && r.participant == room[k].(socketId := socketId, username := username)
      && r.room == room[k := r.participant])
    ensures UniqueUsers(r.room) && |r.room| > 0
    ensures forall i :: 0 <= i < |r.room| && r.room[i].userId == userId ==> r.room[i] == r.participant
  {
    match IndexOfUser(room, userId)
    case Some(k) =>
      var p := room[k].(socketId := socketId, username := username);
      Upserted(room[k := p], p, false)
    case None =>
      var p := Participant(userId, role, username, [], socketId);
      var r := room + [p];
      assert forall i :: 0 <= i < |room| ==> r[i] == room[i];
      Upserted(r, p, true)
  }

  /** A second join of the same user with the same socket and name changes nothing. */
  lemma UpsertIdempotent(room: Room, userId: string, socketId: string, role: string, role2: string, username: string)
    requires UniqueUsers(room)
    ensures var r := Upsert(room, userId, socketId, role, username);
      Upsert(r.room, userId, socketId, role2, username) == Upserted(r.room, r.participant, false)
  {
    var r := Upsert(room, userId, socketId, role, username);
    if r.isNew {
      IndexOfUserIsUnique(r.room, userId, |room|);
    } else {
      var k :| 0 <= k < |room| && room[k].userId == userId && r.room == room[k := r.participant];
      IndexOfUserIsUnique(r.room, userId, k);
    }
  }

  /** The room with the record at `k` replaced by one for the same user. */
  function Replaced(room: Room, k: nat, p: Participant): (r: Room)
    requires k < |room| && p.userId == room[k].userId
    requires UniqueUsers(room)
    ensures |r| == |room| && r[k] == p
    ensures forall i :: 0 <= i < |r| && i != k ==> r[i] == room[i]
    ensures UniqueUsers(r)
  {
    var r := room[k := p];
    assert forall i :: 0 <= i < |r| ==> r[i].userId == room[i].userId;
    r
  }

  /** The room without the record at `k`, the others kept in order. */
  function RemoveAt(room: Room, k: nat): (r: Room)
    requires k < |room|
    ensures |r| == |room| - 1
    ensures forall i :: 0 <= i < k ==> r[i] == room[i]
    ensures forall i :: k <= i < |r| ==> r[i] == room[i + 1]
  {
    room[..k] + room[k + 1..]
  }

  /** What a disconnect does to the registry: the new rooms and whether the participant left. */
  datatype Departure = Departure(rooms: map<string, Room>, removed: bool)

  /**
    The room part of cleanupUserResources: the socket's (roomId, userId)
    record is removed only while it still names this socket, and a room left
    empty is unregistered.
  */
  function Depart(rooms: map<string, Room>, roomId: string, userId: string, socketId: string): (d: Departure)
    requires RoomsWellFormed(rooms)
    ensures d.removed <==> (roomId != "" && userId != "" && roomId in rooms
      && exists i :: 0 <= i < |rooms[roomId]| && rooms[roomId][i].userId == userId && rooms[roomId][i].socketId == socketId)
    ensures !d.removed ==> d.rooms == rooms
    ensures d.removed ==> (roomId in d.rooms <==> |rooms[roomId]| > 1)
    ensures d.removed && roomId in d.rooms ==> exists k :: (0 <= k < |rooms[roomId]|
      && rooms[roomId][k].userId == userId && d.rooms[roomId] == RemoveAt(rooms[roomId], k))
    ensures forall id :: id != roomId ==> (id in d.rooms <==> id in rooms) && (id in rooms ==> d.rooms[id] == rooms[id])
    ensures RoomsWellFormed(d.rooms)
  {
    if roomId == "" || userId == "" || roomId !in rooms then Departure(rooms, false)
    else
      var room := rooms[roomId];
      match IndexOfUser(room, userId)
      case None => Departure(rooms, false)
      case Some(k) =>
        if room[k].socketId != socketId then
          assert forall i :: 0 <= i < |room| && room[i].userId == userId ==> i == k;
          Departure(rooms, false)
        else
          var rest := RemoveAt(room, k);
          if |rest| == 0 then Departure(rooms - {roomId}, true)
          else
            assert UniqueUsers(rest) by {
              forall i, j | 0 <= i < j < |rest| ensures rest[i].userId != rest[j].userId {
                var i' := if i < k then i else i + 1;
                var j' := if j < k then j else j + 1;
                assert rest[i] == room[i'] && rest[j] == room[j'];
              }
            }
            Departure(rooms[roomId := rest], true)
  }

  /**
    A reconnect through a new socket survives the old socket's disconnect:
    once the user's record names `newSocket`, a disconnect of any other
    socket leaves the registry as it was.
  */
  lemma {:induction false} ReconnectSurvivesStaleDisconnect(
    rooms: map<string, Room>, roomId: string, userId: string, role: string, username: string,
    newSocket: string, staleSocket: string)
    requires RoomsWellFormed(rooms)
    requires staleSocket != newSocket
    ensures var joined := rooms[roomId := Upsert(RoomOrEmpty(rooms, roomId), userId, newSocket, role, username).room];
      RoomsWellFormed(joined) && Depart(joined, roomId, userId, staleSocket) == Departure(joined, false)
  {
    var u := Upsert(RoomOrEmpty(rooms, roomId), userId, newSocket, role, username);
    var joined := rooms[roomId := u.room];
    assert RoomsWellFormed(joined);
    forall i | 0 <= i < |joined[roomId]| && joined[roomId][i].userId == userId
      ensures joined[roomId][i].socketId != staleSocket
    {
      assert joined[roomId][i] == u.participant;
    }
  }

  /** Depart, told where the user's record is: it goes exactly when it names the socket. */
  lemma DepartAt(rooms: map<string, Room>, roomId: string, userId: string, socketId: string, k: nat)
    requires RoomsWellFormed(rooms) && roomId != "" && userId != "" && roomId in rooms
    requires k < |rooms[roomId]| && rooms[roomId][k].userId == userId
    ensures var room := rooms[roomId];
      Depart(rooms, roomId, userId, socketId)
        == if room[k].socketId != socketId then Departure(rooms, false)
           else Departure(if |room| == 1 then rooms - {roomId} else rooms[roomId := RemoveAt(room, k)], true)
  {
    IndexOfUserIsUnique(rooms[roomId], userId, k);
  }

  /** A disconnect through the socket named by a room's last record removes exactly that record. */
  lemma DepartLast(rooms: map<string, Room>, roomId: string, userId: string, socketId: string)
    requires RoomsWellFormed(rooms) && roomId != "" && userId != "" && roomId in rooms
    requires var room := rooms[roomId]; room[|room| - 1].userId == userId && room[|room| - 1].socketId == socketId
    ensures var room := rooms[roomId];
      Depart(rooms, roomId, userId, socketId)
        == Departure(if |room| == 1 then rooms - {roomId} else rooms[roomId := room[..|room| - 1]], true)
  {
    var room := rooms[roomId];
    IndexOfUserIsUnique(room, userId, |room| - 1);
    assert RemoveAt(room, |room| - 1) == room[..|room| - 1];
  }

  /**
    Joining and then disconnecting through the same socket restores the
    registry: a new participant's record is removed and a room it created is
    unregistered again.
  */
  lemma {:induction false} JoinThenDepartRestores(
    rooms: map<string, Room>, roomId: string, userId: string, role: string, username: string, socketId: string)
    requires RoomsWellFormed(rooms)
    requires roomId != "" && userId != ""
    requires !IsUserAlreadyInRoom(rooms, roomId, userId)
    ensures var joined := rooms[roomId := Upsert(RoomOrEmpty(rooms, roomId), userId, socketId, role, username).room];
      RoomsWellFormed(joined) && Depart(joined, roomId, userId, socketId) == Departure(rooms, true)
  {
    var before := RoomOrEmpty(rooms, roomId);
    var u := Upsert(before, userId, socketId, role, username);
    assert u.isNew && u.room == before + [u.participant];
    var joined := rooms[roomId := u.room];
    assert RoomsWellFormed(joined);
    DepartLast(joined, roomId, userId, socketId);
    assert u.room[..|before|] == before;
    if |before| == 0 {
      assert joined - {roomId} == rooms;
    } else {
      assert joined[roomId := before] == rooms;
    }
  }

  // ---------------------------------------------------------------------------
  // Producer ids on a participant.
  // ---------------------------------------------------------------------------

  /** Array.prototype.indexOf. */
  function IndexOf(ids: seq<string>, id: string): (r: Option<nat>)
    ensures r.Some? ==> r.value < |ids| && ids[r.value] == id && id !in ids[..r.value]
    ensures r.None? <==> id !in ids
  {
    if |ids| == 0 then None
    else if ids[0] == id then Some(0)
    else match IndexOf(ids[1..], id) {
      case None => None
      case Some(k) =>
        assert ids[..k + 1] == [ids[0]] + ids[1..][..k];
        Some(k + 1)
    }
  }

  /**
    `ids.splice(ids.indexOf(id), 1)` guarded by `indexOf !== -1`: the first
    occurrence of `id` is cut out and the others keep their order.
  */
  function SpliceOut(ids: seq<string>, id: string): (r: seq<string>)
    ensures id !in ids ==> r == ids
    ensures id in ids ==> exists k :: 0 <= k < |ids| && ids[k] == id && id !in ids[..k] && r == ids[..k] + ids[k + 1..]
    ensures multiset(r) == multiset(ids) - multiset{id}
  {
    match IndexOf(ids, id)
    case None => ids
    case Some(k) =>
      assert ids == ids[..k] + [id] + ids[k + 1..];
      ids[..k] + ids[k + 1..]
  }

  ghost predicate Distinct(ids: seq<string>) {
    forall i, j :: 0 <= i < j < |ids| ==> ids[i] != ids[j]
  }

  /** On a list without repeats the splice removes the id altogether and keeps the list repeat-free. */
  lemma SpliceOutDistinct(ids: seq<string>, id: string)
    requires Distinct(ids)
    ensures Distinct(SpliceOut(ids, id))
    ensures forall x :: x in SpliceOut(ids, id) <==> x in ids && x != id
  {
    if id in ids {
      var r := SpliceOut(ids, id);
      var k :| 0 <= k < |ids| && ids[k] == id && r == ids[..k] + ids[k + 1..];
      RemovedIndexShape(ids, k, r);
    }
  }

  lemma RemovedIndexShape(ids: seq<string>, k: nat, r: seq<string>)
    requires Distinct(ids)
    requires k < |ids| && r == ids[..k] + ids[k + 1..]
    ensures Distinct(r)
    ensures forall x :: x in r <==> x in ids && x != ids[k]
  {
    assert |r| == |ids| - 1;
    assert forall i :: 0 <= i < |r| ==> r[i] == ids[if i < k then i else i + 1];
    forall x | x in ids && x != ids[k] ensures x in r {
      var m :| 0 <= m < |ids| && ids[m] == x;
      assert r[if m < k then m else m - 1] == x;
    }
  }

  /** Producing and then closing the same new producer gives the participant back its old list. */
  lemma SpliceOutUndoesAppend(ids: seq<string>, id: string)
    requires id !in ids
    ensures SpliceOut(ids + [id], id) == ids
  {
    var r := SpliceOut(ids + [id], id);
    var k :| 0 <= k < |ids + [id]| && (ids + [id])[k] == id && r == (ids + [id])[..k] + (ids + [id])[k + 1..];
    assert k == |ids|;
    assert (ids + [id])[..k] == ids;
  }

  // ---------------------------------------------------------------------------
  // Closing a disconnecting socket's producers.
  // ---------------------------------------------------------------------------

  /** An open producer: its kind and the transport it sends on. */
  datatype Producer = Producer(kind: string, transportId: string)

  /** The producer table after closing every listed id that is open. */
  function CloseAll(producers: map<string, Producer>, pids: seq<string>): (r: map<string, Producer>)
    ensures forall id :: id in r <==> id in producers && id !in pids
    ensures forall id :: id in r ==> r[id] == producers[id]
  {
    if |pids| == 0 then producers
    else
      var before := CloseAll(producers, pids[..|pids| - 1]);
      assert pids == pids[..|pids| - 1] + [pids[|pids| - 1]];
      before - {pids[|pids| - 1]}
  }

  /** The ids the cleanup actually closes, in the order it closes them. */
  function ClosedIds(producers: map<string, Producer>, pids: seq<string>): (r: seq<string>)
    ensures forall x :: x in r <==> x in pids && x in producers
    ensures Distinct(r)
  {
    if |pids| == 0 then []
    else
      var prefix := pids[..|pids| - 1];
      var last := pids[|pids| - 1];
      var before := ClosedIds(producers, prefix);
      assert pids == prefix + [last];
      if last in CloseAll(producers, prefix) then
        var r := before + [last];
        assert forall i :: 0 <= i < |before| ==> r[i] == before[i];
        r
      else before
  }

  /** One more step of the close loop: the next id is closed if it is still open. */
  lemma CloseStep(producers: map<string, Producer>, pids: seq<string>, i: nat)
    requires i < |pids|
    ensures CloseAll(producers, pids[..i + 1]) == CloseAll(producers, pids[..i]) - {pids[i]}
    ensures ClosedIds(producers, pids[..i + 1])
         == ClosedIds(producers, pids[..i]) + if pids[i] in CloseAll(producers, pids[..i]) then [pids[i]] else []
  {
    assert pids[..i + 1][..i] == pids[..i];
  }

  // ---------------------------------------------------------------------------
  // Notifications.
  // ---------------------------------------------------------------------------

  /** Where an emit goes: one socket, or every socket in a room (the sender included). */
  datatype Target = ToSocket(socketId: string) | ToRoom(roomId: string)

  /** The payloads the service sends. */
  datatype Message =
    | ParticipantJoined(socketId: string, userId: string, role: string, username: string)
    | ParticipantLeft(userId: string, socketId: string)
    | NewProducer(producerId: string, producerSocketId: string, userId: string, role: string, username: string)
    | ProducerClosed(producerId: string)
    | RouterRtpCapabilities
    | JoinApproved(streamId: string, reconnected: bool)
    | JoinDenied(message: string)
    | JoinRequestResponse(message: string)
    | GuestRequest(token: string, username: string, channelId: string, socketId: string, userId: string,
                   cameraOn: bool, micOn: bool)
    | StreamUpdate(streamId: string, participants: Option<seq<StreamParticipant>>)
    | InviteLink(link: string, userId: string)
    | ErrorMessage(message: string)

  datatype Event = Emit(to: Target, msg: Message)

  function JoinedNotice(to: string, p: Participant): Event {
    Emit(ToSocket(to), ParticipantJoined(p.socketId, p.userId, p.role, p.username))
  }

  /** sendCurrentParticipants: one participantJoined per participant, in room order, to one socket. */
  function ParticipantNotices(to: string, room: Room): (r: seq<Event>)
    ensures |r| == |room|
    ensures forall i :: 0 <= i < |r| ==> r[i] == JoinedNotice(to, room[i])
  {
    if |room| == 0 then [] else ParticipantNotices(to, room[..|room| - 1]) + [JoinedNotice(to, room[|room| - 1])]
  }

  function ProducerNotice(to: string, p: Participant, producerId: string): Event {
    Emit(ToSocket(to), NewProducer(producerId, p.socketId, p.userId, p.role, p.username))
  }

  /** The newProducer notices for one participant's producers, in their order. */
  function NoticesFor(to: string, p: Participant, ids: seq<string>): (r: seq<Event>)
    ensures |r| == |ids|
    ensures forall i :: 0 <= i < |r| ==> r[i] == ProducerNotice(to, p, ids[i])
  {
    if |ids| == 0 then [] else NoticesFor(to, p, ids[..|ids| - 1]) + [ProducerNotice(to, p, ids[|ids| - 1])]
  }

  /** The number of producers held by participants on sockets other than `to`. */
  function OtherProducerCount(to: string, room: Room): nat {
    if |room| == 0 then 0
    else
      var p := room[|room| - 1];
      OtherProducerCount(to, room[..|room| - 1]) + (if p.socketId != to then |p.producerIds| else 0)
  }

  /** sendExistingProducers: the producers of every participant on another socket, in room order. */
  function ExistingProducerNotices(to: string, room: Room): (r: seq<Event>)
    ensures |r| == OtherProducerCount(to, room)
  {
    if |room| == 0 then []
    else
      var p := room[|room| - 1];
      ExistingProducerNotices(to, room[..|room| - 1]) + (if p.socketId != to then NoticesFor(to, p, p.producerIds) else [])
  }

  /**
    The notices follow room order: those for an earlier part of the room all
    come before those for a later part.
  */
  lemma {:induction false} ExistingProducerNoticesConcat(to: string, a: Room, b: Room)
    ensures ExistingProducerNotices(to, a + b) == ExistingProducerNotices(to, a) + ExistingProducerNotices(to, b)
  {
    if |b| > 0 {
      var ab := a + b;
      var p := b[|b| - 1];
      assert ab[..|ab| - 1] == a + b[..|b| - 1];
      assert ab[|ab| - 1] == p;
      ExistingProducerNoticesConcat(to, a, b[..|b| - 1]);
    } else {
      assert a + b == a;
    }
  }

  /** A participant on another socket contributes one notice per producer; one on `to` contributes none. */
  lemma ExistingProducerNoticesSingle(to: string, p: Participant)
    ensures ExistingProducerNotices(to, [p]) == if p.socketId != to then NoticesFor(to, p, p.producerIds) else []
  {
    assert [p][..0] == [];
  }

  /**
    Every producer notice is addressed to `to` and announces a producer of a
    participant on another socket.
  */
  lemma {:induction false} ExistingProducerNoticesSound(to: string, room: Room)
    ensures forall e :: e in ExistingProducerNotices(to, room) ==>
      exists i :: (0 <= i < |room| && room[i].socketId != to && room[i].producerIds != []
        && exists j :: 0 <= j < |room[i].producerIds| && e == ProducerNotice(to, room[i], room[i].producerIds[j]))
  {
    if |room| > 0 {
      var prefix := room[..|room| - 1];
      var p := room[|room| - 1];
      ExistingProducerNoticesSound(to, prefix);
      forall e | e in ExistingProducerNotices(to, room)
        ensures exists i :: (0 <= i < |room| && room[i].socketId != to && room[i].producerIds != []
          && exists j :: 0 <= j < |room[i].producerIds| && e == ProducerNotice(to, room[i], room[i].producerIds[j]))
      {
        if e in ExistingProducerNotices(to, prefix) {
          var i :| 0 <= i < |prefix| && prefix[i].socketId != to && prefix[i].producerIds != []
            && exists j :: 0 <= j < |prefix[i].producerIds| && e == ProducerNotice(to, prefix[i], prefix[i].producerIds[j]);
          assert room[i] == prefix[i];
        } else {
          var ns := NoticesFor(to, p, p.producerIds);
          var j :| 0 <= j < |ns| && ns[j] == e;
          assert room[|room| - 1] == p;
        }
      }
    }
  }

  /** Every producer of every participant on another socket is announced. */
  lemma {:induction false} ExistingProducerNoticesComplete(to: string, room: Room, i: nat, j: nat)
    requires i < |room| && room[i].socketId != to && j < |room[i].producerIds|
    ensures ProducerNotice(to, room[i], room[i].producerIds[j]) in ExistingProducerNotices(to, room)
  {
    var prefix := room[..|room| - 1];
    if i < |room| - 1 {
      assert prefix[i] == room[i];
      ExistingProducerNoticesComplete(to, prefix, i, j);
    } else {
      var ns := NoticesFor(to, room[i], room[i].producerIds);
      assert ns[j] == ProducerNotice(to, room[i], room[i].producerIds[j]);
    }
  }

  /** A socket is never told about its own producers. */
  lemma {:induction false} ExistingProducerNoticesSkipOwnSocket(to: string, room: Room)
    ensures forall e :: e in ExistingProducerNotices(to, room) ==> e.to == ToSocket(to) && e.msg.NewProducer? && e.msg.producerSocketId != to
  {
    ExistingProducerNoticesSound(to, room);
  }

  /** producerClosed notices to a room, one per closed id. */
  function ClosedNotices(roomId: string, ids: seq<string>): (r: seq<Event>)
    ensures |r| == |ids|
    ensures forall i :: 0 <= i < |r| ==> r[i] == Emit(ToRoom(roomId), ProducerClosed(ids[i]))
  {
    if |ids| == 0 then [] else ClosedNotices(roomId, ids[..|ids| - 1]) + [Emit(ToRoom(roomId), ProducerClosed(ids[|ids| - 1]))]
  }

  lemma ClosedNoticesAppend(roomId: string, ids: seq<string>, id: string)
    ensures ClosedNotices(roomId, ids + [id]) == ClosedNotices(roomId, ids) + [Emit(ToRoom(roomId), ProducerClosed(id))]
  {
    assert (ids + [id])[..|ids|] == ids;
  }
}
