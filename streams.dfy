/**
  Two stream-level use cases over the persisted stream table: adding a
  participant to a stream's participant list unless its user is already
  listed, and validating and building a new stream.
*/
module Streams {
  import opened Common

  /** An entry of a stream's persisted participant list. */
  datatype StreamParticipant = StreamParticipant(userId: string, role: string, username: string)

  predicate Lists(ps: seq<StreamParticipant>, userId: string) {
    exists i :: 0 <= i < |ps| && ps[i].userId == userId
  }

  ghost predicate UniqueUserIds(ps: seq<StreamParticipant>) {
    forall i, j :: 0 <= i < j < |ps| ==> ps[i].userId != ps[j].userId
  }

  /** A missing participant list reads as the empty list. */
  function ListOrEmpty(ps: Option<seq<StreamParticipant>>): seq<StreamParticipant> {
    if ps.Some? then ps.value else []
  }

  /** The list after adding `p` unless its userId is already listed. */
  function AddIfAbsent(ps: Option<seq<StreamParticipant>>, p: StreamParticipant): (r: seq<StreamParticipant>)
    ensures Lists(ListOrEmpty(ps), p.userId) ==> r == ListOrEmpty(ps)
    ensures !Lists(ListOrEmpty(ps), p.userId) ==> r == ListOrEmpty(ps) + [p]
    ensures Lists(r, p.userId)
  {
    var base := ListOrEmpty(ps);
    if Lists(base, p.userId) then base
    else assert (base + [p])[|base|] == p; base + [p]
  }

  /** Existing entries stay, unchanged and in order: the old list is a prefix of the new one. */
  lemma AddIfAbsentKeepsEntries(ps: Option<seq<StreamParticipant>>, p: StreamParticipant)
    ensures var r := AddIfAbsent(ps, p);
      && |ListOrEmpty(ps)| <= |r| <= |ListOrEmpty(ps)| + 1
      && r[..|ListOrEmpty(ps)|] == ListOrEmpty(ps)
  {
  }

  /** A repeated userId changes nothing: neither its role nor its username is overwritten. */
  lemma AddIfAbsentIdempotent(ps: Option<seq<StreamParticipant>>, p: StreamParticipant, q: StreamParticipant)
    requires q.userId == p.userId
    ensures AddIfAbsent(Some(AddIfAbsent(ps, p)), q) == AddIfAbsent(ps, p)
  {
  }

  /** Unique userIds before the call stay unique after it. */
  lemma AddIfAbsentKeepsUnique(ps: Option<seq<StreamParticipant>>, p: StreamParticipant)
    requires UniqueUserIds(ListOrEmpty(ps))
    ensures UniqueUserIds(AddIfAbsent(ps, p))
  {
    var base := ListOrEmpty(ps);
    var r := AddIfAbsent(ps, p);
    if !Lists(base, p.userId) {
      forall i, j | 0 <= i < j < |r|
        ensures r[i].userId != r[j].userId
      {
        if j == |base| {
          assert r[i] == base[i];
        } else {
          assert r[i] == base[i] && r[j] == base[j];
        }
      }
    }
  }

  // ---------------------------------------------------------------------------
  // Creating a stream.
  // ---------------------------------------------------------------------------

  /** The live-chat settings of a stream. */
  datatype LiveChat = LiveChat(
    enabled: bool,
    replay: bool,
    participantMode: string,
    reactions: bool,
    slowMode: bool,
    slowModeDelay: string)

  /** The settings a stream gets when the request carries none. */
  const DefaultLiveChat := LiveChat(true, false, "Anyone", true, false, "60")

  /**
    The request: a partial stream record.  Text fields are optional; a
    field that is absent or empty counts as missing.  Fallback video and
    schedule are opaque payloads, carried as text and an integer time.
  */
  datatype StreamInput = StreamInput(
    title: Option<string>,
    description: Option<string>,
    broadcastType: Option<string>,
    category: Option<string>,
    visibility: Option<string>,
    thumbnail: Option<string>,
    fallbackVideo: Option<string>,
    schedule: Option<int>,
    playlistId: Option<string>,
    liveChat: Option<LiveChat>,
    channelId: string,
    createdBy: Option<string>,
    status: Option<string>,
    participants: Option<seq<StreamParticipant>>)

  /** The object handed to the repository; it has no status and no participants. */
  datatype StreamDraft = StreamDraft(
    title: string,
    description: Option<string>,
    broadcastType: string,
    category: string,
    visibility: string,
    thumbnail: Option<string>,
    fallbackVideo: Option<string>,
    schedule: Option<int>,
    playlistId: Option<string>,
    liveChat: LiveChat,
    channelId: string,
    createdBy: Option<string>)

  /** JavaScript truthiness of an optional string. */
  predicate Given(o: Option<string>) {
    o.Some? && o.value != ""
  }

  const TitleRequired := "Title is required"
  const ChannelRequired := "Channel ID is required"
  const BroadcastTypeRequired := "Broadcast type is required"
  const CategoryRequired := "Category is required"
  const VisibilityRequired := "Visibility is required"

  /** The five required fields, checked in order; the first missing one names the error. */
  function BuildStream(input: StreamInput): (r: Result<StreamDraft, string>)
    ensures !Given(input.title) ==> r == Failure(TitleRequired)
    ensures Given(input.title) && input.channelId == "" ==> r == Failure(ChannelRequired)
    ensures Given(input.title) && input.channelId != "" && !Given(input.broadcastType) ==>
      r == Failure(BroadcastTypeRequired)
    ensures (Given(input.title) && input.channelId != "" && Given(input.broadcastType)
             && !Given(input.category)) ==> r == Failure(CategoryRequired)
    ensures (Given(input.title) && input.channelId != "" && Given(input.broadcastType)
             && Given(input.category) && !Given(input.visibility)) ==> r == Failure(VisibilityRequired)
    ensures r.Success? <==>
      Given(input.title) && input.channelId != "" && Given(input.broadcastType)
      && Given(input.category) && Given(input.visibility)
    ensures r.Success? ==>
      && r.value.title == input.title.value
      && r.value.channelId == input.channelId
      && r.value.broadcastType == input.broadcastType.value
      && r.value.category == input.category.value
      && r.value.visibility == input.visibility.value
      && r.value.createdBy == input.createdBy
      && r.value.description == input.description
      && r.value.thumbnail == input.thumbnail
      && r.value.fallbackVideo == input.fallbackVideo
      && r.value.schedule == input.schedule
      && r.value.playlistId == input.playlistId
    ensures r.Success? && input.liveChat.None? ==> r.value.liveChat == DefaultLiveChat
    ensures r.Success? && input.liveChat.Some? ==> r.value.liveChat == input.liveChat.value
  {
    if !Given(input.title) then Failure(TitleRequired)
    else if input.channelId == "" then Failure(ChannelRequired)
    else if !Given(input.broadcastType) then Failure(BroadcastTypeRequired)
    else if !Given(input.category) then Failure(CategoryRequired)
    else if !Given(input.visibility) then Failure(VisibilityRequired)
    else
      Success(StreamDraft(
        input.title.value, input.description, input.broadcastType.value, input.category.value,
        input.visibility.value, input.thumbnail, input.fallbackVideo, input.schedule,
        input.playlistId, if input.liveChat.Some? then input.liveChat.value else DefaultLiveChat,
        input.channelId, input.createdBy))
  }

  /** A status or participant list in the request never reaches the built stream. */
  lemma BuildStreamIgnoresStatusAndParticipants(
    input: StreamInput, status: Option<string>, participants: Option<seq<StreamParticipant>>)
    ensures BuildStream(input.(status := status, participants := participants)) == BuildStream(input)
  {
  }

  // ---------------------------------------------------------------------------
  // The command-side stream table and the two use cases that write it.
  // ---------------------------------------------------------------------------

  /** A persisted stream: its id, its fields, and its participant list (which may be missing). */
  datatype StreamRecord = StreamRecord(
    id: string,
    fields: StreamDraft,
    participants: Option<seq<StreamParticipant>>)

  function NotFound(streamId: string): string {
    "Stream with id " + streamId + " not found"
  }

  class StreamRepository {
    var streams: map<string, StreamRecord>

    constructor(initial: map<string, StreamRecord>)
      ensures streams == initial
    {
      streams := initial;
    }

    /** Saves a new stream under an id the database assigns. */
    method Create(draft: StreamDraft, freshId: string) returns (saved: StreamRecord)
      requires freshId !in streams
      modifies this
      ensures saved == StreamRecord(freshId, draft, Some([]))
      ensures streams == old(streams)[freshId := saved]
    {
      saved := StreamRecord(freshId, draft, Some([]));
      streams := streams[freshId := saved];
    }
  }

  /**
    UpdateStreamParticipantsUsecase.execute: read the stream, push the
    participant unless its userId is listed, write the list back.
  */
  method UpdateStreamParticipants(repo: StreamRepository, streamId: string, p: StreamParticipant)
    returns (r: Result<StreamRecord, string>)
    modifies repo
    ensures streamId !in old(repo.streams) ==>
      r == Failure(NotFound(streamId)) && repo.streams == old(repo.streams)
    ensures streamId in old(repo.streams) ==>
      && repo.streams == old(repo.streams)[streamId :=
           old(repo.streams)[streamId].(participants := Some(AddIfAbsent(old(repo.streams)[streamId].participants, p)))]
      && r == Success(repo.streams[streamId])
  {
    if streamId !in repo.streams {
      return Failure(NotFound(streamId));
    }
    var current := repo.streams[streamId];
    var participants := ListOrEmpty(current.participants);
    if !Lists(participants, p.userId) {
      participants := participants + [p];
    }
    repo.streams := repo.streams[streamId := current.(participants := Some(participants))];
    r := Success(repo.streams[streamId]);
  }

  /** CreateStreamUsecase.execute: nothing reaches the repository unless validation passes. */
  method CreateStream(repo: StreamRepository, input: StreamInput, freshId: string)
    returns (r: Result<StreamRecord, string>)
    requires freshId !in repo.streams
    modifies repo
    ensures BuildStream(input).Failure? ==>
      r == Failure(BuildStream(input).error) && repo.streams == old(repo.streams)
    ensures BuildStream(input).Success? ==>
      && r == Success(StreamRecord(freshId, BuildStream(input).value, Some([])))
      && repo.streams == old(repo.streams)[freshId := r.value]
  {
    var built := BuildStream(input);
    if built.Failure? {
      return Failure(built.error);
    }
    var saved := repo.Create(built.value, freshId);
    r := Success(saved);
  }
}
