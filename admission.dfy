/**
  The admission rules of the studio: invite verification, the guest quota,
  the host-presence gate and the decisions taken by the verifyInvite,
  requestToJoin and approveGuest handlers before they touch any state.
*/
module Admission {
  import opened Common
  import opened Streams
  import opened Session

  /** An invite as the service reads it, keyed by its token. */
  datatype Invite = Invite(channelId: string, userId: string, expiresAt: int, isApproved: bool)

  /** The latest stream of a channel, as the stream query reports it. */
  datatype StreamInfo = StreamInfo(id: string, createdBy: string, participants: Option<seq<StreamParticipant>>)

  /** getLatestStreamUsecase.execute: the latest stream of a channel, if any. */
  function LatestStream(latest: map<string, StreamInfo>, channelId: string): Option<StreamInfo> {
    if channelId in latest then Some(latest[channelId]) else None
  }

  /** `stream?.id` is truthy. */
  predicate Active(s: Option<StreamInfo>) {
    s.Some? && s.value.id != ""
  }

  const InviteInvalid := "Invite expired or invalid"
  const NotInvitedUser := "You are not the invited user"
  const NoActiveStream := "No active stream found"
  const HostAbsent := "Host is not present. Please wait for the host to join."
  const UserNotFound := "User not found"
  const OnlyHostApproves := "Only the host can approve guests"
  const GuestLimitReached := "Maximum guest limit (3) reached"
  const InvalidInvite := "Invalid or expired invite"
  const GuestGone := "Guest is no longer connected"

  /** At most three guests per stream. */
  const MaxGuests := 3

  /** The number of entries with role "guest". */
  function GuestCount(ps: seq<StreamParticipant>): (n: nat)
    ensures n == |set i | 0 <= i < |ps| && ps[i].role == "guest"|
    ensures n <= |ps|
    ensures n == 0 <==> forall i :: 0 <= i < |ps| ==> ps[i].role != "guest"
  {
    if |ps| == 0 then 0
    else
      var prefix := ps[..|ps| - 1];
      assert forall i :: 0 <= i < |prefix| ==> prefix[i] == ps[i];
      assert (set i | 0 <= i < |ps| && ps[i].role == "guest")
        == (set i | 0 <= i < |prefix| && prefix[i].role == "guest")
           + (if ps[|ps| - 1].role == "guest" then {|ps| - 1} else {});
      GuestCount(prefix) + if ps[|ps| - 1].role == "guest" then 1 else 0
  }

  lemma GuestCountAppend(ps: seq<StreamParticipant>, p: StreamParticipant)
    ensures GuestCount(ps + [p]) == GuestCount(ps) + if p.role == "guest" then 1 else 0
  {
    assert (ps + [p])[..|ps|] == ps;
  }

  /** canAddGuestParticipant: a missing stream admits nobody; otherwise fewer than three guests must be listed. */
  function CanAddGuestParticipant(stream: Option<StreamInfo>): (r: bool)
    ensures r ==> stream.Some? && GuestCount(ListOrEmpty(stream.value.participants)) < MaxGuests
    ensures stream.Some? && GuestCount(ListOrEmpty(stream.value.participants)) < MaxGuests ==> r
  {
    stream.Some? && GuestCount(ListOrEmpty(stream.value.participants)) < MaxGuests
  }

  /**
    Admitting one more participant to a list that passed the quota check
    leaves at most three guests on it.
  */
  lemma {:induction false} QuotaHoldsAfterAdmission(stream: Option<StreamInfo>, p: StreamParticipant)
    requires CanAddGuestParticipant(stream)
    ensures GuestCount(AddIfAbsent(stream.value.participants, p)) <= MaxGuests
  {
    var base := ListOrEmpty(stream.value.participants);
    if !Lists(base, p.userId) {
      GuestCountAppend(base, p);
    }
  }

  /** isUserStreamHost: the stream exists and was created by the user. */
  function IsUserStreamHost(stream: Option<StreamInfo>, userId: string): (r: bool)
    ensures r ==> stream.Some?
    ensures stream.Some? ==> (r <==> stream.value.createdBy == userId)
  {
    stream.Some? && stream.value.createdBy == userId
  }

  /** The outcome of verifyInviteToken. */
  datatype InviteCheck = Verified(invite: Invite, stream: StreamInfo) | Rejected(message: string)

  /**
    verifyInviteToken: the invite must exist and be unexpired, name this
    user, and its channel must have an active stream.
  */
  function VerifyInviteToken(
    invites: map<string, Invite>, latest: map<string, StreamInfo>, token: string, userId: string, now: int)
    : (r: InviteCheck)
    ensures r.Verified? <==>
      token in invites && invites[token].expiresAt > now && invites[token].userId == userId
      && Active(LatestStream(latest, invites[token].channelId))
    ensures r.Verified? ==> r.invite == invites[token] && r.stream == latest[r.invite.channelId]
    ensures token !in invites || invites[token].expiresAt <= now ==> r == Rejected(InviteInvalid)
    ensures token in invites && invites[token].expiresAt > now && invites[token].userId != userId ==>
      r == Rejected(NotInvitedUser)
    ensures r.Rejected? && r.message != InviteInvalid && r.message != NotInvitedUser ==>
      r.message == NoActiveStream
  {
    if token !in invites || invites[token].expiresAt <= now then Rejected(InviteInvalid)
    else
      var invite := invites[token];
      if invite.userId != userId then Rejected(NotInvitedUser)
      else
        var stream := LatestStream(latest, invite.channelId);
        if !Active(stream) then Rejected(NoActiveStream) else Verified(invite, stream.value)
  }

  /** An invite verifies only for the one user it names. */
  lemma InviteBindsOneUser(
    invites: map<string, Invite>, latest: map<string, StreamInfo>, token: string, u1: string, u2: string, now: int)
    requires VerifyInviteToken(invites, latest, token, u1, now).Verified?
    requires VerifyInviteToken(invites, latest, token, u2, now).Verified?
    ensures u1 == u2
  {
  }

  /** An invite that verifies now verifies at every earlier time. */
  lemma {:induction false} InviteVerifiesEarlier(
    invites: map<string, Invite>, latest: map<string, StreamInfo>, token: string, userId: string, now: int, earlier: int)
    requires earlier <= now
    requires VerifyInviteToken(invites, latest, token, userId, now).Verified?
    ensures VerifyInviteToken(invites, latest, token, userId, earlier) == VerifyInviteToken(invites, latest, token, userId, now)
  {
    assert invites[token].expiresAt > now;
  }

  /** What handleGuestJoinRequest decides. */
  datatype JoinRequestOutcome =
    | NotVerified(message: string)
    | HostNotPresent(invite: Invite, stream: StreamInfo)
    | Rejoin(invite: Invite, stream: StreamInfo)
    | AskHost(invite: Invite, stream: StreamInfo)

  /**
    handleGuestJoinRequest: after verification, a room without a host
    refuses; an approved invite whose user is still in the room reconnects;
    any other request is passed to the room for the host's approval.
  */
  function GuestJoinOutcome(
    invites: map<string, Invite>, latest: map<string, StreamInfo>, rooms: map<string, Room>,
    token: string, userId: string, now: int)
    : (r: JoinRequestOutcome)
    ensures VerifyInviteToken(invites, latest, token, userId, now).Rejected? <==> r.NotVerified?
    ensures r.NotVerified? ==> r.message == VerifyInviteToken(invites, latest, token, userId, now).message
    ensures !r.NotVerified? ==> VerifyInviteToken(invites, latest, token, userId, now) == Verified(r.invite, r.stream)
    ensures r.HostNotPresent? <==> !r.NotVerified? && !HasHostInRoom(rooms, r.stream.id)
    ensures r.Rejoin? <==> (!r.NotVerified? && HasHostInRoom(rooms, r.stream.id)
      && r.invite.isApproved && IsUserAlreadyInRoom(rooms, r.stream.id, userId))
    ensures r.AskHost? <==> (!r.NotVerified? && HasHostInRoom(rooms, r.stream.id)
      && !(r.invite.isApproved && IsUserAlreadyInRoom(rooms, r.stream.id, userId)))
  {
    match VerifyInviteToken(invites, latest, token, userId, now)
    case Rejected(message) => NotVerified(message)
    case Verified(invite, stream) =>
      if !HasHostInRoom(rooms, stream.id) then HostNotPresent(invite, stream)
      else if invite.isApproved && IsUserAlreadyInRoom(rooms, stream.id, userId) then Rejoin(invite, stream)
      else AskHost(invite, stream)
  }

  /** What the verifyInvite handler decides. */
  datatype InviteOutcome =
    | Refused(message: string)
    | Reconnect(invite: Invite, stream: StreamInfo)
    | NewGuest(invite: Invite, stream: StreamInfo, username: string)
    | AwaitApproval(invite: Invite)

  /**
    The verifyInvite handler: the invited user must exist (a missing invite
    reports "User not found" first), the invite must be unexpired and its
    channel live.  Only an approved invite enters the room, and only while
    a host is present; an unapproved one is merely confirmed.  `users` maps
    a user id to the stored username.
  */
  function VerifyInviteOutcome(
    invites: map<string, Invite>, users: map<string, string>, latest: map<string, StreamInfo>,
    rooms: map<string, Room>, token: string, username: string, now: int)
    : (r: InviteOutcome)
    ensures !(token in invites && invites[token].userId != "" && invites[token].userId in users) ==>
      r == Refused(UserNotFound)
    ensures !r.Refused? ==>
      && token in invites && r.invite == invites[token] && r.invite.userId in users
      && r.invite.expiresAt > now
    ensures r.Reconnect? || r.NewGuest? ==>
      && r.invite.isApproved
      && LatestStream(latest, r.invite.channelId) == Some(r.stream) && Active(Some(r.stream))
      && HasHostInRoom(rooms, r.stream.id)
    ensures r.Reconnect? || r.NewGuest? ==> (r.Reconnect? <==> IsUserAlreadyInRoom(rooms, r.stream.id, r.invite.userId))
    ensures r.Reconnect? || r.NewGuest? <==>
      && token in invites && invites[token].userId != "" && invites[token].userId in users
      && invites[token].expiresAt > now && Active(LatestStream(latest, invites[token].channelId))
      && invites[token].isApproved && HasHostInRoom(rooms, latest[invites[token].channelId].id)
    ensures r.NewGuest? ==> r.username == if username != "" then username else users[r.invite.userId]
    ensures r.AwaitApproval? <==>
      && token in invites && invites[token].userId != "" && invites[token].userId in users
      && invites[token].expiresAt > now && Active(LatestStream(latest, invites[token].channelId))
      && !invites[token].isApproved
  {
    if !(token in invites && invites[token].userId != "" && invites[token].userId in users) then Refused(UserNotFound)
    else
      var invite := invites[token];
      if invite.expiresAt <= now then Refused(InviteInvalid)
      else
        var stream := LatestStream(latest, invite.channelId);
        if !Active(stream) then Refused(NoActiveStream)
        else if !invite.isApproved then AwaitApproval(invite)
        else if !HasHostInRoom(rooms, stream.value.id) then Refused(HostAbsent)
        else if IsUserAlreadyInRoom(rooms, stream.value.id, invite.userId) then Reconnect(invite, stream.value)
        else NewGuest(invite, stream.value, if username != "" then username else users[invite.userId])
  }

  /** What approveGuest decides before it changes anything. */
  datatype ApproveVerdict =
    | Admit(stream: StreamInfo, invite: Invite)
    | ErrorToApprover(message: string)
    | DeniedToGuest(message: string)

  /**
    approveGuest's checks, in order: an active stream, the approver is its
    creator, a host is present, the guest quota, a valid invite for this
    channel, and the guest still connected.  `connected` holds the ids of
    the connected sockets.
  */
  function ApproveGate(
    latest: map<string, StreamInfo>, invites: map<string, Invite>, rooms: map<string, Room>,
    connected: set<string>, channelId: string, approverId: string, token: string, guestSocket: string, now: int)
    : (r: ApproveVerdict)
    ensures r.Admit? <==>
      && Active(LatestStream(latest, channelId))
      && latest[channelId].createdBy == approverId
      && HasHostInRoom(rooms, latest[channelId].id)
      && CanAddGuestParticipant(LatestStream(latest, channelId))
      && token in invites && invites[token].expiresAt > now && invites[token].channelId == channelId
      && guestSocket in connected
    ensures r.Admit? ==> r.stream == latest[channelId] && r.invite == invites[token]
    ensures !Active(LatestStream(latest, channelId)) ==> r == ErrorToApprover(NoActiveStream)
    ensures Active(LatestStream(latest, channelId)) && latest[channelId].createdBy != approverId ==>
      r == ErrorToApprover(OnlyHostApproves)
    ensures (Active(LatestStream(latest, channelId)) && latest[channelId].createdBy == approverId
             && !HasHostInRoom(rooms, latest[channelId].id)) ==> r == DeniedToGuest(HostAbsent)
    ensures r.DeniedToGuest? ==> r.message in {HostAbsent, GuestLimitReached, InvalidInvite}
    ensures r.ErrorToApprover? && r.message != NoActiveStream && r.message != OnlyHostApproves ==>
      r.message == GuestGone && guestSocket !in connected
  {
    var stream := LatestStream(latest, channelId);
    if !Active(stream) then ErrorToApprover(NoActiveStream)
    else if stream.value.createdBy != approverId then ErrorToApprover(OnlyHostApproves)
    else if !HasHostInRoom(rooms, stream.value.id) then DeniedToGuest(HostAbsent)
    else if !CanAddGuestParticipant(stream) then DeniedToGuest(GuestLimitReached)
    else if token !in invites || invites[token].expiresAt <= now || invites[token].channelId != channelId then
      DeniedToGuest(InvalidInvite)
    else if guestSocket !in connected then ErrorToApprover(GuestGone)
    else Admit(stream.value, invites[token])
  }

  /** An admitted guest never pushes the persisted list past three guests. */
  lemma {:induction false} AdmissionRespectsQuota(
    latest: map<string, StreamInfo>, invites: map<string, Invite>, rooms: map<string, Room>,
    connected: set<string>, channelId: string, approverId: string, token: string, guestSocket: string, now: int,
    username: string)
    requires ApproveGate(latest, invites, rooms, connected, channelId, approverId, token, guestSocket, now).Admit?
    ensures var v := ApproveGate(latest, invites, rooms, connected, channelId, approverId, token, guestSocket, now);
      GuestCount(AddIfAbsent(v.stream.participants, StreamParticipant(v.invite.userId, "guest", username))) <= MaxGuests
  {
    var v := ApproveGate(latest, invites, rooms, connected, channelId, approverId, token, guestSocket, now);
    QuotaHoldsAfterAdmission(Some(v.stream), StreamParticipant(v.invite.userId, "guest", username));
  }
}
