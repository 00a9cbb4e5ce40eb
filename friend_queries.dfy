/**
  Read-only views over friend relations: the friendship status shown next to
  each streamer, and the list of a user's accepted friends.
*/
module FriendQueries {
  import opened Common
  import opened Friends

  /** A user as the queries return it. */
  datatype User = User(id: string, username: string)

  /** The status label attached to a streamer for the current user. */
  datatype FriendshipStatus =
    | PendingSent
    | PendingReceived
    | BlockedByThem
    | AsStored(status: FriendStatus)  // any other status, passed through unchanged
    | NoRelation

  /**
    The classifier: a relation the current user sent wins over one they
    received; PENDING is labelled by direction; a received block is
    BLOCKED_BY_THEM; every other status is passed through.
  */
  function GetFriendshipStatus(sent: Option<FriendEntity>, received: Option<FriendEntity>): (r: FriendshipStatus)
    ensures r == PendingSent <==> sent.Some? && sent.value.status == PENDING
    ensures r == PendingReceived <==> sent.None? && received.Some? && received.value.status == PENDING
    ensures r == BlockedByThem <==> sent.None? && received.Some? && received.value.status == BLOCKED
    ensures r == NoRelation <==> sent.None? && received.None?
    ensures r.AsStored? ==> r.status != PENDING
    ensures r.AsStored? && sent.Some? ==> r.status == sent.value.status
    ensures r.AsStored? && sent.None? ==> received.Some? && r.status == received.value.status && r.status != BLOCKED
  {
    if sent.Some? then
      if sent.value.status == PENDING then PendingSent else AsStored(sent.value.status)
    else if received.Some? then
      if received.value.status == PENDING then PendingReceived
      else if received.value.status == BLOCKED then BlockedByThem
      else AsStored(received.value.status)
    else NoRelation
  }

  /** Array.prototype.findIndex: the first index whose row matches. */
  function FindFirst(rows: seq<FriendEntity>, matches: FriendEntity -> bool): (r: Option<nat>)
    ensures r.Some? ==> r.value < |rows| && matches(rows[r.value])
    ensures r.Some? ==> forall j :: 0 <= j < r.value ==> !matches(rows[j])
    ensures r.None? <==> forall j :: 0 <= j < |rows| ==> !matches(rows[j])
  {
    if |rows| == 0 then None
    else if matches(rows[0]) then Some(0)
    else match FindFirst(rows[1..], matches) {
      case None => assert forall j :: 1 <= j < |rows| ==> rows[j] == rows[1..][j - 1]; None
      case Some(k) => assert forall j :: 1 <= j <= k ==> rows[j] == rows[1..][j - 1]; Some(k + 1)
    }
  }

  /** Array.prototype.find: the first matching row. */
  function Find(rows: seq<FriendEntity>, matches: FriendEntity -> bool): Option<FriendEntity> {
    match FindFirst(rows, matches)
    case None => None
    case Some(i) => Some(rows[i])
  }

  function SentTo(streamerId: string): FriendEntity -> bool {
    (r: FriendEntity) => r.friendId == streamerId
  }

  function ReceivedFrom(streamerId: string): FriendEntity -> bool {
    (r: FriendEntity) => r.userId == streamerId
  }

  /** A streamer with the label computed for the current user. */
  datatype AnnotatedStreamer = AnnotatedStreamer(streamer: User, friendshipStatus: FriendshipStatus)

  function StatusFor(streamer: User, sent: seq<FriendEntity>, received: seq<FriendEntity>): FriendshipStatus {
    GetFriendshipStatus(Find(sent, SentTo(streamer.id)), Find(received, ReceivedFrom(streamer.id)))
  }

  /**
    GetStreamersUsecase.execute after its queries: `sent` are the relations
    the current user sent, `received` those they received.
  */
  function AnnotateStreamers(streamers: seq<User>, sent: seq<FriendEntity>, received: seq<FriendEntity>)
    : (r: seq<AnnotatedStreamer>)
    ensures |r| == |streamers|
    ensures forall i :: 0 <= i < |r| ==>
      r[i].streamer == streamers[i] && r[i].friendshipStatus == StatusFor(streamers[i], sent, received)
  {
    seq(|streamers|, i requires 0 <= i < |streamers| =>
      AnnotatedStreamer(streamers[i], StatusFor(streamers[i], sent, received)))
  }

  /** The first sent relation naming the streamer decides the label, whatever was received. */
  lemma SentRelationDecides(streamer: User, sent: seq<FriendEntity>, received: seq<FriendEntity>, k: nat)
    requires k < |sent| && sent[k].friendId == streamer.id
    requires forall j :: 0 <= j < k ==> sent[j].friendId != streamer.id
    ensures StatusFor(streamer, sent, received)
         == if sent[k].status == PENDING then PendingSent else AsStored(sent[k].status)
  {
    var first := FindFirst(sent, SentTo(streamer.id));
    assert SentTo(streamer.id)(sent[k]);
    assert first.Some?;
  }

  /** Without a sent relation, the first received relation from the streamer decides. */
  lemma ReceivedRelationDecides(streamer: User, sent: seq<FriendEntity>, received: seq<FriendEntity>, k: nat)
    requires forall j :: 0 <= j < |sent| ==> sent[j].friendId != streamer.id
    requires k < |received| && received[k].userId == streamer.id
    requires forall j :: 0 <= j < k ==> received[j].userId != streamer.id
    ensures StatusFor(streamer, sent, received)
         == if received[k].status == PENDING then PendingReceived
            else if received[k].status == BLOCKED then BlockedByThem
            else AsStored(received[k].status)
  {
    assert forall j :: 0 <= j < |sent| ==> !SentTo(streamer.id)(sent[j]);
    var first := FindFirst(received, ReceivedFrom(streamer.id));
    assert ReceivedFrom(streamer.id)(received[k]);
    assert first.Some?;
  }

  // ---------------------------------------------------------------------------
  // FriendRepository.getFriendsOfUser
  // ---------------------------------------------------------------------------

  /** One row of the relation table with both ends joined in. */
  datatype FriendRow = FriendRow(user: User, friend: User, status: FriendStatus)

  /** The `friend` side of the accepted relations `userId` sent, in table order. */
  function SentFriends(rows: seq<FriendRow>, userId: string): (r: seq<User>)
    ensures forall u :: u in r <==>
      exists i :: 0 <= i < |rows| && rows[i].user.id == userId && rows[i].status == ACCEPTED && rows[i].friend == u
  {
    if |rows| == 0 then []
    else
      var rest := SentFriends(rows[1..], userId);
      assert forall i :: 1 <= i < |rows| ==> rows[i] == rows[1..][i - 1];
      if rows[0].user.id == userId && rows[0].status == ACCEPTED then [rows[0].friend] + rest else rest
  }

  /** The `user` side of the accepted relations `userId` received, in table order. */
  function ReceivedFriends(rows: seq<FriendRow>, userId: string): (r: seq<User>)
    ensures forall u :: u in r <==>
      exists i :: 0 <= i < |rows| && rows[i].friend.id == userId && rows[i].status == ACCEPTED && rows[i].user == u
  {
    if |rows| == 0 then []
    else
      var rest := ReceivedFriends(rows[1..], userId);
      assert forall i :: 1 <= i < |rows| ==> rows[i] == rows[1..][i - 1];
      if rows[0].friend.id == userId && rows[0].status == ACCEPTED then [rows[0].user] + rest else rest
  }

  function Ids(us: seq<User>): (ids: seq<string>)
    ensures |ids| == |us|
    ensures forall i :: 0 <= i < |us| ==> ids[i] == us[i].id
  {
    seq(|us|, i requires 0 <= i < |us| => us[i].id)
  }

  ghost predicate UniqueIds(us: seq<User>) {
    forall i, j :: 0 <= i < j < |us| ==> us[i].id != us[j].id
  }

  /** The position of `u.id` among the entries of an insertion-ordered Map. */
  function IndexOfId(us: seq<User>, id: string): (r: Option<nat>)
    ensures r.Some? ==> r.value < |us| && us[r.value].id == id
    ensures r.None? <==> id !in Ids(us)
  {
    if |us| == 0 then None
    else if us[|us| - 1].id == id then Some(|us| - 1)
    else
      var r := IndexOfId(us[..|us| - 1], id);
      assert Ids(us) == Ids(us[..|us| - 1]) + [us[|us| - 1].id];
      r
  }

  /**
    Map.prototype.set on a Map of users keyed by id: an existing key keeps
    its position and takes the new value; a new key goes last.
  */
  function SetById(entries: seq<User>, u: User): (r: seq<User>)
    ensures u in r
    ensures forall v :: v in r ==> v in entries || v == u
    ensures UniqueIds(entries) ==> UniqueIds(r)
    ensures u.id in Ids(entries) ==> Ids(r) == Ids(entries)
    ensures u.id !in Ids(entries) ==> Ids(r) == Ids(entries) + [u.id]
  {
    match IndexOfId(entries, u.id)
    case Some(k) =>
      var r := entries[k := u];
      assert Ids(r) == Ids(entries);
      r
    case None =>
      var r := entries + [u];
      assert Ids(r) == Ids(entries) + [u.id];
      r
  }

  /**
    Array.from(new Map(users.map(u => [u.id, u])).values()): one user per id,
    ids in order of first occurrence, each carrying the last user seen with
    that id.
  */
  function UniqueById(us: seq<User>): (r: seq<User>)
    ensures UniqueIds(r)
    ensures forall x :: x in Ids(r) <==> x in Ids(us)
    ensures forall u :: u in r ==> u in us
  {
    if |us| == 0 then []
    else
      var prefix := us[..|us| - 1];
      var r := SetById(UniqueById(prefix), us[|us| - 1]);
      assert Ids(us) == Ids(prefix) + [us[|us| - 1].id];
      r
  }

  /** The index of the first occurrence of `x` in `xs`. */
  function FirstIndex(xs: seq<string>, x: string): (r: nat)
    requires x in xs
    ensures r < |xs| && xs[r] == x
    ensures forall j :: 0 <= j < r ==> xs[j] != x
  {
    if xs[0] == x then 0 else 1 + FirstIndex(xs[1..], x)
  }

  /** The last user in `us` with the given id. */
  function LastWithId(us: seq<User>, id: string): (u: User)
    requires id in Ids(us)
    ensures u in us && u.id == id
  {
    assert Ids(us) == Ids(us[..|us| - 1]) + [us[|us| - 1].id];
    if us[|us| - 1].id == id then us[|us| - 1] else LastWithId(us[..|us| - 1], id)
  }

  lemma {:induction false} FirstIndexOfPrefix(xs: seq<string>, y: string, x: string)
    requires x in xs
    ensures FirstIndex(xs + [y], x) == FirstIndex(xs, x)
  {
    if xs[0] != x {
      assert (xs + [y])[1..] == xs[1..] + [y];
      FirstIndexOfPrefix(xs[1..], y, x);
    }
  }

  lemma {:induction false} FirstIndexOfNew(xs: seq<string>, y: string)
    requires y !in xs
    ensures FirstIndex(xs + [y], y) == |xs|
  {
    if xs != [] {
      assert (xs + [y])[1..] == xs[1..] + [y];
      FirstIndexOfNew(xs[1..], y);
    }
  }

  /** Every id of `ds` occurs in `xs`, and `ds` lists them in the order of their first occurrence there. */
  ghost predicate InFirstOccurrenceOrder(ds: seq<string>, xs: seq<string>) {
    && (forall d :: d in ds ==> d in xs)
    && (forall i, j :: 0 <= i < j < |ds| ==> FirstIndex(xs, ds[i]) < FirstIndex(xs, ds[j]))
  }

  /** Appending to `xs` moves no first occurrence of an id already in it. */
  lemma FirstIndicesKept(xs: seq<string>, y: string)
    ensures forall d :: d in xs ==> FirstIndex(xs + [y], d) == FirstIndex(xs, d) < |xs|
  {
    forall d | d in xs
      ensures FirstIndex(xs + [y], d) == FirstIndex(xs, d) < |xs|
    {
      FirstIndexOfPrefix(xs, y, d);
    }
  }

  lemma OrderStep(ds: seq<string>, xs: seq<string>, y: string)
    requires InFirstOccurrenceOrder(ds, xs)
    requires y in ds <==> y in xs
    ensures InFirstOccurrenceOrder(if y in ds then ds else ds + [y], xs + [y])
  {
    FirstIndicesKept(xs, y);
    if y in ds {
      forall i, j | 0 <= i < j < |ds|
        ensures FirstIndex(xs + [y], ds[i]) < FirstIndex(xs + [y], ds[j])
      {
        assert ds[i] in xs && ds[j] in xs;
      }
    } else {
      FirstIndexOfNew(xs, y);
      var ds' := ds + [y];
      forall i, j | 0 <= i < j < |ds'|
        ensures FirstIndex(xs + [y], ds'[i]) < FirstIndex(xs + [y], ds'[j])
      {
        assert ds'[i] == ds[i] && ds[i] in xs;
        if j < |ds| {
          assert ds'[j] == ds[j] && ds[j] in xs;
        }
      }
    }
  }

  /** The dedupe keeps ids in the order of their first occurrence in the input. */
  lemma {:induction false} UniqueByIdKeepsFirstOccurrenceOrder(us: seq<User>)
    ensures InFirstOccurrenceOrder(Ids(UniqueById(us)), Ids(us))
  {
    if |us| > 0 {
      var prefix := us[..|us| - 1];
      var x := us[|us| - 1];
      UniqueByIdKeepsFirstOccurrenceOrder(prefix);
      assert Ids(us) == Ids(prefix) + [x.id];
      assert UniqueById(us) == SetById(UniqueById(prefix), x);
      OrderStep(Ids(UniqueById(prefix)), Ids(prefix), x.id);
    }
  }

  /** Every id of `r` occurs in `us`, and each user of `r` is the last one in `us` with its id. */
  ghost predicate CarriesLastValues(r: seq<User>, us: seq<User>) {
    && (forall d :: d in Ids(r) ==> d in Ids(us))
    && (forall j :: 0 <= j < |r| ==> r[j] == LastWithId(us, Ids(r)[j]))
  }

  lemma LastWithIdOfExtended(us: seq<User>, x: User, d: string)
    requires d in Ids(us) || d == x.id
    ensures d in Ids(us + [x])
    ensures LastWithId(us + [x], d) == if d == x.id then x else LastWithId(us, d)
  {
    assert (us + [x])[..|us|] == us;
    assert Ids(us + [x]) == Ids(us) + [x.id];
  }

  lemma ValueStep(acc: seq<User>, us: seq<User>, x: User)
    requires UniqueIds(acc)
    requires CarriesLastValues(acc, us)
    ensures CarriesLastValues(SetById(acc, x), us + [x])
  {
    var r := SetById(acc, x);
    forall d | d in Ids(r)
      ensures d in Ids(us + [x])
    {
      LastWithIdOfExtended(us, x, d);
    }
    forall j | 0 <= j < |r|
      ensures r[j] == LastWithId(us + [x], Ids(r)[j])
    {
      var d := Ids(r)[j];
      LastWithIdOfExtended(us, x, d);
      match IndexOfId(acc, x.id)
      case Some(k) =>
        assert r == acc[k := x];
        if j != k {
          assert Ids(acc)[j] == d != x.id;
        }
      case None =>
        assert r == acc + [x];
        if j < |acc| {
          assert Ids(acc)[j] == d != x.id;
        }
    }
  }

  /** Each kept user is the last one in the input with its id. */
  lemma {:induction false} UniqueByIdKeepsLastValue(us: seq<User>)
    ensures CarriesLastValues(UniqueById(us), us)
  {
    if |us| > 0 {
      var prefix := us[..|us| - 1];
      var x := us[|us| - 1];
      UniqueByIdKeepsLastValue(prefix);
      assert us == prefix + [x];
      ValueStep(UniqueById(prefix), prefix, x);
    }
  }

  /** Whether `u` is the other side of an accepted relation of `userId`. */
  ghost predicate AcceptedFriend(rows: seq<FriendRow>, userId: string, u: User) {
    exists i :: 0 <= i < |rows| && rows[i].status == ACCEPTED &&
      ((rows[i].user.id == userId && rows[i].friend == u) || (rows[i].friend.id == userId && rows[i].user == u))
  }

  /** getFriendsOfUser over the relation table. */
  function GetFriendsOfUser(rows: seq<FriendRow>, userId: string): (r: seq<User>)
    ensures UniqueIds(r)
    ensures forall u :: u in r ==> AcceptedFriend(rows, userId, u)
    ensures forall u :: AcceptedFriend(rows, userId, u) ==> u.id in Ids(r)
  {
    var sent := SentFriends(rows, userId);
    var received := ReceivedFriends(rows, userId);
    var r := UniqueById(sent + received);
    forall u | AcceptedFriend(rows, userId, u)
      ensures u.id in Ids(r)
    {
      assert u in sent + received;
      var k :| 0 <= k < |sent + received| && (sent + received)[k] == u;
      assert Ids(sent + received)[k] == u.id;
    }
    r
  }
}
