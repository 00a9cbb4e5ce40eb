/**
  The friend-relation store and the three use cases that change it:
  sending a request, accepting it, and the block/unblock toggle.

  The store holds directed relations keyed by (user, friend): `user` is the
  side that sent the request or applied the block.  Every write in the use
  cases below goes to a pair that was looked up first, so the store keeps at
  most one row per directed pair; the model makes that the key of a map.
*/
module Friends {
  import opened Common

  /** The status enum of a relation, with the same four members as the source. */
  datatype FriendStatus = PENDING | ACCEPTED | REJECTED | BLOCKED

  /** A directed pair of user ids. */
  datatype Edge = Edge(user: string, friend: string) {
    function Reversed(): Edge { Edge(friend, user) }
  }

  /** The stored columns of one relation besides its two ends. */
  datatype Relation = Relation(status: FriendStatus, previousStatus: Option<FriendStatus>)

  /** The entity the repository hands back to the use cases. */
  datatype FriendEntity = FriendEntity(
    userId: string,
    friendId: string,
    status: FriendStatus,
    previousStatus: Option<FriendStatus>)

  type Store = map<Edge, Relation>

  function EntityOf(e: Edge, r: Relation): FriendEntity {
    FriendEntity(e.user, e.friend, r.status, r.previousStatus)
  }

  /** The `previousStatus` part of a partial update: left alone, or overwritten. */
  datatype PreviousPatch = KeepPrevious | SetPrevious(previous: Option<FriendStatus>)

  /** A partial update by id: the status is always written, `previousStatus` only when given. */
  function Patched(r: Relation, status: FriendStatus, prev: PreviousPatch): (p: Relation)
    ensures p.status == status
    ensures prev.KeepPrevious? ==> p.previousStatus == r.previousStatus
    ensures prev.SetPrevious? ==> p.previousStatus == prev.previous
  {
    Relation(status, if prev.SetPrevious? then prev.previous else r.previousStatus)
  }

  /** An update of a row that is not there changes nothing. */
  function Updated(s: Store, e: Edge, status: FriendStatus, prev: PreviousPatch): Store {
    if e in s then s[e := Patched(s[e], status, prev)] else s
  }

  /** No two distinct users are related in both directions. */
  ghost predicate AtMostOnePerPair(s: Store) {
    forall e :: e in s && e.user != e.friend ==> e.Reversed() !in s
  }

  const AlreadyExists := "Friend request already exists"
  const ReverseExists := "A friend request from the other user already exists"
  const NoPendingRequest := "No pending friend request found"

  // ---------------------------------------------------------------------------
  // Specifications of the three use cases, as functions of the store.
  // ---------------------------------------------------------------------------

  /** Sending a request: refused when either direction already holds a relation. */
  function SendRequest(s: Store, requester: string, accepter: string): (r: Result<Store, string>)
    ensures r.Failure? <==> Edge(requester, accepter) in s || Edge(accepter, requester) in s
    ensures Edge(requester, accepter) in s ==> r == Failure(AlreadyExists)
    ensures Edge(requester, accepter) !in s && Edge(accepter, requester) in s ==> r == Failure(ReverseExists)
    ensures r.Success? ==>
      && r.value.Keys == s.Keys + {Edge(requester, accepter)}
      && r.value[Edge(requester, accepter)] == Relation(PENDING, None)
      && forall e :: e in s ==> r.value[e] == s[e]
  {
    var e := Edge(requester, accepter);
    if e in s then Failure(AlreadyExists)
    else if e.Reversed() in s then Failure(ReverseExists)
    else Success(s[e := Relation(PENDING, None)])
  }

  /** Accepting: only a PENDING requester-to-accepter relation, and only its status, changes. */
  function AcceptRequest(s: Store, requester: string, accepter: string): (r: Result<Store, string>)
    ensures r.Success? <==> Edge(requester, accepter) in s && s[Edge(requester, accepter)].status == PENDING
    ensures r.Failure? ==> r.error == NoPendingRequest
    ensures r.Success? ==>
      && r.value.Keys == s.Keys
      && r.value[Edge(requester, accepter)] == Relation(ACCEPTED, s[Edge(requester, accepter)].previousStatus)
      && forall e :: e in s && e != Edge(requester, accepter) ==> r.value[e] == s[e]
  {
    var e := Edge(requester, accepter);
    if e !in s || s[e].status != PENDING then Failure(NoPendingRequest)
    else Success(Updated(s, e, ACCEPTED, KeepPrevious))
  }

  /** The store after a block toggle, and the relation the use case returns. */
  datatype Toggled = Toggled(store: Store, returned: Option<FriendEntity>)

  /** True when the toggle applies a block (rather than lifting one). */
  predicate Blocks(s: Store, blocker: string, blocked: string) {
    Edge(blocker, blocked) !in s || s[Edge(blocker, blocked)].status != BLOCKED
  }

  /**
    The block/unblock toggle.  Both lookups happen before any write, so the
    reverse relation is the one present at the start.
  */
  function BlockToggle(s: Store, blocker: string, blocked: string): (r: Toggled)
    // no relation yet: a fresh BLOCKED one without a previous status
    ensures Edge(blocker, blocked) !in s ==>
      && Edge(blocker, blocked) in r.store
      && r.store[Edge(blocker, blocked)] == Relation(BLOCKED, None)
      && r.returned == Some(FriendEntity(blocker, blocked, BLOCKED, None))
    // an unblocked relation becomes BLOCKED and remembers its status
    ensures Edge(blocker, blocked) in s && s[Edge(blocker, blocked)].status != BLOCKED && blocker != blocked ==>
      && Edge(blocker, blocked) in r.store
      && r.store[Edge(blocker, blocked)] == Relation(BLOCKED, Some(s[Edge(blocker, blocked)].status))
      && r.returned == Some(EntityOf(Edge(blocker, blocked), r.store[Edge(blocker, blocked)]))
    // applying a block rejects the reverse relation, keeping its previous status
    ensures Blocks(s, blocker, blocked) && Edge(blocked, blocker) in s && blocker != blocked ==>
      && Edge(blocked, blocker) in r.store
      && r.store[Edge(blocked, blocker)] == Relation(REJECTED, s[Edge(blocked, blocker)].previousStatus)
    // a block with a remembered status is lifted back to that status
    ensures Edge(blocker, blocked) in s && s[Edge(blocker, blocked)].status == BLOCKED
            && s[Edge(blocker, blocked)].previousStatus.Some? ==>
      && Edge(blocker, blocked) in r.store
      && r.store[Edge(blocker, blocked)] == Relation(s[Edge(blocker, blocked)].previousStatus.value, None)
      && r.returned == Some(EntityOf(Edge(blocker, blocked), r.store[Edge(blocker, blocked)]))
    // a block without one is deleted, and nothing is returned
    ensures Edge(blocker, blocked) in s && s[Edge(blocker, blocked)].status == BLOCKED
            && s[Edge(blocker, blocked)].previousStatus.None? ==>
      Edge(blocker, blocked) !in r.store && r.returned.None?
    // lifting a block touches the forward relation only
    ensures !Blocks(s, blocker, blocked) ==>
      forall e :: e != Edge(blocker, blocked) ==> (e in r.store <==> e in s) && (e in s ==> r.store[e] == s[e])
    // applying one touches the two relations of the pair only
    ensures Blocks(s, blocker, blocked) ==>
      && r.store.Keys == s.Keys + {Edge(blocker, blocked)}
      && forall e :: e in s && e != Edge(blocker, blocked) && e != Edge(blocked, blocker) ==> r.store[e] == s[e]
  {
    var fwd := Edge(blocker, blocked);
    var rev := Edge(blocked, blocker);
    if fwd in s then
      if s[fwd].status == BLOCKED then
        if s[fwd].previousStatus.Some? then
          var s1 := Updated(s, fwd, s[fwd].previousStatus.value, SetPrevious(None));
          Toggled(s1, Some(EntityOf(fwd, s1[fwd])))
        else
          Toggled(s - {fwd}, None)
      else
        var s1 := Updated(s, fwd, BLOCKED, SetPrevious(Some(s[fwd].status)));
        var s2 := if rev in s then Updated(s1, rev, REJECTED, KeepPrevious) else s1;
        Toggled(s2, Some(EntityOf(fwd, s2[fwd])))
    else
      var s1 := s[fwd := Relation(BLOCKED, None)];
      var s2 := if rev in s then Updated(s1, rev, REJECTED, KeepPrevious) else s1;
      Toggled(s2, Some(EntityOf(fwd, Relation(BLOCKED, None))))
  }

  // ---------------------------------------------------------------------------
  // Properties of the specifications.
  // ---------------------------------------------------------------------------

  /** A successful send keeps the store free of two-way relations between distinct users. */
  lemma SendKeepsOnePerPair(s: Store, requester: string, accepter: string)
    requires AtMostOnePerPair(s)
    requires SendRequest(s, requester, accepter).Success?
    ensures AtMostOnePerPair(SendRequest(s, requester, accepter).value)
  {
    var t := SendRequest(s, requester, accepter).value;
    forall e | e in t && e.user != e.friend
      ensures e.Reversed() !in t
    {
      if e == Edge(requester, accepter) {
        assert e.Reversed() == Edge(accepter, requester);
      } else {
        assert e in s;
        assert e.Reversed() != Edge(requester, accepter);
      }
    }
  }

  /** Accepting the same pair twice fails the second time: the relation is no longer PENDING. */
  lemma AcceptTwiceFails(s: Store, requester: string, accepter: string)
    requires AcceptRequest(s, requester, accepter).Success?
    ensures AcceptRequest(AcceptRequest(s, requester, accepter).value, requester, accepter)
            == Failure(NoPendingRequest)
  {
  }

  /** Accepting never accepts a PENDING relation of the opposite direction. */
  lemma AcceptLeavesReverse(s: Store, requester: string, accepter: string)
    requires requester != accepter
    requires AcceptRequest(s, requester, accepter).Success?
    requires Edge(accepter, requester) in s
    ensures AcceptRequest(s, requester, accepter).value[Edge(accepter, requester)] == s[Edge(accepter, requester)]
  {
  }

  /**
    Blocking and then toggling again restores the forward relation's status
    (with its previous status cleared), or removes the relation when there
    was none before.
  */
  lemma BlockRoundTrip(s: Store, blocker: string, blocked: string)
    requires blocker != blocked
    requires Blocks(s, blocker, blocked)
    ensures var t := BlockToggle(BlockToggle(s, blocker, blocked).store, blocker, blocked);
      && (Edge(blocker, blocked) in s ==>
            Edge(blocker, blocked) in t.store
            && t.store[Edge(blocker, blocked)] == Relation(s[Edge(blocker, blocked)].status, None)
            && t.returned == Some(FriendEntity(blocker, blocked, s[Edge(blocker, blocked)].status, None)))
      && (Edge(blocker, blocked) !in s ==> Edge(blocker, blocked) !in t.store && t.returned.None?)
  {
    var once := BlockToggle(s, blocker, blocked).store;
    assert Edge(blocker, blocked) in once && once[Edge(blocker, blocked)].status == BLOCKED;
  }

  /**
    A user blocking themself does not round-trip: both lookups find the same
    row, so the reverse-relation update overwrites the fresh BLOCKED status
    with REJECTED, and the second toggle blocks again.
  */
  lemma SelfBlockDoesNotRoundTrip()
    ensures var s := map[Edge("u", "u") := Relation(ACCEPTED, None)];
      && BlockToggle(s, "u", "u").store[Edge("u", "u")] == Relation(REJECTED, Some(ACCEPTED))
      && BlockToggle(BlockToggle(s, "u", "u").store, "u", "u").store[Edge("u", "u")] == Relation(REJECTED, Some(REJECTED))
  {
  }

  // ---------------------------------------------------------------------------
  // The repository and the use cases, step by step.
  // ---------------------------------------------------------------------------

  /** The persisted relation table, one row per directed pair. */
  class FriendRepository {
    var relations: Store

    constructor(initial: Store)
      ensures relations == initial
    {
      relations := initial;
    }

    method FindFriendByUserAndFriend(userId: string, friendId: string) returns (found: Option<FriendEntity>)
      ensures found.None? <==> Edge(userId, friendId) !in relations
      ensures found.Some? ==> found.value == EntityOf(Edge(userId, friendId), relations[Edge(userId, friendId)])
    {
      var e := Edge(userId, friendId);
      if e in relations {
        found := Some(EntityOf(e, relations[e]));
      } else {
        found := None;
      }
    }

    /** Inserts a new row; the use cases only create a pair they found absent. */
    method CreateFriend(entity: FriendEntity) returns (saved: FriendEntity)
      requires Edge(entity.userId, entity.friendId) !in relations
      modifies this
      ensures relations == old(relations)[Edge(entity.userId, entity.friendId) := Relation(entity.status, entity.previousStatus)]
      ensures saved == entity
    {
      relations := relations[Edge(entity.userId, entity.friendId) := Relation(entity.status, entity.previousStatus)];
      saved := entity;
    }

    method UpdateFriend(e: Edge, status: FriendStatus, prev: PreviousPatch)
      modifies this
      ensures relations == Updated(old(relations), e, status, prev)
    {
      if e in relations {
        relations := relations[e := Patched(relations[e], status, prev)];
      }
    }

    method DeleteFriend(e: Edge)
      modifies this
      ensures relations == old(relations) - {e}
    {
      relations := relations - {e};
    }
  }

  /** SendFriendRequestUsecase.execute: two guard lookups, then one insert. */
  method SendFriendRequest(repo: FriendRepository, requester: string, accepter: string)
    returns (r: Result<FriendEntity, string>)
    modifies repo
    ensures var spec := SendRequest(old(repo.relations), requester, accepter);
      && (spec.Failure? ==> r == Failure(spec.error) && repo.relations == old(repo.relations))
      && (spec.Success? ==> r == Success(FriendEntity(requester, accepter, PENDING, None))
                            && repo.relations == spec.value)
  {
    var existing := repo.FindFriendByUserAndFriend(requester, accepter);
    if existing.Some? {
      return Failure(AlreadyExists);
    }
    var reverse := repo.FindFriendByUserAndFriend(accepter, requester);
    if reverse.Some? {
      return Failure(ReverseExists);
    }
    var created := repo.CreateFriend(FriendEntity(requester, accepter, PENDING, None));
    r := Success(created);
  }

  /** AcceptFriendRequestUsecase.execute: one guard lookup, then a status update. */
  method AcceptFriendRequest(repo: FriendRepository, requester: string, accepter: string)
    returns (r: Result<(), string>)
    modifies repo
    ensures var spec := AcceptRequest(old(repo.relations), requester, accepter);
      && (spec.Failure? ==> r == Failure(spec.error) && repo.relations == old(repo.relations))
      && (spec.Success? ==> r == Success(()) && repo.relations == spec.value)
  {
    var pending := repo.FindFriendByUserAndFriend(requester, accepter);
    if pending.None? || pending.value.status != PENDING {
      return Failure(NoPendingRequest);
    }
    repo.UpdateFriend(Edge(requester, accepter), ACCEPTED, KeepPrevious);
    r := Success(());
  }

  /** BlockFriendUsecase.execute: both lookups first, then the writes of one branch. */
  method BlockFriend(repo: FriendRepository, blockerId: string, blockedId: string)
    returns (r: Option<FriendEntity>)
    modifies repo
    ensures repo.relations == BlockToggle(old(repo.relations), blockerId, blockedId).store
    ensures r == BlockToggle(old(repo.relations), blockerId, blockedId).returned
  {
    var fwd := Edge(blockerId, blockedId);
    var rev := Edge(blockedId, blockerId);
    var existing := repo.FindFriendByUserAndFriend(blockerId, blockedId);
    var reverse := repo.FindFriendByUserAndFriend(blockedId, blockerId);
    if existing.Some? {
      if existing.value.status == BLOCKED {
        if existing.value.previousStatus.Some? {
          repo.UpdateFriend(fwd, existing.value.previousStatus.value, SetPrevious(None));
          r := repo.FindFriendByUserAndFriend(blockerId, blockedId);
        } else {
          repo.DeleteFriend(fwd);
          r := None;
        }
      } else {
        repo.UpdateFriend(fwd, BLOCKED, SetPrevious(Some(existing.value.status)));
        if reverse.Some? {
          repo.UpdateFriend(rev, REJECTED, KeepPrevious);
        }
        r := repo.FindFriendByUserAndFriend(blockerId, blockedId);
      }
    } else {
      var created := repo.CreateFriend(FriendEntity(blockerId, blockedId, BLOCKED, None));
      if reverse.Some? {
        repo.UpdateFriend(rev, REJECTED, KeepPrevious);
      }
      r := Some(created);
    }
  }
}
