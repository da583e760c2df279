/**
 * The friendship store of friends/models.py.
 *
 * Two tables: FriendList rows (at most one per account, holding that account's
 * set of friends) and FriendRequest rows (a sender, a receiver and an
 * `is_active` flag). The value-level functions below (FriendAdded, FriendRemoved,
 * Unfriended, Accepted, Declined, Cancelled, RequestCreated) say what each model
 * method does to the two tables; the class `Store` holds the tables as fields and
 * its methods perform the same updates step by step, in the order the Python
 * methods do, and are proved against those functions.
 *
 * An exception raised by `FriendList.objects.get` ends an operation with
 * `Failed`; whatever the operation had already written before that point stays
 * written, because nothing in the source runs inside a transaction.
 */
module FriendModels {

  type AccountId = nat
  type RequestId = nat

  /** One FriendRequest row; the `timestamp` column is not modelled. */
  datatype FriendRequest = FriendRequest(sender: AccountId, receiver: AccountId, isActive: bool)

  /** `FriendList.objects.get(user=u)` raised `DoesNotExist`: `u` has no FriendList row. */
  datatype Error = FriendListDoesNotExist(user: AccountId)

  datatype Outcome = Done | Failed(error: Error)

  /**
   * Both tables as one value. A key missing from `lists` means that account has
   * no FriendList row; `requests` is keyed by the request's primary key.
   */
  datatype Db = Db(lists: map<AccountId, set<AccountId>>, requests: map<RequestId, FriendRequest>)

  /** The tables an operation leaves behind, and whether it raised. */
  datatype Step = Step(db: Db, outcome: Outcome)

  /** `friend` is in the friend set of `owner`'s own FriendList. */
  predicate HasFriend(db: Db, owner: AccountId, friend: AccountId)
    requires owner in db.lists
  {
    friend in db.lists[owner]
  }

  /**
   * Friendship is recorded on both sides wherever both sides have a FriendList:
   * the symmetry the two one-sided sets are meant to keep.
   */
  ghost predicate Symmetric(lists: map<AccountId, set<AccountId>>)
  {
    forall a, b :: a in lists && b in lists[a] && b in lists ==> a in lists[b]
  }

  /**
   * Friendship is recorded on both sides, reading a missing FriendList as an
   * empty set: a member of any set has a FriendList that lists the owner back.
   */
  ghost predicate FullSymmetric(lists: map<AccountId, set<AccountId>>)
  {
    forall a, b :: a in lists && b in lists[a] ==> b in lists && a in lists[b]
  }

  /** FriendList.add_friend: the owner's set gains `account`; a member already there changes nothing. */
  function FriendAdded(db: Db, owner: AccountId, account: AccountId): (r: Db)
    requires owner in db.lists
    ensures r.requests == db.requests && r.lists.Keys == db.lists.Keys
    ensures r.lists[owner] == db.lists[owner] + {account}
    ensures forall o :: o in db.lists && o != owner ==> r.lists[o] == db.lists[o]
    ensures account in db.lists[owner] ==> r == db
  {
    if account !in db.lists[owner] then
      db.(lists := db.lists[owner := db.lists[owner] + {account}])
    else
      db
  }

  /** FriendList.remove_friend: the owner's set loses `account`; removing a non-member is a no-op, not an error. */
  function FriendRemoved(db: Db, owner: AccountId, account: AccountId): (r: Db)
    requires owner in db.lists
    ensures r.requests == db.requests && r.lists.Keys == db.lists.Keys
    ensures r.lists[owner] == db.lists[owner] - {account}
    ensures forall o :: o in db.lists && o != owner ==> r.lists[o] == db.lists[o]
    ensures account !in db.lists[owner] ==> r == db
  {
    if account in db.lists[owner] then
      db.(lists := db.lists[owner := db.lists[owner] - {account}])
    else
      db
  }

  /**
   * FriendList.unfriend: `removed` leaves the initiator's set, then the
   * initiator leaves `removed`'s set. When `removed` has no FriendList the
   * lookup raises, after the first removal has already happened.
   */
  function Unfriended(db: Db, owner: AccountId, removed: AccountId): (r: Step)
    requires owner in db.lists
    ensures r.db.requests == db.requests && r.db.lists.Keys == db.lists.Keys
    ensures r.db.lists[owner] == db.lists[owner] - {removed}
    ensures r.outcome.Done? <==> removed in db.lists
    ensures r.outcome.Done? && removed != owner ==> r.db.lists[removed] == db.lists[removed] - {owner}
    ensures r.outcome.Done? ==> !HasFriend(r.db, owner, removed) && !HasFriend(r.db, removed, owner)
    ensures r.outcome.Failed? ==>
              r.outcome.error == FriendListDoesNotExist(removed) && r.db == FriendRemoved(db, owner, removed)
    ensures forall o :: o in db.lists && o != owner && o != removed ==> r.db.lists[o] == db.lists[o]
  {
    var afterFirst := FriendRemoved(db, owner, removed);
    if removed !in afterFirst.lists then
      Step(afterFirst, Failed(FriendListDoesNotExist(removed)))
    else
      Step(FriendRemoved(afterFirst, removed, owner), Done)
  }

  /**
   * FriendRequest.accept. The receiver's FriendList is fetched first (raising if
   * absent, with nothing written), the receiver's set gains the sender, then the
   * sender's FriendList is fetched (raising if absent, with the receiver's set
   * already changed and the request still active), the sender's set gains the
   * receiver and the request becomes inactive. `is_active` is not consulted.
   */
  function Accepted(db: Db, id: RequestId): (r: Step)
    requires id in db.requests
    ensures r.db.lists.Keys == db.lists.Keys && r.db.requests.Keys == db.requests.Keys
    ensures forall k :: k in db.requests && k != id ==> r.db.requests[k] == db.requests[k]
    ensures var req := db.requests[id];
            r.db.requests[id].sender == req.sender && r.db.requests[id].receiver == req.receiver
    ensures var req := db.requests[id];
            req.receiver !in db.lists ==> r == Step(db, Failed(FriendListDoesNotExist(req.receiver)))
    ensures var req := db.requests[id];
            req.receiver in db.lists && req.sender !in db.lists ==>
              && r.outcome == Failed(FriendListDoesNotExist(req.sender))
              && r.db.requests == db.requests
              && r.db.lists == db.lists[req.receiver := db.lists[req.receiver] + {req.sender}]
    ensures var req := db.requests[id];
            req.receiver in db.lists && req.sender in db.lists ==>
              && r.outcome == Done
              && !r.db.requests[id].isActive
              && r.db.lists == db.lists[req.receiver := db.lists[req.receiver] + {req.sender}]
                                       [req.sender := db.lists[req.sender] + {req.receiver}]
  {
    var req := db.requests[id];
    if req.receiver !in db.lists then
      Step(db, Failed(FriendListDoesNotExist(req.receiver)))
    else
      var withSender := FriendAdded(db, req.receiver, req.sender);
      if req.sender !in withSender.lists then
        Step(withSender, Failed(FriendListDoesNotExist(req.sender)))
      else
        var both := FriendAdded(withSender, req.sender, req.receiver);
        Step(both.(requests := both.requests[id := req.(isActive := false)]), Done)
  }

  /** FriendRequest.decline: the request becomes inactive; no friend set is touched. */
  function Declined(db: Db, id: RequestId): (r: Db)
    requires id in db.requests
    ensures r.lists == db.lists && r.requests.Keys == db.requests.Keys
    ensures !r.requests[id].isActive
    ensures r.requests[id].sender == db.requests[id].sender && r.requests[id].receiver == db.requests[id].receiver
    ensures forall k :: k in db.requests && k != id ==> r.requests[k] == db.requests[k]
  {
    db.(requests := db.requests[id := db.requests[id].(isActive := false)])
  }

  /** FriendRequest.cancel: the row is deleted (the flag it sets first is never saved). */
  function Cancelled(db: Db, id: RequestId): (r: Db)
    requires id in db.requests
    ensures r.lists == db.lists && r.requests.Keys == db.requests.Keys - {id}
    ensures forall k :: k in r.requests ==> r.requests[k] == db.requests[k]
  {
    db.(requests := db.requests - {id})
  }

  /** `FriendRequest.objects.create(sender=…, receiver=…)`: a new row under a fresh key, active by default. */
  function RequestCreated(db: Db, id: RequestId, sender: AccountId, receiver: AccountId): (r: Db)
    requires id !in db.requests
    ensures r.lists == db.lists && r.requests.Keys == db.requests.Keys + {id}
    ensures r.requests[id].isActive
    ensures r.requests[id].sender == sender && r.requests[id].receiver == receiver
    ensures forall k :: k in db.requests ==> r.requests[k] == db.requests[k]
  {
    db.(requests := db.requests[id := FriendRequest(sender, receiver, true)])
  }

  /**
   * The database: FriendList rows as `lists`, FriendRequest rows as `requests`,
   * and the next primary key the requests table will hand out.
   */
  class Store {
    var lists: map<AccountId, set<AccountId>>
    var requests: map<RequestId, FriendRequest>
    var nextId: RequestId

    /** Every existing request's key lies below the next key to be handed out. */
    ghost predicate Valid()
      reads this
    {
      forall id :: id in requests ==> id < nextId
    }

    /** The two tables as a value. */
    function State(): Db
      reads this
    {
      Db(lists, requests)
    }

    /** A database holding the given FriendList rows and no request yet. */
    constructor (initialLists: map<AccountId, set<AccountId>>)
      ensures Valid()
      ensures lists == initialLists && requests == map[]
    {
      lists := initialLists;
      requests := map[];
      nextId := 0;
    }

    /** FriendList.add_friend, called on `owner`'s FriendList. */
    method AddFriend(owner: AccountId, account: AccountId)
      requires Valid() && owner in lists
      modifies this`lists
      ensures Valid()
      ensures State() == FriendAdded(old(State()), owner, account)
    {
      if account !in lists[owner] {
        lists := lists[owner := lists[owner] + {account}];
      }
    }

    /** FriendList.remove_friend, called on `owner`'s FriendList. */
    method RemoveFriend(owner: AccountId, account: AccountId)
      requires Valid() && owner in lists
      modifies this`lists
      ensures Valid()
      ensures State() == FriendRemoved(old(State()), owner, account)
    {
      if account in lists[owner] {
        lists := lists[owner := lists[owner] - {account}];
      }
    }

    /** FriendList.unfriend, called on `owner`'s FriendList. */
    method Unfriend(owner: AccountId, removed: AccountId) returns (outcome: Outcome)
      requires Valid() && owner in lists
      modifies this`lists
      ensures Valid()
      ensures Step(State(), outcome) == Unfriended(old(State()), owner, removed)
    {
      RemoveFriend(owner, removed);
      if removed !in lists {
        return Failed(FriendListDoesNotExist(removed));
      }
      RemoveFriend(removed, owner);
      outcome := Done;
    }

    /** FriendList.is_mutual_friend: answers from `owner`'s own set only. */
    method IsMutualFriend(owner: AccountId, friend: AccountId) returns (mutual: bool)
      requires owner in lists
      ensures mutual == HasFriend(State(), owner, friend)
    {
      if friend in lists[owner] {
        return true;
      }
      return false;
    }

    /** FriendRequest.accept on the request stored under `id`. */
    method Accept(id: RequestId) returns (outcome: Outcome)
      requires Valid() && id in requests
      modifies this`lists, this`requests
      ensures Valid()
      ensures Step(State(), outcome) == Accepted(old(State()), id)
    {
      var request := requests[id];
      if request.receiver !in lists {
        return Failed(FriendListDoesNotExist(request.receiver));
      }
      AddFriend(request.receiver, request.sender);
      if request.sender !in lists {
        return Failed(FriendListDoesNotExist(request.sender));
      }
      AddFriend(request.sender, request.receiver);
      requests := requests[id := request.(isActive := false)];
      outcome := Done;
    }

    /** FriendRequest.decline on the request stored under `id`. */
    method Decline(id: RequestId)
      requires Valid() && id in requests
      modifies this`requests
      ensures Valid()
      ensures State() == Declined(old(State()), id)
    {
      requests := requests[id := requests[id].(isActive := false)];
    }

    /** FriendRequest.cancel on the request stored under `id`. */
    method Cancel(id: RequestId)
      requires Valid() && id in requests
      modifies this`requests
      ensures Valid()
      ensures State() == Cancelled(old(State()), id)
    {
      requests := requests - {id};
    }

    /** Creates a request row from `sender` to `receiver`, with no check on either. */
    method CreateRequest(sender: AccountId, receiver: AccountId) returns (id: RequestId)
      requires Valid()
      modifies this`requests, this`nextId
      ensures Valid() && id !in old(requests)
      ensures State() == RequestCreated(old(State()), id, sender, receiver)
    {
      id := nextId;
      requests := requests[id := FriendRequest(sender, receiver, true)];
      nextId := nextId + 1;
    }
  }

  /** add_friend twice with the same account is add_friend once. */
  lemma AddFriendIdempotent(db: Db, owner: AccountId, account: AccountId)
    requires owner in db.lists
    ensures FriendAdded(FriendAdded(db, owner, account), owner, account) == FriendAdded(db, owner, account)
  {
  }

  /** remove_friend twice with the same account is remove_friend once. */
  lemma RemoveFriendIdempotent(db: Db, owner: AccountId, account: AccountId)
    requires owner in db.lists
    ensures FriendRemoved(FriendRemoved(db, owner, account), owner, account) == FriendRemoved(db, owner, account)
  {
  }

  /**
   * add_friend on its own is one-sided: it can break the symmetry of two
   * existing FriendLists, since it never touches the added account's list.
   */
  lemma AddFriendAloneIsOneSided()
    ensures var db := Db(map[1 := {}, 2 := {}], map[]);
            Symmetric(db.lists) && !Symmetric(FriendAdded(db, 1, 2).lists)
  {
    var db := Db(map[1 := {}, 2 := {}], map[]);
    var after := FriendAdded(db, 1, 2);
    assert 2 in after.lists[1] && 1 !in after.lists[2];
  }

  /**
   * is_mutual_friend reads only the owner's set: it can answer true while the
   * friend's own FriendList does not hold the owner.
   */
  lemma IsMutualFriendIsOneSided()
    ensures var db := Db(map[1 := {2}, 2 := {}], map[]);
            HasFriend(db, 1, 2) && !HasFriend(db, 2, 1)
  {
  }

  /** A successful accept leaves each party in the other's friend set. */
  lemma AcceptMakesFriends(db: Db, id: RequestId)
    requires id in db.requests
    requires Accepted(db, id).outcome.Done?
    ensures var req := db.requests[id];
            && req.sender in db.lists && req.receiver in db.lists
            && HasFriend(Accepted(db, id).db, req.receiver, req.sender)
            && HasFriend(Accepted(db, id).db, req.sender, req.receiver)
  {
  }

  /**
   * A second accept of an already accepted request changes nothing more: both
   * sets already hold the other party and the request is already inactive.
   */
  lemma AcceptAgainChangesNothing(db: Db, id: RequestId)
    requires id in db.requests
    requires Accepted(db, id).outcome.Done?
    ensures Accepted(Accepted(db, id).db, id) == Accepted(db, id)
  {
  }

  /**
   * accept never looks at `is_active`: an inactive request is accepted exactly
   * like an active one, with the same friend sets and the same outcome.
   */
  lemma AcceptIgnoresIsActive(db: Db, id: RequestId, active: bool)
    requires id in db.requests
    ensures var flipped := db.(requests := db.requests[id := db.requests[id].(isActive := active)]);
            && Accepted(flipped, id).outcome == Accepted(db, id).outcome
            && Accepted(flipped, id).db.lists == Accepted(db, id).db.lists
  {
  }

  /** decline twice is decline once, whatever the flag was before. */
  lemma DeclineIdempotent(db: Db, id: RequestId)
    requires id in db.requests
    ensures Declined(Declined(db, id), id) == Declined(db, id)
  {
  }

  /**
   * No self-request check exists, so accepting a request an account sent to
   * itself puts that account in its own friend set.
   */
  lemma SelfRequestAcceptedMakesSelfFriend(db: Db, id: RequestId, a: AccountId)
    requires id in db.requests && db.requests[id].sender == a && db.requests[id].receiver == a
    requires a in db.lists
    ensures Accepted(db, id).outcome.Done? && HasFriend(Accepted(db, id).db, a, a)
  {
  }

  /**
   * accept keeps friendship symmetric wherever both sides have a FriendList,
   * on success and also when it stops half-way because the sender has none.
   */
  lemma AcceptPreservesSymmetry(db: Db, id: RequestId)
    requires id in db.requests
    requires Symmetric(db.lists)
    ensures Symmetric(Accepted(db, id).db.lists)
  {
  }

  /**
   * unfriend keeps the two-sided symmetry of friendship, on success and also
   * when it stops half-way because the removed account has no FriendList.
   */
  lemma UnfriendPreservesSymmetry(db: Db, owner: AccountId, removed: AccountId)
    requires owner in db.lists
    requires Symmetric(db.lists)
    ensures Symmetric(Unfriended(db, owner, removed).db.lists)
  {
  }

  /** One model operation, as the friend views invoke them. */
  datatype Operation =
    | CreateOp(id: RequestId, sender: AccountId, receiver: AccountId)
    | AcceptOp(id: RequestId)
    | DeclineOp(id: RequestId)
    | CancelOp(id: RequestId)
    | UnfriendOp(owner: AccountId, removed: AccountId)

  /**
   * Runs one operation. One whose row is missing (or, for a creation, whose key
   * is taken) never reaches the model, so the tables stay as they are; a failed
   * accept or unfriend keeps whatever it had written.
   */
  function Apply(db: Db, op: Operation): Db
  {
    match op
    case CreateOp(id, sender, receiver) => if id in db.requests then db else RequestCreated(db, id, sender, receiver)
    case AcceptOp(id) => if id in db.requests then Accepted(db, id).db else db
    case DeclineOp(id) => if id in db.requests then Declined(db, id) else db
    case CancelOp(id) => if id in db.requests then Cancelled(db, id) else db
    case UnfriendOp(owner, removed) => if owner in db.lists then Unfriended(db, owner, removed).db else db
  }

  /** Runs a sequence of operations in order. */
  function Run(db: Db, ops: seq<Operation>): Db
    decreases |ops|
  {
    if ops == [] then db else Run(Apply(db, ops[0]), ops[1..])
  }

  /** Every single operation keeps symmetric friend lists symmetric and keeps the set of FriendList owners. */
  lemma ApplyPreservesSymmetry(db: Db, op: Operation)
    requires Symmetric(db.lists)
    ensures Symmetric(Apply(db, op).lists) && Apply(db, op).lists.Keys == db.lists.Keys
  {
    match op
    case AcceptOp(id) =>
      if id in db.requests { AcceptPreservesSymmetry(db, id); }
    case UnfriendOp(owner, removed) =>
      if owner in db.lists { UnfriendPreservesSymmetry(db, owner, removed); }
    case _ =>
  }

  /**
   * Starting from symmetric friend lists, no sequence of request creations,
   * accepts, declines, cancels and unfriends (failed ones included) ever makes
   * one account list another that does not list it back, as long as both have
   * a FriendList. The owners of FriendLists never change.
   */
  lemma {:induction false} RunPreservesSymmetry(db: Db, ops: seq<Operation>)
    requires Symmetric(db.lists)
    ensures Symmetric(Run(db, ops).lists) && Run(db, ops).lists.Keys == db.lists.Keys
    decreases |ops|
  {
    if ops != [] {
      ApplyPreservesSymmetry(db, ops[0]);
      RunPreservesSymmetry(Apply(db, ops[0]), ops[1..]);
    }
  }

  /**
   * The half-way accept leaves a one-sided friendship: the receiver lists a
   * sender that has no FriendList at all, so the lists stay symmetric only in
   * the sense that ignores accounts without one.
   */
  lemma HalfAcceptIsOneSided()
    ensures var db := Db(map[1 := {}], map[0 := FriendRequest(2, 1, true)]);
            var after := Accepted(db, 0).db.lists;
            && FullSymmetric(db.lists)
            && Accepted(db, 0).outcome == Failed(FriendListDoesNotExist(2))
            && Symmetric(after) && !FullSymmetric(after)
  {
    var db := Db(map[1 := {}], map[0 := FriendRequest(2, 1, true)]);
    assert 2 in Accepted(db, 0).db.lists[1];
  }
}
