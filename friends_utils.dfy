/**
 * friends/utils.py: the active-request lookup for an ordered (sender, receiver)
 * pair, and how its answer moves under the store's operations.
 *
 * The lookup is `FriendRequest.objects.get(sender=…, receiver=…, is_active=True)`
 * inside a try that catches only `DoesNotExist`: no matching row gives `False`,
 * exactly one gives that row, and more than one raises
 * `MultipleObjectsReturned`, which nothing catches.
 */
module FriendUtils {
  import opened FriendModels

  /** The answer of get_friend_request_or_false. */
  datatype Lookup =
    | Found(id: RequestId, request: FriendRequest)   // the one matching row
    | NoRequest                                      // `False`
    | MultipleObjectsReturned                        // the uncaught exception

  /** The row is an active request from `sender` to `receiver`, in that direction. */
  predicate IsActiveBetween(request: FriendRequest, sender: AccountId, receiver: AccountId)
  {
    request.sender == sender && request.receiver == receiver && request.isActive
  }

  /** The keys of the rows the query filter selects. */
  function ActiveMatches(requests: map<RequestId, FriendRequest>, sender: AccountId, receiver: AccountId): set<RequestId>
  {
    set id | id in requests && IsActiveBetween(requests[id], sender, receiver)
  }

  /** A set with one element holds nothing else. */
  lemma SingletonHasOneMember(s: set<RequestId>, x: RequestId)
    requires |s| == 1 && x in s
    ensures s == {x}
  {
    var rest := s - {x};
    assert |rest| == 0;
  }

  /** get_friend_request_or_false(sender, receiver), over the FriendRequest table. */
  function GetFriendRequestOrFalse(requests: map<RequestId, FriendRequest>, sender: AccountId, receiver: AccountId): (r: Lookup)
    ensures r.Found? ==>
              && r.id in requests && requests[r.id] == r.request
              && IsActiveBetween(r.request, sender, receiver)
              && forall k :: k in requests && k != r.id ==> !IsActiveBetween(requests[k], sender, receiver)
    ensures r.NoRequest? <==> forall k :: k in requests ==> !IsActiveBetween(requests[k], sender, receiver)
    ensures r.MultipleObjectsReturned? <==>
              exists a, b :: a in requests && b in requests && a != b &&
                IsActiveBetween(requests[a], sender, receiver) && IsActiveBetween(requests[b], sender, receiver)
  {
    var matches := ActiveMatches(requests, sender, receiver);
    assert forall k :: k in requests && IsActiveBetween(requests[k], sender, receiver) ==> k in matches;
    if |matches| == 0 then
      NoRequest
    else if |matches| == 1 then
      var id :| id in matches;
      SingletonHasOneMember(matches, id);
      Found(id, requests[id])
    else
      var a :| a in matches;
      assert |matches - {a}| == |matches| - 1;
      var b :| b in matches - {a};
      MultipleObjectsReturned
  }

  /**
   * A request just created from `sender` to `receiver` is what the lookup then
   * returns, provided no active request for that ordered pair existed before.
   */
  lemma CreatedRequestIsFound(db: Db, id: RequestId, sender: AccountId, receiver: AccountId)
    requires id !in db.requests
    requires GetFriendRequestOrFalse(db.requests, sender, receiver).NoRequest?
    ensures GetFriendRequestOrFalse(RequestCreated(db, id, sender, receiver).requests, sender, receiver)
            == Found(id, FriendRequest(sender, receiver, true))
  {
    var after := RequestCreated(db, id, sender, receiver).requests;
    assert ActiveMatches(after, sender, receiver) == {id};
  }

  /**
   * Creating a second request for an ordered pair that already has an active
   * one is not refused, and from then on the lookup raises
   * MultipleObjectsReturned for that pair.
   */
  lemma DuplicateRequestBreaksLookup(db: Db, id: RequestId, sender: AccountId, receiver: AccountId)
    requires id !in db.requests
    requires GetFriendRequestOrFalse(db.requests, sender, receiver).Found?
    ensures GetFriendRequestOrFalse(RequestCreated(db, id, sender, receiver).requests, sender, receiver)
            == MultipleObjectsReturned
  {
    var first := GetFriendRequestOrFalse(db.requests, sender, receiver).id;
    var after := RequestCreated(db, id, sender, receiver).requests;
    assert IsActiveBetween(after[first], sender, receiver) && IsActiveBetween(after[id], sender, receiver);
  }

  /**
   * Direction matters: adding a request from `receiver` to `sender`, active or
   * not, to any table leaves the answer for the query (sender, receiver) as it was.
   */
  lemma ReverseRequestNotReturned(requests: map<RequestId, FriendRequest>, k: RequestId,
                                  sender: AccountId, receiver: AccountId, active: bool)
    requires sender != receiver && k !in requests
    ensures GetFriendRequestOrFalse(requests[k := FriendRequest(receiver, sender, active)], sender, receiver)
            == GetFriendRequestOrFalse(requests, sender, receiver)
  {
    var after := requests[k := FriendRequest(receiver, sender, active)];
    assert ActiveMatches(after, sender, receiver) == ActiveMatches(requests, sender, receiver);
    if GetFriendRequestOrFalse(after, sender, receiver).MultipleObjectsReturned? {
      var a, b :| a in after && b in after && a != b &&
                  IsActiveBetween(after[a], sender, receiver) && IsActiveBetween(after[b], sender, receiver);
      assert a != k && b != k;
      assert a in requests && b in requests;
    }
  }

  /**
   * Once the one active request for a pair is accepted successfully, declined
   * or cancelled, the lookup for that pair answers `False`.
   */
  lemma ClosedRequestIsNoLongerFound(db: Db, sender: AccountId, receiver: AccountId)
    requires GetFriendRequestOrFalse(db.requests, sender, receiver).Found?
    ensures var id := GetFriendRequestOrFalse(db.requests, sender, receiver).id;
            && GetFriendRequestOrFalse(Declined(db, id).requests, sender, receiver) == NoRequest
            && GetFriendRequestOrFalse(Cancelled(db, id).requests, sender, receiver) == NoRequest
            && (Accepted(db, id).outcome.Done? ==>
                  GetFriendRequestOrFalse(Accepted(db, id).db.requests, sender, receiver) == NoRequest)
  {
  }

  /**
   * An accept that fails because the sender has no FriendList leaves the
   * request active, so the lookup still returns it, although the receiver's
   * set already holds the sender.
   */
  lemma HalfAcceptedRequestIsStillFound(db: Db, sender: AccountId, receiver: AccountId)
    requires GetFriendRequestOrFalse(db.requests, sender, receiver).Found?
    requires receiver in db.lists && sender !in db.lists
    ensures var id := GetFriendRequestOrFalse(db.requests, sender, receiver).id;
            var after := Accepted(db, id);
            && after.outcome == Failed(FriendListDoesNotExist(sender))
            && sender in after.db.lists[receiver]
            && GetFriendRequestOrFalse(after.db.requests, sender, receiver) == Found(id, db.requests[id])
  {
  }
}
