# Friendship store and account view decisions, modelled in Dafny

This project models the domain core of a small Django social-networking backend.

- **The friendship store** (`friends/models.py`). Each account has at most one FriendList row, which holds that account's set of friends. FriendRequest rows each have a sender, a receiver and an `is_active` flag. The operations on them are `add_friend`, `remove_friend`, `unfriend`, `is_mutual_friend`, `accept`, `decline`, `cancel`, and creating a request.
- **The active-request lookup** `get_friend_request_or_false` (`friends/utils.py`).
- **Three decisions inside `account/views.py`**, without their HTTP surroundings: the redirect target after login or registration, the `is_self` / `is_friend` flags of a profile page, and the filtering and shaping of account search results.

## Files

- `friends_models.dfy`, module `FriendModels`. The tables as a value `Db`:
  - `lists` maps an account id to its friend set. A missing key means that account has no FriendList row.
  - `requests` maps a request id to (sender, receiver, active).

  One function per operation says what that operation does to `Db`. The class `Store` holds the tables as fields, with methods that update them in place, in the same order as the Python methods. Each method is proved equal to its function. The lemmas state what the operations promise.

  When Django's `.get` raises `DoesNotExist`, the operation ends with `Failed(FriendListDoesNotExist(user))`. Anything already written before the failure stays in the state, because the code is not transactional.
- `friends_utils.dfy`, module `FriendUtils`. The lookup follows Django `.get` semantics:
  - no matching row gives `NoRequest`, which is the Python `False`;
  - exactly one row gives `Found`;
  - more than one raises `MultipleObjectsReturned`, which the code does not catch.

  Lemmas relate the lookup to the store operations.
- `account_views.dfy`, module `AccountViews`. A query string is a sequence of (key, value) pairs. A lookup returns the last value given for the key, as Django's `QueryDict.get` does. `icontains` is modelled as containment after ASCII lower-casing of both sides.

## Model

| member | source | states |
|---|---|---|
| `FriendModels.FriendAdded` | friends/models.py:17-20 | The owner's set becomes its old set plus the account. If the account was already a member, the whole database is unchanged. Every other FriendList and every request stays as it was. |
| `FriendModels.Store.AddFriend` | friends/models.py:17-20 | The in-place update leaves the tables equal to `FriendAdded` of the old tables. Only `lists` may change. |
| `FriendModels.AddFriendIdempotent` | friends/models.py:17-20 | Adding the same account twice gives the same result as adding it once. |
| `FriendModels.AddFriendAloneIsOneSided` | friends/models.py:17-20 | `add_friend` alone can turn two symmetric FriendLists into asymmetric ones, because it never touches the added account's own list. |
| `FriendModels.FriendRemoved` | friends/models.py:22-24 | The owner's set becomes its old set minus the account. Removing a non-member changes nothing and is not an error. Every other FriendList and every request stays as it was. |
| `FriendModels.Store.RemoveFriend` | friends/models.py:22-24 | The in-place update leaves the tables equal to `FriendRemoved` of the old tables. |
| `FriendModels.RemoveFriendIdempotent` | friends/models.py:22-24 | Removing the same account twice gives the same result as removing it once. |
| `FriendModels.Unfriended` | friends/models.py:26-32 | The removed account always leaves the initiator's set. The call succeeds exactly when the removed account has a FriendList. On success the initiator leaves the removed account's set. On failure the error names the removed account and the state is the first removal alone. No other list and no request changes. |
| `FriendModels.Store.Unfriend` | friends/models.py:26-32 | The two successive in-place removals, with the failing lookup between them, produce exactly `Unfriended`: the same outcome and the same new tables. |
| `FriendModels.UnfriendPreservesSymmetry` | friends/models.py:26-32 | If the lists were symmetric wherever both sides have a FriendList, they still are after `unfriend`, whether it succeeds or stops half-way. |
| `FriendModels.Store.IsMutualFriend` | friends/models.py:34-37 | Returns true exactly when the friend is in the owner's own set. It writes nothing. |
| `FriendModels.IsMutualFriendIsOneSided` | friends/models.py:34-37 | `is_mutual_friend` can be true while the friend's own list does not hold the owner, because only one side is consulted. |
| `FriendModels.Accepted` | friends/models.py:49-57 | There are three cases. (1) The receiver has no FriendList: the call fails and nothing changes. (2) The receiver has one and the sender has none: the call fails, the receiver's set has already gained the sender, and the request is still active. (3) Both lists exist: each set gains the other party and the request becomes inactive. Sender and receiver never change, nor does any other request. |
| `FriendModels.Store.Accept` | friends/models.py:49-57 | The step-by-step accept, which calls `AddFriend` twice, produces exactly `Accepted`: the same outcome and the same new tables. |
| `FriendModels.AcceptMakesFriends` | friends/models.py:49-57 | After a successful accept, both parties have FriendLists and each is in the other's set. |
| `FriendModels.AcceptAgainChangesNothing` | friends/models.py:49-57 | Accepting a request a second time after a successful accept changes nothing further and again reports success. |
| `FriendModels.AcceptIgnoresIsActive` | friends/models.py:49-57 | `accept` never reads `is_active`. An inactive request is accepted with the same outcome and the same friend sets as an active one. |
| `FriendModels.AcceptPreservesSymmetry` | friends/models.py:49-57 | `accept` keeps the lists symmetric wherever both sides have a FriendList, both on success and when it stops because the sender has no FriendList. On that second path the friendship is one-sided, since the sender has no list to record it. |
| `FriendModels.HalfAcceptIsOneSided` | friends/models.py:50-53 | An accept that stops because the sender has no FriendList leaves a one-sided friendship: the receiver lists the sender, and the sender has no list. The lists stay symmetric only where both sides have a FriendList. |
| `FriendModels.SelfRequestAcceptedMakesSelfFriend` | friends/models.py:49-57 | With no self-request check, accepting a request an account sent to itself succeeds and makes that account its own friend. |
| `FriendModels.Declined` | friends/models.py:59-61 | The request becomes inactive and keeps its sender and receiver. No friend set and no other request changes. |
| `FriendModels.Store.Decline` | friends/models.py:59-61 | The in-place update leaves the tables equal to `Declined` of the old tables. |
| `FriendModels.DeclineIdempotent` | friends/models.py:59-61 | Declining twice gives the same result as declining once, whatever the flag was before. |
| `FriendModels.Cancelled` | friends/models.py:63-66 | The request row is removed from the store. Every other request and every friend set stays as it was. |
| `FriendModels.Store.Cancel` | friends/models.py:63-66 | The in-place deletion leaves the tables equal to `Cancelled` of the old tables. |
| `FriendModels.RequestCreated` | friends/models.py:41-43 | A new request is stored under a fresh key with the given sender and receiver and starts active. Existing requests and all friend sets are unchanged. |
| `FriendModels.Store.CreateRequest` | friends/views.py:37 | Creating a request takes a key never used before, with no check on who sends it to whom. The new tables equal `RequestCreated` of the old ones. |
| `FriendModels.ApplyPreservesSymmetry` | friends/models.py:26-66 | Each operation the friend views invoke keeps symmetric lists symmetric and keeps the set of FriendList owners: creating a request, accept, decline, cancel and unfriend, including a failed accept or unfriend. |
| `FriendModels.RunPreservesSymmetry` | friends/models.py:26-66 | Starting from symmetric lists, any sequence of those operations leaves the lists symmetric wherever both sides have a FriendList, with the same owners. |
| `FriendUtils.GetFriendRequestOrFalse` | friends/utils.py:4-9 | `Found` returns a stored request that is active and goes from exactly this sender to exactly this receiver, and that no other request matches. `NoRequest` (`False`) means no active request exists for the ordered pair; inactive ones are ignored. `MultipleObjectsReturned` means two or more distinct active requests exist for the pair. |
| `FriendUtils.ReverseRequestNotReturned` | friends/utils.py:6 | Direction matters. Adding a request from the receiver to the sender, active or not, to any table leaves the lookup for (sender, receiver) unchanged. |
| `FriendUtils.CreatedRequestIsFound` | friends/utils.py:4-9 | After a request is created for a pair that had no active request, the lookup returns exactly the new, active request. |
| `FriendUtils.DuplicateRequestBreaksLookup` | friends/utils.py:5-8 | Creating a second active request for a pair that already has one is not refused, and the lookup for that pair then raises the uncaught `MultipleObjectsReturned`. |
| `FriendUtils.ClosedRequestIsNoLongerFound` | friends/utils.py:6 | After the one active request for a pair is declined, cancelled or successfully accepted, the lookup answers `False`. |
| `FriendUtils.HalfAcceptedRequestIsStillFound` | friends/models.py:53-57 | Suppose an accept fails because the sender has no FriendList. The receiver's set already holds the sender, and the lookup still returns the request, still active. |
| `AccountViews.Get` | account/views.py:71 | Returns None exactly when the key does not occur. Otherwise it returns the value of an occurrence of the key with no later occurrence, i.e. the last value given for that key. |
| `AccountViews.DetRedirectIfExists` | account/views.py:68-73 | Returns a value exactly when `next` is given a non-empty value. That value is the last one given for `next`. Otherwise it returns None. The separate test for an empty query string never changes the answer. |
| `AccountViews.IsSelf` | account/views.py:92-98 | `is_self` is true exactly when the viewer is logged in as the viewed account. |
| `AccountViews.ProfileView` | account/views.py:76-104 | An unknown user id gives the "User not found." response and no context. Otherwise the context copies the account's id, email, username, image and `hide_email`, plus `BASE_URL`. `is_self` is true exactly for the logged-in owner, and `is_friend` is always false. |
| `AccountViews.ProfileOfOtherIsNotSelf` | account/views.py:92-98 | An anonymous viewer, or one logged in as a different account, gets a profile with `is_self` false. |
| `AccountViews.SearchResults` | account/views.py:114 | Every result is a table row whose email and username both contain the query case-insensitively, and every such row is a result. The results keep the table's order (they are a subsequence of it). |
| `AccountViews.SearchResultsDistinct` | account/views.py:114 | If the table's primary keys are distinct, so are the results'. |
| `AccountViews.SearchIsConjunction` | account/views.py:113-114 | The filter is a conjunction, whatever the comment above it says. An account whose email contains the query but whose username does not is left out. |
| `AccountViews.AccountSearchView` | account/views.py:107-121 | A non-GET request or an empty `q` leaves `accounts` out of the context. A GET without `q` raises a `TypeError` from `len(None)`. Otherwise `accounts` lists every search result in order, each paired with `False`, with exactly as many entries as there are results. |

## Behaviour of the code worth knowing

The code differs from what a reader might expect of a friendship system. The model follows the code:

- `add_friend` updates only the owner's list. The other side is updated only when `accept` calls it a second time.
- `add_friend` does not refuse the owner itself. An accepted self-request makes an account its own friend.
- `is_mutual_friend` consults only the owner's list.
- `accept`, `decline` and `cancel` never check `is_active`, and do not check who the acting user is.
- Creating a request checks neither for self-requests nor for an existing active request for the same pair.
- `cancel` deletes the row rather than keeping it as history.
- Neither `unfriend` nor `accept` is atomic. A failed lookup leaves the first half of the update in place.
- Account search requires both the email and the username to match, although the comment above the query says "or".

## Left out

- HTTP handling in `friends/views.py`, `homepage/views.py` and the register, login and logout views: sessions, authentication, redirects, flash messages and template rendering are framework plumbing. Of `send_friend_request_view`, only the creation of the request row is modelled (`Store.CreateRequest`).
- `friends/forms.py`, `account/urls.py`, `friends/urls.py`, `account/admin.py`: declarations only, with no behaviour to verify.
- `account/backends.py`: it wraps Django's password hashing and authentication checks, which are not shown.
- `friends/friend_request_status.py`: a three-value enumeration with no logic.
- The request `timestamp` column depends on the clock and is not modelled.
- Creating FriendList rows: none of the modelled files creates one. `Store` starts from a given set of FriendList rows.
- Transactions and concurrent requests: only sequential calls are modelled.
- Database collation: `icontains` is modelled as ASCII lower-casing of both sides, not the database's own case folding. SQL `LIKE` escaping is not modelled; the query is matched literally.
- The order of search results is taken to be the order of the Account table, since the query has no `order_by`.
- `ProfileView`: the URL captures `user_id` as a string, and a non-numeric id makes the primary-key lookup raise before `DoesNotExist` can be caught. The model takes the id as a number.
- Django model objects are Python references. The model identifies FriendList rows by owner id and requests by key, so it does not capture two stale in-memory copies of one row.
- `Apply` skips an operation whose request row is missing, or whose new key is already taken, and an unfriend by an account without a FriendList. The views never reach the model in those cases.
- Each `Store` method requires the FriendList or request it is called on to exist, because the Python method is called on an instance that the view has already fetched. Calling a method on a deleted request is not modelled.
