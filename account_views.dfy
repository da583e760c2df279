/**
 * The decisions inside account/views.py, apart from their HTTP surroundings:
 * where to go after login or registration (det_redirect_if_exists), the
 * `is_self` / `is_friend` flags of a profile page (profile_view), and the
 * filtering and shaping of account search results (account_search_view).
 *
 * A request's query string is a sequence of (key, value) pairs in the order
 * they were given; a key may occur more than once, and looking a key up gives
 * the last value given for it, as Django's QueryDict does.
 */
module AccountViews {
  import opened FriendModels

  datatype Option<T> = None | Some(value: T)

  /** The parsed query string of a request. */
  type QueryDict = seq<(string, string)>

  /**
   * An Account row: the fields a profile page shows. The Account table appears
   * in two shapes, following the two queries made on it: profile_view looks one
   * row up by primary key (a map from id to row), while account_search_view
   * filters every row in the order the database returns them (a sequence).
   */
  datatype Account = Account(id: AccountId, email: string, username: string, profileImage: string, hideEmail: bool)

  /** Who is looking: an anonymous visitor or a logged-in account. */
  datatype Viewer = Anonymous | Authenticated(id: AccountId)

  /** `QueryDict.get(key)`: the last value given for `key`, or None when the key never occurs. */
  function Get(query: QueryDict, key: string): (r: Option<string>)
    ensures r.None? <==> forall i :: 0 <= i < |query| ==> query[i].0 != key
    ensures r.Some? ==>
              exists i :: 0 <= i < |query| && query[i] == (key, r.value) &&
                forall j :: i < j < |query| ==> query[j].0 != key
  {
    if query == [] then None
    else if query[|query| - 1].0 == key then Some(query[|query| - 1].1)
    else Get(query[..|query| - 1], key)
  }

  /**
   * det_redirect_if_exists: the `next` parameter when the query string is not
   * empty and `next` is given a non-empty value, else None.
   */
  function DetRedirectIfExists(query: QueryDict): (r: Option<string>)
    ensures r.Some? <==> Get(query, "next").Some? && Get(query, "next").value != ""
    ensures r.Some? ==> r == Get(query, "next")
    // A corollary of the two above and of Get's contract, spelled out: the
    // target is non-empty and is a value the query string gives for `next`.
    ensures r.Some? ==> r.value != "" && exists i :: 0 <= i < |query| && query[i] == ("next", r.value)
  {
    var redirect := None;
    if |query| > 0 then
      var next := Get(query, "next");
      if next.Some? && next.value != "" then next else redirect
    else
      redirect
  }

  /**
   * The `is_self` flag of profile_view: starts true and is cleared when the
   * viewer is logged in as someone else, or is not logged in at all.
   */
  function IsSelf(viewer: Viewer, account: Account): (isSelf: bool)
    ensures isSelf <==> viewer == Authenticated(account.id)
  {
    if viewer.Authenticated? && viewer.id != account.id then false
    else if !viewer.Authenticated? then false
    else true
  }

  /** The template context profile_view builds for an account that exists. */
  datatype ProfileContext = ProfileContext(
    id: AccountId, email: string, username: string, profileImage: string, hideEmail: bool,
    isSelf: bool, isFriend: bool, baseUrl: string)

  /** What profile_view answers: the plain "User not found." response, or the profile page. */
  datatype ProfileResponse = UserNotFound | Profile(context: ProfileContext)

  /**
   * profile_view for `userId`, over the Account table keyed by primary key;
   * `baseUrl` is the BASE_URL setting.
   */
  function ProfileView(accounts: map<AccountId, Account>, viewer: Viewer, userId: AccountId, baseUrl: string): (r: ProfileResponse)
    requires forall k :: k in accounts ==> accounts[k].id == k
    ensures r.UserNotFound? <==> userId !in accounts
    ensures r.Profile? ==>
              var a := accounts[userId];
              && r.context.id == userId
              && r.context.email == a.email && r.context.username == a.username
              && r.context.profileImage == a.profileImage && r.context.hideEmail == a.hideEmail
              && r.context.baseUrl == baseUrl
    ensures r.Profile? ==> (r.context.isSelf <==> viewer == Authenticated(userId))
    ensures r.Profile? ==> !r.context.isFriend
  {
    if userId !in accounts then UserNotFound
    else
      var account := accounts[userId];
      var isFriend := false;
      Profile(ProfileContext(account.id, account.email, account.username, account.profileImage,
                             account.hideEmail, IsSelf(viewer, account), isFriend, baseUrl))
  }

  /** ASCII lower-casing of one character, the case folding `icontains` applies. */
  function Lower(c: char): (r: char)
    ensures 'A' <= c <= 'Z' ==> r as int == c as int + 32
    ensures !('A' <= c <= 'Z') ==> r == c
  {
    if 'A' <= c <= 'Z' then (c as int + 32) as char else c
  }

  function LowerString(s: string): (r: string)
    ensures |r| == |s| && forall i :: 0 <= i < |s| ==> r[i] == Lower(s[i])
  {
    seq(|s|, i requires 0 <= i < |s| => Lower(s[i]))
  }

  /** `needle` occurs in `haystack` starting at position `i`. */
  predicate OccursAt(haystack: string, needle: string, i: nat)
  {
    i + |needle| <= |haystack| && haystack[i..i + |needle|] == needle
  }

  /** `needle` occurs in `haystack` as a contiguous run. */
  predicate Contains(haystack: string, needle: string)
  {
    exists i: nat :: i <= |haystack| - |needle| && OccursAt(haystack, needle, i)
  }

  /** `field__icontains=query`: containment after lower-casing both sides. */
  predicate IContains(field: string, query: string)
  {
    Contains(LowerString(field), LowerString(query))
  }

  /** The two chained filters: the email AND the username both contain the query. */
  predicate MatchesQuery(account: Account, query: string)
  {
    IContains(account.email, query) && IContains(account.username, query)
  }

  /** No two rows share a primary key. */
  predicate DistinctIds(accounts: seq<Account>)
  {
    forall i, j :: 0 <= i < j < |accounts| ==> accounts[i].id != accounts[j].id
  }

  /** `xs` is `ys` with some elements left out and the rest in their order. */
  predicate IsSubsequence<T(==)>(xs: seq<T>, ys: seq<T>)
    decreases |ys|
  {
    if xs == [] then true
    else if ys == [] then false
    else if xs[0] == ys[0] then IsSubsequence(xs[1..], ys[1..])
    else IsSubsequence(xs, ys[1..])
  }

  /**
   * `Account.objects.filter(email__icontains=q).filter(username__icontains=q).distinct()`
   * over the Account table in the order the database returns it.
   */
  function SearchResults(table: seq<Account>, query: string): (r: seq<Account>)
    ensures forall a :: a in r ==> a in table && MatchesQuery(a, query)
    ensures forall a :: a in table && MatchesQuery(a, query) ==> a in r
    ensures IsSubsequence(r, table)
  {
    if table == [] then []
    else if MatchesQuery(table[0], query) then [table[0]] + SearchResults(table[1..], query)
    else SearchResults(table[1..], query)
  }

  /** What account_search_view hands to its template, or the error it raises. */
  datatype SearchResponse =
    | Rendered(accounts: Option<seq<(Account, bool)>>)  // None: `accounts` is absent from the context
    | TypeError                                         // `len(None)`: no `q` in the query string

  /**
   * account_search_view: on a GET with a non-empty `q`, every matching account
   * paired with False ("not a friend"), in the order of the query's results.
   */
  method AccountSearchView(httpMethod: string, query: QueryDict, table: seq<Account>) returns (r: SearchResponse)
    ensures httpMethod != "GET" ==> r == Rendered(None)
    ensures httpMethod == "GET" && Get(query, "q").None? ==> r == TypeError
    ensures httpMethod == "GET" && Get(query, "q") == Some("") ==> r == Rendered(None)
    ensures httpMethod == "GET" && Get(query, "q").Some? && Get(query, "q").value != "" ==>
              var results := SearchResults(table, Get(query, "q").value);
              && r.Rendered? && r.accounts.Some?
              && |r.accounts.value| == |results|
              && forall k :: 0 <= k < |results| ==> r.accounts.value[k] == (results[k], false)
  {
    if httpMethod != "GET" {
      return Rendered(None);
    }
    var searchQuery := Get(query, "q");
    if searchQuery.None? {
      return TypeError;
    }
    if |searchQuery.value| > 0 {
      var results := SearchResults(table, searchQuery.value);
      var accounts: seq<(Account, bool)> := [];
      for i := 0 to |results|
        invariant |accounts| == i
        invariant forall k :: 0 <= k < i ==> accounts[k] == (results[k], false)
      {
        accounts := accounts + [(results[i], false)];
      }
      return Rendered(Some(accounts));
    }
    return Rendered(None);
  }

  /**
   * The search results are distinct accounts whenever the table's primary
   * keys are, and every one of them matches the query on both fields.
   */
  lemma {:induction false} SearchResultsDistinct(table: seq<Account>, query: string)
    requires DistinctIds(table)
    ensures DistinctIds(SearchResults(table, query))
  {
    if table != [] {
      SearchResultsDistinct(table[1..], query);
      var rest := SearchResults(table[1..], query);
      forall a | a in rest ensures a.id != table[0].id {
        assert a in table[1..];
      }
    }
  }

  /**
   * The filter is a conjunction: an account whose email contains the query but
   * whose username does not is left out of the results.
   */
  lemma SearchIsConjunction()
    ensures var alice := Account(1, "bob@example.org", "alice", "", false);
            SearchResults([alice], "bob") == []
  {
    var alice := Account(1, "bob@example.org", "alice", "", false);
    assert LowerString("alice") == "alice";
    assert LowerString("bob") == "bob";
    assert !Contains("alice", "bob") by {
      forall i: nat | i <= |"alice"| - |"bob"| ensures !OccursAt("alice", "bob", i) {
        assert "alice"[i] != 'b';
      }
    }
    assert !MatchesQuery(alice, "bob");
  }

  /** A logged-in viewer is never told `is_self` for an account other than their own, and an anonymous one never is. */
  lemma ProfileOfOtherIsNotSelf(accounts: map<AccountId, Account>, viewer: Viewer, userId: AccountId, baseUrl: string)
    requires forall k :: k in accounts ==> accounts[k].id == k
    requires userId in accounts
    requires viewer.Anonymous? || viewer.id != userId
    ensures ProfileView(accounts, viewer, userId, baseUrl).Profile?
    ensures !ProfileView(accounts, viewer, userId, baseUrl).context.isSelf
  {
  }
}
