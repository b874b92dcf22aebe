/** The user search (active users other than the requester whose email,
    username, first or last name contains the query, ordered by email) and
    the bulk profile update. */
module UserController {
  import opened Common
  import opened Tables
  import opened Sorting
  import opened UserSchema

  const SEARCH_MAX: int := 50
  const UPDATED_MESSAGE: string := "User information updated successfully"

  /** `min(max(limit, 1), 50)`. */
  function ClampLimit(limit: int): (r: int)
    ensures 1 <= r <= SEARCH_MAX
    ensures 1 <= limit <= SEARCH_MAX ==> r == limit
    ensures limit < 1 ==> r == 1
    ensures limit > SEARCH_MAX ==> r == SEARCH_MAX
  {
    var atLeastOne := if limit > 1 then limit else 1;
    if atLeastOne < SEARCH_MAX then atLeastOne else SEARCH_MAX
  }

  /** The four `icontains` lookups, on the raw (unstripped) query. */
  predicate Matches(u: User, query: string)
  {
    IContains(u.email, query) || IContains(u.username, query) ||
    IContains(u.firstName, query) || IContains(u.lastName, query)
  }

  predicate Candidate(u: User, currentId: int, query: string)
  {
    Matches(u, query) && u.isActive && u.id != currentId
  }

  /** `order_by("email")`, in code-point order. */
  predicate EmailOrder(a: User, b: User)
  {
    StrLe(a.email, b.email)
  }

  lemma EmailOrderIsPreorder()
    ensures TotalPreorder(EmailOrder)
  {
    forall a: User, b: User ensures EmailOrder(a, b) || EmailOrder(b, a) {
      StrLeTotal(a.email, b.email);
    }
    forall a: User, b: User, c: User | EmailOrder(a, b) && EmailOrder(b, c) ensures EmailOrder(a, c) {
      StrLeTransitive(a.email, b.email, c.email);
    }
  }

  /** A query that is empty or has fewer than two characters once
      stripped finds nothing. */
  predicate TooShort(query: string)
  {
    query == "" || |Strip(query)| < 2
  }

  datatype SearchResult = SearchResult(users: seq<User>, count: int)

  /** The matching users ordered by email, sliced to the first `n`. */
  function Matching(users: seq<User>, currentId: int, query: string, n: nat): (r: seq<User>)
    ensures |r| <= n
    ensures forall i :: 0 <= i < |r| ==> r[i] in users && Candidate(r[i], currentId, query)
    ensures SortedBy(r, EmailOrder)
    ensures forall u :: multiset(r)[u] <= if Candidate(u, currentId, query) then multiset(users)[u] else 0
    ensures |r| < n ==> forall u :: multiset(r)[u] == if Candidate(u, currentId, query) then multiset(users)[u] else 0
    // the users returned are the first by email: one left out sorts no earlier
    ensures forall u, i :: 0 <= i < |r| && Candidate(u, currentId, query) && multiset(r)[u] < multiset(users)[u] ==>
      EmailOrder(r[i], u)
  {
    EmailOrderIsPreorder();
    OrderedFilterFirst(users, (u: User) => Candidate(u, currentId, query), EmailOrder, n)
  }

  /** `search_users`. */
  function SearchUsers(users: seq<User>, currentId: int, query: string, limit: int): (r: SearchResult)
    ensures r.count == |r.users|
    ensures |r.users| <= ClampLimit(limit)
    ensures TooShort(query) ==> r.users == []
    ensures forall i :: 0 <= i < |r.users| ==> r.users[i] in users && Candidate(r.users[i], currentId, query)
    ensures SortedBy(r.users, EmailOrder)
    ensures !TooShort(query) && |r.users| < ClampLimit(limit) ==>
      forall u :: multiset(r.users)[u] == if Candidate(u, currentId, query) then multiset(users)[u] else 0
    ensures forall u :: multiset(r.users)[u] <= if Candidate(u, currentId, query) then multiset(users)[u] else 0
    // at the limit, the users returned are the first by email: one left out sorts no earlier
    ensures !TooShort(query) ==> forall u, i ::
      0 <= i < |r.users| && Candidate(u, currentId, query) && multiset(r.users)[u] < multiset(users)[u] ==>
      EmailOrder(r.users[i], u)
  {
    if TooShort(query) then SearchResult([], 0)
    else
      var shown := Matching(users, currentId, query, ClampLimit(limit));
      SearchResult(shown, |shown|)
  }

  /** The requester never finds themselves, and an inactive user is never
      found. */
  lemma SearchExcludesSelfAndInactive(users: seq<User>, currentId: int, query: string, limit: int)
    ensures forall u :: u in SearchUsers(users, currentId, query, limit).users ==> u.id != currentId && u.isActive
  {
    var r := SearchUsers(users, currentId, query, limit).users;
    forall u | u in r ensures u.id != currentId && u.isActive {
      var i :| 0 <= i < |r| && r[i] == u;
    }
  }

  /** `update_user_info` (bulk): every row with the requester's id takes
      the supplied fields; with nothing supplied no update is issued. */
  method UpdateUserInfo(db: Database, userId: int, req: UserUpdateRequest) returns (message: string)
    requires db.Valid()
    modifies db`users
    ensures db.Valid()
    ensures message == UPDATED_MESSAGE
    ensures |db.users| == |old(db.users)|
    ensures forall i :: 0 <= i < |db.users| ==>
      db.users[i] == if old(db.users)[i].id == userId then Applied(old(db.users)[i], req) else old(db.users)[i]
    ensures !AnySupplied(req) ==> db.users == old(db.users)
  {
    message := UPDATED_MESSAGE;
    if !AnySupplied(req) {
      return;
    }
    var i := 0;
    while i < |db.users|
      invariant 0 <= i <= |db.users| && |db.users| == |old(db.users)|
      invariant forall j :: 0 <= j < i ==>
        db.users[j] == if old(db.users)[j].id == userId then Applied(old(db.users)[j], req) else old(db.users)[j]
      invariant forall j :: i <= j < |db.users| ==> db.users[j] == old(db.users)[j]
    {
      if db.users[i].id == userId {
        db.users := db.users[i := Applied(db.users[i], req)];
      }
      i := i + 1;
    }
  }
}
