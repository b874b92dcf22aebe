/** `EmailOrUsernameBackend.authenticate`: one user is looked up by
    username OR email and returned only if the password checks out and the
    account may log in. Password hashing is the `checkPassword` parameter. */
module AuthBackends {
  import opened Common
  import opened Errors
  import opened Tables
  import Sorting

  /** `Q(username=username) | Q(email=email)`; `field=None` matches no row,
      since neither column is nullable. */
  predicate Matches(u: User, username: Option<string>, email: Option<string>)
  {
    (username.Some? && u.username == username.value) || (email.Some? && u.email == email.value)
  }

  function Candidates(users: seq<User>, username: Option<string>, email: Option<string>): (r: seq<User>)
    ensures forall i :: 0 <= i < |r| ==> r[i] in users && Matches(r[i], username, email)
    ensures forall i :: 0 <= i < |users| && Matches(users[i], username, email) ==> users[i] in r
  {
    Sorting.Filter(users, u => Matches(u, username, email))
  }

  /** `User.objects.get(...)` raises MultipleObjectsReturned for several
      matches (not caught) and DoesNotExist for none (answered with None,
      after hashing the password on a throw-away user). */
  function Authenticate(users: seq<User>, username: Option<string>, email: Option<string>,
                        password: string, checkPassword: (User, string) -> bool): (r: Outcome<Option<User>>)
    ensures r == Raise(MultipleObjectsReturned) <==> |Candidates(users, username, email)| > 1
    ensures |Candidates(users, username, email)| == 0 ==> r == Ok(None)
    ensures r.Ok? && r.value.Some? ==>
      r.value.value in users && Matches(r.value.value, username, email) &&
      checkPassword(r.value.value, password) && r.value.value.isActive &&
      Candidates(users, username, email) == [r.value.value]
    ensures |Candidates(users, username, email)| == 1 ==>
      var u := Candidates(users, username, email)[0];
      r == Ok(if checkPassword(u, password) && u.isActive then Some(u) else None)
  {
    var found := Candidates(users, username, email);
    if |found| == 0 then Ok(None)
    else if |found| > 1 then Raise(MultipleObjectsReturned)
    else if checkPassword(found[0], password) && found[0].isActive then Ok(Some(found[0]))
    else Ok(None)
  }

  /** A user who matches alone, with the right password and an active
      account, is the one returned; nobody else ever is. */
  lemma AuthenticateFindsOnlyMatch(users: seq<User>, username: Option<string>, email: Option<string>,
                                   password: string, checkPassword: (User, string) -> bool, u: User)
    requires Candidates(users, username, email) == [u]
    ensures Authenticate(users, username, email, password, checkPassword) == Ok(Some(u)) <==>
      checkPassword(u, password) && u.isActive
  {
  }

  // ------------------------------------------------------ Django's dispatch

  /** A configured backend as Django's `authenticate` sees it: the
      parameter names of its bound `authenticate` method (without `self`),
      whether it also takes `**kwargs`, and what calling it returns for an
      identifier and a password. */
  datatype Backend = Backend(params: seq<string>, varKeywords: bool,
                             run: (string, string) -> Outcome<Option<User>>)

  /** The keyword arguments the login passes besides the request. */
  const CREDENTIAL_KEYWORDS: set<string> := {"username", "password"}

  /** `inspect.signature(...).bind(request, **credentials)` succeeds: the
      request fills the first parameter, and every keyword names a later
      one (or lands in `**kwargs`); a keyword naming the first parameter
      is given twice and raises TypeError. Every parameter has a default. */
  predicate Binds(params: seq<string>, varKeywords: bool, keywords: set<string>)
  {
    |params| >= 1 && params[0] !in keywords &&
    (varKeywords || forall k :: k in keywords ==> k in params[1..])
  }

  predicate Consulted(b: Backend)
  {
    Binds(b.params, b.varKeywords, CREDENTIAL_KEYWORDS)
  }

  /** `django.contrib.auth.authenticate(request, username=..., password=...)`:
      each backend in turn whose signature binds the arguments is called; the
      first user returned wins, an exception escapes, and a backend that does
      not bind, or returns None, passes to the next. None when all pass. */
  function DjangoAuthenticate(backends: seq<Backend>, username: string, password: string): (r: Outcome<Option<User>>)
    ensures (forall i :: 0 <= i < |backends| ==> !Consulted(backends[i])) ==> r == Ok(None)
    ensures r != Ok(None) ==>
      exists i :: 0 <= i < |backends| && Consulted(backends[i]) && backends[i].run(username, password) == r
  {
    if |backends| == 0 then Ok(None)
    else
      var b := backends[0];
      var rest := DjangoAuthenticate(backends[1..], username, password);
      assert forall i :: 0 <= i < |backends[1..]| ==> backends[1..][i] == backends[i + 1];
      if !Consulted(b) then rest
      else match b.run(username, password)
        case Raise(e) => Raise(e)
        case Ok(None) => rest
        case Ok(Some(u)) => Ok(Some(u))
  }

  /** `EmailOrUsernameBackend` as Django sees it, called with
      `username=identifier` and no email, under the given parameter names. */
  function EmailOrUsernameBackend(users: seq<User>, checkPassword: (User, string) -> bool,
                                  params: seq<string>): Backend
  {
    Backend(params, false, (id: string, pw: string) => Authenticate(users, Some(id), None, pw, checkPassword))
  }

  /** The method as written: `(self, username, email, password)`. */
  const SHIPPED_PARAMS: seq<string> := ["username", "email", "password"]

  /** The signature Django expects of a backend: `request` first. */
  const INTENDED_PARAMS: seq<string> := ["request", "username", "email", "password"]

  /** As written, the request Django passes positionally fills `username`,
      which the keyword `username` then gives a second time: the signature
      never binds, so Django never calls this backend and the login is
      decided by the backends after it alone (None if there are none). */
  lemma ShippedBackendNeverConsulted(users: seq<User>, checkPassword: (User, string) -> bool,
                                     rest: seq<Backend>, username: string, password: string)
    ensures !Consulted(EmailOrUsernameBackend(users, checkPassword, SHIPPED_PARAMS))
    ensures DjangoAuthenticate([EmailOrUsernameBackend(users, checkPassword, SHIPPED_PARAMS)] + rest, username, password) ==
      DjangoAuthenticate(rest, username, password)
    ensures DjangoAuthenticate([EmailOrUsernameBackend(users, checkPassword, SHIPPED_PARAMS)], username, password) == Ok(None)
  {
    var b := EmailOrUsernameBackend(users, checkPassword, SHIPPED_PARAMS);
    assert b.params[0] == "username" && "username" in CREDENTIAL_KEYWORDS;
    assert ([b] + rest)[1..] == rest;
    assert [b][1..] == [];
  }

  /** With `request` first the signature binds, and as the only backend it
      decides the login exactly as its own `authenticate` does. */
  lemma IntendedBackendDecides(users: seq<User>, checkPassword: (User, string) -> bool,
                               username: string, password: string)
    ensures Consulted(EmailOrUsernameBackend(users, checkPassword, INTENDED_PARAMS))
    ensures DjangoAuthenticate([EmailOrUsernameBackend(users, checkPassword, INTENDED_PARAMS)], username, password) ==
      Authenticate(users, Some(username), None, password, checkPassword)
  {
    var b := EmailOrUsernameBackend(users, checkPassword, INTENDED_PARAMS);
    assert INTENDED_PARAMS[1..] == ["username", "email", "password"];
    assert forall k :: k in CREDENTIAL_KEYWORDS ==> k in INTENDED_PARAMS[1..];
    assert [b][1..] == [];
  }
}
