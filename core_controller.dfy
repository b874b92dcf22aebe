/** The profile update that guards against taking another user's email,
    then copies each supplied field onto the user's row one at a time. */
module CoreController {
  import opened Common
  import opened Errors
  import opened Tables
  import opened UserSchema
  import AuthMessages

  /** The four updatable columns, in the order the request declares them. */
  datatype Field = FirstName | MiddleName | LastName | Email

  /** `data.model_dump(exclude_unset=True).items()`. */
  function Items(req: UserUpdateRequest): (r: seq<(Field, Option<string>)>)
    ensures |r| == 4
  {
    [(FirstName, req.firstName), (MiddleName, req.middleName), (LastName, req.lastName), (Email, req.email)]
  }

  /** `setattr(user_instance, field, value)`. */
  function SetField(u: User, f: Field, v: string): User
  {
    match f
    case FirstName => u.(firstName := v)
    case MiddleName => u.(middleName := v)
    case LastName => u.(lastName := v)
    case Email => u.(email := v)
  }

  /** The row after the loop has visited `items`: `None` values are
      skipped. */
  function SetAll(u: User, items: seq<(Field, Option<string>)>): User
  {
    if |items| == 0 then u
    else
      var last := items[|items| - 1];
      var before := SetAll(u, items[..|items| - 1]);
      if last.1.Some? then SetField(before, last.0, last.1.value) else before
  }

  /** Visiting the request's items one by one has the effect `Applied`
      specifies. */
  lemma {:induction false} SetAllIsApplied(u: User, req: UserUpdateRequest)
    ensures SetAll(u, Items(req)) == Applied(u, req)
  {
    var items := Items(req);
    assert items[..1][..0] == items[..0] && items[..2][..1] == items[..1];
    assert items[..3][..2] == items[..2] && items[..4][..3] == items[..3] && items[..4] == items;
    assert SetAll(u, items[..0]) == u;
    assert items[..1][0] == (FirstName, req.firstName) && items[..2][1] == (MiddleName, req.middleName);
    assert items[..3][2] == (LastName, req.lastName) && items[3] == (Email, req.email);
    var u1 := SetAll(u, items[..1]);
    assert u1 == u.(firstName := Or(req.firstName, u.firstName));
    var u2 := SetAll(u, items[..2]);
    assert u2 == u1.(middleName := Or(req.middleName, u.middleName));
    var u3 := SetAll(u, items[..3]);
    assert u3 == u2.(lastName := Or(req.lastName, u.lastName));
    assert SetAll(u, items) == u3.(email := Or(req.email, u.email));
  }

  /** The guard: a non-empty email that differs from the current one and
      belongs to some other user. */
  predicate EmailTaken(users: seq<User>, current: User, req: UserUpdateRequest)
  {
    req.email.Some? && req.email.value != "" && req.email.value != current.email &&
    exists i :: 0 <= i < |users| && users[i].email == req.email.value && users[i].id != current.id
  }

  function EmailTakenError(): Exc
  {
    ValidationError([map["field" := "email", "message" := AuthMessages.REGISTER_USER_EXISTS]])
  }

  /** Resubmitting one's own email, or one nobody else has, never trips
      the guard. */
  lemma OwnOrFreshEmailAccepted(users: seq<User>, current: User, req: UserUpdateRequest)
    requires req.email.Some?
    requires req.email.value == current.email ||
             forall i :: 0 <= i < |users| && users[i].id != current.id ==> users[i].email != req.email.value
    ensures !EmailTaken(users, current, req)
  {
  }

  /** `update_user_info` (core). `current` is the `user` argument the caller passes; a
      missing row raises DoesNotExist, a taken email raises
      ValidationError on "email" before anything is written. */
  method UpdateUserInfo(db: Database, current: User, req: UserUpdateRequest) returns (r: Outcome<User>)
    requires db.Valid()
    modifies db`users
    ensures db.Valid()
    ensures UserIndex(old(db.users), current.id).None? ==> r == Raise(DoesNotExist) && db.users == old(db.users)
    ensures UserIndex(old(db.users), current.id).Some? && EmailTaken(old(db.users), current, req) ==>
      r == Raise(EmailTakenError()) && db.users == old(db.users)
    ensures UserIndex(old(db.users), current.id).Some? && !EmailTaken(old(db.users), current, req) ==>
      var k := UserIndex(old(db.users), current.id).value;
      db.users == old(db.users)[k := Applied(old(db.users)[k], req)] && r == Ok(db.users[k])
  {
    var found := UserIndex(db.users, current.id);
    if found.None? {
      return Raise(DoesNotExist);
    }
    var k := found.value;
    var instance := db.users[k];
    if req.email.Some? && req.email.value != "" && req.email.value != current.email {
      var i := 0;
      while i < |db.users|
        invariant 0 <= i <= |db.users|
        invariant forall j :: 0 <= j < i ==> !(db.users[j].email == req.email.value && db.users[j].id != current.id)
      {
        if db.users[i].email == req.email.value && db.users[i].id != current.id {
          return Raise(EmailTakenError());
        }
        i := i + 1;
      }
    }
    var items := Items(req);
    for n := 0 to |items|
      invariant instance == SetAll(db.users[k], items[..n])
    {
      assert items[..n + 1][..n] == items[..n];
      var (field, value) := items[n];
      if value.Some? {
        instance := SetField(instance, field, value.value);
      }
    }
    assert items[..|items|] == items;
    SetAllIsApplied(db.users[k], req);
    db.users := db.users[k := instance];
    r := Ok(instance);
  }

  /** After a successful update that supplied a new non-empty email, no
      other user has that email. */
  lemma UpdatedEmailIsUnique(users: seq<User>, current: User, req: UserUpdateRequest, k: nat)
    requires k < |users| && users[k].id == current.id
    requires !EmailTaken(users, current, req)
    requires req.email.Some? && req.email.value != "" && req.email.value != current.email
    ensures var after := users[k := Applied(users[k], req)];
      after[k].email == req.email.value &&
      forall i :: 0 <= i < |after| && after[i].id != current.id ==> after[i].email != req.email.value
  {
  }
}
