/** The profile update request shared by the two `update_user_info`
    endpoints, and what applying it to a user row means. */
module UserSchema {
  import opened Common
  import opened Tables

  /** `UserUpdateRequest`: every field optional; an unset field and an
      explicit None are both `None` here, and both are skipped. */
  datatype UserUpdateRequest = UserUpdateRequest(
    firstName: Option<string>,
    middleName: Option<string>,
    lastName: Option<string>,
    email: Option<string>)

  function Or(o: Option<string>, old_: string): string
  {
    if o.Some? then o.value else old_
  }

  /** The row after the update: each supplied field takes the new value,
      every other column keeps the old one. */
  function Applied(u: User, req: UserUpdateRequest): (r: User)
    ensures r.firstName == Or(req.firstName, u.firstName) && r.middleName == Or(req.middleName, u.middleName)
    ensures r.lastName == Or(req.lastName, u.lastName) && r.email == Or(req.email, u.email)
    ensures r.(firstName := u.firstName, middleName := u.middleName, lastName := u.lastName, email := u.email) == u
  {
    u.(firstName := Or(req.firstName, u.firstName), middleName := Or(req.middleName, u.middleName),
       lastName := Or(req.lastName, u.lastName), email := Or(req.email, u.email))
  }

  /** Whether the request supplies anything at all. */
  predicate AnySupplied(req: UserUpdateRequest)
  {
    req.firstName.Some? || req.middleName.Some? || req.lastName.Some? || req.email.Some?
  }

  /** Applying the same request twice changes nothing more. */
  lemma AppliedIdempotent(u: User, req: UserUpdateRequest)
    ensures Applied(Applied(u, req), req) == Applied(u, req)
  {
  }

  /** An empty request leaves the row as it was. */
  lemma EmptyRequestIsIdentity(u: User, req: UserUpdateRequest)
    requires !AnySupplied(req)
    ensures Applied(u, req) == u
  {
  }
}
