/** The authentication message catalog. `AuthMessages.JwtAuth` is a class
    of string attributes: reading one it does not define raises
    AttributeError, so the catalog is a map from attribute name to text. */
module AuthMessages {
  import opened Errors

  const LOGIN_SUCCESS: string := "Login successful."
  const LOGIN_EITHER_CREDS: string := "Either username or email must exist."
  const LOGIN_WRONG_CREDS: string :=
    "Incorrect credentials. Are you sure you inputted the right username or email?"
  const LOGIN_INACTIVE_USER: string := "User is inactive. Please contact support."
  const REGISTER_USER_EXISTS: string := "User already exists. Please login instead."

  /** `AuthMessages.JwtAuth` as the repository defines it. */
  const JWT_AUTH: map<string, string> := map[
    "ACCESS_TOKEN_EXPIRED" := "Access token expired. Please login again.",
    "REFRESH_TOKEN_EXPIRED" := "Refresh token expired. Please login again."
  ]

  /** The attributes the JWT code reads when it rejects a request. */
  const INVALID_TOKEN: string := "INVALID_TOKEN"
  const INACTIVE_USER: string := "INACTIVE_USER"
  const USER_NOT_FOUND: string := "USER_NOT_FOUND"

  /** A catalog with every attribute the JWT code reads. */
  predicate Complete(catalog: map<string, string>)
  {
    INVALID_TOKEN in catalog && INACTIVE_USER in catalog && USER_NOT_FOUND in catalog
  }

  /** `raise AuthenticationError(message=AuthMessages.JwtAuth.<name>)`: the
      attribute is read first, so a missing one raises AttributeError instead. */
  function JwtAuthFailure(catalog: map<string, string>, name: string): (e: Exc)
    ensures name in catalog ==> e == AuthenticationError(catalog[name])
    ensures name !in catalog ==> e == AttributeError(name)
  {
    if name in catalog then AuthenticationError(catalog[name]) else AttributeError(name)
  }

  /** With the repository's catalog every JWT rejection is an
      AttributeError, which is not an HttpError (so it becomes a 500). */
  lemma ShippedCatalogRaisesAttributeError(name: string)
    requires name in {INVALID_TOKEN, INACTIVE_USER, USER_NOT_FOUND}
    ensures JwtAuthFailure(JWT_AUTH, name) == AttributeError(name)
    ensures !IsHttpError(JwtAuthFailure(JWT_AUTH, name))
    ensures !Complete(JWT_AUTH)
  {
  }

  /** With a complete catalog every JWT rejection is a 401. */
  lemma CompleteCatalogRaises401(catalog: map<string, string>, name: string)
    requires Complete(catalog) && name in {INVALID_TOKEN, INACTIVE_USER, USER_NOT_FOUND}
    ensures JwtAuthFailure(catalog, name).AuthenticationError?
    ensures IsHttpError(JwtAuthFailure(catalog, name)) && StatusOf(JwtAuthFailure(catalog, name)) == 401
  {
  }
}
