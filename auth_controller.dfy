/** The login decision chain: pick an identifier, authenticate, refuse an
    inactive account, then mint the token pair and build the response. */
module AuthController {
  import opened Common
  import opened Errors
  import opened BaseExceptions
  import opened Tables
  import AuthMessages
  import AuthBackends

  datatype LoginRequest = LoginRequest(username: Option<string>, email: Option<string>, password: string)

  datatype LoginResponse = LoginResponse(accessToken: string, refreshToken: string, tokenType: string, message: string)

  /** `credentials.username or credentials.email`. */
  function Identifier(req: LoginRequest): (r: Option<string>)
    ensures req.username.Some? && req.username.value != "" ==> r == req.username
    ensures !(req.username.Some? && req.username.value != "") ==> r == req.email
  {
    if req.username.Some? && req.username.value != "" then req.username else req.email
  }

  /** `LoginResponse(**fields)`: `access_token`, `refresh_token` and
      `message` are required, `token_type` defaults to "Bearer". */
  function MakeLoginResponse(fields: map<string, string>): (r: Outcome<LoginResponse>)
    ensures r.Ok? <==> "access_token" in fields && "refresh_token" in fields && "message" in fields
    ensures r.Ok? ==>
      r.value.accessToken == fields["access_token"] &&
      r.value.refreshToken == fields["refresh_token"] && r.value.message == fields["message"] &&
      r.value.tokenType == (if "token_type" in fields then fields["token_type"] else "Bearer")
  {
    if "access_token" !in fields then Raise(SchemaError("access_token"))
    else if "refresh_token" !in fields then Raise(SchemaError("refresh_token"))
    else if "message" !in fields then Raise(SchemaError("message"))
    else Ok(LoginResponse(fields["access_token"], fields["refresh_token"],
                          if "token_type" in fields then fields["token_type"] else "Bearer",
                          fields["message"]))
  }

  function AuthError(message: string): Exc
  {
    Base(NewError(AuthClass, None, Some(message), NoDetails))
  }

  /** The chain with the response built from the minted pair plus `extra`.
      `authenticate` is Django's `authenticate(username=..., password=...)`
      and `mint` is `create_token_pair` under the configured lifetimes. */
  function LoginWith(req: LoginRequest, authenticate: (string, string) -> Outcome<Option<User>>,
                     mint: User -> Outcome<map<string, string>>, extra: map<string, string>): (r: Outcome<LoginResponse>)
    ensures Identifier(req).None? || Identifier(req).value == "" ==>
      r == Raise(Base(NewError(ValidationClass, None, Some(AuthMessages.LOGIN_EITHER_CREDS), NoDetails)))
    ensures Identifier(req).Some? && Identifier(req).value != "" ==>
      var auth := authenticate(Identifier(req).value, req.password);
      (auth.Raise? ==> r == Raise(auth.exc)) &&
      (auth == Ok(None) ==> r == Raise(AuthError(AuthMessages.LOGIN_WRONG_CREDS))) &&
      (auth.Ok? && auth.value.Some? && !auth.value.value.isActive ==>
        r == Raise(AuthError(AuthMessages.LOGIN_INACTIVE_USER))) &&
      (auth.Ok? && auth.value.Some? && auth.value.value.isActive ==>
        r == match mint(auth.value.value)
             case Raise(e) => Raise(e)
             case Ok(tokens) => MakeLoginResponse(tokens + extra))
  {
    var identifier := Identifier(req);
    if identifier.None? || identifier.value == "" then
      Raise(Base(NewError(ValidationClass, None, Some(AuthMessages.LOGIN_EITHER_CREDS), NoDetails)))
    else
      match authenticate(identifier.value, req.password)
      case Raise(e) => Raise(e)
      case Ok(None) => Raise(AuthError(AuthMessages.LOGIN_WRONG_CREDS))
      case Ok(Some(user)) =>
        if !user.isActive then Raise(AuthError(AuthMessages.LOGIN_INACTIVE_USER))
        else match mint(user)
          case Raise(e) => Raise(e)
          case Ok(tokens) => MakeLoginResponse(tokens + extra)
  }

  /** `login` as written: `LoginResponse(**tokens)` with no message. */
  function Login(req: LoginRequest, authenticate: (string, string) -> Outcome<Option<User>>,
                 mint: User -> Outcome<map<string, string>>): Outcome<LoginResponse>
  {
    LoginWith(req, authenticate, mint, map[])
  }

  /** `login` with the success message the response requires. */
  function LoginIntended(req: LoginRequest, authenticate: (string, string) -> Outcome<Option<User>>,
                         mint: User -> Outcome<map<string, string>>): Outcome<LoginResponse>
  {
    LoginWith(req, authenticate, mint, map["message" := AuthMessages.LOGIN_SUCCESS])
  }

  /** The pair `create_token_pair` returns. */
  predicate IsTokenPair(tokens: map<string, string>)
  {
    tokens.Keys == {"access_token", "refresh_token", "token_type"}
  }

  /** As written, login never succeeds: when every check passes and the pair
      is minted, the response schema rejects the missing message. */
  lemma LoginNeverSucceeds(req: LoginRequest, authenticate: (string, string) -> Outcome<Option<User>>,
                           mint: User -> Outcome<map<string, string>>)
    requires forall u :: mint(u).Ok? ==> IsTokenPair(mint(u).value)
    ensures Login(req, authenticate, mint).Raise?
  {
  }

  /** With the message added, every request that passes the three checks
      gets the minted tokens back. */
  lemma LoginIntendedSucceeds(req: LoginRequest, authenticate: (string, string) -> Outcome<Option<User>>,
                              mint: User -> Outcome<map<string, string>>, user: User)
    requires Identifier(req).Some? && Identifier(req).value != ""
    requires authenticate(Identifier(req).value, req.password) == Ok(Some(user)) && user.isActive
    requires mint(user).Ok? && IsTokenPair(mint(user).value)
    ensures LoginIntended(req, authenticate, mint) == Ok(LoginResponse(
      mint(user).value["access_token"], mint(user).value["refresh_token"],
      mint(user).value["token_type"], AuthMessages.LOGIN_SUCCESS))
  {
  }

  /** As written, Django never consults `EmailOrUsernameBackend` (its
      signature lacks `request`), so with it as the only configured backend
      every login with an identifier is refused as wrong credentials, even
      with the message added to the response. */
  lemma LoginThroughShippedBackendRefused(req: LoginRequest, users: seq<User>,
                                          checkPassword: (User, string) -> bool,
                                          mint: User -> Outcome<map<string, string>>)
    requires Identifier(req).Some? && Identifier(req).value != ""
    ensures var backends := [AuthBackends.EmailOrUsernameBackend(users, checkPassword, AuthBackends.SHIPPED_PARAMS)];
      var authenticate := (id: string, pw: string) => AuthBackends.DjangoAuthenticate(backends, id, pw);
      LoginIntended(req, authenticate, mint) == Raise(AuthError(AuthMessages.LOGIN_WRONG_CREDS))
  {
    AuthBackends.ShippedBackendNeverConsulted(users, checkPassword, [], Identifier(req).value, req.password);
  }

  /** With the backend's signature corrected, tokens are minted only for
      an active user that it found by the request's identifier: since its
      `email` argument is never passed, that is a user whose username is
      the identifier. */
  lemma LoginThroughBackendMatchesUsername(req: LoginRequest, users: seq<User>,
                                           checkPassword: (User, string) -> bool,
                                           mint: User -> Outcome<map<string, string>>)
    requires forall u :: mint(u).Ok? ==> IsTokenPair(mint(u).value)
    ensures var backends := [AuthBackends.EmailOrUsernameBackend(users, checkPassword, AuthBackends.INTENDED_PARAMS)];
      var authenticate := (id: string, pw: string) => AuthBackends.DjangoAuthenticate(backends, id, pw);
      LoginIntended(req, authenticate, mint).Ok? ==>
        exists u :: u in users && u.username == Identifier(req).value && u.isActive &&
          checkPassword(u, req.password) && mint(u).Ok?
  {
    var backends := [AuthBackends.EmailOrUsernameBackend(users, checkPassword, AuthBackends.INTENDED_PARAMS)];
    var authenticate := (id: string, pw: string) => AuthBackends.DjangoAuthenticate(backends, id, pw);
    if LoginIntended(req, authenticate, mint).Ok? {
      AuthBackends.IntendedBackendDecides(users, checkPassword, Identifier(req).value, req.password);
      var auth := authenticate(Identifier(req).value, req.password);
      assert auth.Ok? && auth.value.Some?;
      var u := auth.value.value;
      assert u in users && u.username == Identifier(req).value;
    }
  }
}
