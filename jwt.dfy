/** JWT issuing and checking. A token's payload is a JSON object; `exp`
    (the expiration time, section 4.1.4 of RFC 7519) is a whole number of
    seconds and `sub` (the subject, section 4.1.2) names the user. The
    signing part of python-jose is a pair of functions: `encode` may fail
    (None) and `verify` fails (None) on a bad signature. The claim checks
    `jwt.decode` makes after the signature are modelled (`JoseDecode`).
    Times are whole seconds: `now` is the current time rounded down, as
    python-jose reads it. */
module Jwt {
  import opened Common
  import opened Errors
  import opened Tables
  import AuthMessages

  type Payload = map<string, Json>

  const MISSING_ACCESS_EXPIRY: string := "Missing environment variable: JWT_ACCESS_TOKEN_EXPIRE_IN_MINS"
  const MISSING_REFRESH_EXPIRY: string := "Missing environment variable: JWT_REFRESH_TOKEN_EXPIRE_IN_DAYS"
  const SECONDS_PER_DAY: int := 86400

  /** `to_encode = data.copy(); to_encode.update({"exp": ..., "type": kind})`. */
  function TokenPayload(data: Payload, now: int, duration: int, kind: string): (p: Payload)
    ensures p.Keys == data.Keys + {"exp", "type"}
    ensures p["exp"] == JInt(now + duration) && p["type"] == JStr(kind)
    ensures forall k :: k in data && k != "exp" && k != "type" ==> p[k] == data[k]
  {
    data + map["exp" := JInt(now + duration), "type" := JStr(kind)]
  }

  /** `create_access_token` and `create_refresh_token`: sign the payload;
      a signing failure raises with the INVALID_TOKEN message. */
  function CreateToken(catalog: map<string, string>, encode: Payload -> Option<string>,
                       data: Payload, now: int, duration: int, kind: string): (r: Outcome<string>)
    ensures r.Ok? <==> encode(TokenPayload(data, now, duration, kind)).Some?
    ensures r.Ok? ==> r.value == encode(TokenPayload(data, now, duration, kind)).value
    ensures r.Raise? ==> r.exc == AuthMessages.JwtAuthFailure(catalog, AuthMessages.INVALID_TOKEN)
  {
    match encode(TokenPayload(data, now, duration, kind))
    case Some(t) => Ok(t)
    case None => Raise(AuthMessages.JwtAuthFailure(catalog, AuthMessages.INVALID_TOKEN))
  }

  /** The claims both tokens of a pair carry. As written, `sub` is the
      user id as an integer (`stringSub` false); `stringSub` true is the
      string form `str(user.id)` that python-jose accepts. */
  function UserClaims(user: User, stringSub: bool): (c: Payload)
    ensures c.Keys == {"sub", "username"} && c["username"] == JStr(user.username)
    ensures !stringSub ==> c["sub"] == JInt(user.id)
    ensures stringSub ==> c["sub"].JStr? && ParseInt(c["sub"].s) == Some(user.id)
  {
    IntToStringParses(user.id);
    map["sub" := if stringSub then JStr(IntToString(user.id)) else JInt(user.id), "username" := JStr(user.username)]
  }

  /** `create_access_token_from_refresh_token`: only `sub` and `username`
      are carried over (None when absent). A zero duration is falsy. */
  function CreateAccessTokenFromRefreshToken(catalog: map<string, string>, encode: Payload -> Option<string>,
                                             refreshPayload: Payload, accessMinutes: int, now: int): (r: Outcome<string>)
    ensures accessMinutes == 0 ==> r == Raise(ValueError(MISSING_ACCESS_EXPIRY))
    ensures r.Ok? ==> exists claims: Payload ::
      claims.Keys == {"sub", "username"} &&
      claims["sub"] == Get(refreshPayload, "sub", JNull) &&
      claims["username"] == Get(refreshPayload, "username", JNull) &&
      encode(TokenPayload(claims, now, accessMinutes * 60, "access")) == Some(r.value)
  {
    if accessMinutes == 0 then Raise(ValueError(MISSING_ACCESS_EXPIRY))
    else
      var claims := map["sub" := Get(refreshPayload, "sub", JNull), "username" := Get(refreshPayload, "username", JNull)];
      CreateToken(catalog, encode, claims, now, accessMinutes * 60, "access")
  }

  /** `create_token_pair`: the refresh lifetime passed is
      `timedelta(days=N) * 24`, that is 24 N days. */
  function CreateTokenPair(catalog: map<string, string>, encode: Payload -> Option<string>,
                           user: User, accessMinutes: int, refreshDays: int, now: int,
                           stringSub: bool): (r: Outcome<map<string, string>>)
    ensures r.Ok? <==>
      accessMinutes != 0 && refreshDays != 0 &&
      encode(TokenPayload(UserClaims(user, stringSub), now, accessMinutes * 60, "access")).Some? &&
      encode(TokenPayload(UserClaims(user, stringSub), now, refreshDays * 24 * SECONDS_PER_DAY, "refresh")).Some?
    ensures r.Ok? ==>
      r.value.Keys == {"access_token", "refresh_token", "token_type"} &&
      r.value["token_type"] == "Bearer" &&
      Some(r.value["access_token"]) == encode(TokenPayload(UserClaims(user, stringSub), now, accessMinutes * 60, "access")) &&
      Some(r.value["refresh_token"]) ==
        encode(TokenPayload(UserClaims(user, stringSub), now, refreshDays * 24 * SECONDS_PER_DAY, "refresh"))
    ensures accessMinutes == 0 ==> r == Raise(ValueError(MISSING_ACCESS_EXPIRY))
  {
    if accessMinutes == 0 then Raise(ValueError(MISSING_ACCESS_EXPIRY))
    else
      match CreateToken(catalog, encode, UserClaims(user, stringSub), now, accessMinutes * 60, "access")
      case Raise(e) => Raise(e)
      case Ok(access) =>
        if refreshDays == 0 then Raise(ValueError(MISSING_REFRESH_EXPIRY))
        else
          match CreateToken(catalog, encode, UserClaims(user, stringSub), now, refreshDays * 24 * SECONDS_PER_DAY, "refresh")
          case Raise(e) => Raise(e)
          case Ok(refresh) =>
            Ok(map["access_token" := access, "refresh_token" := refresh, "token_type" := "Bearer"])
  }

  /** `int(f)` on a float: truncation toward zero. */
  function Trunc(f: real): (r: int)
    ensures f >= 0.0 ==> r as real <= f < r as real + 1.0
    ensures f < 0.0 ==> r as real - 1.0 < f <= r as real
  {
    if f >= 0.0 then f.Floor else -((-f).Floor)
  }

  /** Python's `int(x)` on a decoded JSON value: booleans are 0 and 1,
      floats are truncated, strings are parsed; a string that is not a
      number raises ValueError, and None, a list or an object TypeError. */
  function IntCall(j: Json): (r: Outcome<int>)
    ensures j.JInt? ==> r == Ok(j.i)
    ensures j.JStr? ==> (r.Ok? <==> ParseInt(j.s).Some?) && (r.Ok? ==> r.value == ParseInt(j.s).value)
    ensures j.JFloat? ==> r == Ok(Trunc(j.f))
    ensures r.Raise? ==> (r.exc.ValueError? <==> j.JStr?) && (r.exc.TypeError? <==> !j.JStr?)
    ensures r.Raise? <==> j.JNull? || j.JArr? || j.JObj? || (j.JStr? && ParseInt(j.s).None?)
  {
    match j
    case JInt(i) => Ok(i)
    case JBool(b) => Ok(if b then 1 else 0)
    case JFloat(f) => Ok(Trunc(f))
    case JStr(s) => if ParseInt(s).Some? then Ok(ParseInt(s).value) else Raise(ValueError("invalid literal for int()"))
    case _ => Raise(TypeError("int() argument must be a string or a real number"))
  }

  /** The registered claims python-jose accepts at `now`: an `exp` that
      `int()` reads and that is not yet past (when `verify_exp` is on), and
      a `sub` that is a string. */
  predicate ClaimsHold(p: Payload, now: int, verifyExp: bool)
  {
    (verifyExp && "exp" in p ==> IntCall(p["exp"]).Ok? && IntCall(p["exp"]).value >= now) &&
    ("sub" in p ==> p["sub"].JStr?)
  }

  /** python-jose's `jwt.decode`: the signature, then `exp` and then `sub`.
      Ok(None) is a JWTError (bad signature, expired, or a claim of the
      wrong kind); `int()` on `exp` is guarded against ValueError only, so
      a TypeError escapes. */
  function JoseDecode(verify: string -> Option<Payload>, token: string, now: int, verifyExp: bool): (r: Outcome<Option<Payload>>)
    ensures r.Ok? && r.value.Some? <==> verify(token).Some? && ClaimsHold(verify(token).value, now, verifyExp)
    ensures r.Ok? && r.value.Some? ==> r.value.value == verify(token).value
    ensures r.Raise? <==>
      verifyExp && verify(token).Some? && "exp" in verify(token).value &&
      IntCall(verify(token).value["exp"]).Raise? && IntCall(verify(token).value["exp"]).exc.TypeError?
    ensures r.Raise? ==> r.exc.TypeError?
  {
    match verify(token)
    case None => Ok(None)
    case Some(p) =>
      var expOk :=
        if !verifyExp || "exp" !in p then Ok(true)
        else match IntCall(p["exp"])
          case Raise(e) => if e.ValueError? then Ok(false) else Raise(e)
          case Ok(exp) => Ok(exp >= now);
      match expOk
      case Raise(e) => Raise(e)
      case Ok(false) => Ok(None)
      case Ok(true) => if "sub" in p && !p["sub"].JStr? then Ok(None) else Ok(Some(p))
  }

  /** `decode_jwt_token`: a JWTError raises with INVALID_TOKEN. */
  function DecodeJwtToken(catalog: map<string, string>, verify: string -> Option<Payload>, token: string,
                          now: int, verifyExp: bool): (r: Outcome<Payload>)
    ensures r.Ok? <==> verify(token).Some? && ClaimsHold(verify(token).value, now, verifyExp)
    ensures r.Ok? ==> r.value == verify(token).value
    ensures JoseDecode(verify, token, now, verifyExp) == Ok(None) ==>
      r == Raise(AuthMessages.JwtAuthFailure(catalog, AuthMessages.INVALID_TOKEN))
    ensures JoseDecode(verify, token, now, verifyExp).Raise? ==> r == Raise(JoseDecode(verify, token, now, verifyExp).exc)
  {
    match JoseDecode(verify, token, now, verifyExp)
    case Raise(e) => Raise(e)
    case Ok(Some(p)) => Ok(p)
    case Ok(None) => Raise(AuthMessages.JwtAuthFailure(catalog, AuthMessages.INVALID_TOKEN))
  }

  /** The primary key `User.objects.get(id=sub)` looks for: None matches
      no row; anything else goes through `int()`, whose ValueError or
      TypeError Django raises again. */
  function SubjectKey(sub: Json): (r: Outcome<Option<int>>)
    ensures sub.JNull? ==> r == Ok(None)
    ensures sub.JStr? ==> (r.Ok? <==> ParseInt(sub.s).Some?) && (r.Ok? ==> r.value == Some(ParseInt(sub.s).value))
    ensures sub.JStr? && r.Raise? ==> r.exc.ValueError?
  {
    if sub.JNull? then Ok(None)
    else match IntCall(sub)
      case Raise(e) => Raise(e)
      case Ok(id) => Ok(Some(id))
  }

  /** `JwtAuth.authenticate`: decode, look the subject up, refuse an
      inactive user. The handlers for DoesNotExist and JWTError do not
      catch what decoding raises (already converted) nor the ValueError of
      a subject that is not a number, so those pass through. */
  function JwtAuthenticate(catalog: map<string, string>, verify: string -> Option<Payload>,
                           users: seq<User>, token: string, now: int): (r: Outcome<User>)
    ensures r.Ok? ==>
      verify(token).Some? && ClaimsHold(verify(token).value, now, true) &&
      Get(verify(token).value, "sub", JNull).JStr? &&
      ParseInt(Get(verify(token).value, "sub", JNull).s) == Some(r.value.id) &&
      r.value in users && r.value.isActive
    ensures (verify(token).Some? && ClaimsHold(verify(token).value, now, true) &&
             Get(verify(token).value, "sub", JNull).JStr? &&
             ParseInt(Get(verify(token).value, "sub", JNull).s).Some? &&
             FindUser(users, ParseInt(Get(verify(token).value, "sub", JNull).s).value).Some? &&
             FindUser(users, ParseInt(Get(verify(token).value, "sub", JNull).s).value).value.isActive) ==> r.Ok?
    ensures !(verify(token).Some? && ClaimsHold(verify(token).value, now, true)) && r.Raise? ==>
      r.exc == AuthMessages.JwtAuthFailure(catalog, AuthMessages.INVALID_TOKEN) || r.exc.TypeError?
    ensures r.Raise? ==> r.exc in {
      AuthMessages.JwtAuthFailure(catalog, AuthMessages.INVALID_TOKEN),
      AuthMessages.JwtAuthFailure(catalog, AuthMessages.USER_NOT_FOUND),
      AuthMessages.JwtAuthFailure(catalog, AuthMessages.INACTIVE_USER)} || r.exc.ValueError? || r.exc.TypeError?
    // a ValueError comes only from a subject string that is not a number
    ensures r.Raise? && r.exc.ValueError? ==>
      verify(token).Some? && Get(verify(token).value, "sub", JNull).JStr? &&
      ParseInt(Get(verify(token).value, "sub", JNull).s).None?
  {
    match DecodeJwtToken(catalog, verify, token, now, true)
    case Raise(e) => Raise(e)
    case Ok(payload) =>
      match SubjectKey(Get(payload, "sub", JNull))
      case Raise(e) => Raise(e)
      case Ok(key) =>
        var found := if key.Some? then FindUser(users, key.value) else None;
        match found
        case None => Raise(AuthMessages.JwtAuthFailure(catalog, AuthMessages.USER_NOT_FOUND))
        case Some(u) =>
          if !u.isActive then Raise(AuthMessages.JwtAuthFailure(catalog, AuthMessages.INACTIVE_USER))
          else Ok(u)
  }

  /** A signing library whose `verify` gives back the payload `encode` signed. */
  ghost predicate RoundTrips(encode: Payload -> Option<string>, verify: string -> Option<Payload>)
  {
    forall p :: encode(p).Some? ==> verify(encode(p).value) == Some(p)
  }

  /** As written, no token the backend mints ever decodes: its integer
      `sub` fails python-jose's subject check, so both tokens of every
      pair are refused with the invalid-token error at any time. */
  lemma ShippedTokensNeverDecode(
    catalog: map<string, string>, encode: Payload -> Option<string>, verify: string -> Option<Payload>,
    users: seq<User>, user: User, accessMinutes: int, refreshDays: int, issued: int, now: int, verifyExp: bool)
    requires RoundTrips(encode, verify)
    requires CreateTokenPair(catalog, encode, user, accessMinutes, refreshDays, issued, false).Ok?
    ensures var pair := CreateTokenPair(catalog, encode, user, accessMinutes, refreshDays, issued, false).value;
      JwtAuthenticate(catalog, verify, users, pair["access_token"], now) ==
        Raise(AuthMessages.JwtAuthFailure(catalog, AuthMessages.INVALID_TOKEN)) &&
      DecodeJwtToken(catalog, verify, pair["access_token"], now, verifyExp) ==
        Raise(AuthMessages.JwtAuthFailure(catalog, AuthMessages.INVALID_TOKEN)) &&
      DecodeJwtToken(catalog, verify, pair["refresh_token"], now, verifyExp) ==
        Raise(AuthMessages.JwtAuthFailure(catalog, AuthMessages.INVALID_TOKEN))
  {
    var pair := CreateTokenPair(catalog, encode, user, accessMinutes, refreshDays, issued, false).value;
    var a := TokenPayload(UserClaims(user, false), issued, accessMinutes * 60, "access");
    var f := TokenPayload(UserClaims(user, false), issued, refreshDays * 24 * SECONDS_PER_DAY, "refresh");
    assert verify(pair["access_token"]) == Some(a);
    assert verify(pair["refresh_token"]) == Some(f);
    assert a["sub"] == JInt(user.id) && f["sub"] == JInt(user.id);
  }

  /** With a string `sub`, the access token of a pair authenticates exactly
      the user it was minted for, while that user is active and until its
      `exp` has passed; after that it is refused as invalid. */
  lemma {:induction false} PairAuthenticatesItsUser(
    catalog: map<string, string>, encode: Payload -> Option<string>, verify: string -> Option<Payload>,
    users: seq<User>, user: User, accessMinutes: int, refreshDays: int, issued: int, now: int)
    requires RoundTrips(encode, verify)
    requires user in users && user.isActive && UniqueUserIds(users)
    requires CreateTokenPair(catalog, encode, user, accessMinutes, refreshDays, issued, true).Ok?
    ensures var token := CreateTokenPair(catalog, encode, user, accessMinutes, refreshDays, issued, true).value["access_token"];
      (now <= issued + accessMinutes * 60 ==> JwtAuthenticate(catalog, verify, users, token, now) == Ok(user)) &&
      (now > issued + accessMinutes * 60 ==>
        JwtAuthenticate(catalog, verify, users, token, now) == Raise(AuthMessages.JwtAuthFailure(catalog, AuthMessages.INVALID_TOKEN)))
  {
    var pair := CreateTokenPair(catalog, encode, user, accessMinutes, refreshDays, issued, true).value;
    var p := TokenPayload(UserClaims(user, true), issued, accessMinutes * 60, "access");
    assert verify(pair["access_token"]) == Some(p);
    assert p["exp"] == JInt(issued + accessMinutes * 60);
    assert Get(p, "sub", JNull) == UserClaims(user, true)["sub"];
    FindUserUnique(users, user);
  }

  /** With unique ids, looking up a user's id finds that user. */
  lemma {:induction false} FindUserUnique(users: seq<User>, user: User)
    requires user in users && UniqueUserIds(users)
    ensures FindUser(users, user.id) == Some(user)
  {
    if users[0] != user {
      assert user in users[1..];
      assert users[0].id != user.id by {
        var k :| 0 <= k < |users| && users[k] == user;
        assert k != 0;
      }
      assert UniqueUserIds(users[1..]) by {
        forall i, j | 0 <= i < j < |users[1..]| ensures users[1..][i].id != users[1..][j].id {
          assert users[1..][i] == users[i + 1] && users[1..][j] == users[j + 1];
        }
      }
      FindUserUnique(users[1..], user);
    }
  }

  /** Every rejection is a 401 when the message catalog is complete,
      except a subject that is not a number (ValueError) or an `exp` that
      is not one (TypeError); with the repository's catalog each of the
      JWT rejections is an AttributeError instead. */
  lemma AuthenticateFailureKinds(catalog: map<string, string>, verify: string -> Option<Payload>,
                                 users: seq<User>, token: string, now: int)
    ensures var r := JwtAuthenticate(catalog, verify, users, token, now);
      AuthMessages.Complete(catalog) && r.Raise? && !r.exc.ValueError? && !r.exc.TypeError? ==>
        r.exc.AuthenticationError?
    ensures var r := JwtAuthenticate(AuthMessages.JWT_AUTH, verify, users, token, now);
      r.Raise? && !r.exc.ValueError? && !r.exc.TypeError? ==> r.exc.AttributeError?
  {
  }
}
