/** Helpers of the token-refresh flow: pulling the bearer token out of the
    Authorization header (section 2.1 of RFC 6750) and checking that the
    access token presented with a refresh request has really expired. */
module AuthUtils {
  import opened Common
  import opened Errors
  import AuthMessages
  import Jwt

  const BEARER: string := "Bearer "
  const NOT_EXPIRED: string := "Access token is not expired. No need to refresh."

  /** `get_access_token_from_header`: a missing header counts as "". The
      token is the header with EVERY "Bearer " removed, not just the prefix. */
  function GetAccessTokenFromHeader(header: Option<string>): (r: Option<string>)
    ensures r.Some? <==> StartsWith(header.GetOr(""), BEARER)
    ensures r.Some? ==> r.value == ReplaceAll(header.value, BEARER, "")
  {
    var h := header.GetOr("");
    if StartsWith(h, BEARER) then Some(ReplaceAll(h, BEARER, "")) else None
  }

  /** Removing a pattern from a string that does not contain it changes nothing. */
  lemma {:induction false} ReplaceAllAbsent(s: string, pat: string, rep: string)
    requires |pat| > 0 && !Contains(s, pat)
    ensures ReplaceAll(s, pat, rep) == s
    decreases |s|
  {
    if |s| >= |pat| {
      assert s[..|pat|] != pat by { assert !OccursAt(s, pat, 0); }
      NoOccurrenceInSlice(s, pat, 1, |s|);
      assert s[1..|s|] == s[1..];
      ReplaceAllAbsent(s[1..], pat, rep);
      assert s == [s[0]] + s[1..];
    }
  }

  /** Deleting every occurrence of a pattern shortens a string that contains it. */
  lemma {:induction false} DeleteAllShortens(s: string, pat: string)
    requires |pat| > 0
    ensures |ReplaceAll(s, pat, "")| <= |s|
    ensures Contains(s, pat) ==> |ReplaceAll(s, pat, "")| < |s|
    decreases |s|
  {
    if |s| >= |pat| {
      if s[..|pat|] == pat {
        DeleteAllShortens(s[|pat|..], pat);
      } else {
        DeleteAllShortens(s[1..], pat);
        if Contains(s, pat) {
          var i :| 0 <= i <= |s| && OccursAt(s, pat, i);
          assert i != 0;
          assert s[1..][i - 1..i - 1 + |pat|] == s[i..i + |pat|];
          assert OccursAt(s[1..], pat, i - 1);
        }
      }
    }
  }

  /** For a header "Bearer " + t the result is t exactly when t holds no
      further "Bearer "; otherwise those are deleted too. */
  lemma HeaderTokenIsSuffix(t: string)
    ensures GetAccessTokenFromHeader(Some(BEARER + t)).Some?
    ensures GetAccessTokenFromHeader(Some(BEARER + t)).value == ReplaceAll(t, BEARER, "")
    ensures GetAccessTokenFromHeader(Some(BEARER + t)).value == t <==> !Contains(t, BEARER)
  {
    var h := BEARER + t;
    assert h[..|BEARER|] == BEARER;
    assert h[|BEARER|..] == t;
    if Contains(t, BEARER) {
      DeleteAllShortens(t, BEARER);
    } else {
      ReplaceAllAbsent(t, BEARER, "");
    }
  }

  /** No header, or any header that does not begin with "Bearer ", gives
      no token; the scheme is matched case-sensitively, so "bearer " (which
      section 2.1 of RFC 6750 allows) gives none either. */
  lemma NoBearerNoToken(h: string, t: string)
    ensures GetAccessTokenFromHeader(None) == None
    ensures !StartsWith(h, BEARER) ==> GetAccessTokenFromHeader(Some(h)) == None
    ensures GetAccessTokenFromHeader(Some("bearer " + t)) == None
  {
    var l := "bearer " + t;
    assert l[..|BEARER|] != BEARER by { assert l[0] != BEARER[0]; }
  }

  /** The `exp` claim compared with the current time, as
      `datetime.fromtimestamp(exp) > datetime.now()`; a non-number raises. */
  function ExpiryInFuture(exp: Json, now: int): Outcome<bool>
  {
    match exp
    case JInt(i) => Ok(i > now)
    case JFloat(f) => Ok(f > now as real)
    case JBool(b) => Ok((if b then 1 else 0) > now)
    case _ => Raise(TypeError("an integer is required"))
  }

  /** `validate_access_token`, decoding with python-jose's `verify_exp`
      option as given (on, as written). `except JWTError: pass` catches
      nothing here: decoding failures arrive already converted by
      `decode_jwt_token`. */
  function ValidateAccessToken(catalog: map<string, string>, verify: string -> Option<Jwt.Payload>,
                               token: string, now: int, verifyExp: bool): (r: Outcome<()>)
    ensures Jwt.JoseDecode(verify, token, now, verifyExp) == Ok(None) ==>
      r == Raise(AuthMessages.JwtAuthFailure(catalog, AuthMessages.INVALID_TOKEN))
    ensures Jwt.JoseDecode(verify, token, now, verifyExp).Raise? ==> r.Raise? && r.exc.TypeError?
    ensures (Jwt.JoseDecode(verify, token, now, verifyExp).Ok? && verify(token).Some? &&
             Get(verify(token).value, "type", JNull) != JStr("access")) ==>
      r == Raise(AuthMessages.JwtAuthFailure(catalog, AuthMessages.INVALID_TOKEN))
    ensures r.Ok? <==>
      verify(token).Some? && Jwt.ClaimsHold(verify(token).value, now, verifyExp) &&
      Get(verify(token).value, "type", JNull) == JStr("access") &&
      (!Truthy(Get(verify(token).value, "exp", JNull)) ||
       ExpiryInFuture(Get(verify(token).value, "exp", JNull), now) == Ok(false))
  {
    match Jwt.DecodeJwtToken(catalog, verify, token, now, verifyExp)
    case Raise(e) => Raise(e)
    case Ok(payload) =>
      if Get(payload, "type", JNull) != JStr("access") then
        Raise(AuthMessages.JwtAuthFailure(catalog, AuthMessages.INVALID_TOKEN))
      else
        var exp := Get(payload, "exp", JNull);
        if !Truthy(exp) then Ok(())
        else match ExpiryInFuture(exp, now)
          case Raise(e) => Raise(e)
          case Ok(true) => Raise(HttpError(400, NOT_EXPIRED))
          case Ok(false) => Ok(())
  }

  /** As written (`verify_exp` on), an access token minted with a string
      subject is refused with 400 before its expiry and as invalid once
      python-jose sees it expired: the refresh flow accepts it only in the
      second its `exp` names. */
  lemma RefreshOnlyAtExpiry(catalog: map<string, string>, encode: Jwt.Payload -> Option<string>,
                            verify: string -> Option<Jwt.Payload>, claims: Jwt.Payload,
                            issued: int, duration: int, now: int)
    requires Jwt.RoundTrips(encode, verify)
    requires "sub" in claims ==> claims["sub"].JStr?
    requires Jwt.CreateToken(catalog, encode, claims, issued, duration, "access").Ok?
    requires issued + duration != 0
    ensures var token := Jwt.CreateToken(catalog, encode, claims, issued, duration, "access").value;
      var r := ValidateAccessToken(catalog, verify, token, now, true);
      (now < issued + duration ==> r == Raise(HttpError(400, NOT_EXPIRED))) &&
      (now == issued + duration ==> r == Ok(())) &&
      (now > issued + duration ==> r == Raise(AuthMessages.JwtAuthFailure(catalog, AuthMessages.INVALID_TOKEN)))
  {
    var p := Jwt.TokenPayload(claims, issued, duration, "access");
    assert verify(encode(p).value) == Some(p);
    assert p["exp"] == JInt(issued + duration);
  }

  /** With `verify_exp` off, the intended flow: the same token is refused
      with 400 before its expiry and accepted from its expiry on. */
  lemma RefreshAfterExpiryIntended(catalog: map<string, string>, encode: Jwt.Payload -> Option<string>,
                                   verify: string -> Option<Jwt.Payload>, claims: Jwt.Payload,
                                   issued: int, duration: int, now: int)
    requires Jwt.RoundTrips(encode, verify)
    requires "sub" in claims ==> claims["sub"].JStr?
    requires Jwt.CreateToken(catalog, encode, claims, issued, duration, "access").Ok?
    requires issued + duration != 0
    ensures var token := Jwt.CreateToken(catalog, encode, claims, issued, duration, "access").value;
      var r := ValidateAccessToken(catalog, verify, token, now, false);
      (now < issued + duration ==> r == Raise(HttpError(400, NOT_EXPIRED))) &&
      (now >= issued + duration ==> r == Ok(()))
  {
    var p := Jwt.TokenPayload(claims, issued, duration, "access");
    assert verify(encode(p).value) == Some(p);
    assert p["exp"] == JInt(issued + duration);
  }
}
