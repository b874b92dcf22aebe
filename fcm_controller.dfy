/** The push-token endpoints: registering a device's FCM token (an upsert
    on the pair device id and token) and sending a test notification to
    the user's most recently updated active token. */
module FcmController {
  import opened Common
  import opened Errors
  import opened Tables

  const REGISTER_FAILED: string := "Failed to register FCM token"
  const REGISTERED: string := "FCM token registered successfully"
  const UPDATED: string := "FCM token updated successfully"
  const AUTH_REQUIRED: string := "Authentication required"
  const NO_TOKEN: string := "No active push token found for your device. Please ensure notifications are enabled in the app."
  const TEST_SENT: string := "Test notification sent successfully"
  const TEST_NOT_SENT: string := "Failed to send test notification. Check server logs for details."
  const TEST_FAILED: string := "Failed to send test notification"

  /** The position of the row with the key (device id, token), if any. */
  function TokenIndex(tokens: seq<DeviceToken>, deviceId: string, fcmToken: string): (r: Option<nat>)
    ensures r.Some? ==> r.value < |tokens| && tokens[r.value].deviceId == deviceId && tokens[r.value].fcmToken == fcmToken
    ensures r.None? ==> forall i :: 0 <= i < |tokens| ==> !(tokens[i].deviceId == deviceId && tokens[i].fcmToken == fcmToken)
  {
    if |tokens| == 0 then None
    else if tokens[0].deviceId == deviceId && tokens[0].fcmToken == fcmToken then Some(0)
    else match TokenIndex(tokens[1..], deviceId, fcmToken)
      case Some(k) => Some(k + 1)
      case None => None
  }

  /** The table after the upsert: the row with the key takes the
      requester, the platform and `is_active` True, or a new row with
      those values is appended. */
  function TokenUpsert(tokens: seq<DeviceToken>, deviceId: string, fcmToken: string, platform: string,
                       userId: Option<int>, now: int): (r: seq<DeviceToken>)
    requires UniqueTokenKeys(tokens)
    ensures UniqueTokenKeys(r)
    ensures |r| >= |tokens|
    ensures exists k :: (0 <= k < |r| && r[k].deviceId == deviceId && r[k].fcmToken == fcmToken &&
                         r[k].userId == userId && r[k].platform == platform && r[k].isActive && r[k].updatedAt == now)
    ensures forall i :: 0 <= i < |tokens| && !(tokens[i].deviceId == deviceId && tokens[i].fcmToken == fcmToken) ==>
      r[i] == tokens[i]
    ensures TokenIndex(tokens, deviceId, fcmToken).Some? ==> |r| == |tokens|
    ensures TokenIndex(tokens, deviceId, fcmToken).None? ==> |r| == |tokens| + 1
  {
    match TokenIndex(tokens, deviceId, fcmToken)
    case Some(k) =>
      var t := tokens[k];
      var r := tokens[k := t.(userId := userId, platform := platform, isActive := true, updatedAt := now)];
      assert r[k].deviceId == deviceId && r[k].fcmToken == fcmToken;
      r
    case None =>
      var r := tokens + [DeviceToken(NextTokenId(tokens), deviceId, userId, fcmToken, platform, true, now, now)];
      assert r[|tokens|].deviceId == deviceId && r[|tokens|].fcmToken == fcmToken;
      r
  }

  /** Registering the same token twice leaves one row for it. */
  lemma {:induction false} UpsertIdempotent(tokens: seq<DeviceToken>, deviceId: string, fcmToken: string,
                                            platform: string, userId: Option<int>, now: int)
    requires UniqueTokenKeys(tokens)
    ensures var once := TokenUpsert(tokens, deviceId, fcmToken, platform, userId, now);
      TokenUpsert(once, deviceId, fcmToken, platform, userId, now) == once
  {
    var once := TokenUpsert(tokens, deviceId, fcmToken, platform, userId, now);
    var k :| 0 <= k < |once| && once[k].deviceId == deviceId && once[k].fcmToken == fcmToken &&
      once[k].userId == userId && once[k].platform == platform && once[k].isActive && once[k].updatedAt == now;
    var j := TokenIndex(once, deviceId, fcmToken);
    assert j == Some(k) by {
      assert j.Some?;
      assert once[j.value].deviceId == once[k].deviceId && once[j.value].fcmToken == once[k].fcmToken;
    }
    var t := once[k];
    assert t.(userId := userId, platform := platform, isActive := true, updatedAt := now) == t;
    assert once[k := t] == once;
  }

  /** `register_fcm_token`. `userId` is the authenticated requester, if
      any; `dbFails` says whether the transaction raises, in which case it
      rolls back and the reply is a 500. */
  method RegisterFcmToken(db: Database, deviceId: string, fcmToken: string, platform: string,
                          userId: Option<int>, now: int, dbFails: bool)
    returns (r: Outcome<string>)
    requires db.Valid()
    modifies db`tokens
    ensures db.Valid()
    ensures dbFails ==> r == Raise(HttpError(500, REGISTER_FAILED)) && db.tokens == old(db.tokens)
    ensures !dbFails ==>
      db.tokens == TokenUpsert(old(db.tokens), deviceId, fcmToken, platform, userId, now) &&
      r == Ok(if TokenIndex(old(db.tokens), deviceId, fcmToken).None? then REGISTERED else UPDATED)
  {
    if dbFails {
      return Raise(HttpError(500, REGISTER_FAILED));
    }
    var found := TokenIndex(db.tokens, deviceId, fcmToken);
    var created := found.None?;
    if created {
      var row := DeviceToken(NextTokenId(db.tokens), deviceId, userId, fcmToken, platform, true, now, now);
      db.tokens := db.tokens + [row];
    } else {
      var k := found.value;
      var row := db.tokens[k];
      row := row.(userId := userId);
      row := row.(platform := platform);
      row := row.(isActive := true);
      row := row.(updatedAt := now);
      db.tokens := db.tokens[k := row];
    }
    r := Ok(if created then REGISTERED else UPDATED);
  }

  /** `filter(user=..., is_active=True).order_by("-updated_at").first()`:
      an active token of the user with the latest update (the first such
      in table order on a tie). */
  function MostRecentToken(tokens: seq<DeviceToken>, userId: int): (r: Option<DeviceToken>)
    ensures r.Some? ==> r.value in tokens && r.value.userId == Some(userId) && r.value.isActive
    ensures r.Some? ==> forall i :: 0 <= i < |tokens| && tokens[i].userId == Some(userId) && tokens[i].isActive ==>
      tokens[i].updatedAt <= r.value.updatedAt
    ensures r.None? <==> forall i :: 0 <= i < |tokens| ==> !(tokens[i].userId == Some(userId) && tokens[i].isActive)
  {
    if |tokens| == 0 then None
    else
      var rest := MostRecentToken(tokens[1..], userId);
      var t := tokens[0];
      if t.userId == Some(userId) && t.isActive && (rest.None? || t.updatedAt >= rest.value.updatedAt) then Some(t)
      else
        assert forall i :: 1 <= i < |tokens| ==> tokens[i] == tokens[1..][i - 1];
        rest
  }

  datatype TestReply = TestReply(success: bool, message: string)

  /** `send_test_notification`. `userId` is the authenticated user, if any;
      `senderExists` says whether the FCM service offers a test-send method
      and `sendOk` what it answers for a device. */
  function SendTestNotification(tokens: seq<DeviceToken>, userId: Option<int>, senderExists: bool,
                                sendOk: string -> bool): (r: Outcome<TestReply>)
    ensures userId.None? ==> r == Raise(HttpError(401, AUTH_REQUIRED))
    ensures userId.Some? && MostRecentToken(tokens, userId.value).None? ==> r == Ok(TestReply(false, NO_TOKEN))
    ensures userId.Some? && MostRecentToken(tokens, userId.value).Some? && !senderExists ==>
      r == Raise(HttpError(500, TEST_FAILED))
    ensures userId.Some? && MostRecentToken(tokens, userId.value).Some? && senderExists ==>
      var device := MostRecentToken(tokens, userId.value).value.deviceId;
      r == Ok(if sendOk(device) then TestReply(true, TEST_SENT) else TestReply(false, TEST_NOT_SENT))
  {
    var attempt: Outcome<TestReply> :=
      if userId.None? then Raise(HttpError(401, AUTH_REQUIRED))
      else match MostRecentToken(tokens, userId.value)
        case None => Ok(TestReply(false, NO_TOKEN))
        case Some(t) =>
          if !senderExists then Raise(AttributeError("'FCMService' object has no attribute 'send_test_notification'"))
          else if sendOk(t.deviceId) then Ok(TestReply(true, TEST_SENT))
          else Ok(TestReply(false, TEST_NOT_SENT));
    ReraiseHttpOr500(attempt, TEST_FAILED)
  }

  /** As shipped the service has no test-send method, so a user with an
      active token always gets a 500; the intended service answers with
      the send result. */
  lemma ShippedTestNotificationFails(tokens: seq<DeviceToken>, userId: int, sendOk: string -> bool)
    requires exists i :: 0 <= i < |tokens| && tokens[i].userId == Some(userId) && tokens[i].isActive
    ensures SendTestNotification(tokens, Some(userId), false, sendOk) == Raise(HttpError(500, TEST_FAILED))
    ensures SendTestNotification(tokens, Some(userId), true, sendOk).Ok?
  {
  }
}
