/** `notify_loved_ones_with_gps`: after a confirmed crash, one push
    message with the crash location goes to every active device token of
    every active loved one of the device owner. The push service's send
    call is a parameter: `senderExists` says whether the FCM service has
    the method the loop calls, and `sendRaises` which messages it fails
    on. Number formatting (`{lat}` in the link) is the parameter `fmt`. */
module CrashUtils {
  import opened Common
  import opened Tables
  import opened Sorting

  const MAPS_PREFIX: string := "https://www.google.com/maps?q="
  const ALERT_KIND: string := "loved_one_crash_alert"
  const PRIORITY: string := "high"
  const CHANNEL: string := "crash_alerts"
  const UNKNOWN_DEVICE: string := "unknown"

  /** One message handed to the push service, with the device id it is
      routed by. */
  datatype Message = Message(
    deviceId: string,
    to: string,
    sound: string,
    title: string,
    body: string,
    kind: string,
    crashEventId: int,
    userEmail: string,
    latitude: Option<real>,
    longitude: Option<real>,
    altitude: Option<real>,
    mapLink: string,
    priority: string,
    channelId: string)

  /** The Google Maps link for a position. */
  function MapLink(lat: real, lng: real, fmt: real -> string): string
  {
    MAPS_PREFIX + fmt(lat) + "," + fmt(lng)
  }

  /** The message for one device token of one loved one. */
  function AlertMessage(owner: User, event: CrashEvent, token: DeviceToken, link: string): Message
  {
    Message(
      if token.deviceId == "" then UNKNOWN_DEVICE else token.deviceId,
      token.fcmToken,
      "default",
      "\U{1F6A8} Emergency: " + owner.email + " - Crash Detected",
      "Location: " + link,
      ALERT_KIND,
      event.id,
      owner.email,
      event.crashLatitude,
      event.crashLongitude,
      event.crashAltitude,
      link,
      PRIORITY,
      CHANNEL)
  }

  /** A user's active device tokens, newest first. */
  function ActiveTokens(tokens: seq<DeviceToken>, userId: int): seq<DeviceToken>
  {
    SortBy(Filter(tokens, (t: DeviceToken) => t.userId == Some(userId) && t.isActive), TokenNewerFirst)
  }

  /** The messages for a list of tokens, in order. */
  function MessagesFor(owner: User, event: CrashEvent, link: string, toks: seq<DeviceToken>): seq<Message>
  {
    if |toks| == 0 then []
    else MessagesFor(owner, event, link, toks[..|toks| - 1]) + [AlertMessage(owner, event, toks[|toks| - 1], link)]
  }

  /** The messages for a list of loved ones, one per (loved one, token) pair. */
  function Fanout(owner: User, event: CrashEvent, link: string, los: seq<LovedOne>, tokens: seq<DeviceToken>): seq<Message>
  {
    if |los| == 0 then []
    else Fanout(owner, event, link, los[..|los| - 1], tokens) +
         MessagesFor(owner, event, link, ActiveTokens(tokens, los[|los| - 1].lovedOneId))
  }

  /** The number of (loved one, active token) pairs. */
  function PairCount(los: seq<LovedOne>, tokens: seq<DeviceToken>): nat
  {
    if |los| == 0 then 0
    else PairCount(los[..|los| - 1], tokens) + |ActiveTokens(tokens, los[|los| - 1].lovedOneId)|
  }

  /** The messages that reach the push service: none when the method is
      missing, otherwise the ones whose send does not raise. */
  function DeliveredOf(ms: seq<Message>, senderExists: bool, sendRaises: Message -> bool): (r: seq<Message>)
    ensures |r| <= |ms|
    ensures !senderExists ==> r == []
  {
    if |ms| == 0 || !senderExists then []
    else
      var init := DeliveredOf(ms[..|ms| - 1], senderExists, sendRaises);
      var last := ms[|ms| - 1];
      if sendRaises(last) then init else init + [last]
  }

  /** A failing send does not stop the loop: with the method present,
      exactly the messages whose send does not raise get through. */
  lemma {:induction false} DeliveredMembers(ms: seq<Message>, senderExists: bool, sendRaises: Message -> bool)
    ensures forall m :: m in DeliveredOf(ms, senderExists, sendRaises) ==> m in ms && !sendRaises(m)
    ensures senderExists ==> forall m :: m in ms && !sendRaises(m) ==> m in DeliveredOf(ms, senderExists, sendRaises)
  {
    if |ms| > 0 && senderExists {
      var init := ms[..|ms| - 1];
      DeliveredMembers(init, senderExists, sendRaises);
      assert ms == init + [ms[|ms| - 1]];
    }
  }

  /** The owner of the crash event, as `crash_event.user`. */
  function Owner(users: seq<User>, event: CrashEvent): Option<User>
  {
    if event.userId.None? then None else FindUser(users, event.userId.value)
  }

  /** The guards: an owner, and a truthy latitude and longitude. */
  predicate CanNotify(users: seq<User>, event: CrashEvent)
  {
    Owner(users, event).Some? &&
    event.crashLatitude.Some? && event.crashLatitude.value != 0.0 &&
    event.crashLongitude.Some? && event.crashLongitude.value != 0.0
  }

  /** The messages the function tries to send. */
  function Attempted(db_users: seq<User>, lovedOnes: seq<LovedOne>, tokens: seq<DeviceToken>,
                     event: CrashEvent, fmt: real -> string): seq<Message>
  {
    if !CanNotify(db_users, event) then []
    else
      var owner := Owner(db_users, event).value;
      var link := MapLink(event.crashLatitude.value, event.crashLongitude.value, fmt);
      Fanout(owner, event, link, ActiveLovedOnes(lovedOnes, owner.id), tokens)
  }

  lemma {:induction false} DeliveredConcat(a: seq<Message>, b: seq<Message>, senderExists: bool, sendRaises: Message -> bool)
    ensures DeliveredOf(a + b, senderExists, sendRaises) ==
      DeliveredOf(a, senderExists, sendRaises) + DeliveredOf(b, senderExists, sendRaises)
    decreases |b|
  {
    if |b| == 0 {
      assert a + b == a;
    } else if senderExists {
      var init := b[..|b| - 1];
      DeliveredConcat(a, init, senderExists, sendRaises);
      assert (a + b)[..|a + b| - 1] == a + init;
    }
  }

  /** The inner loop: one message per token of one loved one. */
  method SendToTokens(user: User, event: CrashEvent, link: string, toks: seq<DeviceToken>,
                      senderExists: bool, sendRaises: Message -> bool)
    returns (sent: seq<Message>, delivered: seq<Message>)
    ensures sent == MessagesFor(user, event, link, toks)
    ensures delivered == DeliveredOf(sent, senderExists, sendRaises)
  {
    sent, delivered := [], [];
    for j := 0 to |toks|
      invariant sent == MessagesFor(user, event, link, toks[..j])
      invariant delivered == DeliveredOf(sent, senderExists, sendRaises)
    {
      var m := AlertMessage(user, event, toks[j], link);
      assert toks[..j + 1][..j] == toks[..j];
      assert (sent + [m])[..|sent|] == sent;
      sent := sent + [m];
      if senderExists && !sendRaises(m) {
        delivered := delivered + [m];
      }
    }
    assert toks[..|toks|] == toks;
  }

  /** `notify_loved_ones_with_gps`: returns the messages it tried to send
      and the ones that reached the push service. It changes no table. */
  method NotifyLovedOnesWithGps(db: Database, event: CrashEvent, fmt: real -> string,
                                senderExists: bool, sendRaises: Message -> bool)
    returns (attempted: seq<Message>, delivered: seq<Message>)
    ensures attempted == Attempted(db.users, db.lovedOnes, db.tokens, event, fmt)
    ensures !CanNotify(db.users, event) ==> attempted == []
    ensures delivered == DeliveredOf(attempted, senderExists, sendRaises)
  {
    attempted, delivered := [], [];
    var owner := Owner(db.users, event);
    if owner.None? {
      return;
    }
    var user := owner.value;
    if !(event.crashLatitude.Some? && event.crashLatitude.value != 0.0 &&
         event.crashLongitude.Some? && event.crashLongitude.value != 0.0) {
      return;
    }
    var link := MapLink(event.crashLatitude.value, event.crashLongitude.value, fmt);
    attempted, delivered := SendToLovedOnes(user, event, link, ActiveLovedOnes(db.lovedOnes, user.id),
                                            db.tokens, senderExists, sendRaises);
  }

  /** The outer loop: the messages for every token of every loved one. */
  method SendToLovedOnes(user: User, event: CrashEvent, link: string, los: seq<LovedOne>,
                         tokens: seq<DeviceToken>, senderExists: bool, sendRaises: Message -> bool)
    returns (attempted: seq<Message>, delivered: seq<Message>)
    ensures attempted == Fanout(user, event, link, los, tokens)
    ensures delivered == DeliveredOf(attempted, senderExists, sendRaises)
  {
    attempted, delivered := [], [];
    for i := 0 to |los|
      invariant attempted == Fanout(user, event, link, los[..i], tokens)
      invariant delivered == DeliveredOf(attempted, senderExists, sendRaises)
    {
      var sent, ok := SendToTokens(user, event, link, ActiveTokens(tokens, los[i].lovedOneId),
                                   senderExists, sendRaises);
      DeliveredConcat(attempted, sent, senderExists, sendRaises);
      assert los[..i + 1][..i] == los[..i];
      attempted, delivered := attempted + sent, delivered + ok;
    }
    assert los[..|los|] == los;
  }

  lemma {:induction false} MessagesForShape(owner: User, event: CrashEvent, link: string, toks: seq<DeviceToken>)
    ensures |MessagesFor(owner, event, link, toks)| == |toks|
    ensures forall k :: 0 <= k < |toks| ==> MessagesFor(owner, event, link, toks)[k] == AlertMessage(owner, event, toks[k], link)
  {
    if |toks| > 0 {
      MessagesForShape(owner, event, link, toks[..|toks| - 1]);
    }
  }

  /** Exactly one message per (active loved one, active token) pair. */
  lemma {:induction false} OneMessagePerPair(owner: User, event: CrashEvent, link: string,
                                             los: seq<LovedOne>, tokens: seq<DeviceToken>)
    ensures |Fanout(owner, event, link, los, tokens)| == PairCount(los, tokens)
  {
    if |los| > 0 {
      OneMessagePerPair(owner, event, link, los[..|los| - 1], tokens);
      MessagesForShape(owner, event, link, ActiveTokens(tokens, los[|los| - 1].lovedOneId));
    }
  }

  /** Every message is a crash alert with the fixed type, priority and
      channel, carries the map link in its body, and goes to an active
      token of one of the given loved ones. */
  lemma {:induction false} FanoutMessages(owner: User, event: CrashEvent, link: string,
                                          los: seq<LovedOne>, tokens: seq<DeviceToken>)
    ensures forall m :: m in Fanout(owner, event, link, los, tokens) ==>
      m.kind == ALERT_KIND && m.priority == PRIORITY && m.channelId == CHANNEL &&
      m.mapLink == link && m.body == "Location: " + link && m.crashEventId == event.id &&
      m.deviceId != "" &&
      exists l, t :: l in los && t in tokens && t.userId == Some(l.lovedOneId) && t.isActive &&
        m.to == t.fcmToken
  {
    if |los| > 0 {
      var init := los[..|los| - 1];
      var last := los[|los| - 1];
      FanoutMessages(owner, event, link, init, tokens);
      var toks := ActiveTokens(tokens, last.lovedOneId);
      MessagesForShape(owner, event, link, toks);
      SortByMembers(Filter(tokens, (t: DeviceToken) => t.userId == Some(last.lovedOneId) && t.isActive), TokenNewerFirst);
      forall m | m in Fanout(owner, event, link, los, tokens)
        ensures m.kind == ALERT_KIND && m.priority == PRIORITY && m.channelId == CHANNEL &&
          m.mapLink == link && m.body == "Location: " + link && m.crashEventId == event.id &&
          m.deviceId != "" &&
          exists l, t :: l in los && t in tokens && t.userId == Some(l.lovedOneId) && t.isActive &&
            m.to == t.fcmToken
      {
        if m in Fanout(owner, event, link, init, tokens) {
          var l, t :| l in init && t in tokens && t.userId == Some(l.lovedOneId) && t.isActive && m.to == t.fcmToken;
          assert l in los;
        } else {
          var k :| 0 <= k < |toks| && MessagesFor(owner, event, link, toks)[k] == m;
          assert toks[k] in tokens;
          assert last in los;
        }
      }
    }
  }

  /** The guards: no owner, or a missing or zero coordinate, means no
      message at all. */
  lemma NoOwnerOrNoFixSendsNothing(users: seq<User>, lovedOnes: seq<LovedOne>, tokens: seq<DeviceToken>,
                                   event: CrashEvent, fmt: real -> string)
    requires event.userId.None? || event.crashLatitude == Some(0.0) || event.crashLongitude.None?
    ensures Attempted(users, lovedOnes, tokens, event, fmt) == []
  {
  }

  /** As shipped, the FCM service has no method of the name the loop
      calls, so every attempt raises AttributeError, which the loop
      catches: no loved one is ever notified. */
  lemma ShippedSenderDeliversNothing(ms: seq<Message>, sendRaises: Message -> bool)
    ensures DeliveredOf(ms, false, sendRaises) == []
  {
  }

  /** With the method present, a failing send drops only its own message. */
  lemma OneFailureDropsOneMessage(ms: seq<Message>, k: nat, sendRaises: Message -> bool)
    requires k < |ms| && sendRaises(ms[k])
    requires forall i :: 0 <= i < |ms| && i != k ==> !sendRaises(ms[i])
    ensures forall i :: 0 <= i < |ms| && i != k ==> ms[i] in DeliveredOf(ms, true, sendRaises)
    ensures ms[k] !in DeliveredOf(ms, true, sendRaises)
  {
    DeliveredMembers(ms, true, sendRaises);
  }
}
