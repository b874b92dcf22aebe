/** The database tables the backend reads and writes, as in-memory rows.
    Timestamps are whole seconds; float columns are reals. */
module Tables {
  import opened Common
  import opened Sorting

  /** A `User` row, which is also what `UserSchema` shows of it. */
  datatype User = User(
    id: int,
    username: string,
    firstName: string,
    middleName: string,
    lastName: string,
    email: string,
    isStaff: bool,
    isActive: bool,
    isSuperuser: bool,
    dateJoined: int)

  /** A `LovedOne` row: `lovedOneId` is a contact of the device owner `userId`. */
  datatype LovedOne = LovedOne(
    id: int,
    userId: int,
    lovedOneId: int,
    isActive: bool,
    createdAt: int,
    updatedAt: int)

  /** A `DeviceToken` row; `(deviceId, fcmToken)` is unique. */
  datatype DeviceToken = DeviceToken(
    id: int,
    deviceId: string,
    userId: Option<int>,
    fcmToken: string,
    platform: string,
    isActive: bool,
    createdAt: int,
    updatedAt: int)

  /** A `SensorData` row. */
  datatype SensorRow = SensorRow(
    deviceId: string,
    ax: real, ay: real, az: real,
    roll: real, pitch: real,
    tiltDetected: bool,
    timestamp: int)

  /** A `CrashEvent` row (the JSON columns for the impact acceleration and
      the final tilt are left out). */
  datatype CrashEvent = CrashEvent(
    id: int,
    deviceId: string,
    userId: Option<int>,
    crashTimestamp: int,
    isConfirmedCrash: bool,
    confidenceScore: Option<real>,
    severity: string,
    crashType: string,
    aiReasoning: string,
    keyIndicators: Json,
    falsePositiveRisk: Option<real>,
    maxGForce: Option<real>,
    crashLatitude: Option<real>,
    crashLongitude: Option<real>,
    crashAltitude: Option<real>,
    gpsAccuracyAtCrash: Option<real>,
    speedAtCrash: Option<real>,
    speedChangeAtCrash: Option<real>,
    maxSpeedBeforeCrash: Option<real>,
    alertSent: bool,
    userFeedback: string,
    userComments: string,
    createdAt: int,
    updatedAt: int)

  predicate UniqueUserIds(users: seq<User>)
  {
    forall i, j :: 0 <= i < j < |users| ==> users[i].id != users[j].id
  }

  predicate UniqueTokenKeys(tokens: seq<DeviceToken>)
  {
    forall i, j :: 0 <= i < j < |tokens| ==>
      (tokens[i].deviceId, tokens[i].fcmToken) != (tokens[j].deviceId, tokens[j].fcmToken)
  }

  predicate UniqueEventIds(events: seq<CrashEvent>)
  {
    forall i, j :: 0 <= i < j < |events| ==> events[i].id != events[j].id
  }

  /** Every stored crash alert interval lies in 10..60 seconds, as the
      column's validators demand. */
  predicate ValidIntervals(settings: map<int, int>)
  {
    forall uid :: uid in settings ==> 10 <= settings[uid] <= 60
  }

  /** The user with the given id, if there is one. */
  function FindUser(users: seq<User>, id: int): (r: Option<User>)
    ensures r.Some? ==> r.value in users && r.value.id == id
    ensures r.None? ==> forall i :: 0 <= i < |users| ==> users[i].id != id
  {
    if |users| == 0 then None
    else if users[0].id == id then Some(users[0])
    else FindUser(users[1..], id)
  }

  /** The position of the user with the given id, if there is one. */
  function UserIndex(users: seq<User>, id: int): (r: Option<nat>)
    ensures r.Some? ==> r.value < |users| && users[r.value].id == id
    ensures r.None? ==> forall i :: 0 <= i < |users| ==> users[i].id != id
  {
    if |users| == 0 then None
    else if users[0].id == id then Some(0)
    else match UserIndex(users[1..], id)
      case Some(k) => Some(k + 1)
      case None => None
  }

  /** The first crash event with the given id (`filter(id=...).first()`). */
  function FindEvent(events: seq<CrashEvent>, id: int): (r: Option<nat>)
    ensures r.Some? ==> r.value < |events| && events[r.value].id == id
    ensures r.None? ==> forall i :: 0 <= i < |events| ==> events[i].id != id
  {
    if |events| == 0 then None
    else if events[0].id == id then Some(0)
    else match FindEvent(events[1..], id)
      case Some(k) => Some(k + 1)
      case None => None
  }

  /** An id larger than every id in the table (the next auto-increment). */
  function NextEventId(events: seq<CrashEvent>): (r: int)
    ensures forall i :: 0 <= i < |events| ==> events[i].id < r
  {
    if |events| == 0 then 1
    else
      var rest := NextEventId(events[1..]);
      if events[0].id + 1 > rest then events[0].id + 1 else rest
  }

  /** An id larger than every id in the token table. */
  function NextTokenId(tokens: seq<DeviceToken>): (r: int)
    ensures forall i :: 0 <= i < |tokens| ==> tokens[i].id < r
  {
    if |tokens| == 0 then 1
    else
      var rest := NextTokenId(tokens[1..]);
      if tokens[0].id + 1 > rest then tokens[0].id + 1 else rest
  }

  /** The default ordering of the loved-one and token tables, `-created_at`. */
  predicate LovedOneNewerFirst(a: LovedOne, b: LovedOne) { a.createdAt >= b.createdAt }
  predicate TokenNewerFirst(a: DeviceToken, b: DeviceToken) { a.createdAt >= b.createdAt }

  lemma NewerFirstArePreorders()
    ensures TotalPreorder(LovedOneNewerFirst) && TotalPreorder(TokenNewerFirst)
  {
  }

  /** A user's active loved-one relationships in the table's default
      order, newest first (`filter(user_id=..., is_active=True)`). */
  function ActiveLovedOnes(lovedOnes: seq<LovedOne>, ownerId: int): (r: seq<LovedOne>)
    ensures forall i :: 0 <= i < |r| ==> r[i] in lovedOnes && r[i].userId == ownerId && r[i].isActive
    ensures forall i :: 0 <= i < |lovedOnes| && lovedOnes[i].userId == ownerId && lovedOnes[i].isActive ==>
      lovedOnes[i] in r
    ensures SortedBy(r, LovedOneNewerFirst)
    ensures forall l :: multiset(r)[l] == if l.userId == ownerId && l.isActive then multiset(lovedOnes)[l] else 0
  {
    NewerFirstArePreorders();
    OrderedFilter(lovedOnes, (l: LovedOne) => l.userId == ownerId && l.isActive, LovedOneNewerFirst)
  }

  /** The tables, updated in place by the controllers. `settings` maps a
      user id to its `crash_alert_interval_seconds` (the one-to-one
      `UserSettings` row). */
  class Database {
    var users: seq<User>
    var settings: map<int, int>
    var lovedOnes: seq<LovedOne>
    var tokens: seq<DeviceToken>
    var sensorData: seq<SensorRow>
    var crashEvents: seq<CrashEvent>

    ghost predicate Valid()
      reads this
    {
      UniqueUserIds(users) && UniqueTokenKeys(tokens) && UniqueEventIds(crashEvents) &&
      ValidIntervals(settings)
    }

    constructor (users: seq<User>, settings: map<int, int>, lovedOnes: seq<LovedOne>,
                 tokens: seq<DeviceToken>, sensorData: seq<SensorRow>, crashEvents: seq<CrashEvent>)
      requires UniqueUserIds(users) && UniqueTokenKeys(tokens) && UniqueEventIds(crashEvents)
      requires ValidIntervals(settings)
      ensures Valid()
      ensures this.users == users && this.settings == settings && this.lovedOnes == lovedOnes
      ensures this.tokens == tokens && this.sensorData == sensorData && this.crashEvents == crashEvents
    {
      this.users := users;
      this.settings := settings;
      this.lovedOnes := lovedOnes;
      this.tokens := tokens;
      this.sensorData := sensorData;
      this.crashEvents := crashEvents;
    }
  }
}
