/** The crash detector service: the user's alert interval, the recent
    sensor readings and crash events that give the AI its context, and the
    GPS fields copied onto a crash event. `now` is the current time in
    seconds; `dbFails` says whether the query raises DatabaseError. */
module CrashDetector {
  import opened Common
  import opened Tables
  import opened Sorting
  import UserSettingsController

  const DEFAULT_INTERVAL: int := 15

  /** `get_user_crash_alert_interval`: 15 for an anonymous request or a
      database failure, otherwise the stored value, created as 15 when
      missing. `userId` is None when the request is not authenticated. */
  method GetUserCrashAlertInterval(db: Database, userId: Option<int>, dbFails: bool) returns (interval: int)
    requires db.Valid()
    modifies db`settings
    ensures db.Valid()
    ensures 10 <= interval <= 60
    ensures userId.None? || dbFails ==> interval == DEFAULT_INTERVAL && db.settings == old(db.settings)
    ensures userId.Some? && !dbFails ==>
      db.settings == UserSettingsController.GetOrCreate(old(db.settings), userId.value, DEFAULT_INTERVAL) &&
      interval == db.settings[userId.value]
  {
    if userId.None? || dbFails {
      return DEFAULT_INTERVAL;
    }
    db.settings := UserSettingsController.GetOrCreate(db.settings, userId.value, DEFAULT_INTERVAL);
    interval := db.settings[userId.value];
  }

  predicate ByTimestamp(a: SensorRow, b: SensorRow) { a.timestamp <= b.timestamp }
  predicate NewestFirst(a: CrashEvent, b: CrashEvent) { a.crashTimestamp >= b.crashTimestamp }

  lemma ByTimestampIsPreorder()
    ensures TotalPreorder(ByTimestamp)
  {
  }

  lemma NewestFirstIsPreorder()
    ensures TotalPreorder(NewestFirst)
  {
  }

  /** The rows of the device inside the window. */
  predicate InSensorWindow(r: SensorRow, deviceId: string, now: int, lookbackSeconds: int)
  {
    r.deviceId == deviceId && r.timestamp >= now - lookbackSeconds
  }

  /** `get_recent_sensor_data`: the device's rows of the last
      `lookbackSeconds`, oldest first; [] when the query fails. */
  function GetRecentSensorData(rows: seq<SensorRow>, deviceId: string, now: int,
                               lookbackSeconds: int, dbFails: bool): (r: seq<SensorRow>)
    ensures dbFails ==> r == []
    ensures forall i :: 0 <= i < |r| ==> r[i] in rows && InSensorWindow(r[i], deviceId, now, lookbackSeconds)
    ensures !dbFails ==> forall i :: 0 <= i < |rows| && InSensorWindow(rows[i], deviceId, now, lookbackSeconds) ==> rows[i] in r
    ensures SortedBy(r, ByTimestamp)
    ensures !dbFails ==>
      forall x :: multiset(r)[x] == if InSensorWindow(x, deviceId, now, lookbackSeconds) then multiset(rows)[x] else 0
  {
    if dbFails then []
    else
      ByTimestampIsPreorder();
      OrderedFilter(rows, (x: SensorRow) => InSensorWindow(x, deviceId, now, lookbackSeconds), ByTimestamp)
  }

  predicate InEventWindow(e: CrashEvent, deviceId: string, now: int, lookbackSeconds: int)
  {
    e.deviceId == deviceId && e.crashTimestamp >= now - lookbackSeconds
  }

  /** `get_recent_crash_events`: for an authenticated request, at most
      `numEvents` of the device's events inside the window, newest first.
      It filters by device, not by user. */
  function GetRecentCrashEvents(events: seq<CrashEvent>, deviceId: string, authenticated: bool,
                                now: int, lookbackSeconds: int, numEvents: nat, dbFails: bool): (r: seq<CrashEvent>)
    ensures !authenticated || dbFails ==> r == []
    ensures |r| <= numEvents
    ensures forall i :: 0 <= i < |r| ==> r[i] in events && InEventWindow(r[i], deviceId, now, lookbackSeconds)
    ensures SortedBy(r, NewestFirst)
    ensures authenticated && !dbFails ==>
      var window := Filter(events, (e: CrashEvent) => InEventWindow(e, deviceId, now, lookbackSeconds));
      |r| == (if |window| < numEvents then |window| else numEvents)
    ensures forall e :: multiset(r)[e] <= if InEventWindow(e, deviceId, now, lookbackSeconds) then multiset(events)[e] else 0
    // the events returned are the newest: one left out is no newer than any returned
    ensures authenticated && !dbFails ==> forall e, i ::
      0 <= i < |r| && InEventWindow(e, deviceId, now, lookbackSeconds) && multiset(r)[e] < multiset(events)[e] ==>
      NewestFirst(r[i], e)
  {
    if !authenticated || dbFails then []
    else
      NewestFirstIsPreorder();
      OrderedFilterFirst(events, (e: CrashEvent) => InEventWindow(e, deviceId, now, lookbackSeconds), NewestFirst, numEvents)
  }

  /** `GPSDataSchema`. */
  datatype GpsData = GpsData(
    latitude: Option<real>, longitude: Option<real>, altitude: Option<real>,
    accuracy: Option<real>, speed: Option<real>, speedChange: Option<real>,
    timestamp: string)

  /** The six GPS keys `extract_gps_data` returns. */
  datatype GpsFields = GpsFields(
    latitude: Option<real>, longitude: Option<real>, altitude: Option<real>,
    accuracy: Option<real>, speed: Option<real>, speedChange: Option<real>)

  const NO_GPS: GpsFields := GpsFields(None, None, None, None, None, None)

  /** Python's truthiness of an optional float: None and 0.0 are falsy. */
  predicate Present(x: Option<real>) { x.Some? && x.value != 0.0 }

  /** `extract_gps_data`. */
  function ExtractGpsData(gps: Option<GpsData>): (r: GpsFields)
    ensures gps.None? || !Present(gps.value.latitude) || !Present(gps.value.longitude) ==> r == NO_GPS
    ensures gps.Some? && Present(gps.value.latitude) && Present(gps.value.longitude) ==>
      r.latitude == gps.value.latitude && r.longitude == gps.value.longitude &&
      r.altitude == gps.value.altitude && r.accuracy == gps.value.accuracy &&
      r.speed == gps.value.speed && r.speedChange == gps.value.speedChange
  {
    if gps.None? || !Present(gps.value.latitude) || !Present(gps.value.longitude) then NO_GPS
    else GpsFields(gps.value.latitude, gps.value.longitude, gps.value.altitude,
                   gps.value.accuracy, gps.value.speed, gps.value.speedChange)
  }

  /** The extracted location is either complete (both coordinates present)
      or entirely absent; a position on the equator or the prime meridian
      counts as absent. */
  lemma ExtractedLocationAllOrNothing(gps: Option<GpsData>)
    ensures var r := ExtractGpsData(gps);
      (Present(r.latitude) && Present(r.longitude)) || r == NO_GPS
    ensures gps.Some? && gps.value.latitude == Some(0.0) ==> ExtractGpsData(gps) == NO_GPS
  {
  }
}
