/** Reading and updating the requesting user's crash alert interval. The
    `UserSettings` table is `db.settings`; `dbFails` says whether the
    database raises during the call (the transaction then leaves the
    table as it was). */
module UserSettingsController {
  import opened Common
  import opened Errors
  import opened Tables
  import UserSettingsSchema

  const DEFAULT_INTERVAL: int := 15
  const KEY: string := "crash_alert_interval_seconds"
  const REQUIRED: string := "crash_alert_interval_seconds is required"
  const NOT_AN_INTEGER_IN_RANGE: string := "crash_alert_interval_seconds must be an integer between 10 and 60"

  /** `get_or_create(user=..., defaults={...: value})` on the settings table. */
  function GetOrCreate(settings: map<int, int>, userId: int, default: int): (r: map<int, int>)
    ensures userId in r && r[userId] == (if userId in settings then settings[userId] else default)
    ensures r.Keys == settings.Keys + {userId}
    ensures forall u :: u in settings ==> r[u] == settings[u]
  {
    if userId in settings then settings else settings[userId := default]
  }

  /** The request check: present (not None), an `int` (a bool is one) in 10..60. */
  function CheckInterval(data: map<string, Json>): (r: Outcome<int>)
    ensures Get(data, KEY, JNull) == JNull ==> r == Raise(HttpError(400, REQUIRED))
    ensures r.Ok? <==>
      PyInt(Get(data, KEY, JNull)).Some? && 10 <= PyInt(Get(data, KEY, JNull)).value <= 60
    ensures r.Ok? ==> r.value == PyInt(Get(data, KEY, JNull)).value
    ensures r.Raise? ==> r.exc.HttpError? && r.exc.status == 400
  {
    var interval := Get(data, KEY, JNull);
    if interval == JNull then Raise(HttpError(400, REQUIRED))
    else match PyInt(interval)
      case None => Raise(HttpError(400, NOT_AN_INTEGER_IN_RANGE))
      case Some(v) =>
        if v < 10 || v > 60 then Raise(HttpError(400, NOT_AN_INTEGER_IN_RANGE)) else Ok(v)
  }

  /** The controller's own check accepts exactly the integers the schema
      validator accepts, and keeps them unchanged. */
  lemma CheckAgreesWithSchema(v: int)
    ensures CheckInterval(map[KEY := JInt(v)]).Ok? <==> UserSettingsSchema.ValidateInterval(v).Ok?
    ensures CheckInterval(map[KEY := JInt(v)]).Ok? ==>
      CheckInterval(map[KEY := JInt(v)]).value == UserSettingsSchema.ValidateInterval(v).value
  {
  }

  /** `get_user_settings`: the stored interval, created as 15 when missing. */
  method GetUserSettings(db: Database, userId: int, dbFails: bool) returns (r: Outcome<int>)
    requires db.Valid()
    modifies db`settings
    ensures db.Valid()
    ensures dbFails ==> r == Raise(HttpError(500, "Failed to retrieve user settings")) && db.settings == old(db.settings)
    ensures !dbFails ==> db.settings == GetOrCreate(old(db.settings), userId, DEFAULT_INTERVAL) && r == Ok(db.settings[userId])
  {
    if dbFails {
      return Raise(HttpError(500, "Failed to retrieve user settings"));
    }
    db.settings := GetOrCreate(db.settings, userId, DEFAULT_INTERVAL);
    r := Ok(db.settings[userId]);
  }

  /** `update_user_settings`: validate, then create or overwrite the
      requesting user's row; the reply echoes the stored value. */
  method UpdateUserSettings(db: Database, userId: int, data: map<string, Json>, dbFails: bool) returns (r: Outcome<int>)
    requires db.Valid()
    modifies db`settings
    ensures db.Valid()
    ensures CheckInterval(data).Raise? ==> r == CheckInterval(data) && db.settings == old(db.settings)
    ensures CheckInterval(data).Ok? && dbFails ==>
      r == Raise(HttpError(500, "Failed to update user settings")) && db.settings == old(db.settings)
    ensures CheckInterval(data).Ok? && !dbFails ==>
      db.settings == old(db.settings)[userId := CheckInterval(data).value] &&
      r == Ok(CheckInterval(data).value)
  {
    var checked := CheckInterval(data);
    if checked.Raise? {
      return checked;
    }
    if dbFails {
      return Raise(HttpError(500, "Failed to update user settings"));
    }
    var interval := checked.value;
    db.settings := GetOrCreate(db.settings, userId, interval);
    if db.settings[userId] != interval {
      db.settings := db.settings[userId := interval];
    }
    r := Ok(db.settings[userId]);
  }

  /** Updating with a valid interval and then reading the settings gives
      that interval back. */
  method UpdateThenGet(db: Database, userId: int, v: int) returns (stored: Outcome<int>)
    requires db.Valid() && 10 <= v <= 60
    modifies db`settings
    ensures stored == Ok(v)
  {
    var updated := UpdateUserSettings(db, userId, map[KEY := JInt(v)], false);
    stored := GetUserSettings(db, userId, false);
  }
}
