/** The crash endpoints: processing an alert from the mobile app (context
    window, AI analysis, crash event, notifications), recording the user's
    feedback on an event, and listing events page by page. `now` is the
    current time in seconds. */
module CrashController {
  import opened Common
  import opened Errors
  import opened Tables
  import opened Sorting
  import opened GeminiService
  import UserSettingsController
  import CrashDetector
  import CrashUtils

  const PROCESS_FAILED: string := "Failed to process crash alert"
  const EVENT_NOT_FOUND: string := "Crash event not found"
  const INVALID_FEEDBACK: string := "Invalid feedback value. Must be 'true_positive' or 'false_positive'"
  const FEEDBACK_FAILED: string := "Failed to submit feedback"
  const FEEDBACK_OK: string := "Feedback submitted successfully"
  const LIST_FAILED: string := "Failed to retrieve crash events"

  // ------------------------------------------------------- context window

  /** `min(30 + (interval - 10) * 3, 180)`: seconds of sensor history. */
  function LookbackSeconds(interval: int): (r: int)
    ensures r <= 180
    ensures 10 <= interval <= 60 ==> 30 <= r <= 180
    ensures interval <= 60 ==> r == 30 + (interval - 10) * 3
  {
    var v := 30 + (interval - 10) * 3;
    if v < 180 then v else 180
  }

  lemma LookbackExamples()
    ensures LookbackSeconds(10) == 30 && LookbackSeconds(30) == 90 && LookbackSeconds(60) == 180
  {
  }

  /** A longer interval never shortens the look-back window. */
  lemma LookbackMonotone(a: int, b: int)
    requires a <= b
    ensures LookbackSeconds(a) <= LookbackSeconds(b)
  {
  }

  /** `max(1, interval // 20)`: how many earlier events to fetch. Python's
      `//` floors, and so does Dafny's `/` for a positive divisor. */
  function NumCrashEvents(interval: int): (r: int)
    ensures r >= 1
    ensures 10 <= interval <= 60 ==> r <= 3
    ensures interval >= 20 ==> r == interval / 20
  {
    var q := interval / 20;
    if q > 1 then q else 1
  }

  lemma NumCrashEventsExamples()
    ensures NumCrashEvents(10) == 1 && NumCrashEvents(30) == 1 && NumCrashEvents(60) == 3
  {
  }

  // ------------------------------------------------------ alert processing

  /** `CrashAlertRequest`. Its `timestamp` is a string; here it is what
      the `DateTimeField` makes of it when the row is saved: the instant in
      seconds, or None when the string is not a date-time. */
  datatype AlertRequest = AlertRequest(
    deviceId: string,
    timestamp: Option<int>,
    gForce: real,
    reading: Reading,
    gps: Option<CrashDetector.GpsData>)

  /** `CrashAlertResponse`. */
  datatype AlertResponse = AlertResponse(
    isCrash: bool,
    confidence: real,
    severity: string,
    crashType: string,
    reasoning: string,
    keyIndicators: seq<string>,
    falsePositiveRisk: real,
    crashEventId: Option<int>)

  /** The services `process_crash_alert` uses: the Gemini service and its
      collaborators, whether the FCM push to the owner succeeds, the
      loved-one sender (present or not, and which sends raise) and the
      number formatting of the map link. */
  datatype Services = Services(
    gemini: Service,
    ai: Collaborators,
    pushOk: bool,
    lovedOneSenderExists: bool,
    sendRaises: CrashUtils.Message -> bool,
    fmt: real -> string)

  /** How the database behaves: which of the detector's queries raise
      DatabaseError, and whether it refuses text longer than a column's
      `max_length` (PostgreSQL does, SQLite does not). */
  datatype Faults = Faults(settings: bool, sensor: bool, events: bool, lengthLimits: bool)

  /** A JSON list of strings, as `list[str]` validates it. */
  function StringItems(items: seq<Json>): (r: Option<seq<string>>)
    ensures r.Some? <==> forall i :: 0 <= i < |items| ==> items[i].JStr?
    ensures r.Some? ==> |r.value| == |items| && forall i :: 0 <= i < |items| ==> r.value[i] == items[i].s
  {
    if |items| == 0 then Some([])
    else match StringItems(items[1..])
      case None => None
      case Some(rest) => if items[0].JStr? then Some([items[0].s] + rest) else None
  }

  function StringList(j: Json): Option<seq<string>>
  {
    if j.JArr? then StringItems(j.items) else None
  }

  /** The response schema: `severity` must be a string and
      `key_indicators` a list of strings; the other fields are copied. */
  function AlertResponseOf(a: Analysis, eventId: Option<int>): (r: Outcome<AlertResponse>)
    ensures r.Ok? <==> a.severity.JStr? && StringList(a.keyIndicators).Some?
    ensures r.Ok? ==>
      r.value.isCrash == a.isCrash && r.value.confidence == a.confidence &&
      r.value.severity == a.severity.s && r.value.crashType == a.crashType &&
      r.value.reasoning == a.reasoning && r.value.falsePositiveRisk == a.falsePositiveRisk &&
      r.value.keyIndicators == StringList(a.keyIndicators).value && r.value.crashEventId == eventId
  {
    if !a.severity.JStr? then Raise(SchemaError("severity"))
    else match StringList(a.keyIndicators)
      case None => Raise(SchemaError("key_indicators"))
      case Some(ks) => Ok(AlertResponse(a.isCrash, a.confidence, a.severity.s, a.crashType,
                                        a.reasoning, ks, a.falsePositiveRisk, eventId))
  }

  /** The default analysis passes the response schema. */
  lemma DefaultResponseIsValid()
    ensures AlertResponseOf(DefaultResponse(), None).Ok?
  {
  }

  /** The interval the alert uses: 15 for an anonymous request or a
      failing query, otherwise the stored (or newly created) value. */
  function IntervalFor(settings: map<int, int>, userId: Option<int>, fails: bool): int
  {
    if userId.None? || fails then CrashDetector.DEFAULT_INTERVAL
    else UserSettingsController.GetOrCreate(settings, userId.value, CrashDetector.DEFAULT_INTERVAL)[userId.value]
  }

  /** What the AI is asked about and what it answers for this alert. */
  function AlertAnalysis(settings: map<int, int>, sensorData: seq<SensorRow>, req: AlertRequest,
                         userId: Option<int>, now: int, svc: Services, faults: Faults): Analysis
  {
    var lookback := LookbackSeconds(IntervalFor(settings, userId, faults.settings));
    var recent := CrashDetector.GetRecentSensorData(sensorData, req.deviceId, now, lookback, faults.sensor);
    AnalyzeCrashData(svc.gemini, recent, req.reading, svc.ai)
  }

  /** Severities that trigger notifications. */
  predicate Notifiable(severity: Json)
  {
    severity == JStr("high") || severity == JStr("medium")
  }

  /** The `max_length` of the CharField columns the insert fills. */
  const DEVICE_ID_MAX: int := 255
  const SEVERITY_MAX: int := 20
  const CRASH_TYPE_MAX: int := 255

  /** `CrashEvent.objects.create(...)`. A CharField stores `str()` of a
      value that is not None, but None itself reaches the NOT NULL
      `severity` column and the insert raises IntegrityError; a database
      with length limits also refuses an over-long text (DataError). Both
      are DatabaseErrors. Before either, preparing the values for the
      insert raises ValidationError for a timestamp that is not a
      date-time. The GPS columns take what `extract_gps_data` returns. */
  function NewCrashEvent(id: int, req: AlertRequest, userId: Option<int>, a: Analysis,
                         now: int, repr: Json -> string, lengthLimits: bool): (r: Outcome<CrashEvent>)
    ensures r.Raise? <==>
      req.timestamp.None? || a.severity.JNull? ||
      (lengthLimits && (|req.deviceId| > DEVICE_ID_MAX || |PyStr(a.severity, repr)| > SEVERITY_MAX ||
                        |a.crashType| > CRASH_TYPE_MAX))
    ensures req.timestamp.None? ==> r == Raise(FieldValidationError("crash_timestamp"))
    ensures req.timestamp.Some? && r.Raise? ==> r.exc == DatabaseError
    ensures r.Ok? ==> var e := r.value;
      e.id == id && e.deviceId == req.deviceId && e.userId == userId &&
      e.crashTimestamp == req.timestamp.value && e.isConfirmedCrash &&
      e.confidenceScore == Some(a.confidence) && e.falsePositiveRisk == Some(a.falsePositiveRisk) &&
      e.crashType == a.crashType && e.aiReasoning == a.reasoning && e.keyIndicators == a.keyIndicators &&
      e.severity == PyStr(a.severity, repr) && (a.severity.JStr? ==> e.severity == a.severity.s) &&
      e.maxGForce == Some(req.gForce) && e.maxSpeedBeforeCrash.None? &&
      !e.alertSent && e.userFeedback == "" && e.userComments == ""
    ensures r.Ok? ==> var e, g := r.value, CrashDetector.ExtractGpsData(req.gps);
      e.crashLatitude == g.latitude && e.crashLongitude == g.longitude && e.crashAltitude == g.altitude &&
      e.gpsAccuracyAtCrash == g.accuracy && e.speedAtCrash == g.speed && e.speedChangeAtCrash == g.speedChange
  {
    var severity := PyStr(a.severity, repr);
    if req.timestamp.None? then Raise(FieldValidationError("crash_timestamp"))
    else if a.severity.JNull? then Raise(DatabaseError)
    else if lengthLimits && (|req.deviceId| > DEVICE_ID_MAX || |severity| > SEVERITY_MAX || |a.crashType| > CRASH_TYPE_MAX) then
      Raise(DatabaseError)
    else
      var g := CrashDetector.ExtractGpsData(req.gps);
      Ok(CrashEvent(id, req.deviceId, userId, req.timestamp.value, true, Some(a.confidence), severity,
                    a.crashType, a.reasoning, a.keyIndicators, Some(a.falsePositiveRisk), Some(req.gForce),
                    g.latitude, g.longitude, g.altitude, g.accuracy, g.speed, g.speedChange, None,
                    false, "", "", now, now))
  }

  /** Every failure inside the handler, whatever it is, becomes a 500. */
  function OrProcessFailure<T>(o: Outcome<T>): (r: Outcome<T>)
    ensures o.Ok? ==> r == o
    ensures o.Raise? ==> r == Raise(HttpError(500, PROCESS_FAILED))
  {
    if o.Ok? then o else Raise(HttpError(500, PROCESS_FAILED))
  }

  /** Steps 1 to 3 of the handler: the user's interval (creating the
      settings row on first use), the sensor window and earlier events it
      selects, and the call to the AI service. */
  method AnalyseAlert(db: Database, req: AlertRequest, userId: Option<int>, now: int,
                      keywords: set<string>, svc: Services, faults: Faults)
    returns (call: Outcome<Analysis>)
    requires db.Valid()
    modifies db`settings
    ensures db.Valid()
    ensures db.settings == (if userId.None? || faults.settings then old(db.settings)
                            else UserSettingsController.GetOrCreate(old(db.settings), userId.value, CrashDetector.DEFAULT_INTERVAL))
    ensures AnalyzeBinds(keywords) ==>
      call == Ok(AlertAnalysis(old(db.settings), db.sensorData, req, userId, now, svc, faults))
    ensures !AnalyzeBinds(keywords) ==> call.Raise?
  {
    var interval := CrashDetector.GetUserCrashAlertInterval(db, userId, faults.settings);
    assert interval == IntervalFor(old(db.settings), userId, faults.settings);
    var lookback := LookbackSeconds(interval);
    var recent := CrashDetector.GetRecentSensorData(db.sensorData, req.deviceId, now, lookback, faults.sensor);
    var numEvents := NumCrashEvents(interval);
    var priorEvents := CrashDetector.GetRecentCrashEvents(db.crashEvents, req.deviceId, userId.Some?, now,
                                                         lookback, numEvents, faults.events);
    call := CallAnalyzeCrashData(keywords, svc.gemini, recent, req.reading, svc.ai);
  }

  /** The insert, followed by the push to the owner for a high or medium
      severity; `alert_sent` is set only when that push succeeds. */
  method StoreEvent(db: Database, e: CrashEvent, severity: Json, pushOk: bool)
    returns (stored: CrashEvent)
    requires db.Valid() && e.id == NextEventId(db.crashEvents)
    modifies db`crashEvents
    ensures db.Valid()
    ensures stored == e.(alertSent := e.alertSent || (Notifiable(severity) && pushOk))
    ensures db.crashEvents == old(db.crashEvents) + [stored]
  {
    stored := e;
    db.crashEvents := db.crashEvents + [stored];
    if Notifiable(severity) && pushOk {
      stored := stored.(alertSent := true);
      db.crashEvents := db.crashEvents[|db.crashEvents| - 1 := stored];
    }
  }

  /** What the instance `create` returns holds in `crash_timestamp`: the
      value it was given, so the request's string stays a string; only a
      row read back from the database holds a date-time. */
  datatype StampValue = StrStamp(s: string) | DateTimeStamp(seconds: int)

  /** `FCMService.send_crash_notification`: False without the messaging
      module or without a token for the device; inside its `try`,
      `isoformat()` raises AttributeError on a string timestamp, the send
      itself may raise, and any exception gives False. */
  function SendCrashNotification(messagingAvailable: bool, token: Option<string>, stamp: StampValue,
                                 sendRaises: bool): (ok: bool)
    ensures ok ==> messagingAvailable && token.Some? && token.value != ""
    ensures stamp.StrStamp? ==> !ok
    ensures stamp.DateTimeStamp? ==> (ok <==> messagingAvailable && token.Some? && token.value != "" && !sendRaises)
  {
    if !messagingAvailable then false
    else if token.None? || token.value == "" then false
    else if stamp.StrStamp? then false
    else !sendRaises
  }

  /** As shipped, the push is handed the instance `create` returned, whose
      timestamp is the request's string: it never goes out, so a stored
      event is never marked alerted, whatever its severity. */
  lemma ShippedPushNeverSent(e: CrashEvent, requestStamp: string, severity: Json, messagingAvailable: bool,
                             token: Option<string>, sendRaises: bool)
    requires !e.alertSent
    ensures var pushOk := SendCrashNotification(messagingAvailable, token, StrStamp(requestStamp), sendRaises);
      !pushOk && e.(alertSent := e.alertSent || (Notifiable(severity) && pushOk)) == e
  {
  }

  /** Step 4 for a confirmed crash: store the event and, for a high or
      medium severity, push to the owner and alert the loved ones. */
  method RecordCrash(db: Database, e: CrashEvent, severity: Json, svc: Services)
    returns (pushed: bool, alerts: seq<CrashUtils.Message>)
    requires db.Valid() && e.id == NextEventId(db.crashEvents)
    modifies db`crashEvents
    ensures db.Valid()
    ensures db.crashEvents == old(db.crashEvents) + [e.(alertSent := pushed || e.alertSent)]
    ensures pushed <==> Notifiable(severity) && svc.pushOk
    ensures alerts == (if Notifiable(severity)
                       then CrashUtils.Attempted(db.users, db.lovedOnes, db.tokens, e.(alertSent := pushed || e.alertSent), svc.fmt)
                       else [])
  {
    var stored := StoreEvent(db, e, severity, svc.pushOk);
    pushed := Notifiable(severity) && svc.pushOk;
    alerts := [];
    if Notifiable(severity) {
      var delivered;
      alerts, delivered := CrashUtils.NotifyLovedOnesWithGps(db, stored, svc.fmt, svc.lovedOneSenderExists, svc.sendRaises);
    }
  }

  /** Step 4 and the reply, once the AI has answered with `a`: nothing is
      stored for a non-crash; for a crash the event is built and recorded,
      and an insert the database refuses rolls back and answers 500. */
  method RespondToAnalysis(db: Database, req: AlertRequest, userId: Option<int>, now: int,
                           a: Analysis, svc: Services, faults: Faults)
    returns (r: Outcome<AlertResponse>, pushed: bool, alerts: seq<CrashUtils.Message>)
    requires db.Valid()
    modifies db`crashEvents
    ensures db.Valid()
    ensures r.Raise? ==> r.exc == HttpError(500, PROCESS_FAILED)
    ensures AlertHandled(old(db.crashEvents), db.crashEvents, r, pushed, req, userId, a, now, svc.ai.repr, faults.lengthLimits)
    ensures var created := NewCrashEvent(NextEventId(old(db.crashEvents)), req, userId, a, now, svc.ai.repr, faults.lengthLimits);
      (!a.isCrash ==>
        db.crashEvents == old(db.crashEvents) && !pushed && alerts == [] &&
        r == OrProcessFailure(AlertResponseOf(a, None))) &&
      (a.isCrash && created.Raise? ==>
        db.crashEvents == old(db.crashEvents) && !pushed && alerts == [] &&
        r == Raise(HttpError(500, PROCESS_FAILED))) &&
      (a.isCrash && created.Ok? ==>
        var e := created.value;
        db.crashEvents == old(db.crashEvents) + [e.(alertSent := pushed)] &&
        (pushed <==> Notifiable(a.severity) && svc.pushOk) &&
        alerts == (if Notifiable(a.severity) then CrashUtils.Attempted(db.users, db.lovedOnes, db.tokens, e.(alertSent := pushed), svc.fmt) else []) &&
        r == OrProcessFailure(AlertResponseOf(a, Some(e.id))))
  {
    pushed, alerts := false, [];
    var eventId: Option<int> := None;
    if a.isCrash {
      var created := NewCrashEvent(NextEventId(db.crashEvents), req, userId, a, now, svc.ai.repr, faults.lengthLimits);
      if created.Raise? {
        // the atomic block rolls back and the handler answers 500
        r := Raise(HttpError(500, PROCESS_FAILED));
        return;
      }
      var e := created.value;
      pushed, alerts := RecordCrash(db, e, a.severity, svc);
      eventId := Some(e.id);
    }
    r := OrProcessFailure(AlertResponseOf(a, eventId));
  }

  /** `process_crash_alert`. `keywords` are the keyword arguments passed to
      `analyze_crash_data`; `userId` is the authenticated user, if any.
      Returns the reply, whether the push to the owner went out, and the
      messages attempted to loved ones. */
  method ProcessCrashAlert(db: Database, req: AlertRequest, userId: Option<int>, now: int,
                           keywords: set<string>, svc: Services, faults: Faults)
    returns (r: Outcome<AlertResponse>, pushed: bool, alerts: seq<CrashUtils.Message>)
    requires db.Valid()
    modifies db`settings, db`crashEvents
    ensures db.Valid()
    ensures db.settings == (if userId.None? || faults.settings then old(db.settings)
                            else UserSettingsController.GetOrCreate(old(db.settings), userId.value, CrashDetector.DEFAULT_INTERVAL))
    ensures r.Raise? ==> r.exc == HttpError(500, PROCESS_FAILED)
    ensures !AnalyzeBinds(keywords) ==>
      r == Raise(HttpError(500, PROCESS_FAILED)) && db.crashEvents == old(db.crashEvents) && !pushed && alerts == []
    ensures AnalyzeBinds(keywords) ==>
      var a := AlertAnalysis(old(db.settings), old(db.sensorData), req, userId, now, svc, faults);
      var created := NewCrashEvent(NextEventId(old(db.crashEvents)), req, userId, a, now, svc.ai.repr, faults.lengthLimits);
      (!a.isCrash ==>
        db.crashEvents == old(db.crashEvents) && !pushed && alerts == [] &&
        r == OrProcessFailure(AlertResponseOf(a, None))) &&
      (a.isCrash && created.Raise? ==>
        db.crashEvents == old(db.crashEvents) && !pushed && alerts == [] &&
        r == Raise(HttpError(500, PROCESS_FAILED))) &&
      (a.isCrash && created.Ok? ==>
        var e := created.value;
        db.crashEvents == old(db.crashEvents) + [e.(alertSent := pushed)] &&
        (pushed <==> Notifiable(a.severity) && svc.pushOk) &&
        alerts == (if Notifiable(a.severity) then CrashUtils.Attempted(db.users, db.lovedOnes, db.tokens, e.(alertSent := pushed), svc.fmt) else []) &&
        r == OrProcessFailure(AlertResponseOf(a, Some(e.id))))
  {
    pushed, alerts := false, [];
    var call := AnalyseAlert(db, req, userId, now, keywords, svc, faults);
    if call.Raise? {
      r := Raise(HttpError(500, PROCESS_FAILED));
      return;
    }
    r, pushed, alerts := RespondToAnalysis(db, req, userId, now, call.value, svc, faults);
  }

  /** The keyword arguments the controller passes: one more than the
      service accepts. */
  const SHIPPED_KEYWORDS: set<string> := ANALYZE_KEYWORDS + {"crash_events"}

  /** As shipped, the call to the AI service raises TypeError for the
      extra keyword, so every alert is answered with 500 and no crash
      event is ever created. */
  lemma ShippedCallIsRejected(svc: Service, sensor: seq<SensorRow>, current: Reading, c: Collaborators)
    ensures !AnalyzeBinds(SHIPPED_KEYWORDS)
    ensures CallAnalyzeCrashData(SHIPPED_KEYWORDS, svc, sensor, current, c).Raise?
  {
    assert "crash_events" in SHIPPED_KEYWORDS;
  }

  /** The crash-event table and the reply once the AI has answered with
      `a`, given the table before: for a crash the new event is appended
      (with `alert_sent` as the push went) and named in the reply; an
      insert the database refuses, or no crash, leaves the table as it was. */
  ghost predicate AlertHandled(before: seq<CrashEvent>, after: seq<CrashEvent>, r: Outcome<AlertResponse>,
                               pushed: bool, req: AlertRequest, userId: Option<int>, a: Analysis, now: int,
                               repr: Json -> string, lengthLimits: bool)
  {
    var created := NewCrashEvent(NextEventId(before), req, userId, a, now, repr, lengthLimits);
    if !a.isCrash then after == before && r == OrProcessFailure(AlertResponseOf(a, None))
    else if created.Raise? then after == before && r == Raise(HttpError(500, PROCESS_FAILED))
    else after == before + [created.value.(alertSent := pushed)] &&
         r == OrProcessFailure(AlertResponseOf(a, Some(created.value.id)))
  }

  /** A crash event is stored exactly when the AI says crash and the
      insert succeeds, and otherwise the table is untouched; a successful
      reply names an event exactly when it reports a crash. */
  lemma EventIffCrash(before: seq<CrashEvent>, after: seq<CrashEvent>, r: Outcome<AlertResponse>,
                      pushed: bool, req: AlertRequest, userId: Option<int>, a: Analysis, now: int,
                      repr: Json -> string, lengthLimits: bool)
    requires AlertHandled(before, after, r, pushed, req, userId, a, now, repr, lengthLimits)
    ensures |after| == |before| + 1 <==>
      a.isCrash && NewCrashEvent(NextEventId(before), req, userId, a, now, repr, lengthLimits).Ok?
    ensures |after| != |before| + 1 ==> after == before
    ensures r.Ok? ==> (r.value.crashEventId.Some? <==> r.value.isCrash) && r.value.isCrash == a.isCrash
  {
    var created := NewCrashEvent(NextEventId(before), req, userId, a, now, repr, lengthLimits);
    if a.isCrash && created.Ok? {
      StoredCrashIsNamed(before, after, r, pushed, a, created.value);
    }
  }

  /** The id a successful crash reply names is that of the one new row,
      which no earlier row carries, and that row records the severity
      the reply reports. */
  lemma ReplyNamesStoredEvent(before: seq<CrashEvent>, after: seq<CrashEvent>, r: Outcome<AlertResponse>,
                              pushed: bool, req: AlertRequest, userId: Option<int>, a: Analysis, now: int,
                              repr: Json -> string, lengthLimits: bool)
    requires AlertHandled(before, after, r, pushed, req, userId, a, now, repr, lengthLimits)
    ensures r.Ok? && r.value.crashEventId.Some? ==>
      |after| == |before| + 1 && after[|before|].id == r.value.crashEventId.value &&
      after[|before|].isConfirmedCrash && after[|before|].severity == r.value.severity &&
      forall i :: 0 <= i < |before| ==> after[i].id != r.value.crashEventId.value
  {
    var created := NewCrashEvent(NextEventId(before), req, userId, a, now, repr, lengthLimits);
    if a.isCrash && created.Ok? {
      StoredCrashIsNamed(before, after, r, pushed, a, created.value);
    }
  }

  /** The crash branch of `EventIffCrash` and `ReplyNamesStoredEvent`: the appended row is the one the
      reply names, and no earlier row carries its id. */
  lemma StoredCrashIsNamed(before: seq<CrashEvent>, after: seq<CrashEvent>, r: Outcome<AlertResponse>,
                           pushed: bool, a: Analysis, e: CrashEvent)
    requires a.isCrash && e.id == NextEventId(before) && e.isConfirmedCrash
    requires a.severity.JStr? ==> e.severity == a.severity.s
    requires after == before + [e.(alertSent := pushed)]
    requires r == OrProcessFailure(AlertResponseOf(a, Some(e.id)))
    ensures |after| == |before| + 1
    ensures r.Ok? ==> r.value.crashEventId == Some(e.id) && r.value.isCrash
    ensures r.Ok? ==>
      after[|before|].id == e.id && after[|before|].isConfirmedCrash && after[|before|].severity == r.value.severity &&
      forall i :: 0 <= i < |before| ==> after[i].id != e.id
  {
    assert after[|before|] == e.(alertSent := pushed);
    forall i | 0 <= i < |before| ensures after[i].id != e.id {
      assert after[i] == before[i];
    }
  }

  // ---------------------------------------------------------------- feedback

  const FEEDBACK_VALUES: set<string> := {"true_positive", "false_positive"}

  /** The event after the feedback is saved: the feedback replaced, the
      comments replaced only by a non-empty text, `updated_at` stamped. */
  function WithFeedback(e: CrashEvent, feedback: string, comments: Option<string>, now: int): (r: CrashEvent)
    ensures r.userFeedback == feedback && r.updatedAt == now
    ensures comments.Some? && comments.value != "" ==> r.userComments == comments.value
    ensures comments.None? || comments.value == "" ==> r.userComments == e.userComments
    ensures r.(userFeedback := e.userFeedback, userComments := e.userComments, updatedAt := e.updatedAt) == e
  {
    var withComments := if comments.Some? && comments.value != "" then e.(userComments := comments.value) else e;
    withComments.(userFeedback := feedback, updatedAt := now)
  }

  /** `submit_crash_feedback`: 404 for an unknown event, checked before
      400 for a feedback value outside the two allowed ones; `saveFails`
      says whether `save()` raises. */
  method SubmitCrashFeedback(db: Database, eventId: int, feedback: string, comments: Option<string>,
                             now: int, saveFails: bool)
    returns (r: Outcome<string>)
    requires db.Valid()
    modifies db`crashEvents
    ensures db.Valid()
    ensures FindEvent(old(db.crashEvents), eventId).None? ==>
      r == Raise(HttpError(404, EVENT_NOT_FOUND)) && db.crashEvents == old(db.crashEvents)
    ensures FindEvent(old(db.crashEvents), eventId).Some? && feedback !in FEEDBACK_VALUES ==>
      r == Raise(HttpError(400, INVALID_FEEDBACK)) && db.crashEvents == old(db.crashEvents)
    ensures FindEvent(old(db.crashEvents), eventId).Some? && feedback in FEEDBACK_VALUES && saveFails ==>
      r == Raise(HttpError(500, FEEDBACK_FAILED)) && db.crashEvents == old(db.crashEvents)
    ensures FindEvent(old(db.crashEvents), eventId).Some? && feedback in FEEDBACK_VALUES && !saveFails ==>
      var k := FindEvent(old(db.crashEvents), eventId).value;
      r == Ok(FEEDBACK_OK) &&
      db.crashEvents == old(db.crashEvents)[k := WithFeedback(old(db.crashEvents)[k], feedback, comments, now)]
  {
    var found := FindEvent(db.crashEvents, eventId);
    if found.None? {
      return Raise(HttpError(404, EVENT_NOT_FOUND));
    }
    if feedback !in FEEDBACK_VALUES {
      return Raise(HttpError(400, INVALID_FEEDBACK));
    }
    if saveFails {
      return Raise(HttpError(500, FEEDBACK_FAILED));
    }
    var k := found.value;
    db.crashEvents := db.crashEvents[k := WithFeedback(db.crashEvents[k], feedback, comments, now)];
    r := Ok(FEEDBACK_OK);
  }

  // ----------------------------------------------------------------- listing

  /** `CrashEventSchema`; timestamps stay in seconds. */
  datatype EventSchema = EventSchema(
    id: int,
    deviceId: string,
    crashTimestamp: int,
    isConfirmedCrash: bool,
    confidenceScore: Option<real>,
    severity: string,
    crashType: string,
    aiReasoning: string,
    keyIndicators: seq<string>,
    falsePositiveRisk: Option<real>,
    maxGForce: Option<real>,
    crashLatitude: Option<real>,
    crashLongitude: Option<real>,
    crashAltitude: Option<real>,
    gpsAccuracyAtCrash: Option<real>,
    speedAtCrash: Option<real>,
    speedChangeAtCrash: Option<real>,
    maxSpeedBeforeCrash: Option<real>,
    userFeedback: Option<string>,
    userComments: Option<string>,
    createdAt: int,
    updatedAt: int)

  /** `key_indicators or []`, validated as a list of strings. */
  function Indicators(j: Json): Option<seq<string>>
  {
    if Truthy(j) then StringList(j) else Some([])
  }

  /** The schema of one row: empty feedback and comments become None. */
  function SchemaOf(e: CrashEvent): (r: Outcome<EventSchema>)
    ensures r.Ok? <==> Indicators(e.keyIndicators).Some?
    ensures r.Ok? ==>
      r.value.id == e.id && r.value.deviceId == e.deviceId && r.value.crashTimestamp == e.crashTimestamp &&
      r.value.severity == e.severity && r.value.keyIndicators == Indicators(e.keyIndicators).value &&
      r.value.userFeedback == (if e.userFeedback == "" then None else Some(e.userFeedback)) &&
      r.value.userComments == (if e.userComments == "" then None else Some(e.userComments))
  {
    match Indicators(e.keyIndicators)
    case None => Raise(SchemaError("key_indicators"))
    case Some(ks) => Ok(EventSchema(
      e.id, e.deviceId, e.crashTimestamp, e.isConfirmedCrash, e.confidenceScore, e.severity,
      e.crashType, e.aiReasoning, ks, e.falsePositiveRisk, e.maxGForce, e.crashLatitude,
      e.crashLongitude, e.crashAltitude, e.gpsAccuracyAtCrash, e.speedAtCrash, e.speedChangeAtCrash,
      e.maxSpeedBeforeCrash,
      if e.userFeedback == "" then None else Some(e.userFeedback),
      if e.userComments == "" then None else Some(e.userComments),
      e.createdAt, e.updatedAt))
  }

  /** The schemas of a list of rows; the first invalid row raises. */
  function SchemasOf(events: seq<CrashEvent>): (r: Outcome<seq<EventSchema>>)
    ensures r.Ok? <==> forall i :: 0 <= i < |events| ==> SchemaOf(events[i]).Ok?
    ensures r.Ok? ==> |r.value| == |events| && forall i :: 0 <= i < |events| ==> SchemaOf(events[i]) == Ok(r.value[i])
  {
    if |events| == 0 then Ok([])
    else match SchemaOf(events[0])
      case Raise(x) => Raise(x)
      case Ok(s) => match SchemasOf(events[1..])
        case Raise(x) => Raise(x)
        case Ok(rest) => Ok([s] + rest)
  }

  /** `queryset[offset : offset + limit]`: a negative bound raises, a stop
      before the start gives nothing. */
  function Page<T>(s: seq<T>, offset: int, limit: int): (r: Outcome<seq<T>>)
    ensures r.Raise? <==> offset < 0 || offset + limit < 0
    ensures r.Ok? ==> |r.value| <= |s| && (limit >= 0 ==> |r.value| <= limit) && (limit < 0 ==> r.value == [])
    ensures r.Ok? ==> forall i :: 0 <= i < |r.value| ==> offset + i < |s| && r.value[i] == s[offset + i]
    ensures r.Ok? && offset + limit <= |s| && limit >= 0 ==> |r.value| == limit
    ensures r.Ok? && offset <= |s| <= offset + limit ==> |r.value| == |s| - offset
  {
    if offset < 0 || offset + limit < 0 then Raise(ValueError("Negative indexing is not supported."))
    else
      var lo := if offset < |s| then offset else |s|;
      var hi := if offset + limit < |s| then offset + limit else |s|;
      Ok(if hi <= lo then [] else s[lo..hi])
  }

  /** The row filters: the device if one is given (and non-empty), the
      user if the request is authenticated. */
  predicate Selected(e: CrashEvent, deviceId: Option<string>, userId: Option<int>)
  {
    (deviceId.Some? && deviceId.value != "" ==> e.deviceId == deviceId.value) &&
    (userId.Some? ==> e.userId == userId)
  }

  /** The selected rows, newest first. */
  function SelectedEvents(events: seq<CrashEvent>, deviceId: Option<string>, userId: Option<int>): (r: seq<CrashEvent>)
    ensures forall i :: 0 <= i < |r| ==> r[i] in events && Selected(r[i], deviceId, userId)
    ensures forall i :: 0 <= i < |events| && Selected(events[i], deviceId, userId) ==> events[i] in r
    ensures SortedBy(r, CrashDetector.NewestFirst)
    ensures forall e :: multiset(r)[e] == if Selected(e, deviceId, userId) then multiset(events)[e] else 0
  {
    CrashDetector.NewestFirstIsPreorder();
    OrderedFilter(events, (e: CrashEvent) => Selected(e, deviceId, userId), CrashDetector.NewestFirst)
  }

  /** `get_crash_events`: the selected rows, newest first, from `offset`
      for at most `limit` rows, each through the schema; any failure is a
      500. */
  function GetCrashEvents(events: seq<CrashEvent>, deviceId: Option<string>, userId: Option<int>,
                          limit: int, offset: int): (r: Outcome<seq<EventSchema>>)
    ensures r.Raise? ==> r.exc == HttpError(500, LIST_FAILED)
    ensures offset < 0 || offset + limit < 0 ==> r.Raise?
    ensures r.Ok? && limit >= 0 ==> |r.value| <= limit
    ensures r.Ok? && limit < 0 ==> r.value == []
    ensures r.Ok? ==> var sel := SelectedEvents(events, deviceId, userId);
      forall i :: 0 <= i < |r.value| ==> offset + i < |sel| && SchemaOf(sel[offset + i]) == Ok(r.value[i])
    ensures r.Ok? && limit >= 0 && offset + limit <= |SelectedEvents(events, deviceId, userId)| ==> |r.value| == limit
    ensures (offset >= 0 && limit >= 0 &&
      forall e :: e in events && Selected(e, deviceId, userId) ==> SchemaOf(e).Ok?) ==> r.Ok?
  {
    var sorted := SelectedEvents(events, deviceId, userId);
    match Page(sorted, offset, limit)
    case Raise(_) => Raise(HttpError(500, LIST_FAILED))
    case Ok(page) =>
      match SchemasOf(page)
      case Raise(_) => Raise(HttpError(500, LIST_FAILED))
      case Ok(schemas) => Ok(schemas)
  }

  /** Every listed event is one of the selected rows, and the page is in
      newest-first order. */
  lemma {:induction false} CrashEventsNewestFirst(events: seq<CrashEvent>, deviceId: Option<string>,
                                                  userId: Option<int>, limit: int, offset: int)
    ensures var r := GetCrashEvents(events, deviceId, userId, limit, offset);
      r.Ok? ==>
        (forall i :: 0 <= i < |r.value| ==>
          exists e :: e in events && Selected(e, deviceId, userId) && SchemaOf(e) == Ok(r.value[i])) &&
        (forall i, j :: 0 <= i < j < |r.value| ==> r.value[i].crashTimestamp >= r.value[j].crashTimestamp)
  {
    var r := GetCrashEvents(events, deviceId, userId, limit, offset);
    var sel := SelectedEvents(events, deviceId, userId);
    if r.Ok? {
      forall i | 0 <= i < |r.value|
        ensures exists e :: e in events && Selected(e, deviceId, userId) && SchemaOf(e) == Ok(r.value[i])
      {
        var e := sel[offset + i];
        assert e in events && Selected(e, deviceId, userId) && SchemaOf(e) == Ok(r.value[i]);
      }
      forall i, j | 0 <= i < j < |r.value|
        ensures r.value[i].crashTimestamp >= r.value[j].crashTimestamp
      {
        assert SortedBy(sel, CrashDetector.NewestFirst);
        assert CrashDetector.NewestFirst(sel[offset + i], sel[offset + j]);
      }
    }
  }
}
