# Sentry crash detection: a verified model

Sentry is a motorcycle-helmet crash detector. An ESP32 in the helmet reads an
MPU6050 accelerometer, derives roll and pitch, and streams sensor, GPS and
status packets over Bluetooth Low Energy to a phone. Each packet carries a
sequence number and a CRC-16. The phone sends threshold alerts to a Django
backend. The backend asks Google Gemini whether the alert is a real crash.
A confirmed crash is stored as a `CrashEvent` and pushed by FCM to the rider's
phone and to the phones of their loved ones. The backend also holds the
account logic: login, JWT tokens, per-user settings, search, profile updates
and loved-one lists.

This project models both halves in Dafny.

- **Firmware state machines** are classes:
  - `BluetoothHandler.BleLink` holds the BLE globals: sequence counter, MTU,
    connection flags, pending command, and the notifications sent so far.
  - `Mpu6050Handler.Mpu6050Monitor` holds the sensor-health statics.
- **Backend tables** are the fields of one `Tables.Database` object (users,
  settings, loved ones, device tokens, sensor rows, crash events). The
  endpoints that write are methods with `modifies db`field`. Each is proved
  against a specification function, such as `TokenUpsert`, `GetOrCreate` or
  `Applied`.
- **Python exceptions** are the `Errors.Outcome` datatype (`Ok` or
  `Raise(exc)`), with one constructor per exception class the code raises or
  catches.
- **Collaborators are parameters**: Gemini, `json.loads`, JWT encode/decode,
  password hashing, the FCM sends, ArduinoJson serialisation, the clock and
  database failures. Each is a function-typed or boolean parameter, so every
  contract holds for every behaviour of the collaborator.

Modules, one per source file (plus `Common`, `Sorting`, `Errors` and `Tables`
for shared types): `BluetoothHandler`, `Mpu6050Handler`, `TiltDetection`,
`CrashController`, `CrashDetector`, `GeminiService`, `CrashUtils`,
`FcmController`, `UserSettingsController`, `UserSettingsSchema`,
`UserController`, `CoreController`, `UserSchema`, `LovedOneController`,
`AuthController`, `AuthBackends`, `Jwt`, `AuthUtils`, `AuthMessages`,
`BaseExceptions`.

The mobile app's own threshold detector and escalation gate are not part of
this model.

## Model

| member | source | states |
|---|---|---|
| BluetoothHandler.CalculateCrc16 | device/Sentry_Device/BluetoothHandler.cpp:58-71 | the nested byte/bit loop computes `Crc16`: register starts at 0xFFFF, each byte is shifted in MSB-first over 8 steps, no final XOR |
| BluetoothHandler.CrcEmpty | device/Sentry_Device/BluetoothHandler.cpp:59 | the CRC of an empty buffer is 0xFFFF |
| BluetoothHandler.CrcAppend | device/Sentry_Device/BluetoothHandler.cpp:60-70 | the CRC of `a + b` is the loop run over `b` from the register `a` leaves, so packets can be checked incrementally |
| BluetoothHandler.NextSequence | device/Sentry_Device/BluetoothHandler.cpp:74-76 | the next sequence number is the old one plus one, wrapping to 0 at 2^32 as `uint32_t` does |
| BluetoothHandler.BleLink.NextSequenceNumber | device/Sentry_Device/BluetoothHandler.cpp:74-76 | the counter advances by `NextSequence` and the number handed out is logged; the class invariant keeps the k-th number since a connection equal to k mod 2^32 |
| BluetoothHandler.BleLink.constructor | device/Sentry_Device/BluetoothHandler.cpp:4-21 | the globals start disconnected, counter 0, default MTU, no pending command, nothing sent |
| BluetoothHandler.BleLink.OnConnect | device/Sentry_Device/BluetoothHandler.cpp:25-35 | a connection sets the flag, resets the counter (so the first packet carries 1) and requests the larger MTU |
| BluetoothHandler.BleLink.OnDisconnect | device/Sentry_Device/BluetoothHandler.cpp:37-41 | a disconnection clears the flag and restores the default MTU; the invariant ties the MTU to the flag |
| BluetoothHandler.BleLink.OnWrite | device/Sentry_Device/BluetoothHandler.cpp:46-54 | a non-empty write becomes the pending command; an empty write changes nothing |
| BluetoothHandler.BleLink.SafeSinglePacketSize | device/Sentry_Device/BluetoothHandler.cpp:112-113 | the threshold is MTU-3 when the negotiated MTU exceeds the default, else the chunk size |
| BluetoothHandler.Emitted | device/Sentry_Device/BluetoothHandler.cpp:88-137 | at most one notification: exactly one, carrying the whole data, iff the characteristic exists and 0 < length <= MAX_PACKET_SIZE |
| BluetoothHandler.BleLink.SendDataWithChunking | device/Sentry_Device/BluetoothHandler.cpp:88-137 | appends exactly `Emitted` to the sent log and reports whether an over-threshold packet went out whole, unsplit |
| BluetoothHandler.BleLink.SendErrorResponse | device/Sentry_Device/BluetoothHandler.cpp:140-161 | when disconnected or without the config characteristic nothing is sent and no sequence number is used; otherwise one error document with the next number |
| BluetoothHandler.StatusCodeField | device/Sentry_Device/BluetoothHandler.cpp:258-260 | the status code field is present iff the code is non-negative, and then equals it |
| BluetoothHandler.Sealed | device/Sentry_Device/BluetoothHandler.cpp:268-279 | the sealed document is the original with `crc` set to the CRC of its serialisation without one, and nothing else changed |
| BluetoothHandler.BleLink.SealAndSerialize | device/Sentry_Device/BluetoothHandler.cpp:268-279 | the bytes sent are the serialisation of the sealed document |
| BluetoothHandler.BleLink.SendSensorData | device/Sentry_Device/BluetoothHandler.cpp:237-297 | disconnected or without the characteristic: no packet, no sequence number; otherwise exactly the sealed sensor document with the next number |
| BluetoothHandler.GpsPositionFields | device/Sentry_Device/BluetoothHandler.cpp:326-336 | latitude and longitude appear iff there is a fix and both are non-zero; altitude additionally needs a non-zero value; otherwise all three are null |
| BluetoothHandler.BleLink.SendGpsData | device/Sentry_Device/BluetoothHandler.cpp:300-368 | the same guard as the sensor packet; the document carries `GpsPositionFields` |
| BluetoothHandler.BleLink.SendDeviceStatus | device/Sentry_Device/BluetoothHandler.cpp:371-415 | the same guard; one sealed status document with the next number |
| BluetoothHandler.CommandName | device/Sentry_Device/BluetoothHandler.cpp:448-499 | a code has a name iff it is one of the six known commands |
| BluetoothHandler.ReactionTo | device/Sentry_Device/BluetoothHandler.cpp:429-499 | invalid JSON gives INVALID_DATA; a missing or unknown command gives INVALID_CMD; RESET_DEVICE restarts; every other known code is acknowledged |
| BluetoothHandler.BleLink.Restart | device/Sentry_Device/BluetoothHandler.cpp:479-484 | a restart returns every global to its power-on value and counts the restart |
| BluetoothHandler.BleLink.RejectCommand | device/Sentry_Device/BluetoothHandler.cpp:432-434 | a rejected command gets one error reply under the send guard, and the pending command is emptied |
| BluetoothHandler.BleLink.AcknowledgeCommand | device/Sentry_Device/BluetoothHandler.cpp:502-530 | a known command gets exactly one sealed success reply with the next sequence number, and the pending command is emptied |
| BluetoothHandler.BleLink.ProcessBluetoothCommands | device/Sentry_Device/BluetoothHandler.cpp:418-531 | `CommandProcessed`: nothing changes unless a non-empty command is pending; otherwise the flag and the command are cleared on every path, the reply (or restart) follows `ReactionTo`, and the connection, the MTU and the four characteristics change only by a restart, so a known non-reset command gets exactly one success reply iff the config characteristic exists |
| BluetoothHandler.BleLink.HandleBluetoothReconnection | device/Sentry_Device/BluetoothHandler.cpp:534-549 | afterwards the old flag equals the current one; advertising restarts only on the connected-to-disconnected edge; a pending command is handled exactly as `processBluetoothCommands` handles it (`CommandProcessed`: reply, sequence numbers, sent log, restart, connection, MTU and characteristics) |
| BluetoothHandler.BleLink.InitBluetooth | device/Sentry_Device/BluetoothHandler.cpp:164-229 | after setup all four characteristics exist and advertising has started once more |
| Mpu6050Handler.Mpu6050Monitor.constructor | device/Sentry_Device/MPU6050Handler.cpp:17-22 | the statics start uninitialised, disconnected, time 0, no failures |
| Mpu6050Handler.Mpu6050Monitor.InitMpu | device/Sentry_Device/MPU6050Handler.cpp:24-42 | a detected sensor sets both flags, zeroes the counter and stamps the time; an undetected one clears both flags |
| Mpu6050Handler.Mpu6050Monitor.ReadAccel | device/Sentry_Device/MPU6050Handler.cpp:44-84 | disconnected: zeros and no state change; a valid reading resets the counter and stamps the time; an invalid one zeros the output, counts a failure and drops the connection at 3; a read never reconnects |
| Mpu6050Handler.Elapsed | device/Sentry_Device/MPU6050Handler.cpp:96 | `millis() - lastValidReading` in unsigned 32-bit arithmetic: the true difference, plus 2^32 when the clock has wrapped |
| Mpu6050Handler.Mpu6050Monitor.IsWorking | device/Sentry_Device/MPU6050Handler.cpp:90-101 | working iff connected and the last valid reading is at most MPU_DATA_TIMEOUT ms old, measured across the 32-bit clock wrap |
| Mpu6050Handler.ElapsedMeasuresTrueTime | device/Sentry_Device/MPU6050Handler.cpp:90-101 | for any start time and any delay under 2^32 ms, the wrapped subtraction yields exactly the delay, so the staleness test survives the 49-day wrap |
| Mpu6050Handler.FreshAcrossWrap | device/Sentry_Device/MPU6050Handler.cpp:96 | a reading 3 s before `now`, taken before the clock wrapped, still counts as fresh |
| Mpu6050Handler.Mpu6050Monitor.Status | device/Sentry_Device/MPU6050Handler.cpp:107-120 | status 0 iff disconnected, 2 iff connected, working and no failures, 1 otherwise |
| Mpu6050Handler.StatusMessageOf | device/Sentry_Device/MPU6050Handler.cpp:123-136 | the fixed message for each of 0, 1, 2 and the fallback for any other code |
| Mpu6050Handler.StatusMessageNamesStatus | device/Sentry_Device/MPU6050Handler.cpp:126-132 | distinct statuses get distinct messages |
| Mpu6050Handler.Mpu6050Monitor.StatusMessage | device/Sentry_Device/MPU6050Handler.cpp:123-125 | the message of the current status; the "unknown" fallback is never returned |
| Mpu6050Handler.ReadAndReport | device/Sentry_Device/MPU6050Handler.cpp:57-73 | any int16 triple passes the range test: a connected sensor always gets a filtered reading and status 2 |
| Mpu6050Handler.ThreeFailuresDisconnect | device/Sentry_Device/MPU6050Handler.cpp:74-83 | any three out-of-range readings in a row from a healthy state give zero outputs, keep the last valid time, disconnect the sensor and give status 0 |
| TiltDetection.Abs | device/TiltDetection.cpp:10 | `fabs`: non-negative and equal to the argument or its negation |
| TiltDetection.IsTiltExceeded | device/TiltDetection.cpp:9-11 | tilted iff roll or pitch lies outside [-threshold, threshold]; a negative threshold flags every reading |
| TiltDetection.TiltMeansOutsideBand | device/TiltDetection.cpp:9-11 | tilt is exceeded iff roll or pitch lies outside [-threshold, threshold] |
| TiltDetection.AtThresholdIsNotTilt | device/TiltDetection.cpp:10 | the comparison is strict: values exactly at the threshold are not a tilt |
| TiltDetection.TiltSymmetric | device/TiltDetection.cpp:10 | the result ignores the sign of roll and of pitch, and swapping them |
| TiltDetection.TiltMonotone | device/TiltDetection.cpp:10 | exceeded at a threshold means exceeded at every smaller one |
| TiltDetection.DefaultThresholdNeverFires | device/Sentry_Device/TiltDetection.h:5 | with the 180-degree default, no angle atan2 can produce counts as a tilt |
| CrashController.LookbackSeconds | backend/sentry/device/controllers/crash_controller.py:88-90 | the look-back is at most 180 s, lies in 30..180 for intervals 10..60, and is 30 + 3(interval-10) below the cap |
| CrashController.LookbackExamples | backend/sentry/device/controllers/crash_controller.py:89 | intervals 10, 30, 60 give 30, 90, 180 seconds |
| CrashController.LookbackMonotone | backend/sentry/device/controllers/crash_controller.py:90 | a longer alert interval never shortens the look-back |
| CrashController.NumCrashEvents | backend/sentry/device/controllers/crash_controller.py:111-113 | at least one prior event, at most 3 for valid intervals, `interval // 20` from 20 s up |
| CrashController.NumCrashEventsExamples | backend/sentry/device/controllers/crash_controller.py:112 | intervals 10, 30, 60 give 1, 1, 3 events |
| CrashController.AlertResponseOf | backend/sentry/device/controllers/crash_controller.py:266-275 | the response copies the seven analysis fields and the event id; it is built iff severity is a string and the indicators a list of strings |
| CrashController.DefaultResponseIsValid | backend/sentry/core/ai/gemini_service.py:254-262 | the AI fallback always yields a well-formed response |
| CrashController.NewCrashEvent | backend/sentry/device/controllers/crash_controller.py:181-210 | the insert fails iff the timestamp string is not a date-time (ValidationError, checked first), the severity is null or, where the database enforces column lengths, the device id, `str()` of the severity or the crash type is too long; otherwise the row holds the device, requester, timestamp, the AI fields, the g-force and the six extracted GPS values, with no feedback and no alert sent yet |
| CrashController.OrProcessFailure | backend/sentry/device/controllers/crash_controller.py:277-279 | any exception, HttpError included, becomes HttpError 500 "Failed to process crash alert" |
| CrashController.AnalyseAlert | backend/sentry/device/controllers/crash_controller.py:80-142 | fetches the interval (maybe creating the settings row), derives look-back and event count, gathers context and calls the AI; a keyword it does not accept raises |
| CrashController.StoreEvent | backend/sentry/device/controllers/crash_controller.py:181-232 | appends the event; it is marked alerted iff severity is high or medium and the push succeeded |
| CrashController.SendCrashNotification | backend/sentry/device/services/fcm_service.py:42-118 | a push succeeds only with the messaging module and a non-empty token; a string timestamp makes `isoformat()` raise inside the `try`, so it fails; with a date-time it succeeds iff the send does not raise |
| CrashController.ShippedPushNeverSent | backend/sentry/device/services/fcm_service.py:85 | with the request's string still in `crash_timestamp` (crash_controller.py:184), the push never succeeds and the stored event keeps `alert_sent` false |
| CrashController.RecordCrash | backend/sentry/device/controllers/crash_controller.py:164-247 | stores the event; push and loved-one fan-out happen iff severity is high or medium |
| CrashController.RespondToAnalysis | backend/sentry/device/controllers/crash_controller.py:155-279 | `AlertHandled`: no crash stores nothing; a crash whose insert fails rolls back and answers 500; otherwise the event is appended, pushed and fanned out iff the severity is high or medium, and the reply names its id |
| CrashController.ProcessCrashAlert | backend/sentry/device/controllers/crash_controller.py:25-279 | an event is stored iff the AI says crash and the insert succeeds, notifications go out only for high or medium severity, the response echoes the analysis and the new id, and every failure is a 500 |
| CrashController.ShippedCallIsRejected | backend/sentry/device/controllers/crash_controller.py:137-142 | the `crash_events` keyword is not a parameter of `analyze_crash_data`, so the call raises TypeError |
| CrashController.EventIffCrash | backend/sentry/device/controllers/crash_controller.py:155-279 | after the handler one row is added iff the AI says crash and the insert succeeds, otherwise the table is untouched; a successful reply names an event iff it reports a crash |
| CrashController.ReplyNamesStoredEvent | backend/sentry/device/controllers/crash_controller.py:266-275 | the event id a crash reply names is the one new row's, carried by no earlier row, and that row is a confirmed crash with the severity the reply reports |
| CrashController.WithFeedback | backend/sentry/device/controllers/crash_controller.py:321-324 | the feedback is set; comments are replaced only when non-empty; no other column changes except the update time |
| CrashController.SubmitCrashFeedback | backend/sentry/device/controllers/crash_controller.py:302-341 | unknown id gives 404 before the value check; a value outside {true_positive, false_positive} gives 400; a failed save gives 500; the table changes only on success, and only that row |
| CrashController.Page | backend/sentry/device/controllers/crash_controller.py:378 | Django slicing `[offset:offset+limit]`: raises on a negative bound, empty when the stop precedes the start, otherwise the contiguous run from `offset` |
| CrashController.SchemaOf | backend/sentry/device/controllers/crash_controller.py:382-405 | the schema copies the row; empty feedback and comments become None; it fails iff the indicators are not a string list |
| CrashController.SchemasOf | backend/sentry/device/controllers/crash_controller.py:381-407 | the list succeeds iff every row converts, element by element |
| CrashController.SelectedEvents | backend/sentry/device/controllers/crash_controller.py:363-375 | exactly the events passing the device and user filters, each as often as the table holds it, newest first |
| CrashController.GetCrashEvents | backend/sentry/device/controllers/crash_controller.py:344-420 | the page of the selected events from `offset`, at most `limit` long; a negative bound or a bad row gives 500 |
| CrashController.CrashEventsNewestFirst | backend/sentry/device/controllers/crash_controller.py:375-378 | every returned event is a selected source row, and the page is ordered newest first |
| CrashDetector.GetUserCrashAlertInterval | backend/sentry/device/services/crash_detector.py:78-109 | 15 for an anonymous request or a database failure; otherwise the stored value, creating a row with 15 when missing |
| CrashDetector.GetRecentSensorData | backend/sentry/device/services/crash_detector.py:21-76 | exactly the device's rows inside the window, each as often as the table holds it, oldest first; [] on a database failure |
| CrashDetector.GetRecentCrashEvents | backend/sentry/device/services/crash_detector.py:111-164 | [] when unauthenticated; otherwise min(n, available) of the device's in-window events (any user), newest first, and the newest ones: an in-window event left out is no newer than any returned |
| CrashDetector.ExtractGpsData | backend/sentry/device/services/crash_detector.py:166-193 | all six keys None when there is no GPS or a falsy coordinate; otherwise the six values copied unchanged |
| CrashDetector.ExtractedLocationAllOrNothing | backend/sentry/device/services/crash_detector.py:176 | a location is complete or entirely absent; a 0.0 latitude counts as absent |
| GeminiService.NewService | backend/sentry/core/ai/gemini_service.py:20-38 | a client exists iff the package is installed, the key is non-empty and construction succeeds |
| GeminiService.LastTen | backend/sentry/core/ai/gemini_service.py:61 | `sensor_data[-10:]`: the final min(10, n) readings, in order |
| GeminiService.FormatSensorDataForAi | backend/sentry/core/ai/gemini_service.py:40-87 | the appending loop builds exactly `PromptLines` |
| GeminiService.ReadingsOfRecentLines | backend/sentry/core/ai/gemini_service.py:61-66 | one reading line per context row, in order |
| GeminiService.PromptShowsLastTen | backend/sentry/core/ai/gemini_service.py:59-66 | the prompt lists exactly the last ten context readings, never more than ten |
| GeminiService.PromptContextHeader | backend/sentry/core/ai/gemini_service.py:59-60 | with context the header states the total count; without context the section is omitted |
| GeminiService.ReplyText | backend/sentry/core/ai/gemini_service.py:178-198 | the reply text comes from `text`, then `candidates[0].content`, then `content`, else `str(response)`, stripped; an empty parts list raises IndexError |
| GeminiService.ContentPrecedence | backend/sentry/core/ai/gemini_service.py:181-193 | candidates prefer `parts` over `text`, `content` prefers `text` over `parts`, and an empty candidate list falls through to `content` |
| GeminiService.StripFences | backend/sentry/core/ai/gemini_service.py:200-204 | text without a fence is unchanged; text with one comes out fence-free |
| GeminiService.JsonFenceBlock | backend/sentry/core/ai/gemini_service.py:201-202 | with "```json", the result is the stripped text after it up to the next fence |
| GeminiService.PlainFenceBlock | backend/sentry/core/ai/gemini_service.py:203-204 | with only "```", the result is the stripped text between the first two fences |
| GeminiService.PyFloat | backend/sentry/core/ai/gemini_service.py:212 | `float()`: numbers and booleans convert; it raises on null, lists, objects and unparsable strings |
| GeminiService.Sanitise | backend/sentry/core/ai/gemini_service.py:210-229 | seven keys with their defaults; the scores are `float()` of the value or default, the crash type and reasoning `str()` of a present value; it succeeds iff both scores convert and the indicators have a length |
| GeminiService.ScoresNotClamped | backend/sentry/core/ai/gemini_service.py:212 | a confidence of 7.0 is passed through unclamped |
| GeminiService.DefaultResponse | backend/sentry/core/ai/gemini_service.py:248-262 | the fallback reports no crash, confidence 0.5, severity "low", false-positive risk 0.8 |
| GeminiService.EmptyObjectIsNotDefault | backend/sentry/core/ai/gemini_service.py:210-218 | an empty JSON object sanitises to no crash, yet differs from the fallback (risk 0.5 against 0.8) |
| GeminiService.AnalyzeCrashData | backend/sentry/core/ai/gemini_service.py:89-246 | no key, no client or any failure in the attempt gives the fallback; otherwise the sanitised reply; a crash is reported only when the model's parsed reply sanitises to one |
| GeminiService.UnparsableReplyIsNoCrash | backend/sentry/core/ai/gemini_service.py:233-239 | a reply that is not JSON yields the fallback, never a crash |
| GeminiService.UnsanitisableReplyIsNoCrash | backend/sentry/core/ai/gemini_service.py:240-246 | a reply that parses but fails `float()` (or `len`) gives the fallback, even when it says `is_crash` |
| GeminiService.CallAnalyzeCrashData | backend/sentry/core/ai/gemini_service.py:89-94 | a call whose keywords bind the signature (both required ones, no unknown one) is the analysis; an unexpected keyword or a missing `sensor_data`/`current_reading` raises TypeError |
| CrashUtils.NotifyLovedOnesWithGps | backend/sentry/device/utils/crash_utils.py:11-91 | attempts exactly the messages `Attempted` specifies (none without an owner or a truthy fix); delivers those the sender accepts; writes no table |
| CrashUtils.SendToLovedOnes | backend/sentry/device/utils/crash_utils.py:46-55 | the outer loop yields the fan-out over loved ones, and the delivered subset |
| CrashUtils.SendToTokens | backend/sentry/device/utils/crash_utils.py:55-91 | the inner loop yields one message per token in order, and the delivered subset |
| CrashUtils.OneMessagePerPair | backend/sentry/device/utils/crash_utils.py:30-55 | exactly one message per (active loved one, active token of that loved one) pair |
| CrashUtils.FanoutMessages | backend/sentry/device/utils/crash_utils.py:40-79 | every message is a "loved_one_crash_alert" with priority "high", channel "crash_alerts", the map link in its body and a non-empty device id, addressed to an active token of a listed loved one |
| CrashUtils.NoOwnerOrNoFixSendsNothing | backend/sentry/device/utils/crash_utils.py:24-38 | no owner, or a zero or missing coordinate, means no message |
| CrashUtils.DeliveredOf | backend/sentry/device/utils/crash_utils.py:77-91 | delivery never grows the list; with the method missing nothing is delivered |
| CrashUtils.DeliveredMembers | backend/sentry/device/utils/crash_utils.py:77-91 | delivered messages are exactly the attempted ones whose send did not raise |
| CrashUtils.OneFailureDropsOneMessage | backend/sentry/device/utils/crash_utils.py:87-91 | one failing send drops only its own message; the loop goes on |
| CrashUtils.ShippedSenderDeliversNothing | backend/sentry/device/utils/crash_utils.py:78 | with the service as shipped, no loved-one message is ever delivered |
| FcmController.TokenIndex | backend/sentry/device/controllers/fcm_controller.py:38-40 | the position of the row with the key (device id, token), or proof that there is none |
| FcmController.TokenUpsert | backend/sentry/device/controllers/fcm_controller.py:38-53 | keys stay unique; one row with the key ends with the requester, the platform, active and fresh; other keys are untouched; the table grows by one iff the key was new |
| FcmController.UpsertIdempotent | backend/sentry/device/controllers/fcm_controller.py:38-53 | registering the same token twice leaves the table as once |
| FcmController.RegisterFcmToken | backend/sentry/device/controllers/fcm_controller.py:16-70 | the field-by-field update gives `TokenUpsert`; the message says "registered" iff the key was new; a failure rolls back and gives 500 |
| FcmController.MostRecentToken | backend/sentry/device/controllers/fcm_controller.py:94-97 | the user's active token with the latest update, None iff there is no active token |
| FcmController.SendTestNotification | backend/sentry/device/controllers/fcm_controller.py:73-129 | 401 when unauthenticated (re-raised as is); "no token" when there is none; otherwise the sender's result, a 500 when it raises |
| FcmController.ShippedTestNotificationFails | backend/sentry/device/controllers/fcm_controller.py:106-111 | with the service as shipped, a user with an active token always gets 500; with the method present the call succeeds |
| Errors.ReraiseHttpOr500 | backend/sentry/device/controllers/fcm_controller.py:125-129 | an HttpError passes through, any other exception becomes 500 with the endpoint's message |
| Errors.WrapperOnlyRaisesHttp | backend/sentry/core/controllers/user_settings_controller.py:106-110 | after the wrapper, only HttpErrors escape |
| UserSettingsSchema.ValidateInterval | backend/sentry/core/schemas/user_settings_schema.py:20-35 | accepted iff 10 <= v <= 60, returned unchanged; otherwise ValueError |
| UserSettingsSchema.BoundsInclusive | backend/sentry/core/schemas/user_settings_schema.py:33-34 | 10 and 60 pass, 9 and 61 raise |
| UserSettingsSchema.ValidateIdempotent | backend/sentry/core/schemas/user_settings_schema.py:33-35 | re-validating an accepted value gives the same result |
| UserSettingsController.GetOrCreate | backend/sentry/core/controllers/user_settings_controller.py:32-35 | the user's row exists afterwards with its old value or the default; no other row changes |
| UserSettingsController.CheckInterval | backend/sentry/core/controllers/user_settings_controller.py:71-81 | missing gives 400 "required"; accepted iff an int in 10..60; every rejection is a 400 |
| UserSettingsController.CheckAgreesWithSchema | backend/sentry/core/controllers/user_settings_controller.py:77-81 | the controller's check accepts an int exactly when the schema validator does, with the same value |
| UserSettingsController.GetUserSettings | backend/sentry/core/controllers/user_settings_controller.py:15-49 | get-or-create with 15, returning the stored value; a failure gives 500 and no write |
| UserSettingsController.UpdateUserSettings | backend/sentry/core/controllers/user_settings_controller.py:52-110 | a rejected value gives its 400 with no write; on success only the requester's row holds the new value, which is echoed; a failure gives 500 |
| UserSettingsController.UpdateThenGet | backend/sentry/core/controllers/user_settings_controller.py:84-104 | after a valid update, reading the settings returns the value just set |
| UserController.ClampLimit | backend/sentry/core/controllers/user_controller.py:139 | the limit is clamped into [1, 50] and kept when already inside |
| UserController.Matching | backend/sentry/core/controllers/user_controller.py:150-160 | at most n of the active users other than the requester matching the query, in email order, each at most as often as the table holds it, and the first by email: one left out sorts no earlier; all of them when fewer than n |
| UserController.SearchUsers | backend/sentry/core/controllers/user_controller.py:118-168 | a too-short query gives []; otherwise at most `limit` matching users in email order, the first by email at the limit and every one (with its multiplicity) below it; `count` is the length |
| UserController.SearchExcludesSelfAndInactive | backend/sentry/core/controllers/user_controller.py:155-159 | the requester and inactive users are never found |
| UserController.UpdateUserInfo | backend/sentry/core/controllers/user_controller.py:16-42 | every row with the requester's id takes the supplied fields, every other row is unchanged; nothing is written when nothing is supplied |
| UserSchema.Applied | backend/sentry/core/schemas/user_schema.py:27-33 | supplied fields take the new value; every other column keeps its old one |
| UserSchema.AppliedIdempotent | backend/sentry/core/schemas/user_schema.py:27-33 | applying the same update twice equals applying it once |
| UserSchema.EmptyRequestIsIdentity | backend/sentry/core/controllers/user_controller.py:37 | an update with nothing supplied leaves the row as it was |
| CoreController.Items | backend/sentry/core/controllers/core_controller.py:45 | the four updatable fields, in declaration order |
| CoreController.SetAllIsApplied | backend/sentry/core/controllers/core_controller.py:46-48 | the `setattr` loop over the items has exactly the effect of `Applied` |
| CoreController.OwnOrFreshEmailAccepted | backend/sentry/core/controllers/core_controller.py:34 | resubmitting one's own email, or one no one else has, never trips the guard |
| CoreController.UpdateUserInfo | backend/sentry/core/controllers/core_controller.py:13-52 | a missing row raises; a taken email raises ValidationError on "email" with nothing saved; otherwise only the user's row changes, to `Applied`, and it is returned |
| CoreController.UpdatedEmailIsUnique | backend/sentry/core/controllers/core_controller.py:34-48 | after an accepted email change, the new email belongs to no other user |
| Tables.ActiveLovedOnes | backend/sentry/core/controllers/loved_one_controller.py:27-29 | exactly the owner's active relationships, each as often as the table holds it, newest first |
| LovedOneController.ViewOf | backend/sentry/core/controllers/loved_one_controller.py:35-44 | an entry embeds the loved one's own user record |
| LovedOneController.GetUserLovedOnes | backend/sentry/core/controllers/loved_one_controller.py:11-53 | one entry per active relationship of the requester, in order, each mirroring it; `count` is the length |
| LovedOneController.LovedOnesAreTheRequesters | backend/sentry/core/controllers/loved_one_controller.py:23-51 | every entry is an active relationship of the requester pointing at an existing user, newest first, and every such relationship is listed |
| AuthController.Identifier | backend/sentry/core/controllers/auth_controller.py:26 | the username if non-empty, else the email |
| AuthController.MakeLoginResponse | backend/sentry/core/schemas/auth_schema.py:25-31 | the response builds iff access token, refresh token and message are supplied; `token_type` defaults to "Bearer" |
| AuthController.LoginWith | backend/sentry/core/controllers/auth_controller.py:12-41 | no identifier gives a validation error before authentication; then wrong credentials, then inactive; tokens are minted only after all three checks |
| AuthController.LoginNeverSucceeds | backend/sentry/core/controllers/auth_controller.py:40-41 | as shipped, with a genuine token pair, login always raises: the response lacks `message` |
| AuthController.LoginIntendedSucceeds | backend/sentry/core/controllers/auth_controller.py:39-41 | with the success message added, an active user with valid credentials gets both tokens and the message |
| AuthController.LoginThroughBackendMatchesUsername | backend/sentry/core/auth/backends.py:15-30 | with `request` first in the backend's signature, a successful login found an active user whose username is the identifier, with a matching password |
| AuthController.LoginThroughShippedBackendRefused | backend/sentry/core/controllers/auth_controller.py:31 | as written, with `EmailOrUsernameBackend` as the only backend, every login with an identifier is refused as wrong credentials |
| AuthBackends.Candidates | backend/sentry/core/auth/backends.py:23 | exactly the users whose username or email matches |
| AuthBackends.Authenticate | backend/sentry/core/auth/backends.py:15-30 | several matches raise; none gives None; one gives the user iff the password checks and the user is active |
| AuthBackends.AuthenticateFindsOnlyMatch | backend/sentry/core/auth/backends.py:28-30 | for a unique match, success iff password and active flag both hold |
| AuthBackends.DjangoAuthenticate | backend/sentry/core/controllers/auth_controller.py:31 | Django's `authenticate(request, username=, password=)`: None when no backend's signature binds; any other result is what a binding backend returned |
| AuthBackends.ShippedBackendNeverConsulted | backend/sentry/core/auth/backends.py:15-20 | `(username, email, password)` does not bind `request` plus `username=`: the backend is skipped, so the result is that of the backends after it, None if none |
| AuthBackends.IntendedBackendDecides | backend/sentry/core/auth/backends.py:15-30 | with `request` first the signature binds, and as the only backend it decides exactly as its own `authenticate` |
| Jwt.TokenPayload | backend/sentry/core/auth/jwt.py:63-65 | the claims plus `exp` = now + duration and `type`, the other claims unchanged |
| Jwt.CreateToken | backend/sentry/core/auth/jwt.py:61-94 | the encoding of `TokenPayload`; an encoder failure becomes the invalid-token error |
| Jwt.UserClaims | backend/sentry/core/auth/jwt.py:122-133 | exactly `sub` and `username`; `sub` is the integer id as written, or its decimal string |
| Jwt.CreateAccessTokenFromRefreshToken | backend/sentry/core/auth/jwt.py:97-114 | a missing expiry setting raises ValueError; the token carries only `sub` and `username` from the refresh payload |
| Jwt.CreateTokenPair | backend/sentry/core/auth/jwt.py:117-138 | succeeds iff both settings are present and both encodes succeed; exactly three keys, "Bearer", and the refresh lifetime as written (days times 24) |
| Jwt.IntCall | backend/sentry/core/auth/jwt.py:26 | Python's `int()`: integers kept, floats truncated, booleans 0/1, strings parsed; a bad string is a ValueError, None, a list or an object a TypeError |
| Jwt.JoseDecode | backend/sentry/core/auth/jwt.py:48-52 | a payload iff the signature verifies, `exp` (when verified) is readable and not past, and `sub` is a string; an `exp` of the wrong type raises TypeError |
| Jwt.SubjectKey | backend/sentry/core/auth/jwt.py:26 | `get(id=sub)`: None matches nothing; a numeric string gives its value; a non-numeric string raises ValueError |
| Jwt.DecodeJwtToken | backend/sentry/core/auth/jwt.py:44-58 | the payload iff the signature verifies and the claims hold at `now`; every JWTError becomes the invalid-token error; a TypeError from `exp` escapes |
| Jwt.JwtAuthenticate | backend/sentry/core/auth/jwt.py:21-41 | succeeds iff the token decodes at `now` with a string `sub` naming an existing, active user; every failure is one of the three JWT errors, a ValueError (only for a non-numeric `sub`) or a TypeError |
| Jwt.ShippedTokensNeverDecode | backend/sentry/core/auth/jwt.py:122-133 | as written, with the integer `sub`, neither token of any pair ever decodes and authentication always fails as invalid |
| Jwt.PairAuthenticatesItsUser | backend/sentry/core/auth/jwt.py:117-138 | with a string `sub` and a round-tripping signer, the access token authenticates exactly its user until `exp`, and is invalid afterwards |
| Jwt.AuthenticateFailureKinds | backend/sentry/core/auth/jwt.py:29-41 | apart from the ValueError and TypeError of a malformed `sub` or `exp`, every failure is an AuthenticationError with a complete catalog and an AttributeError with the shipped one |
| Common.IntToStringParses | backend/sentry/core/auth/jwt.py:26 | `int(str(n)) == n`: a decimal-string subject looks up the id it was made from |
| AuthMessages.JwtAuthFailure | backend/sentry/core/auth/jwt.py:29-41 | raising with a catalog attribute gives AuthenticationError with its text; a missing attribute gives AttributeError |
| AuthMessages.ShippedCatalogRaisesAttributeError | backend/sentry/common/constants/messages/core/auth_messages.py:30-34 | the shipped catalog lacks the three attributes the JWT code reads, so each raise site raises AttributeError, which is not an HttpError |
| AuthMessages.CompleteCatalogRaises401 | backend/sentry/core/auth/jwt.py:29-41 | with the attributes defined, each failure is a 401 |
| AuthUtils.GetAccessTokenFromHeader | backend/sentry/core/auth/utils.py:47-60 | a token iff the header starts with "Bearer " (a missing header counts as ""); the token is the header with every "Bearer " removed |
| AuthUtils.HeaderTokenIsSuffix | backend/sentry/core/auth/utils.py:59 | the token equals the text after the prefix iff that text has no further "Bearer " |
| AuthUtils.NoBearerNoToken | backend/sentry/core/auth/utils.py:57-60 | a missing header, or any header not starting with "Bearer ", gives no token; "bearer " in lower case gives none either |
| AuthUtils.ValidateAccessToken | backend/sentry/core/auth/utils.py:13-44 | a token that does not decode at `now` or is not of type access gives the invalid-token error; it returns normally iff it decodes, is an access token, and `exp` is absent or not ahead; an `exp` still ahead gives 400 |
| AuthUtils.RefreshOnlyAtExpiry | backend/sentry/core/auth/utils.py:24-44 | as written, a fresh access token is refused with 400 before its `exp`, accepted only when `now` equals `exp`, and invalid afterwards |
| AuthUtils.RefreshAfterExpiryIntended | backend/sentry/core/auth/utils.py:24-44 | decoding without expiry verification, the same token is refused with 400 before its `exp` and accepted from then on |
| BaseExceptions.NewError | backend/sentry/common/exceptions/core/base_exceptions.py:15-31 | the message is never empty and the code never 0; a truthy argument is kept, a falsy or omitted one gives the class default |
| BaseExceptions.NewErrorNeverEmpty | backend/sentry/common/exceptions/core/base_exceptions.py:29-35 | `str()` is never empty, the code never 0, and a validation error always has details |
| BaseExceptions.FalsyArgumentsFallBack | backend/sentry/common/exceptions/core/base_exceptions.py:59-61 | "" and 0 and empty details behave exactly like omitted arguments |
| BaseExceptions.GivenValuesKept | backend/sentry/common/exceptions/core/base_exceptions.py:94-100 | truthy arguments are kept and `str()` returns the message |
| BaseExceptions.DefaultCodes | backend/sentry/common/exceptions/core/base_exceptions.py:68-78 | the defaults are 401, 404 and 400, and the validation default detail is field "root", "Validation failed" |

## Left out

- Floating point: `calculateTilt` (atan2 and sqrt), the Kalman filters, the ACCEL_RANGE normalisation and the prompt's g-force line are not modelled. Angles and coordinates are reals, with no NaN and no rounding. `Filtered` stands for the filter's output.
- Radio, network and logging: BLE stack calls, advertising internals, `delay`, Serial output and every `logger` call. `ESP.restart` is modelled as a return to the power-on globals. The Wi-Fi handler is not part of this model.
- Library calls are parameters: ArduinoJson serialisation and parsing, `json.loads`, the Gemini client, python-jose's signing and signature check, password hashing, and the FCM sends. No property of theirs is assumed beyond what a lemma's `requires` states, such as signing and checking round-tripping. python-jose's claim checks on `exp` and `sub` are modelled (`Jwt.JoseDecode`); its checks of `nbf`, `iat`, `aud`, `iss` and `jti` are not, as minted tokens carry none of them.
- The header constants (MTU values, chunk and packet sizes, CRC polynomial, command and error codes) are not part of the shipped files. They are the `BleConfig` parameter.
- `isBluetoothConnected`, `getCurrentMTU` and `isMPU6050Connected` are bare getters of fields the classes expose.
- Mpu6050Handler.Mpu6050Monitor.ReadAccel: raw values are unbounded integers, not `int16_t`. This keeps the failure branch reachable; `ReadAndReport` shows that every int16 triple passes the range test.
- Prompt text: `PromptLines` is a list of structured lines, not formatted strings. Number formatting (`:.2f`, `:.1f`) and the prompt's fixed instructions are not modelled, and `CrashUtils.MapLink` takes the number formatter as a parameter.
- GeminiService.JsonFenceBlock: proved only when no four-backtick run follows the "```json" marker; for such replies the split results are not characterised.
- `severity` and `key_indicators` keep the JSON value the model returned, so a non-string severity is carried to the response check. The `impact_acceleration` and `final_tilt` JSON columns of a crash event are not modelled.
- Timestamps are integer seconds and `now` is a parameter: the current time rounded down to the second. For the integer `exp` the backend mints this is exact, so "`now` equals `exp`" means "within the second after expiry". Datetime `isoformat` rendering is left out.
- Common.ParseInt: Python's `int()` on a string also accepts underscores between digits and non-ASCII decimal digits; the model accepts ASCII digits only.
- Column lengths: PostgreSQL enforces `max_length` while SQLite does not, so `Faults.lengthLimits` chooses whether an over-long value fails the insert.
- Ordering: `order_by` is an insertion sort on the key. The contracts state sortedness, multiplicity and, for a slice, that the rows returned come first; not how the database breaks ties. String order is code-point order, and `icontains` lower-cases ASCII letters only, with no Unicode case folding.
- LovedOneController.GetUserLovedOnes: requires that every relationship points at an existing user, the foreign-key integrity the database enforces.
- FCMService construction (credentials, Firebase app set-up) and the token lookup `_get_fcm_token` are not modelled. `CrashController.SendCrashNotification` models the branches of the crash push, with the module, the token and the send as parameters.
- CrashController.StoreEvent: takes the push result as the boolean `pushOk`, which is what the push gives once the event carries a date-time. As shipped it never does, because the timestamp is still a string (see Findings and `ShippedPushNeverSent`).
- CrashController.NewCrashEvent: which strings Django's `DateTimeField` accepts (ISO 8601 forms, time zones) is not modelled. The request carries the result of that parse, in seconds or None.
- `AUTHENTICATION_BACKENDS` is not part of this model: the backend lemmas take `EmailOrUsernameBackend` as the only configured backend. If Django's `ModelBackend` is configured as well, it decides logins by username alone. A backend raising `PermissionDenied` is not modelled; this one never does.
- The `set_password` call on a throwaway user (it has no lasting effect).
- `update_user_profile_picture` (file storage) and `get_user_info` (a read of the requester's row) in the user controller.
- Transactions are atomic by construction: a modelled failure leaves the tables unchanged.

## Findings

| source | as written | input that shows it | evidently intended | confidence | as-written member | corrected member |
|---|---|---|---|---|---|---|
| backend/sentry/device/controllers/crash_controller.py:137-142 | `analyze_crash_data` is called with a `crash_events=` keyword it does not declare | any crash alert | call it with the keywords it accepts, so the AI result decides whether an event is stored | not executed | CrashController.ShippedCallIsRejected | CrashController.ProcessCrashAlert |
| backend/sentry/core/auth/jwt.py:29-41 | raises with `AuthMessages.JwtAuth.INVALID_TOKEN`, `INACTIVE_USER` and `USER_NOT_FOUND`, which the catalog does not define | a token for an inactive user | an AuthenticationError (401) with the message | not executed | AuthMessages.ShippedCatalogRaisesAttributeError | AuthMessages.CompleteCatalogRaises401 |
| backend/sentry/core/controllers/auth_controller.py:41 | `LoginResponse(**tokens)` without the required `message` field | correct credentials of an active user | a response carrying both tokens and "Login successful." | not executed | AuthController.LoginNeverSucceeds | AuthController.LoginIntendedSucceeds |
| backend/sentry/device/controllers/fcm_controller.py:106-111 | calls `send_test_notification` on the FCM service, which has no such method | an authenticated user with an active token | answer with the send result | not executed | FcmController.ShippedTestNotificationFails | FcmController.SendTestNotification |
| backend/sentry/device/utils/crash_utils.py:78 | calls `_send_expo_notification_without_crash_event`, which the FCM service lacks; the AttributeError is caught per message | a high-severity crash of a user whose loved one has an active token | deliver each loved-one alert | not executed | CrashUtils.ShippedSenderDeliversNothing | CrashUtils.DeliveredMembers |
| backend/sentry/core/auth/jwt.py:122-133 | `create_token_pair` puts the integer `user.id` in `sub`, and python-jose refuses a non-string `sub` when decoding | any token pair the backend mints | `"sub": str(user.id)`, which `get(id=...)` turns back into the id | not executed | Jwt.ShippedTokensNeverDecode | Jwt.PairAuthenticatesItsUser |
| backend/sentry/core/auth/utils.py:24-44 | decodes with expiry verification on, so python-jose refuses an expired access token and `decode_jwt_token` turns that into the invalid-token error before `except JWTError` can pass it | an access token one second after its `exp` | decode without verifying expiry, so an expired access token may be refreshed | not executed | AuthUtils.RefreshOnlyAtExpiry | AuthUtils.RefreshAfterExpiryIntended |
| backend/sentry/core/auth/backends.py:15-20 | `authenticate(self, username, email, password)` has no `request` parameter, so Django cannot bind `authenticate(request, username=..., password=...)` to it and skips the backend | any login, with this backend the only one configured | `authenticate(self, request, username=None, email=None, password=None)` | not executed | AuthController.LoginThroughShippedBackendRefused | AuthController.LoginThroughBackendMatchesUsername |
| backend/sentry/device/services/fcm_service.py:85 | `crash_event.crash_timestamp.isoformat()` on the instance `create` returned, whose `crash_timestamp` is still the request's `str` (crash_controller.py:184); the AttributeError is caught and the push returns False | any high- or medium-severity crash of a device with a registered token | the owner is notified and `alert_sent` is set | not executed | CrashController.ShippedPushNeverSent | CrashController.StoreEvent |
