/** The Gemini crash analysis service: the prompt built from the sensor
    context, the text taken from the model's reply, the markdown fences
    removed from it, and the seven-key result sanitised from the parsed
    JSON, with a fixed default whenever anything fails. The google.genai
    client, `json.loads`, `float()` on strings and `str()` of non-strings
    are parameters. */
module GeminiService {
  import opened Common
  import opened Tables
  import opened Errors

  // ------------------------------------------------------------ the service

  /** The service after `__init__`: the configured API key and whether a
      client was created. */
  datatype Service = Service(apiKey: string, hasClient: bool)

  /** `__init__`: a client exists only when the genai package is installed,
      the API key is non-empty and creating the client did not raise. */
  function NewService(installed: bool, apiKey: string, clientOk: bool): (s: Service)
    ensures s.apiKey == apiKey
    ensures s.hasClient <==> installed && apiKey != "" && clientOk
  {
    if !installed || apiKey == "" then Service(apiKey, false)
    else Service(apiKey, clientOk)
  }

  // ------------------------------------------------------------- the prompt

  /** The current reading that triggered the alert. */
  datatype Reading = Reading(ax: real, ay: real, az: real, roll: real, pitch: real, tiltDetected: bool)

  /** One line of the formatted sensor context. The text of each line
      (its fixed wording and the rounding of its numbers) is not modelled;
      each constructor stands for one `lines.append`. */
  datatype PromptLine =
    | ContextTitle
    | RecentTitle(count: nat)
    | RecentLine(reading: SensorRow)
    | CurrentTitle
    | CurrentAccel(ax: real, ay: real, az: real)
    | CurrentTilt(roll: real, pitch: real)
    | CurrentTiltFlag(tilted: bool)
    | GForceLine(ax: real, ay: real, az: real)

  const RECENT_SHOWN: nat := 10

  /** `sensor_data[-10:]`. */
  function LastTen(s: seq<SensorRow>): (r: seq<SensorRow>)
    ensures |r| == if |s| < RECENT_SHOWN then |s| else RECENT_SHOWN
    ensures r == s[|s| - |r|..]
  {
    if |s| <= RECENT_SHOWN then s else s[|s| - RECENT_SHOWN..]
  }

  /** One context line per reading, in order. */
  function RecentLines(rows: seq<SensorRow>): seq<PromptLine>
  {
    if |rows| == 0 then [] else RecentLines(rows[..|rows| - 1]) + [RecentLine(rows[|rows| - 1])]
  }

  /** The recent-readings section: a header with the number of readings
      and the last ten of them; nothing when there is no context. */
  function RecentSection(sensor: seq<SensorRow>): seq<PromptLine>
  {
    if |sensor| > 0 then [RecentTitle(|sensor|)] + RecentLines(LastTen(sensor)) else []
  }

  /** The lines about the reading that triggered the alert. */
  function CurrentSection(current: Reading, includeMetrics: bool): seq<PromptLine>
  {
    [CurrentTitle,
     CurrentAccel(current.ax, current.ay, current.az),
     CurrentTilt(current.roll, current.pitch),
     CurrentTiltFlag(current.tiltDetected)] +
    (if includeMetrics then [GForceLine(current.ax, current.ay, current.az)] else [])
  }

  /** The lines `format_sensor_data_for_ai` collects, before they are joined. */
  function PromptLines(sensor: seq<SensorRow>, current: Reading, includeMetrics: bool): seq<PromptLine>
  {
    [ContextTitle] + RecentSection(sensor) + CurrentSection(current, includeMetrics)
  }

  /** `format_sensor_data_for_ai`, up to the final join. */
  method FormatSensorDataForAi(sensor: seq<SensorRow>, current: Reading, includeMetrics: bool)
    returns (lines: seq<PromptLine>)
    ensures lines == PromptLines(sensor, current, includeMetrics)
  {
    lines := [ContextTitle];
    var section: seq<PromptLine> := [];
    if |sensor| > 0 {
      section := [RecentTitle(|sensor|)];
      var recent := LastTen(sensor);
      for k := 0 to |recent|
        invariant section == [RecentTitle(|sensor|)] + RecentLines(recent[..k])
      {
        assert recent[..k + 1][..k] == recent[..k];
        section := section + [RecentLine(recent[k])];
      }
      assert recent[..|recent|] == recent;
    }
    lines := lines + section;
    lines := lines + [CurrentTitle];
    lines := lines + [CurrentAccel(current.ax, current.ay, current.az)];
    lines := lines + [CurrentTilt(current.roll, current.pitch)];
    lines := lines + [CurrentTiltFlag(current.tiltDetected)];
    if includeMetrics {
      lines := lines + [GForceLine(current.ax, current.ay, current.az)];
    }
  }

  /** The readings a list of lines shows, in order. */
  function Readings(lines: seq<PromptLine>): seq<SensorRow>
  {
    if |lines| == 0 then []
    else (if lines[0].RecentLine? then [lines[0].reading] else []) + Readings(lines[1..])
  }

  lemma {:induction false} ReadingsAppend(a: seq<PromptLine>, b: seq<PromptLine>)
    ensures Readings(a + b) == Readings(a) + Readings(b)
  {
    if |a| == 0 {
      assert a + b == b;
    } else {
      assert (a + b)[0] == a[0];
      assert (a + b)[1..] == a[1..] + b;
      ReadingsAppend(a[1..], b);
    }
  }

  lemma {:induction false} ReadingsOfRecentLines(rows: seq<SensorRow>)
    ensures Readings(RecentLines(rows)) == rows
  {
    if |rows| > 0 {
      var init := rows[..|rows| - 1];
      ReadingsOfRecentLines(init);
      ReadingsAppend(RecentLines(init), [RecentLine(rows[|rows| - 1])]);
      assert init + [rows[|rows| - 1]] == rows;
    }
  }

  lemma {:induction false} NoReadings(lines: seq<PromptLine>)
    requires forall i :: 0 <= i < |lines| ==> !lines[i].RecentLine?
    ensures Readings(lines) == []
  {
    if |lines| > 0 {
      NoReadings(lines[1..]);
    }
  }

  /** The prompt shows exactly the last ten context readings, oldest first. */
  lemma PromptShowsLastTen(sensor: seq<SensorRow>, current: Reading, includeMetrics: bool)
    ensures Readings(PromptLines(sensor, current, includeMetrics)) == LastTen(sensor)
    ensures |Readings(PromptLines(sensor, current, includeMetrics))| <= RECENT_SHOWN
  {
    var section := RecentSection(sensor);
    var cur := CurrentSection(current, includeMetrics);
    assert PromptLines(sensor, current, includeMetrics) == ([ContextTitle] + section) + cur;
    ReadingsAppend([ContextTitle] + section, cur);
    NoReadings(cur);
    ReadingsAppend([ContextTitle], section);
    NoReadings([ContextTitle]);
    assert Readings(PromptLines(sensor, current, includeMetrics)) == Readings(section);
    if |sensor| > 0 {
      ReadingsAppend([RecentTitle(|sensor|)], RecentLines(LastTen(sensor)));
      NoReadings([RecentTitle(|sensor|)]);
      ReadingsOfRecentLines(LastTen(sensor));
    } else {
      assert section == [];
    }
  }

  /** The context header counts every reading of the window, not only the
      ten shown; with no context the section is left out altogether. */
  lemma PromptContextHeader(sensor: seq<SensorRow>, current: Reading, includeMetrics: bool)
    ensures |sensor| > 0 ==> PromptLines(sensor, current, includeMetrics)[1] == RecentTitle(|sensor|)
    ensures |sensor| == 0 ==>
      forall i :: 0 <= i < |PromptLines(sensor, current, includeMetrics)| ==>
        !PromptLines(sensor, current, includeMetrics)[i].RecentTitle? &&
        !PromptLines(sensor, current, includeMetrics)[i].RecentLine?
  {
  }

  // ---------------------------------------------------------- the reply text

  /** The shapes of response the service looks into. `None` stands for an
      attribute the object does not have; `repr` is `str(response)`. */
  datatype Content = Content(parts: Option<seq<string>>, text: Option<string>)
  datatype Candidate = Candidate(content: Option<Content>)
  datatype Response = Response(
    text: Option<string>,
    candidates: Option<seq<Candidate>>,
    content: Option<Content>,
    repr: string)

  /** No whitespace at either end. */
  predicate Trimmed(s: string)
  {
    |s| > 0 ==> !IsSpace(s[0]) && !IsSpace(s[|s| - 1])
  }

  /** `parts[0].text.strip()`: an empty `parts` raises IndexError. */
  function FirstPart(parts: seq<string>): (r: Outcome<string>)
    ensures r.Raise? <==> |parts| == 0
    ensures r.Raise? ==> r.exc == IndexError
    ensures r.Ok? ==> Trimmed(r.value)
  {
    if |parts| == 0 then Raise(IndexError) else Ok(Strip(parts[0]))
  }

  /** The `if`/`elif` chain that looks for the text: `text`, then the first
      candidate's content (its `parts` before its `text`), then `content`
      (its `text` before its `parts`); "" when none applies. */
  function Extracted(resp: Response): (r: Outcome<string>)
    ensures r.Raise? ==> r.exc == IndexError && resp.text.None?
    ensures r.Ok? ==> Trimmed(r.value)
  {
    if resp.text.Some? then Ok(Strip(resp.text.value))
    else if resp.candidates.Some? && |resp.candidates.value| > 0 then
      var c := resp.candidates.value[0];
      if c.content.None? then Ok("")
      else if c.content.value.parts.Some? then FirstPart(c.content.value.parts.value)
      else if c.content.value.text.Some? then Ok(Strip(c.content.value.text.value))
      else Ok("")
    else if resp.content.Some? then
      if resp.content.value.text.Some? then Ok(Strip(resp.content.value.text.value))
      else if resp.content.value.parts.Some? then FirstPart(resp.content.value.parts.value)
      else Ok("")
    else Ok("")
  }

  /** The reply text, with `str(response)` as the fallback when nothing
      was found or what was found is blank. */
  function ReplyText(resp: Response): (r: Outcome<string>)
    ensures r.Raise? ==> r.exc == IndexError && resp.text.None?
    ensures r.Ok? ==> Trimmed(r.value)
    ensures resp.text.Some? && Strip(resp.text.value) != "" ==> r == Ok(Strip(resp.text.value))
    ensures resp.text.Some? && Strip(resp.text.value) == "" ==> r == Ok(Strip(resp.repr))
    ensures resp.text.None? && resp.candidates.None? && resp.content.None? ==> r == Ok(Strip(resp.repr))
  {
    var t := Extracted(resp);
    if t.Ok? && t.value == "" then Ok(Strip(resp.repr)) else t
  }

  /** The two content lookups disagree on precedence: a candidate's content
      is read from `parts` first, the response's own content from `text`
      first; an empty list of candidates is passed over. */
  lemma ContentPrecedence(p: string, t: string, repr: string)
    requires Strip(p) != "" && Strip(t) != ""
    ensures ReplyText(Response(None, Some([Candidate(Some(Content(Some([p]), Some(t))))]), None, repr)) == Ok(Strip(p))
    ensures ReplyText(Response(None, None, Some(Content(Some([p]), Some(t))), repr)) == Ok(Strip(t))
    ensures ReplyText(Response(None, Some([]), Some(Content(Some([p]), Some(t))), repr)) == Ok(Strip(t))
    ensures ReplyText(Response(None, Some([Candidate(Some(Content(Some([]), Some(t))))]), None, repr)) == Raise(IndexError)
  {
  }

  // ------------------------------------------------------- fence stripping

  const FENCE: string := "```"
  const JSON_FENCE: string := FENCE + "json"
  const FOUR_BACKTICKS: string := FENCE + "`"

  /** The markdown fences removed from the reply: the text after the first
      "```json" up to the next "```", or else the text between the first
      two "```", stripped; a reply without fences is kept as it is. */
  function StripFences(t: string): (r: string)
    ensures !Contains(t, FENCE) ==> r == t
    ensures Contains(t, FENCE) ==> !Contains(r, FENCE)
  {
    JsonFenceIsFence(t);
    if Contains(t, JSON_FENCE) then
      StripHasNoFence(SplitSecond(t, JSON_FENCE));
      Strip(SplitHead(SplitSecond(t, JSON_FENCE), FENCE))
    else if Contains(t, FENCE) then
      StripHasNoFence(SplitSecond(t, FENCE));
      Strip(SplitHead(SplitSecond(t, FENCE), FENCE))
    else
      t
  }

  lemma JsonFenceIsFence(t: string)
    ensures Contains(t, JSON_FENCE) ==> Contains(t, FENCE)
  {
    if Contains(t, JSON_FENCE) {
      var i := Find(t, JSON_FENCE).value;
      assert t[i..i + 3] == t[i..i + 7][..3];
      assert OccursAt(t, FENCE, i);
    }
  }

  lemma StripHasNoFence(s: string)
    ensures !Contains(SplitHead(s, FENCE), FENCE) && !Contains(Strip(SplitHead(s, FENCE)), FENCE)
  {
    var h := SplitHead(s, FENCE);
    SplitHeadNoSep(s, FENCE);
    StripIsSlice(h);
    var a: nat, b: nat :| a <= b <= |h| && Strip(h) == h[a..b];
    NoOccurrenceInSlice(h, FENCE, a, b);
  }

  /** A "```" that starts one or two characters before a "```json" makes
      a run of four backticks. */
  lemma StraddleMakesLongRun(s: string, i: int, j: int)
    requires 0 <= i
    ensures OccursAt(s, FENCE, i) && OccursAt(s, JSON_FENCE, j) && i < j < i + 3 ==>
      OccursAt(s, FOUR_BACKTICKS, i)
  {
    if OccursAt(s, FENCE, i) && OccursAt(s, JSON_FENCE, j) && i < j < i + 3 {
      forall k | i <= k < i + 4 ensures s[k] == '`' {
        if k < i + 3 {
          assert s[k] == s[i..i + 3][k - i];
        } else {
          assert s[k] == s[j..j + 7][k - j];
        }
      }
      assert s[i..i + 4] == FOUR_BACKTICKS;
    }
  }

  /** With a "```json" fence, the result is the text after it up to the
      next "```" (or the end), stripped, as long as that text has no run
      of four backticks. Such a run in front of a second "```json" is the
      one case where the cut lands elsewhere. */
  lemma JsonFenceBlock(t: string)
    requires Contains(t, JSON_FENCE)
    requires !Contains(t[Find(t, JSON_FENCE).value + |JSON_FENCE|..], FOUR_BACKTICKS)
    ensures StripFences(t) == Strip(SplitHead(t[Find(t, JSON_FENCE).value + |JSON_FENCE|..], FENCE))
  {
    var rest := t[Find(t, JSON_FENCE).value + |JSON_FENCE|..];
    forall i, j | 0 <= i < j <= |rest| && OccursAt(rest, FENCE, i) && OccursAt(rest, JSON_FENCE, j)
      ensures i + |FENCE| <= j
    {
      StraddleMakesLongRun(rest, i, j);
    }
    assert JSON_FENCE[..|FENCE|] == FENCE;
    SplitHeadNested(rest, JSON_FENCE, FENCE);
  }

  /** Without "```json" but with "```", the result is the text between
      the first and the second fence (or the end), stripped. */
  lemma PlainFenceBlock(t: string)
    requires !Contains(t, JSON_FENCE) && Contains(t, FENCE)
    ensures StripFences(t) == Strip(SplitHead(t[Find(t, FENCE).value + |FENCE|..], FENCE))
  {
    SplitHeadIdempotent(t[Find(t, FENCE).value + |FENCE|..], FENCE);
  }

  // ----------------------------------------------------------- sanitising

  /** `float(v)` on a decoded JSON value; `floatOfStr` parses a string
      (None: ValueError). */
  function PyFloat(j: Json, floatOfStr: string -> Option<real>): (r: Outcome<real>)
    ensures j.JFloat? ==> r == Ok(j.f)
    ensures j.JInt? ==> r == Ok(j.i as real)
    ensures j.JBool? ==> r == Ok(if j.b then 1.0 else 0.0)
    ensures r.Raise? <==> j.JNull? || j.JArr? || j.JObj? || (j.JStr? && floatOfStr(j.s).None?)
  {
    match j
    case JBool(b) => Ok(if b then 1.0 else 0.0)
    case JInt(i) => Ok(i as real)
    case JFloat(f) => Ok(f)
    case JStr(s) => if floatOfStr(s).Some? then Ok(floatOfStr(s).value) else Raise(ValueError("could not convert string to float"))
    case _ => Raise(TypeError("float() argument must be a string or a real number"))
  }

  /** `str(v)`: a string is kept, anything else goes through `repr`. */
  function PyStr(j: Json, repr: Json -> string): string
  {
    if j.JStr? then j.s else repr(j)
  }

  /** Values that have a `len()`. */
  predicate HasLen(j: Json) { j.JStr? || j.JArr? || j.JObj? }

  /** The analysis dictionary: always these seven keys. */
  datatype Analysis = Analysis(
    isCrash: bool,
    confidence: real,
    severity: Json,
    crashType: string,
    reasoning: string,
    keyIndicators: Json,
    falsePositiveRisk: real)

  /** The sanitised result: each key with its default, `float()` on the
      two scores with no clamping, `str()` on the two texts, `severity`
      and `key_indicators` as they came. A result that is not an object
      has no `get` (AttributeError), and the log line that follows takes
      `len()` of the key indicators (TypeError if they have none). */
  function Sanitise(result: Json, floatOfStr: string -> Option<real>, repr: Json -> string): (r: Outcome<Analysis>)
    ensures !result.JObj? ==> r.Raise?
    ensures r.Ok? ==>
      var m := result.fields;
      r.value.isCrash == Truthy(Get(m, "is_crash", JBool(false))) &&
      r.value.severity == Get(m, "severity", JStr("low")) &&
      r.value.keyIndicators == Get(m, "key_indicators", JArr([])) &&
      HasLen(r.value.keyIndicators) &&
      ("confidence" !in m ==> r.value.confidence == 0.5) &&
      ("false_positive_risk" !in m ==> r.value.falsePositiveRisk == 0.5) &&
      ("crash_type" !in m ==> r.value.crashType == "unknown") &&
      ("reasoning" !in m ==> r.value.reasoning == "Analysis completed")
    ensures r.Ok? ==> forall k :: k in {"confidence", "false_positive_risk"} && k in result.fields && result.fields[k].JFloat? ==>
      (if k == "confidence" then r.value.confidence else r.value.falsePositiveRisk) == result.fields[k].f
    // present values: `float()` of the scores, `str()` of the texts
    ensures r.Ok? ==>
      var m := result.fields;
      PyFloat(Get(m, "confidence", JFloat(0.5)), floatOfStr) == Ok(r.value.confidence) &&
      PyFloat(Get(m, "false_positive_risk", JFloat(0.5)), floatOfStr) == Ok(r.value.falsePositiveRisk) &&
      ("crash_type" in m ==> r.value.crashType == PyStr(m["crash_type"], repr)) &&
      ("reasoning" in m ==> r.value.reasoning == PyStr(m["reasoning"], repr))
    ensures result.JObj? ==>
      (r.Ok? <==>
        PyFloat(Get(result.fields, "confidence", JFloat(0.5)), floatOfStr).Ok? &&
        PyFloat(Get(result.fields, "false_positive_risk", JFloat(0.5)), floatOfStr).Ok? &&
        HasLen(Get(result.fields, "key_indicators", JArr([]))))
  {
    if !result.JObj? then Raise(AttributeError("get"))
    else
      var m := result.fields;
      var confidence := PyFloat(Get(m, "confidence", JFloat(0.5)), floatOfStr);
      if confidence.Raise? then Raise(confidence.exc)
      else
        var risk := PyFloat(Get(m, "false_positive_risk", JFloat(0.5)), floatOfStr);
        if risk.Raise? then Raise(risk.exc)
        else
          var indicators := Get(m, "key_indicators", JArr([]));
          if !HasLen(indicators) then Raise(TypeError("object has no len()"))
          else Ok(Analysis(
            Truthy(Get(m, "is_crash", JBool(false))),
            confidence.value,
            Get(m, "severity", JStr("low")),
            PyStr(Get(m, "crash_type", JStr("unknown")), repr),
            PyStr(Get(m, "reasoning", JStr("Analysis completed")), repr),
            indicators,
            risk.value))
  }

  /** Scores are not clamped: a confidence of 7 stays 7. */
  lemma ScoresNotClamped(floatOfStr: string -> Option<real>, repr: Json -> string)
    ensures Sanitise(JObj(map["confidence" := JFloat(7.0)]), floatOfStr, repr).Ok?
    ensures Sanitise(JObj(map["confidence" := JFloat(7.0)]), floatOfStr, repr).value.confidence == 7.0
  {
  }

  /** `_default_response`. */
  function DefaultResponse(): (r: Analysis)
    ensures !r.isCrash && r.confidence == 0.5 && r.severity == JStr("low") && r.falsePositiveRisk == 0.8
    ensures r.crashType == "unknown" && r.keyIndicators == JArr([])
    ensures r.reasoning == "AI analysis unavailable - defaulting to false positive"
  {
    Analysis(false, 0.5, JStr("low"), "unknown",
             "AI analysis unavailable - defaulting to false positive", JArr([]), 0.8)
  }

  /** The default response and an empty JSON object differ: the empty
      object keeps the sanitiser's own defaults (risk 0.5, "Analysis
      completed"), yet neither reports a crash. */
  lemma EmptyObjectIsNotDefault(floatOfStr: string -> Option<real>, repr: Json -> string)
    ensures Sanitise(JObj(map[]), floatOfStr, repr).Ok?
    ensures !Sanitise(JObj(map[]), floatOfStr, repr).value.isCrash
    ensures Sanitise(JObj(map[]), floatOfStr, repr).value != DefaultResponse()
  {
    assert Sanitise(JObj(map[]), floatOfStr, repr).value.falsePositiveRisk == 0.5;
  }

  // ------------------------------------------------------------ the analysis

  /** The collaborators the analysis calls: the model (which may raise),
      `json.loads` (None: JSONDecodeError), `float()` of a string and
      `str()` of a non-string. */
  datatype Collaborators = Collaborators(
    generate: seq<PromptLine> -> Outcome<Response>,
    parseJson: string -> Option<Json>,
    floatOfStr: string -> Option<real>,
    repr: Json -> string)

  /** The text handed to `json.loads` when the model replied. */
  function JsonText(resp: Response): Outcome<string>
  {
    var t := ReplyText(resp);
    if t.Raise? then Raise(t.exc) else Ok(StripFences(t.value))
  }

  /** The body of the `try` block of `analyze_crash_data`. */
  function Attempt(svc: Service, sensor: seq<SensorRow>, current: Reading, c: Collaborators): Outcome<Analysis>
  {
    if !svc.hasClient then Ok(DefaultResponse())
    else
      var reply := c.generate(PromptLines(sensor, current, true));
      if reply.Raise? then Raise(reply.exc)
      else
        var text := JsonText(reply.value);
        if text.Raise? then Raise(text.exc)
        else match c.parseJson(text.value)
          case None => Raise(ValueError("JSONDecodeError"))
          case Some(result) => Sanitise(result, c.floatOfStr, c.repr)
  }

  /** `analyze_crash_data`: never raises; without a key or a client, or
      when the call, the text extraction, the JSON parsing or the
      sanitising fails, the answer is the default, which is no crash. A
      crash is reported only when the model's reply parsed to an object
      whose `is_crash` is truthy. */
  function AnalyzeCrashData(svc: Service, sensor: seq<SensorRow>, current: Reading, c: Collaborators): (r: Analysis)
    ensures svc.apiKey == "" || !svc.hasClient ==> r == DefaultResponse()
    ensures c.generate(PromptLines(sensor, current, true)).Raise? ==> r == DefaultResponse()
    // any failure inside the `try`, including the text extraction, the
    // JSON parsing and the sanitising, gives the default
    ensures svc.apiKey != "" && Attempt(svc, sensor, current, c).Raise? ==> r == DefaultResponse()
    ensures svc.apiKey != "" && Attempt(svc, sensor, current, c).Ok? ==> r == Attempt(svc, sensor, current, c).value
    ensures r.isCrash ==>
      svc.apiKey != "" && svc.hasClient &&
      var reply := c.generate(PromptLines(sensor, current, true));
      reply.Ok? && JsonText(reply.value).Ok? &&
      var parsed := c.parseJson(JsonText(reply.value).value);
      parsed.Some? && parsed.value.JObj? && Truthy(Get(parsed.value.fields, "is_crash", JBool(false))) &&
      Sanitise(parsed.value, c.floatOfStr, c.repr) == Ok(r)
  {
    if svc.apiKey == "" then DefaultResponse()
    else match Attempt(svc, sensor, current, c)
      case Ok(a) => a
      case Raise(_) => DefaultResponse()
  }

  /** A reply that is not JSON gives the default answer. */
  lemma UnparsableReplyIsNoCrash(svc: Service, sensor: seq<SensorRow>, current: Reading, c: Collaborators)
    requires c.generate(PromptLines(sensor, current, true)).Ok?
    requires var reply := c.generate(PromptLines(sensor, current, true)).value;
      JsonText(reply).Ok? && c.parseJson(JsonText(reply).value).None?
    ensures AnalyzeCrashData(svc, sensor, current, c) == DefaultResponse()
    ensures !AnalyzeCrashData(svc, sensor, current, c).isCrash
  {
  }

  /** A reply that parses but cannot be sanitised, such as one whose
      `is_crash` is true and whose confidence is a word, gives the default
      answer, which is no crash. */
  lemma UnsanitisableReplyIsNoCrash(svc: Service, sensor: seq<SensorRow>, current: Reading, c: Collaborators)
    requires c.generate(PromptLines(sensor, current, true)).Ok?
    requires var reply := c.generate(PromptLines(sensor, current, true)).value;
      JsonText(reply).Ok? && c.parseJson(JsonText(reply).value).Some? &&
      Sanitise(c.parseJson(JsonText(reply).value).value, c.floatOfStr, c.repr).Raise?
    ensures AnalyzeCrashData(svc, sensor, current, c) == DefaultResponse()
  {
  }

  /** The keyword arguments `analyze_crash_data` accepts. */
  const ANALYZE_KEYWORDS: set<string> := {"sensor_data", "current_reading", "context_seconds"}

  /** The ones without a default value, which every call must pass. */
  const REQUIRED_ANALYZE_KEYWORDS: set<string> := {"sensor_data", "current_reading"}

  /** Whether a call passing exactly these keyword arguments binds to the
      signature of `analyze_crash_data`. */
  predicate AnalyzeBinds(keywords: set<string>)
  {
    REQUIRED_ANALYZE_KEYWORDS <= keywords <= ANALYZE_KEYWORDS
  }

  /** A call with keyword arguments: an unexpected keyword, or a missing
      required one, raises TypeError before the body runs. */
  function CallAnalyzeCrashData(keywords: set<string>, svc: Service, sensor: seq<SensorRow>,
                                current: Reading, c: Collaborators): (r: Outcome<Analysis>)
    ensures AnalyzeBinds(keywords) ==> r == Ok(AnalyzeCrashData(svc, sensor, current, c))
    ensures !(keywords <= ANALYZE_KEYWORDS) ==> r.Raise? && r.exc.TypeError?
    ensures !("sensor_data" in keywords && "current_reading" in keywords) ==> r.Raise? && r.exc.TypeError?
  {
    if !(keywords <= ANALYZE_KEYWORDS) then Raise(TypeError("analyze_crash_data() got an unexpected keyword argument"))
    else if !(REQUIRED_ANALYZE_KEYWORDS <= keywords) then Raise(TypeError("analyze_crash_data() missing a required argument"))
    else Ok(AnalyzeCrashData(svc, sensor, current, c))
  }
}
