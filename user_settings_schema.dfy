/** `UserSettingsUpdateRequest.validate_interval`: the crash alert
    interval must lie in 10..60 seconds, bounds included. */
module UserSettingsSchema {
  import opened Errors

  const MIN_INTERVAL: int := 10
  const MAX_INTERVAL: int := 60
  const OUT_OF_RANGE: string := "crash_alert_interval_seconds must be between 10 and 60"

  function ValidateInterval(v: int): (r: Outcome<int>)
    ensures r.Ok? <==> MIN_INTERVAL <= v <= MAX_INTERVAL
    ensures r.Ok? ==> r.value == v
    ensures r.Raise? ==> r.exc == ValueError(OUT_OF_RANGE)
  {
    if v < MIN_INTERVAL || v > MAX_INTERVAL then Raise(ValueError(OUT_OF_RANGE)) else Ok(v)
  }

  /** The bounds are inclusive. */
  lemma BoundsInclusive()
    ensures ValidateInterval(10) == Ok(10) && ValidateInterval(60) == Ok(60)
    ensures ValidateInterval(9).Raise? && ValidateInterval(61).Raise?
  {
  }

  /** Validating an accepted value again accepts it unchanged. */
  lemma ValidateIdempotent(v: int)
    requires ValidateInterval(v).Ok?
    ensures ValidateInterval(ValidateInterval(v).value) == ValidateInterval(v)
  {
  }
}
