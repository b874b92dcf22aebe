/** The device's tilt test: a reading is "tilted" when the roll or the
    pitch angle, in degrees, exceeds a threshold in absolute value. Angles
    are reals, so NaN and float rounding are outside the model. */
module TiltDetection {

  /** The header's default threshold, in degrees. */
  const DEFAULT_THRESHOLD: real := 180.0

  function Abs(x: real): (r: real)
    ensures r >= 0.0 && (r == x || r == -x)
  {
    if x < 0.0 then -x else x
  }

  /** `isTiltExceeded(roll, pitch, threshold)`. */
  predicate IsTiltExceeded(roll: real, pitch: real, threshold: real)
    // tilted exactly when an angle lies outside [-threshold, threshold]
    ensures IsTiltExceeded(roll, pitch, threshold) <==>
      (roll < -threshold || roll > threshold || pitch < -threshold || pitch > threshold)
    // a negative threshold flags every reading
    ensures threshold < 0.0 ==> IsTiltExceeded(roll, pitch, threshold)
  {
    Abs(roll) > threshold || Abs(pitch) > threshold
  }

  /** Tilted exactly when one angle lies outside [-threshold, threshold]. */
  lemma TiltMeansOutsideBand(roll: real, pitch: real, threshold: real)
    ensures IsTiltExceeded(roll, pitch, threshold) <==>
      !(-threshold <= roll <= threshold && -threshold <= pitch <= threshold)
  {
  }

  /** The comparison is strict: angles at the threshold are not tilted. */
  lemma AtThresholdIsNotTilt(threshold: real)
    requires threshold >= 0.0
    ensures !IsTiltExceeded(threshold, -threshold, threshold)
    ensures !IsTiltExceeded(-threshold, threshold, threshold)
  {
  }

  /** Flipping the sign of either angle, or swapping them, changes nothing. */
  lemma TiltSymmetric(roll: real, pitch: real, threshold: real)
    ensures IsTiltExceeded(roll, pitch, threshold) == IsTiltExceeded(-roll, pitch, threshold)
    ensures IsTiltExceeded(roll, pitch, threshold) == IsTiltExceeded(roll, -pitch, threshold)
    ensures IsTiltExceeded(roll, pitch, threshold) == IsTiltExceeded(pitch, roll, threshold)
  {
  }

  /** Exceeding a threshold means exceeding every smaller one. */
  lemma TiltMonotone(roll: real, pitch: real, t1: real, t2: real)
    requires t2 <= t1 && IsTiltExceeded(roll, pitch, t1)
    ensures IsTiltExceeded(roll, pitch, t2)
  {
  }

  /** `atan2` yields angles in [-180, 180] degrees, so with the default
      threshold no reading ever counts as tilted. */
  lemma DefaultThresholdNeverFires(roll: real, pitch: real)
    requires -180.0 <= roll <= 180.0 && -180.0 <= pitch <= 180.0
    ensures !IsTiltExceeded(roll, pitch, DEFAULT_THRESHOLD)
  {
  }
}
