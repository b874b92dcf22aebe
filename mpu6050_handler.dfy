/** The MPU6050 accelerometer's health tracking on the device: a connected
    flag, a count of consecutive invalid readings and the time of the last
    valid reading, summarised as status 0 (not working), 1 (unstable) or
    2 (working). The I2C bus and the Kalman filters are outside the model:
    a raw reading arrives as three integers and a valid one is reported as
    "the filtered value of these raw readings". */
module Mpu6050Handler {

  /** `unsigned long` on the ESP32 is 32 bits wide, and so is `millis()`. */
  const TWO32: int := 0x1_0000_0000
  const MPU_DATA_TIMEOUT: int := 5000
  const MAX_CONSECUTIVE_FAILURES: int := 3

  predicate IsMillis(t: int) { 0 <= t < TWO32 }

  /** `millis() - lastValidReading` in unsigned 32-bit arithmetic. */
  function Elapsed(now: int, since: int): (r: int)
    ensures 0 <= r < TWO32
    ensures IsMillis(now) && IsMillis(since) && since <= now ==> r == now - since
    ensures IsMillis(now) && IsMillis(since) && now < since ==> r == now - since + TWO32
  {
    (now - since) % TWO32
  }

  /** The wrapping subtraction measures the true time that passed, as long
      as less than 2^32 ms (about 49.7 days) passed. */
  lemma ElapsedMeasuresTrueTime(since: int, d: int)
    requires IsMillis(since) && 0 <= d < TWO32
    ensures Elapsed((since + d) % TWO32, since) == d
  {
    if since + d >= TWO32 {
      assert (since + d) % TWO32 == since + d - TWO32;
    } else {
      assert (since + d) % TWO32 == since + d;
    }
  }

  /** A reading taken 1000 ms before the counter wrapped is still fresh
      2000 ms after the wrap. */
  lemma FreshAcrossWrap()
    ensures Elapsed(2000, TWO32 - 1000) == 3000
    ensures Elapsed(2000, TWO32 - 1000) <= MPU_DATA_TIMEOUT
  {
  }

  predicate InInt16(v: int) { -32768 <= v <= 32767 }

  /** The range test `readAccel` applies to the three raw values. */
  predicate ValuesValid(ax: int, ay: int, az: int)
  {
    InInt16(ax) && InInt16(ay) && InInt16(az)
  }

  /** What `readAccel` writes to its three outputs: zeros, or the filtered
      and normalised value of the given raw readings. */
  datatype AccelOutput = Zero | Filtered(axRaw: int, ayRaw: int, azRaw: int)

  function StatusMessageOf(status: int): (m: string)
    ensures status == 0 ==> m == "[Status: 0] MPU6050 device not working - Check connections"
    ensures status == 1 ==> m == "[Status: 1] MPU6050 readings unstable - Check sensor"
    ensures status == 2 ==> m == "[Status: 2] MPU6050 tracking active"
    ensures status !in {0, 1, 2} ==> m == "[Status: ?] MPU6050 status unknown"
  {
    match status
    case 0 => "[Status: 0] MPU6050 device not working - Check connections"
    case 1 => "[Status: 1] MPU6050 readings unstable - Check sensor"
    case 2 => "[Status: 2] MPU6050 tracking active"
    case _ => "[Status: ?] MPU6050 status unknown"
  }

  /** The three status messages are different, so a message names its status. */
  lemma StatusMessageNamesStatus(s1: int, s2: int)
    requires s1 in {0, 1, 2} && s2 in {0, 1, 2} && s1 != s2
    ensures StatusMessageOf(s1) != StatusMessageOf(s2)
  {
    // the three messages already differ in length
    assert |StatusMessageOf(s1)| != |StatusMessageOf(s2)|;
  }

  /** The module's static status variables. */
  class Mpu6050Monitor {
    var initialized: bool
    var connected: bool
    var lastValidReading: int
    var consecutiveFailures: int

    ghost predicate Valid()
      reads this
    {
      IsMillis(lastValidReading) &&
      0 <= consecutiveFailures <= MAX_CONSECUTIVE_FAILURES &&
      (connected ==> consecutiveFailures < MAX_CONSECUTIVE_FAILURES)
    }

    /** The values the statics hold at boot. */
    constructor ()
      ensures Valid()
      ensures !initialized && !connected && lastValidReading == 0 && consecutiveFailures == 0
    {
      initialized, connected := false, false;
      lastValidReading, consecutiveFailures := 0, 0;
    }

    /** `initMPU`: `detected` is the outcome of `mpu.testConnection()`. */
    method InitMpu(detected: bool, now: int)
      requires Valid() && IsMillis(now)
      modifies this
      ensures Valid()
      ensures detected ==> connected && initialized && lastValidReading == now && consecutiveFailures == 0
      ensures !detected ==>
        !connected && !initialized &&
        lastValidReading == old(lastValidReading) && consecutiveFailures == old(consecutiveFailures)
    {
      if detected {
        connected := true;
        initialized := true;
        lastValidReading := now;
        consecutiveFailures := 0;
      } else {
        connected := false;
        initialized := false;
      }
    }

    /** `readAccel`: the state part, and which values reach the outputs. */
    method ReadAccel(axRaw: int, ayRaw: int, azRaw: int, now: int) returns (out: AccelOutput)
      requires Valid() && IsMillis(now)
      modifies this`connected, this`lastValidReading, this`consecutiveFailures
      ensures Valid()
      ensures !old(connected) ==> out == Zero && unchanged(this)
      ensures old(connected) && ValuesValid(axRaw, ayRaw, azRaw) ==>
        out == Filtered(axRaw, ayRaw, azRaw) && connected &&
        lastValidReading == now && consecutiveFailures == 0
      ensures old(connected) && !ValuesValid(axRaw, ayRaw, azRaw) ==>
        out == Zero && lastValidReading == old(lastValidReading) &&
        consecutiveFailures == old(consecutiveFailures) + 1 &&
        connected == (consecutiveFailures < MAX_CONSECUTIVE_FAILURES)
      ensures connected ==> old(connected)
    {
      if !connected {
        return Zero;
      }
      if ValuesValid(axRaw, ayRaw, azRaw) {
        out := Filtered(axRaw, ayRaw, azRaw);
        lastValidReading := now;
        consecutiveFailures := 0;
      } else {
        consecutiveFailures := consecutiveFailures + 1;
        out := Zero;
        if consecutiveFailures >= MAX_CONSECUTIVE_FAILURES {
          connected := false;
        }
      }
    }

    /** `isMPU6050Working`. */
    predicate IsWorking(now: int)
      reads this
      ensures IsWorking(now) ==> connected
      // a valid reading within the last MPU_DATA_TIMEOUT ms, also across the counter wrap
      ensures IsMillis(now) && IsMillis(lastValidReading) && lastValidReading <= now ==>
        (IsWorking(now) <==> connected && now - lastValidReading <= MPU_DATA_TIMEOUT)
      ensures IsMillis(now) && IsMillis(lastValidReading) && now < lastValidReading ==>
        (IsWorking(now) <==> connected && now + TWO32 - lastValidReading <= MPU_DATA_TIMEOUT)
    {
      connected && Elapsed(now, lastValidReading) <= MPU_DATA_TIMEOUT
    }

    /** `getMPUStatus`: 0 not working, 1 unstable, 2 working. */
    function Status(now: int): (r: int)
      reads this
      ensures r in {0, 1, 2}
      ensures r == 0 <==> !connected
      ensures r == 2 <==> connected && IsWorking(now) && consecutiveFailures == 0
      ensures r == 1 <==> connected && !(IsWorking(now) && consecutiveFailures == 0)
    {
      if !connected then 0
      else if IsWorking(now) && consecutiveFailures == 0 then 2
      else 1
    }

    /** `getMPUStatusMessage`. */
    function StatusMessage(now: int): (m: string)
      reads this
      ensures !connected ==> m == "[Status: 0] MPU6050 device not working - Check connections"
      ensures Status(now) == 2 ==> m == "[Status: 2] MPU6050 tracking active"
      ensures m != "[Status: ?] MPU6050 status unknown"
    {
      StatusMessageOf(Status(now))
    }
  }

  /** A reading taken at `now` while connected leaves the sensor reporting
      status 2 at that moment; on hardware every raw value is an int16, so
      a connected sensor never counts a failure. */
  method ReadAndReport(m: Mpu6050Monitor, axRaw: int, ayRaw: int, azRaw: int, now: int)
    returns (out: AccelOutput, status: int)
    requires m.Valid() && IsMillis(now) && m.connected
    requires InInt16(axRaw) && InInt16(ayRaw) && InInt16(azRaw)
    modifies m
    ensures m.Valid()
    ensures out == Filtered(axRaw, ayRaw, azRaw)
    ensures status == 2 && m.consecutiveFailures == 0
  {
    out := m.ReadAccel(axRaw, ayRaw, azRaw, now);
    status := m.Status(now);
  }

  /** Any three invalid readings in a row, starting from a healthy
      connected sensor, give zeros and drop it to status 0; only `initMPU`
      brings it back. */
  method ThreeFailuresDisconnect(m: Mpu6050Monitor, r1: (int, int, int), r2: (int, int, int), r3: (int, int, int),
                                 t1: int, t2: int, t3: int)
    returns (o1: AccelOutput, o2: AccelOutput, o3: AccelOutput, status: int)
    requires m.Valid() && m.connected && m.consecutiveFailures == 0
    requires IsMillis(t1) && IsMillis(t2) && IsMillis(t3)
    requires !ValuesValid(r1.0, r1.1, r1.2) && !ValuesValid(r2.0, r2.1, r2.2) && !ValuesValid(r3.0, r3.1, r3.2)
    modifies m
    ensures m.Valid() && !m.connected && status == 0
    ensures o1 == Zero && o2 == Zero && o3 == Zero
    ensures m.lastValidReading == old(m.lastValidReading)
  {
    o1 := m.ReadAccel(r1.0, r1.1, r1.2, t1);
    assert m.connected && m.consecutiveFailures == 1;
    o2 := m.ReadAccel(r2.0, r2.1, r2.2, t2);
    assert m.connected && m.consecutiveFailures == 2;
    o3 := m.ReadAccel(r3.0, r3.1, r3.2, t3);
    status := m.Status(t3);
  }
}
