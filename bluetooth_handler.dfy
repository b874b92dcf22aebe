/** The BLE packet layer of the helmet firmware: the CRC-16 carried by every
    data packet, the per-connection sequence counter, the MTU bookkeeping,
    the rule deciding whether a packet goes out, the GPS field rules and the
    command dispatcher fed by the configuration characteristic.

    The firmware keeps this state in file-level globals; here it is the
    state of one `BleLink` object. The constants of BluetoothHandler.h
    (which is not part of this model) are a `BleConfig` value, and the
    ArduinoJson serialiser and command parser are functions the link is
    built with. */
module BluetoothHandler {
  import opened Common

  const TWO32: int := 0x1_0000_0000
  const TWO64: int := 0x1_0000_0000_0000_0000

  /** The header constants: MTU values, packet limits, the CRC polynomial,
      the command codes and the error codes. */
  datatype BleConfig = BleConfig(
    defaultMtu: int,
    mtuRequest: int,
    chunkSize: int,
    maxPacketSize: int,
    crcPolynomial: bv16,
    cmdGetStatus: bv8,
    cmdSetWifiSsid: bv8,
    cmdSetWifiPassword: bv8,
    cmdSetApiEndpoint: bv8,
    cmdResetDevice: bv8,
    cmdCalibrateSensor: bv8,
    errorInvalidData: bv8,
    errorInvalidCommand: bv8)

  function CommandCodes(c: BleConfig): seq<bv8>
  {
    [c.cmdGetStatus, c.cmdSetWifiSsid, c.cmdSetWifiPassword,
     c.cmdSetApiEndpoint, c.cmdResetDevice, c.cmdCalibrateSensor]
  }

  /** The MTUs are uint16, the sizes size_t, and the command codes are
      distinct (they are the labels of one `switch`). */
  predicate ValidConfig(c: BleConfig)
  {
    0 <= c.defaultMtu < 0x10000 && 0 <= c.mtuRequest < 0x10000 &&
    0 <= c.chunkSize < TWO64 && 0 <= c.maxPacketSize < TWO64 &&
    forall i, j :: 0 <= i < j < 6 ==> CommandCodes(c)[i] != CommandCodes(c)[j]
  }

  // ------------------------------------------------------------------ CRC-16

  /** One shift of the register, MSB first. */
  function CrcShift(poly: bv16, crc: bv16): bv16
  {
    if (crc & 0x8000) != 0 then (crc << 1) ^ poly else crc << 1
  }

  function CrcShifts(poly: bv16, crc: bv16, n: nat): bv16
  {
    if n == 0 then crc else CrcShift(poly, CrcShifts(poly, crc, n - 1))
  }

  /** The register after one byte has been shifted in. */
  function CrcByte(poly: bv16, crc: bv16, b: bv8): bv16
  {
    CrcShifts(poly, crc ^ ((b as bv16) << 8), 8)
  }

  /** The register after `data` has been shifted in, starting from `crc`. */
  function CrcUpdate(poly: bv16, crc: bv16, data: seq<bv8>): bv16
    decreases |data|
  {
    if |data| == 0 then crc
    else CrcByte(poly, CrcUpdate(poly, crc, data[..|data| - 1]), data[|data| - 1])
  }

  /** The CRC the firmware attaches: register preset to 0xFFFF, no final XOR. */
  function Crc16(poly: bv16, data: seq<bv8>): bv16
  {
    CrcUpdate(poly, 0xFFFF, data)
  }

  /** `calculateCRC16`: the nested loop over bytes and bits. */
  method CalculateCrc16(poly: bv16, data: seq<bv8>) returns (crc: bv16)
    ensures crc == Crc16(poly, data)
  {
    crc := 0xFFFF;
    var i := 0;
    while i < |data|
      invariant 0 <= i <= |data|
      invariant crc == CrcUpdate(poly, 0xFFFF, data[..i])
    {
      crc := crc ^ ((data[i] as bv16) << 8);
      ghost var start := crc;
      var j := 0;
      while j < 8
        invariant 0 <= j <= 8
        invariant crc == CrcShifts(poly, start, j)
      {
        if (crc & 0x8000) != 0 {
          crc := (crc << 1) ^ poly;
        } else {
          crc := crc << 1;
        }
        j := j + 1;
      }
      assert data[..i + 1][..i] == data[..i];
      i := i + 1;
    }
    assert data[..|data|] == data;
  }

  /** The CRC of an empty buffer is the preset. */
  lemma CrcEmpty(poly: bv16)
    ensures Crc16(poly, []) == 0xFFFF
  {
  }

  /** Running the CRC over `a + b` is running it over `b` from the register
      that `a` left behind. */
  lemma {:induction false} CrcAppend(poly: bv16, crc: bv16, a: seq<bv8>, b: seq<bv8>)
    ensures CrcUpdate(poly, crc, a + b) == CrcUpdate(poly, CrcUpdate(poly, crc, a), b)
    decreases |b|
  {
    if |b| == 0 {
      assert a + b == a;
    } else {
      var ab := a + b;
      assert ab[..|ab| - 1] == a + b[..|b| - 1];
      assert ab[|ab| - 1] == b[|b| - 1];
      CrcAppend(poly, crc, a, b[..|b| - 1]);
    }
  }

  // ------------------------------------------------------------- packets

  datatype Channel = SensorData | GpsData | Config | DeviceStatus

  /** One `setValue` + `notify` on a characteristic. */
  datatype Notification = Notification(channel: Channel, data: seq<bv8>)

  datatype SensorFields = SensorFields(ax: real, ay: real, az: real, roll: real, pitch: real, tiltDetected: bool)

  /** A key of a JSON object that may be missing, explicitly null or a number. */
  datatype JsonField = Absent | Null | Value(v: real)

  datatype GpsPosition = GpsPosition(latitude: JsonField, longitude: JsonField, altitude: JsonField)

  /** The JSON documents the firmware builds, before serialisation. */
  datatype Doc =
    | ErrorDoc(errorCode: bv8, message: string, sequence: int, timestamp: int)
    | SensorDoc(sequence: int, timestamp: int, sensor: SensorFields,
                statusCode: Option<int>, statusMessage: Option<string>, crc: Option<bv16>)
    | GpsDoc(sequence: int, timestamp: int, fix: bool, satellites: int,
             statusCode: Option<int>, statusMessage: Option<string>, position: GpsPosition, crc: Option<bv16>)
    | StatusDoc(sequence: int, timestamp: int, wifiConnected: bool, gpsFix: bool, batteryLevel: int, crc: Option<bv16>)
    | CommandResponseDoc(command: bv8, commandName: string, sequence: int, timestamp: int, crc: Option<bv16>)

  /** What the command parser makes of a write to the configuration
      characteristic: not JSON, JSON without "command", or the command byte. */
  datatype ParsedCommand = MalformedJson | MissingCommand | Command(code: bv8)

  /** The next value of the uint32 counter. */
  function NextSequence(n: int): (r: int)
    requires 0 <= n < TWO32
    ensures 0 <= r < TWO32
    ensures n + 1 < TWO32 ==> r == n + 1
    ensures n + 1 == TWO32 ==> r == 0
  {
    (n + 1) % TWO32
  }

  /** The GPS position keys: latitude and longitude need a fix and two
      non-zero values, altitude also a non-zero value; otherwise all three
      are null. */
  function GpsPositionFields(fix: bool, lat: real, lon: real, alt: real): (p: GpsPosition)
    ensures p.latitude.Value? <==> fix && lat != 0.0 && lon != 0.0
    ensures p.longitude.Value? <==> p.latitude.Value?
    ensures p.latitude.Value? ==> p.latitude.v == lat && p.longitude.v == lon
    ensures p.altitude.Value? <==> p.latitude.Value? && alt != 0.0
    ensures p.altitude.Value? ==> p.altitude.v == alt
    ensures !p.latitude.Value? ==> p == GpsPosition(Null, Null, Null)
    ensures p.latitude.Value? && alt == 0.0 ==> p.altitude == Absent
  {
    if fix && lat != 0.0 && lon != 0.0 then
      GpsPosition(Value(lat), Value(lon), if alt != 0.0 then Value(alt) else Absent)
    else
      GpsPosition(Null, Null, Null)
  }

  /** A negative status code leaves the key out. */
  function StatusCodeField(code: int): (r: Option<int>)
    ensures r.Some? <==> code >= 0
    ensures r.Some? ==> r.value == code
  {
    if code >= 0 then Some(code) else None
  }

  /** The document with its CRC: the CRC is taken over the serialisation of
      the document without one and then added as the key "crc". */
  function Sealed(poly: bv16, serialize: Doc -> seq<bv8>, d: Doc): (r: Doc)
    requires !d.ErrorDoc?
    ensures !r.ErrorDoc? && r.crc == Some(Crc16(poly, serialize(d)))
    ensures r.(crc := d.crc) == d
  {
    d.(crc := Some(Crc16(poly, serialize(d))))
  }

  /** The name a known command code is reported under, if it is known. */
  function CommandName(c: BleConfig, code: bv8): (r: Option<string>)
    requires ValidConfig(c)
    ensures r.Some? <==> code in CommandCodes(c)
  {
    if code == c.cmdGetStatus then Some("GET_STATUS")
    else if code == c.cmdSetWifiSsid then Some("SET_WIFI_SSID")
    else if code == c.cmdSetWifiPassword then Some("SET_WIFI_PASSWORD")
    else if code == c.cmdSetApiEndpoint then Some("SET_API_ENDPOINT")
    else if code == c.cmdResetDevice then Some("RESET_DEVICE")
    else if code == c.cmdCalibrateSensor then Some("CALIBRATE_SENSOR")
    else None
  }

  /** How `processBluetoothCommands` answers a parsed command. */
  datatype Reaction = Reject(code: bv8, message: string) | Reset | Acknowledge(command: bv8, name: string)

  /** Malformed JSON is invalid data; a missing or unknown command is an
      invalid command; `RESET_DEVICE` restarts; every other known command
      is acknowledged under its own name. */
  function ReactionTo(c: BleConfig, p: ParsedCommand): (r: Reaction)
    requires ValidConfig(c)
    ensures p.MalformedJson? ==> r == Reject(c.errorInvalidData, "Invalid JSON format")
    ensures p.MissingCommand? ==> r == Reject(c.errorInvalidCommand, "Missing command field")
    ensures p.Command? && p.code !in CommandCodes(c) ==> r == Reject(c.errorInvalidCommand, "Unknown command type")
    ensures r.Reset? <==> p.Command? && p.code == c.cmdResetDevice
    ensures r.Acknowledge? <==> p.Command? && p.code in CommandCodes(c) && p.code != c.cmdResetDevice
    ensures r.Acknowledge? ==> r.command == p.code && Some(r.name) == CommandName(c, p.code)
  {
    match p
    case MalformedJson => Reject(c.errorInvalidData, "Invalid JSON format")
    case MissingCommand => Reject(c.errorInvalidCommand, "Missing command field")
    case Command(code) =>
      match CommandName(c, code)
      case None => Reject(c.errorInvalidCommand, "Unknown command type")
      case Some(name) => if code == c.cmdResetDevice then Reset else Acknowledge(code, name)
  }

  /** The notifications one `sendDataWithChunking` call produces. */
  function Emitted(c: BleConfig, present: bool, ch: Channel, data: seq<bv8>): (r: seq<Notification>)
    ensures |r| <= 1
    ensures |r| == 1 <==> present && 0 < |data| <= c.maxPacketSize
    ensures |r| == 1 ==> r[0] == Notification(ch, data)
  {
    if present && 0 < |data| <= c.maxPacketSize then [Notification(ch, data)] else []
  }

  class BleLink {
    const cfg: BleConfig
    const serialize: Doc -> seq<bv8>
    const parse: seq<bv8> -> ParsedCommand

    var deviceConnected: bool
    var oldDeviceConnected: bool
    var sequenceNumber: int
    var commandReceived: bool
    var receivedCommand: seq<bv8>
    var currentMtu: int
    /** Whether each characteristic pointer is non-null. */
    var hasSensorChar: bool
    var hasGpsChar: bool
    var hasConfigChar: bool
    var hasStatusChar: bool
    /** Every notification the link has made, oldest first. */
    var sent: seq<Notification>
    var advertisingStarts: nat
    var restarts: nat
    /** The sequence numbers handed out since the counter was last reset. */
    ghost var issued: seq<int>

    ghost predicate Valid()
      reads this
    {
      ValidConfig(cfg) &&
      0 <= sequenceNumber < TWO32 &&
      sequenceNumber == |issued| % TWO32 &&
      (forall i :: 0 <= i < |issued| ==> issued[i] == (i + 1) % TWO32) &&
      currentMtu == (if deviceConnected then cfg.mtuRequest else cfg.defaultMtu)
    }

    /** The values the globals have when the firmware boots. */
    ghost predicate PoweredOn()
      reads this
    {
      !deviceConnected && !oldDeviceConnected && sequenceNumber == 0 && issued == [] &&
      !commandReceived && receivedCommand == [] && currentMtu == cfg.defaultMtu &&
      !hasSensorChar && !hasGpsChar && !hasConfigChar && !hasStatusChar
    }

    constructor (cfg: BleConfig, serialize: Doc -> seq<bv8>, parse: seq<bv8> -> ParsedCommand)
      requires ValidConfig(cfg)
      ensures Valid() && PoweredOn()
      ensures this.cfg == cfg && this.serialize == serialize && this.parse == parse
      ensures sent == [] && advertisingStarts == 0 && restarts == 0
    {
      this.cfg, this.serialize, this.parse := cfg, serialize, parse;
      deviceConnected, oldDeviceConnected := false, false;
      sequenceNumber, issued := 0, [];
      commandReceived, receivedCommand := false, [];
      currentMtu := cfg.defaultMtu;
      hasSensorChar, hasGpsChar, hasConfigChar, hasStatusChar := false, false, false, false;
      sent, advertisingStarts, restarts := [], 0, 0;
    }

    function HasCharacteristic(ch: Channel): bool
      reads this
    {
      match ch
      case SensorData => hasSensorChar
      case GpsData => hasGpsChar
      case Config => hasConfigChar
      case DeviceStatus => hasStatusChar
    }

    /** The size below which `sendDataWithChunking` considers a packet safe;
        `currentMTU - 3` is converted to size_t. */
    function SafeSinglePacketSize(): (r: int)
      reads this
      requires Valid()
      ensures 0 <= r < TWO64
      ensures currentMtu > cfg.defaultMtu && currentMtu >= 3 ==> r == currentMtu - 3
      ensures currentMtu <= cfg.defaultMtu ==> r == cfg.chunkSize
    {
      if currentMtu > cfg.defaultMtu then (currentMtu - 3) % TWO64 else cfg.chunkSize
    }

    /** `initBluetooth`: the four characteristics exist and advertising starts. */
    method InitBluetooth()
      requires Valid()
      modifies this`hasSensorChar, this`hasGpsChar, this`hasConfigChar, this`hasStatusChar, this`advertisingStarts
      ensures Valid()
      ensures hasSensorChar && hasGpsChar && hasConfigChar && hasStatusChar
      ensures advertisingStarts == old(advertisingStarts) + 1
    {
      hasSensorChar, hasGpsChar, hasConfigChar, hasStatusChar := true, true, true, true;
      advertisingStarts := advertisingStarts + 1;
    }

    /** `onConnect`: a new connection restarts the sequence and assumes the
        requested MTU. */
    method OnConnect()
      requires Valid()
      modifies this`deviceConnected, this`sequenceNumber, this`issued, this`currentMtu
      ensures Valid()
      ensures deviceConnected && sequenceNumber == 0 && issued == []
      ensures currentMtu == cfg.mtuRequest
    {
      deviceConnected := true;
      sequenceNumber, issued := 0, [];
      currentMtu := cfg.mtuRequest;
    }

    /** `onDisconnect`: the MTU falls back to the default; the counter is kept. */
    method OnDisconnect()
      requires Valid()
      modifies this`deviceConnected, this`currentMtu
      ensures Valid()
      ensures !deviceConnected && currentMtu == cfg.defaultMtu
    {
      deviceConnected := false;
      currentMtu := cfg.defaultMtu;
    }

    /** `onWrite` on the configuration characteristic: an empty write is ignored. */
    method OnWrite(value: seq<bv8>)
      requires Valid()
      modifies this`commandReceived, this`receivedCommand
      ensures Valid()
      ensures |value| > 0 ==> commandReceived && receivedCommand == value
      ensures |value| == 0 ==> commandReceived == old(commandReceived) && receivedCommand == old(receivedCommand)
    {
      if |value| > 0 {
        receivedCommand := value;
        commandReceived := true;
      }
    }

    /** `getNextSequenceNumber`: pre-increment of the uint32 counter. */
    method NextSequenceNumber() returns (n: int)
      requires Valid()
      modifies this`sequenceNumber, this`issued
      ensures Valid()
      ensures n == NextSequence(old(sequenceNumber)) && sequenceNumber == n
      ensures issued == old(issued) + [n]
    {
      sequenceNumber := NextSequence(sequenceNumber);
      issued := issued + [sequenceNumber];
      n := sequenceNumber;
    }

    /** `sendDataWithChunking`: at most one notification carrying the whole
        data; `oversized` tells whether the warning branch was taken (both
        branches send the same way). */
    method SendDataWithChunking(ch: Channel, data: seq<bv8>) returns (oversized: bool)
      requires Valid()
      modifies this`sent
      ensures Valid()
      ensures sent == old(sent) + Emitted(cfg, HasCharacteristic(ch), ch, data)
      ensures oversized <==> |Emitted(cfg, HasCharacteristic(ch), ch, data)| == 1 && |data| > SafeSinglePacketSize()
    {
      oversized := false;
      if !HasCharacteristic(ch) || |data| == 0 {
        return;
      }
      if |data| > cfg.maxPacketSize {
        return;
      }
      var safe := SafeSinglePacketSize();
      if |data| <= safe {
        sent := sent + [Notification(ch, data)];
      } else {
        oversized := true;
        sent := sent + [Notification(ch, data)];
      }
    }

    /** `sendErrorResponse`: only while connected, on the configuration
        characteristic, without a CRC. */
    method SendErrorResponse(code: bv8, message: string, now: int)
      requires Valid()
      modifies this`sent, this`sequenceNumber, this`issued
      ensures Valid()
      ensures !old(deviceConnected && hasConfigChar) ==>
        sent == old(sent) && sequenceNumber == old(sequenceNumber) && issued == old(issued)
      ensures old(deviceConnected && hasConfigChar) ==>
        var n := NextSequence(old(sequenceNumber));
        sequenceNumber == n && issued == old(issued) + [n] &&
        sent == old(sent) + Emitted(cfg, true, Config, serialize(ErrorDoc(code, message, n, now)))
    {
      if !deviceConnected || !hasConfigChar {
        return;
      }
      var n := NextSequenceNumber();
      var doc := ErrorDoc(code, message, n, now);
      var _ := SendDataWithChunking(Config, serialize(doc));
    }

    /** Serialise, CRC, add the CRC, serialise again: the common tail of the
        data packets. */
    method SealAndSerialize(d: Doc) returns (data: seq<bv8>)
      requires !d.ErrorDoc?
      ensures data == serialize(Sealed(cfg.crcPolynomial, serialize, d))
    {
      var crc := CalculateCrc16(cfg.crcPolynomial, serialize(d));
      data := serialize(d.(crc := Some(crc)));
    }

    /** `sendSensorData`. */
    method SendSensorData(s: SensorFields, statusMessage: Option<string>, statusCode: int, now: int)
      requires Valid()
      modifies this`sent, this`sequenceNumber, this`issued
      ensures Valid()
      ensures !old(deviceConnected && hasSensorChar) ==>
        sent == old(sent) && sequenceNumber == old(sequenceNumber) && issued == old(issued)
      ensures old(deviceConnected && hasSensorChar) ==>
        var n := NextSequence(old(sequenceNumber));
        var doc := SensorDoc(n, now, s, StatusCodeField(statusCode), statusMessage, None);
        sequenceNumber == n && issued == old(issued) + [n] &&
        sent == old(sent) + Emitted(cfg, true, SensorData, serialize(Sealed(cfg.crcPolynomial, serialize, doc)))
    {
      if !deviceConnected || !hasSensorChar {
        return;
      }
      var n := NextSequenceNumber();
      var doc := SensorDoc(n, now, s, StatusCodeField(statusCode), statusMessage, None);
      var data := SealAndSerialize(doc);
      var _ := SendDataWithChunking(SensorData, data);
    }

    /** `sendGPSData`. */
    method SendGpsData(fix: bool, satellites: int, lat: real, lon: real, alt: real,
                       statusMessage: Option<string>, statusCode: int, now: int)
      requires Valid()
      modifies this`sent, this`sequenceNumber, this`issued
      ensures Valid()
      ensures !old(deviceConnected && hasGpsChar) ==>
        sent == old(sent) && sequenceNumber == old(sequenceNumber) && issued == old(issued)
      ensures old(deviceConnected && hasGpsChar) ==>
        var n := NextSequence(old(sequenceNumber));
        var doc := GpsDoc(n, now, fix, satellites, StatusCodeField(statusCode), statusMessage,
                          GpsPositionFields(fix, lat, lon, alt), None);
        sequenceNumber == n && issued == old(issued) + [n] &&
        sent == old(sent) + Emitted(cfg, true, GpsData, serialize(Sealed(cfg.crcPolynomial, serialize, doc)))
    {
      if !deviceConnected || !hasGpsChar {
        return;
      }
      var n := NextSequenceNumber();
      var doc := GpsDoc(n, now, fix, satellites, StatusCodeField(statusCode), statusMessage,
                        GpsPositionFields(fix, lat, lon, alt), None);
      var data := SealAndSerialize(doc);
      var _ := SendDataWithChunking(GpsData, data);
    }

    /** `sendDeviceStatus`; the packet always reports `ble_connected` true. */
    method SendDeviceStatus(wifiConnected: bool, gpsFix: bool, batteryLevel: int, now: int)
      requires Valid()
      modifies this`sent, this`sequenceNumber, this`issued
      ensures Valid()
      ensures !old(deviceConnected && hasStatusChar) ==>
        sent == old(sent) && sequenceNumber == old(sequenceNumber) && issued == old(issued)
      ensures old(deviceConnected && hasStatusChar) ==>
        var n := NextSequence(old(sequenceNumber));
        var doc := StatusDoc(n, now, wifiConnected, gpsFix, batteryLevel, None);
        sequenceNumber == n && issued == old(issued) + [n] &&
        sent == old(sent) + Emitted(cfg, true, DeviceStatus, serialize(Sealed(cfg.crcPolynomial, serialize, doc)))
    {
      if !deviceConnected || !hasStatusChar {
        return;
      }
      var n := NextSequenceNumber();
      var doc := StatusDoc(n, now, wifiConnected, gpsFix, batteryLevel, None);
      var data := SealAndSerialize(doc);
      var _ := SendDataWithChunking(DeviceStatus, data);
    }

    /** `ESP.restart()`: every global takes its boot value again. */
    method Restart()
      requires Valid()
      modifies this
      ensures Valid() && PoweredOn()
      ensures sent == old(sent) && advertisingStarts == old(advertisingStarts)
      ensures restarts == old(restarts) + 1
    {
      deviceConnected, oldDeviceConnected := false, false;
      sequenceNumber, issued := 0, [];
      commandReceived, receivedCommand := false, [];
      currentMtu := cfg.defaultMtu;
      hasSensorChar, hasGpsChar, hasConfigChar, hasStatusChar := false, false, false, false;
      restarts := restarts + 1;
    }

    /** What `processBluetoothCommands` does, given the state before it. A
        pending command is consumed and answered as `ReactionTo` says: an
        error reply, a restart, or a success reply, the connection and the
        MTU untouched except by the restart, and the characteristics (so
        whether the reply can be sent) as they were. Without a pending
        command the link is as it was. */
    /** The four characteristics exist exactly as they did before. */
    twostate predicate CharacteristicsKept()
      reads this
    {
      hasSensorChar == old(hasSensorChar) && hasGpsChar == old(hasGpsChar) &&
      hasConfigChar == old(hasConfigChar) && hasStatusChar == old(hasStatusChar)
    }

    twostate predicate CommandProcessed(now: int)
      reads this
      requires old(Valid())
    {
      if old(commandReceived && |receivedCommand| > 0) then
        !commandReceived && receivedCommand == [] &&
        match ReactionTo(cfg, parse(old(receivedCommand)))
        case Reject(code, message) =>
          ErrorReplied(old(deviceConnected && hasConfigChar), old(sequenceNumber), old(issued), old(sent), code, message, now) &&
          deviceConnected == old(deviceConnected) && currentMtu == old(currentMtu) && restarts == old(restarts) &&
          CharacteristicsKept()
        case Reset =>
          PoweredOn() && restarts == old(restarts) + 1 && sent == old(sent)
        case Acknowledge(code, name) =>
          Acknowledged(old(sequenceNumber), old(issued), old(sent), code, name, now) &&
          deviceConnected == old(deviceConnected) && currentMtu == old(currentMtu) && restarts == old(restarts) &&
          CharacteristicsKept()
      else
        sent == old(sent) && sequenceNumber == old(sequenceNumber) && issued == old(issued) &&
        commandReceived == old(commandReceived) && receivedCommand == old(receivedCommand) &&
        deviceConnected == old(deviceConnected) && currentMtu == old(currentMtu) && restarts == old(restarts) &&
        CharacteristicsKept()
    }

    /** `processBluetoothCommands`: a pending command is consumed and
        answered as `ReactionTo` says; without one nothing happens. */
    method ProcessBluetoothCommands(now: int)
      requires Valid()
      modifies this
      ensures Valid()
      ensures !old(commandReceived && |receivedCommand| > 0) ==> unchanged(this)
      ensures advertisingStarts == old(advertisingStarts)
      ensures PoweredOn() || (deviceConnected == old(deviceConnected) && oldDeviceConnected == old(oldDeviceConnected))
      ensures old(commandReceived && |receivedCommand| > 0) ==> !commandReceived && receivedCommand == []
      ensures CommandProcessed(now)
    {
      if !commandReceived || |receivedCommand| == 0 {
        return;
      }
      commandReceived := false;
      match parse(receivedCommand)
      case MalformedJson =>
        RejectCommand(cfg.errorInvalidData, "Invalid JSON format", now);
      case MissingCommand =>
        RejectCommand(cfg.errorInvalidCommand, "Missing command field", now);
      case Command(code) =>
        var name := CommandName(cfg, code);
        if name.None? {
          RejectCommand(cfg.errorInvalidCommand, "Unknown command type", now);
        } else if code == cfg.cmdResetDevice {
          Restart();
        } else {
          AcknowledgeCommand(code, name.value, now);
        }
    }

    /** An error reply followed by clearing the command buffer. */
    method RejectCommand(code: bv8, message: string, now: int)
      requires Valid()
      modifies this`sent, this`sequenceNumber, this`issued, this`receivedCommand
      ensures Valid() && receivedCommand == []
      ensures ErrorReplied(old(deviceConnected && hasConfigChar), old(sequenceNumber), old(issued), old(sent), code, message, now)
    {
      SendErrorResponse(code, message, now);
      receivedCommand := [];
    }

    /** The success reply of a known command, followed by clearing the
        command buffer. The counter advances whether or not the reply can
        be sent, and the connection is not checked. */
    method AcknowledgeCommand(code: bv8, name: string, now: int)
      requires Valid()
      modifies this`sent, this`sequenceNumber, this`issued, this`receivedCommand
      ensures Valid() && receivedCommand == []
      ensures Acknowledged(old(sequenceNumber), old(issued), old(sent), code, name, now)
    {
      var n := NextSequenceNumber();
      var doc := CommandResponseDoc(code, name, n, now, None);
      var data := SealAndSerialize(doc);
      if hasConfigChar {
        var _ := SendDataWithChunking(Config, data);
      }
      receivedCommand := [];
    }

    /** The state after a success reply given the state before it. */
    ghost predicate Acknowledged(seqBefore: int, issuedBefore: seq<int>, sentBefore: seq<Notification>,
                                 code: bv8, name: string, now: int)
      reads this
      requires 0 <= seqBefore < TWO32
    {
      var n := NextSequence(seqBefore);
      var doc := CommandResponseDoc(code, name, n, now, None);
      sequenceNumber == n && issued == issuedBefore + [n] &&
      sent == sentBefore + Emitted(cfg, hasConfigChar, Config, serialize(Sealed(cfg.crcPolynomial, serialize, doc)))
    }

    /** The state after `sendErrorResponse` given the state before it. */
    ghost predicate ErrorReplied(wasReachable: bool, seqBefore: int, issuedBefore: seq<int>,
                                 sentBefore: seq<Notification>, code: bv8, message: string, now: int)
      reads this
      requires 0 <= seqBefore < TWO32
    {
      if wasReachable then
        var n := NextSequence(seqBefore);
        sequenceNumber == n && issued == issuedBefore + [n] &&
        sent == sentBefore + Emitted(cfg, true, Config, serialize(ErrorDoc(code, message, n, now)))
      else
        sequenceNumber == seqBefore && issued == issuedBefore && sent == sentBefore
    }

    /** `handleBluetoothReconnection`: track the connection edge, restart
        advertising after a disconnection, then process any pending command. */
    method HandleBluetoothReconnection(now: int)
      requires Valid()
      modifies this
      ensures Valid()
      ensures oldDeviceConnected == deviceConnected
      ensures advertisingStarts == old(advertisingStarts) + (if old(!deviceConnected && oldDeviceConnected) then 1 else 0)
      ensures old(commandReceived && |receivedCommand| > 0) ==> !commandReceived && receivedCommand == []
      ensures !old(commandReceived && |receivedCommand| > 0) ==>
        sent == old(sent) && sequenceNumber == old(sequenceNumber) && receivedCommand == old(receivedCommand)
      // the pending command is handled exactly as `processBluetoothCommands` handles it
      ensures CommandProcessed(now)
    {
      if !deviceConnected && oldDeviceConnected {
        advertisingStarts := advertisingStarts + 1;
        oldDeviceConnected := deviceConnected;
      }
      if deviceConnected && !oldDeviceConnected {
        oldDeviceConnected := deviceConnected;
      }
      ProcessBluetoothCommands(now);
    }
  }
}
