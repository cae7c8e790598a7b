/**
 * The device-side control request models: a sensor request (enable/disable
 * a sensor, with an update mode) or a timed-device request (trigger the
 * pump or the light bulb for `value` seconds), told apart by their `device`
 * field, and the `{"payload": ...}` envelope. Every model forbids extra
 * fields. Validation is modelled on decoded JSON; how a timestamp is parsed is
 * left to the caller's `parseTime`.
 */
module ControlRequest {
  import opened Wrappers
  import opened Json

  datatype SensorCmd = Enable | Disable

  datatype SensorDevice =
    | AirQualitySensor | LightSensor | SoilMoistureSensor
    | TemperatureSensor | AirHumiditySensor | WaterLevelSensor

  datatype Mode = Normal | RealTime

  datatype TimedDevice = WaterPump | Lightbulb

  /** `ControlRequestType`: the two request models, over a timestamp type `T`. */
  datatype Request<T> =
    | SensorControlRequest(cmd: SensorCmd, sensor: SensorDevice, timestamp: T, mode: Mode)
    | TimedDeviceControlRequest(device: TimedDevice, timestamp: T, value: real)

  function CmdName(c: SensorCmd): string {
    match c
    case Enable => "enable"
    case Disable => "disable"
  }

  function SensorName(d: SensorDevice): string {
    match d
    case AirQualitySensor => "air_quality_sensor"
    case LightSensor => "light_sensor"
    case SoilMoistureSensor => "soil_moisture_sensor"
    case TemperatureSensor => "temperature_sensor"
    case AirHumiditySensor => "air_humidity_sensor"
    case WaterLevelSensor => "water_level_sensor"
  }

  function ModeName(m: Mode): string {
    match m
    case Normal => "normal"
    case RealTime => "real_time"
  }

  function DeviceName(d: TimedDevice): string {
    match d
    case WaterPump => "water_pump"
    case Lightbulb => "lightbulb"
  }

  /** The `device` values that select the sensor model. */
  const SensorTags: set<string> := {
    "air_quality_sensor", "light_sensor", "soil_moisture_sensor",
    "temperature_sensor", "air_humidity_sensor", "water_level_sensor"
  }

  /** The `device` values that select the timed-device model. */
  const DeviceTags: set<string> := {"water_pump", "lightbulb"}

  function ParseCmd(j: Json): (r: Option<SensorCmd>)
    ensures r.Some? <==> j == JStr("enable") || j == JStr("disable")
    ensures r.Some? ==> j == JStr(CmdName(r.value))
  {
    if j == JStr("enable") then Some(Enable)
    else if j == JStr("disable") then Some(Disable)
    else None
  }

  function ParseSensorDevice(j: Json): (r: Option<SensorDevice>)
    ensures r.Some? <==> j.JStr? && j.s in SensorTags
    ensures r.Some? ==> j == JStr(SensorName(r.value))
  {
    if j == JStr("air_quality_sensor") then Some(AirQualitySensor)
    else if j == JStr("light_sensor") then Some(LightSensor)
    else if j == JStr("soil_moisture_sensor") then Some(SoilMoistureSensor)
    else if j == JStr("temperature_sensor") then Some(TemperatureSensor)
    else if j == JStr("air_humidity_sensor") then Some(AirHumiditySensor)
    else if j == JStr("water_level_sensor") then Some(WaterLevelSensor)
    else None
  }

  function ParseMode(j: Json): (r: Option<Mode>)
    ensures r.Some? <==> j == JStr("normal") || j == JStr("real_time")
    ensures r.Some? ==> j == JStr(ModeName(r.value))
  {
    if j == JStr("normal") then Some(Normal)
    else if j == JStr("real_time") then Some(RealTime)
    else None
  }

  function ParseTimedDevice(j: Json): (r: Option<TimedDevice>)
    ensures r.Some? <==> j.JStr? && j.s in DeviceTags
    ensures r.Some? ==> j == JStr(DeviceName(r.value))
  {
    if j == JStr("water_pump") then Some(WaterPump)
    else if j == JStr("lightbulb") then Some(Lightbulb)
    else None
  }

  /** The fields a sensor request may have. */
  const SensorFields: set<string> := {"cmd", "device", "timestamp", "mode"}

  /** The fields a timed-device request may have. */
  const DeviceFields: set<string> := {"cmd", "device", "timestamp", "value"}

  /**
   * `SensorControlRequest`: an object with exactly the fields cmd
   * (enable/disable), device (a sensor name), timestamp and mode
   * (normal/real_time), all required, no other field allowed.
   */
  function ParseSensorRequest<T>(j: Json, parseTime: Json -> Option<T>): (r: Option<Request<T>>)
    ensures r.Some? ==> && j.JObj? && OnlyKeys(j, SensorFields)
                        && r.value.SensorControlRequest?
                        && Get(j, "cmd") == JStr(CmdName(r.value.cmd))
                        && Get(j, "device") == JStr(SensorName(r.value.sensor))
                        && parseTime(Get(j, "timestamp")) == Some(r.value.timestamp)
                        && Get(j, "mode") == JStr(ModeName(r.value.mode))
    ensures && j.JObj? && OnlyKeys(j, SensorFields)
            && ParseCmd(Get(j, "cmd")).Some? && ParseSensorDevice(Get(j, "device")).Some?
            && HasKey(j, "timestamp") && parseTime(Get(j, "timestamp")).Some? && ParseMode(Get(j, "mode")).Some?
            ==> r.Some?
  {
    if !j.JObj? || !OnlyKeys(j, SensorFields) then None
    else if !HasKey(j, "cmd") || !HasKey(j, "device") || !HasKey(j, "timestamp") || !HasKey(j, "mode") then None
    else
      match (ParseCmd(Get(j, "cmd")), ParseSensorDevice(Get(j, "device")),
             parseTime(Get(j, "timestamp")), ParseMode(Get(j, "mode")))
      case (Some(c), Some(d), Some(t), Some(m)) => Some(SensorControlRequest(c, d, t, m))
      case _ => None
  }

  /**
   * `TimedDeviceControlRequest`: an object with exactly the fields cmd
   * (trigger), device (water_pump/lightbulb), timestamp and value (a number
   * >= 0), all required, no other field allowed.
   */
  function ParseTimedRequest<T>(j: Json, parseTime: Json -> Option<T>): (r: Option<Request<T>>)
    ensures r.Some? ==> && j.JObj? && OnlyKeys(j, DeviceFields)
                        && r.value.TimedDeviceControlRequest?
                        && Get(j, "cmd") == JStr("trigger")
                        && Get(j, "device") == JStr(DeviceName(r.value.device))
                        && parseTime(Get(j, "timestamp")) == Some(r.value.timestamp)
                        && Get(j, "value") == JNum(r.value.value) && r.value.value >= 0.0
    ensures && j.JObj? && OnlyKeys(j, DeviceFields)
            && Get(j, "cmd") == JStr("trigger") && ParseTimedDevice(Get(j, "device")).Some?
            && HasKey(j, "timestamp") && parseTime(Get(j, "timestamp")).Some?
            && Get(j, "value").JNum? && Get(j, "value").n >= 0.0
            ==> r.Some?
  {
    if !j.JObj? || !OnlyKeys(j, DeviceFields) then None
    else if !HasKey(j, "cmd") || !HasKey(j, "device") || !HasKey(j, "timestamp") || !HasKey(j, "value") then None
    else if Get(j, "cmd") != JStr("trigger") then None
    else
      var v := Get(j, "value");
      match (ParseTimedDevice(Get(j, "device")), parseTime(Get(j, "timestamp")))
      case (Some(d), Some(t)) =>
        if v.JNum? && v.n >= 0.0 then Some(TimedDeviceControlRequest(d, t, v.n)) else None
      case _ => None
  }

  /**
   * `ControlRequestType`, discriminated on `device`: a sensor name selects the
   * sensor model, a timed-device name the timed-device model, and anything
   * else (or no `device`) is refused.
   */
  function ParseRequest<T>(j: Json, parseTime: Json -> Option<T>): (r: Option<Request<T>>)
    ensures r.Some? ==> j.JObj? && Get(j, "device").JStr? && Get(j, "device").s in SensorTags + DeviceTags
    ensures j.JObj? && Get(j, "device").JStr? && Get(j, "device").s in SensorTags ==> r == ParseSensorRequest(j, parseTime)
    ensures j.JObj? && Get(j, "device").JStr? && Get(j, "device").s in DeviceTags ==> r == ParseTimedRequest(j, parseTime)
  {
    if !j.JObj? || !HasKey(j, "device") then None
    else
      var tag := Get(j, "device");
      if tag.JStr? && tag.s in SensorTags then ParseSensorRequest(j, parseTime)
      else if tag.JStr? && tag.s in DeviceTags then ParseTimedRequest(j, parseTime)
      else None
  }

  /** `ControlRequestModel`: an object whose only field is a valid `payload`. */
  function ParseEnvelope<T>(j: Json, parseTime: Json -> Option<T>): (r: Option<Request<T>>)
    ensures r.Some? ==> j.JObj? && OnlyKeys(j, {"payload"}) && HasKey(j, "payload")
    ensures j.JObj? && OnlyKeys(j, {"payload"}) && HasKey(j, "payload") ==> r == ParseRequest(Get(j, "payload"), parseTime)
  {
    if !j.JObj? || !OnlyKeys(j, {"payload"}) || !HasKey(j, "payload") then None
    else ParseRequest(Get(j, "payload"), parseTime)
  }

  /** The sensor names and the timed-device names have nothing in common. */
  lemma TagsAreDisjoint()
    ensures SensorTags * DeviceTags == {}
    ensures forall d: SensorDevice :: SensorName(d) in SensorTags
    ensures forall d: TimedDevice :: DeviceName(d) in DeviceTags
  {
  }

  /**
   * An accepted payload is accepted by exactly one of the two models: the one
   * its `device` selects.
   */
  lemma {:induction false} DiscriminatorSelectsOneModel<T>(j: Json, parseTime: Json -> Option<T>)
    requires ParseRequest(j, parseTime).Some?
    ensures ParseSensorRequest(j, parseTime).Some? != ParseTimedRequest(j, parseTime).Some?
    ensures ParseRequest(j, parseTime).value.SensorControlRequest? <==> Get(j, "device").s in SensorTags
  {
    TagsAreDisjoint();
    var tag := Get(j, "device");
    if ParseSensorRequest(j, parseTime).Some? {
      assert ParseSensorDevice(tag).Some?;
      assert tag.s !in DeviceTags;
      assert ParseTimedDevice(tag).None?;
    } else {
      assert tag.s in DeviceTags;
      assert ParseTimedRequest(j, parseTime).Some?;
    }
  }

  /** A field outside a model's own fields makes the whole request invalid. */
  lemma ExtraFieldIsRefused<T>(j: Json, parseTime: Json -> Option<T>, key: string)
    requires j.JObj? && HasKey(j, key)
    requires key !in SensorFields && key !in DeviceFields
    ensures ParseRequest(j, parseTime) == None
    ensures ParseEnvelope(JObj([("payload", j)]), parseTime) == None
  {
    FindFirst(j.members, key);
    var i :| 0 <= i < |j.members| && j.members[i].0 == key;
    assert !OnlyKeys(j, SensorFields) && !OnlyKeys(j, DeviceFields);
    var env := JObj([("payload", j)]);
    assert HasKey(env, "payload") by { assert env.members[0].0 == "payload"; }
  }

  /** The JSON a request is sent as, with `formatTime` writing its timestamp. */
  function RequestToJson<T>(r: Request<T>, formatTime: T -> Json): Json
  {
    match r
    case SensorControlRequest(c, d, t, m) =>
      JObj([("cmd", JStr(CmdName(c))), ("device", JStr(SensorName(d))),
            ("timestamp", formatTime(t)), ("mode", JStr(ModeName(m)))])
    case TimedDeviceControlRequest(d, t, v) =>
      JObj([("cmd", JStr("trigger")), ("device", JStr(DeviceName(d))),
            ("timestamp", formatTime(t)), ("value", JNum(v))])
  }

  /** Each name reads back as the value it names. */
  lemma NamesParseBack(c: SensorCmd, d: SensorDevice, m: Mode, t: TimedDevice)
    ensures ParseCmd(JStr(CmdName(c))) == Some(c)
    ensures ParseSensorDevice(JStr(SensorName(d))) == Some(d)
    ensures ParseMode(JStr(ModeName(m))) == Some(m)
    ensures ParseTimedDevice(JStr(DeviceName(t))) == Some(t)
  {
    match d
    case AirQualitySensor =>
    case LightSensor =>
    case SoilMoistureSensor =>
    case TemperatureSensor =>
    case AirHumiditySensor =>
    case WaterLevelSensor =>
  }

  /** A sensor request survives a trip through its JSON form when its timestamp does. */
  lemma SensorRequestRoundTrip<T>(r: Request<T>, formatTime: T -> Json, parseTime: Json -> Option<T>)
    requires r.SensorControlRequest?
    requires parseTime(formatTime(r.timestamp)) == Some(r.timestamp)
    ensures ParseRequest(RequestToJson(r, formatTime), parseTime) == Some(r)
  {
    var j := RequestToJson(r, formatTime);
    assert OnlyKeys(j, SensorFields);
    FindAt(j.members, 0, "cmd");
    FindAt(j.members, 1, "device");
    FindAt(j.members, 2, "timestamp");
    FindAt(j.members, 3, "mode");
    assert Get(j, "cmd") == JStr(CmdName(r.cmd));
    assert Get(j, "device") == JStr(SensorName(r.sensor));
    assert Get(j, "timestamp") == formatTime(r.timestamp);
    assert Get(j, "mode") == JStr(ModeName(r.mode));
    NamesParseBack(r.cmd, r.sensor, r.mode, WaterPump);
    TagsAreDisjoint();
  }

  /** A timed-device request with a non-negative value survives a trip through its JSON form. */
  lemma TimedRequestRoundTrip<T>(r: Request<T>, formatTime: T -> Json, parseTime: Json -> Option<T>)
    requires r.TimedDeviceControlRequest? && r.value >= 0.0
    requires parseTime(formatTime(r.timestamp)) == Some(r.timestamp)
    ensures ParseRequest(RequestToJson(r, formatTime), parseTime) == Some(r)
  {
    var j := RequestToJson(r, formatTime);
    assert OnlyKeys(j, DeviceFields);
    FindAt(j.members, 0, "cmd");
    FindAt(j.members, 1, "device");
    FindAt(j.members, 2, "timestamp");
    FindAt(j.members, 3, "value");
    assert Get(j, "cmd") == JStr("trigger");
    assert Get(j, "device") == JStr(DeviceName(r.device));
    assert Get(j, "timestamp") == formatTime(r.timestamp);
    assert Get(j, "value") == JNum(r.value);
    NamesParseBack(Enable, AirQualitySensor, Normal, r.device);
    TagsAreDisjoint();
  }

  /**
   * Every request with a non-negative value, wrapped in the envelope,
   * survives a trip through its JSON form when its timestamp does.
   */
  lemma RequestRoundTrip<T>(r: Request<T>, formatTime: T -> Json, parseTime: Json -> Option<T>)
    requires parseTime(formatTime(r.timestamp)) == Some(r.timestamp)
    requires r.TimedDeviceControlRequest? ==> r.value >= 0.0
    ensures ParseEnvelope(JObj([("payload", RequestToJson(r, formatTime))]), parseTime) == Some(r)
  {
    if r.SensorControlRequest? {
      SensorRequestRoundTrip(r, formatTime, parseTime);
    } else {
      TimedRequestRoundTrip(r, formatTime, parseTime);
    }
    var env := JObj([("payload", RequestToJson(r, formatTime))]);
    assert env.members[0].0 == "payload";
    assert OnlyKeys(env, {"payload"});
  }
}
