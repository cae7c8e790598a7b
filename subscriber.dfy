/**
 * The server-side subscriber: each MQTT message is decoded as UTF-8 text,
 * parsed as JSON, and routed by substrings of its topic to the sensor-data,
 * control-command or status handler. The database writes the handlers make
 * are modelled as the rows they would write.
 *
 * The clock, `datetime.fromisoformat`, `json.loads` and the `date-time` and
 * `duration` format checks are parameters.
 */
module Subscriber {
  import opened Wrappers
  import opened Json
  import opened JsonSchema
  import opened ControlSchema
  import opened Text
  import Utf8

  datatype Route = SensorRoute | ControlRoute | StatusRoute | UnknownRoute

  /** `on_message`'s choice of handler: substring tests on the topic, in this order. */
  function RouteOf(topic: string): Route
  {
    if Contains(topic, "sensor") then SensorRoute
    else if Contains(topic, "control") then ControlRoute
    else if Contains(topic, "status") then StatusRoute
    else UnknownRoute
  }

  /** `topic.strip("/").split("/")` */
  function TopicParts(topic: string): (parts: seq<string>)
    ensures |parts| >= 1
  {
    Split(Strip(topic, '/'), '/')
  }

  /**
   * The topic `"/{device_uuid}/control"` the publisher sends commands on
   * reaches the control handler exactly when the uuid does not itself
   * contain "sensor"; otherwise the sensor handler takes it.
   */
  lemma CommandTopicRoute(uuid: string)
    ensures RouteOf("/" + uuid + "/control") == (if Contains(uuid, "sensor") then SensorRoute else ControlRoute)
  {
    CommandTopicHasControl(uuid);
    if Contains(uuid, "sensor") {
      SensorInUuidIsInTopic(uuid);
    }
    if Contains("/" + uuid + "/control", "sensor") {
      SensorInTopicIsInUuid(uuid);
    }
  }

  /** The command topic contains "control", in its last segment. */
  lemma CommandTopicHasControl(uuid: string)
    ensures Contains("/" + uuid + "/control", "control")
  {
    var t := "/" + uuid + "/control";
    var n := |uuid|;
    assert t[n + 2..n + 9] == "control";
    ContainsAt(t, "control", n + 2);
  }

  /** A uuid containing "sensor" makes its command topic contain it too. */
  lemma SensorInUuidIsInTopic(uuid: string)
    requires Contains(uuid, "sensor")
    ensures Contains("/" + uuid + "/control", "sensor")
  {
    var t := "/" + uuid + "/control";
    var i := ContainsSomewhere(uuid, "sensor");
    assert t[i + 1..i + 7] == uuid[i..i + 6];
    ContainsAt(t, "sensor", i + 1);
  }

  /** "sensor" in the command topic can only come from the uuid. */
  lemma SensorInTopicIsInUuid(uuid: string)
    requires Contains("/" + uuid + "/control", "sensor")
    ensures Contains(uuid, "sensor")
  {
    var t := "/" + uuid + "/control";
    var i := ContainsSomewhere(t, "sensor");
    SensorInsideUuid(uuid, i);
    assert uuid[i - 1..i + 5] == t[i..i + 6];
    ContainsAt(uuid, "sensor", i - 1);
  }

  /** An occurrence of "sensor" in `"/{uuid}/control"` lies inside the uuid: it cannot cross a "/" or fall in "control". */
  lemma SensorInsideUuid(uuid: string, i: nat)
    requires i + 6 <= |uuid| + 9 && ("/" + uuid + "/control")[i..i + 6] == "sensor"
    ensures 1 <= i && i + 6 <= |uuid| + 1
  {
    var t := "/" + uuid + "/control";
    var n := |uuid|;
    assert forall k | i <= k < i + 6 :: t[k] == "sensor"[k - i] by {
      forall k | i <= k < i + 6 ensures t[k] == "sensor"[k - i] {
        assert t[i..i + 6][k - i] == t[k];
      }
    }
    assert forall k | 0 <= k < 6 :: "sensor"[k] != '/';
    assert t[0] == '/' && t[n + 1] == '/';
    assert forall k | n + 2 <= k < n + 9 :: t[k] == "control"[k - n - 2];
    assert forall k | 0 <= k < 7 :: "control"[k] != 's';
    assert t[i] == 's';
    assert i != 0;
    assert i < n + 2;
    assert forall k | i <= k < i + 6 :: t[k] != '/';
  }

  /** A joined string starts with its first part and ends with its last. */
  lemma {:induction false} JoinEnds(parts: seq<string>, c: char)
    requires |parts| >= 1 && forall k :: 0 <= k < |parts| ==> parts[k] != []
    ensures var s := Join(parts, c);
            s != [] && s[0] == parts[0][0] && s[|s| - 1] == parts[|parts| - 1][|parts[|parts| - 1]| - 1]
  {
    if |parts| > 1 {
      JoinEnds(parts[1..], c);
    }
  }

  /**
   * A topic written as `"/" + "/".join(parts)`, from non-empty parts free of
   * "/", splits back into those parts.
   */
  lemma JoinedTopicParts(parts: seq<string>)
    requires |parts| >= 1
    requires forall p | p in parts :: p != [] && '/' !in p
    ensures TopicParts("/" + Join(parts, '/')) == parts
  {
    var s := Join(parts, '/');
    assert forall k | 0 <= k < |parts| :: parts[k] in parts;
    JoinEnds(parts, '/');
    assert ("/" + s)[1..] == s;
    assert StripLeading("/" + s, '/') == s;
    assert Strip("/" + s, '/') == s;
    JoinThenSplit(parts, '/');
  }

  /** The topics the plant module publishes readings on, `"/{pot_id}/sensors"` and `"/{pot_id}/sensors/{name}"`. */
  lemma SensorTopicParts(potId: string, name: string)
    requires potId != [] && '/' !in potId && name != [] && '/' !in name
    ensures TopicParts("/" + potId + "/sensors") == [potId, "sensors"]
    ensures TopicParts("/" + potId + "/sensors/" + name) == [potId, "sensors", name]
  {
    assert TopicParts("/" + potId + "/sensors") == [potId, "sensors"] by {
      assert Join([potId, "sensors"], '/') == potId + "/sensors" by {
        assert Join(["sensors"], '/') == "sensors";
      }
      assert "/" + potId + "/sensors" == "/" + Join([potId, "sensors"], '/');
      JoinedTopicParts([potId, "sensors"]);
    }
    assert TopicParts("/" + potId + "/sensors/" + name) == [potId, "sensors", name] by {
      assert Join([potId, "sensors", name], '/') == potId + "/sensors/" + name by {
        assert [potId, "sensors", name][1..] == ["sensors", name];
        assert ["sensors", name][1..] == [name];
        assert Join(["sensors", name], '/') == "sensors" + "/" + name;
      }
      assert "/" + potId + "/sensors/" + name == "/" + Join([potId, "sensors", name], '/');
      JoinedTopicParts([potId, "sensors", name]);
    }
  }

  /** The command topic `"/{device_uuid}/control"` parses to the uuid and "control". */
  lemma ControlTopicParts(uuid: string)
    requires uuid != [] && '/' !in uuid
    ensures TopicParts("/" + uuid + "/control") == [uuid, "control"]
  {
    assert Join([uuid, "control"], '/') == uuid + "/control" by {
      assert Join(["control"], '/') == "control";
    }
    assert "/" + uuid + "/control" == "/" + Join([uuid, "control"], '/');
    JoinedTopicParts([uuid, "control"]);
  }

  /** One row of the readings table: sensor type, timestamp and value. */
  datatype Reading<T> = Reading(sensorType: string, ts: T, value: Json)

  /** What `handle_sensor_data` writes. */
  datatype SensorOutcome<T> =
    | Refused                                            // nothing written, or all of it rolled back
    | Recorded(device: string, readings: seq<Reading<T>>) // the device is looked up or created, then the readings inserted

  /**
   * Whether a member's value can be inserted into the readings table's
   * `value` column, a NOT NULL float column whose values the database layer
   * converts with Python's `float()` before binding them. A number or a
   * boolean converts; a string converts exactly when `isFloatText` (what
   * `float()` accepts) says so; null breaks the NOT NULL constraint, and
   * `float()` refuses an array or an object. Each refusal raises inside the
   * transaction, which then rolls back.
   */
  predicate Storable(v: Json, isFloatText: string -> bool) {
    match v
    case JNum(_) => true
    case JBool(_) => true
    case JStr(text) => isFloatText(text)
    case _ => false
  }

  /** Every member of a whole reading other than `timestamp` is storable. */
  predicate AllStorable(members: seq<(string, Json)>, isFloatText: string -> bool) {
    forall i :: 0 <= i < |members| && members[i].0 != "timestamp" ==> Storable(members[i].1, isFloatText)
  }

  /**
   * The readings' timestamp: the `timestamp` field when it is a non-empty
   * string `parseIso` accepts, and the current time otherwise.
   */
  function ReadingTime<T>(data: Json, now: T, parseIso: string -> Option<T>): (ts: T)
    requires data.JObj?
    ensures var field := Get(data, "timestamp");
            if field.JStr? && field.s != [] && parseIso(field.s).Some? then ts == parseIso(field.s).value else ts == now
  {
    var field := Get(data, "timestamp");
    if Truthy(field) && field.JStr? then
      match parseIso(field.s)
      case Some(t) => t
      case None => now
    else now
  }

  /** The readings a whole-reading message inserts: one per member other than `timestamp`, in order. */
  function SensorRows<T>(members: seq<(string, Json)>, ts: T): seq<Reading<T>>
  {
    if members == [] then []
    else
      var last := members[|members| - 1];
      SensorRows(members[..|members| - 1], ts) + (if last.0 == "timestamp" then [] else [Reading(last.0, ts, last.1)])
  }

  /** A reading is written exactly for each member whose key is not `timestamp`, with that member's value. */
  lemma {:induction false} SensorRowsMeans<T>(members: seq<(string, Json)>, ts: T, r: Reading<T>)
    ensures r in SensorRows(members, ts) <==>
              exists i :: 0 <= i < |members| && members[i].0 != "timestamp" && r == Reading(members[i].0, ts, members[i].1)
  {
    if members != [] {
      var init := members[..|members| - 1];
      SensorRowsMeans(init, ts, r);
      if r in SensorRows(members, ts) && r !in SensorRows(init, ts) {
        assert members[|members| - 1].0 != "timestamp";
      }
      if r in SensorRows(init, ts) {
        var i :| 0 <= i < |init| && init[i].0 != "timestamp" && r == Reading(init[i].0, ts, init[i].1);
        assert members[i] == init[i];
      }
      if exists i :: 0 <= i < |members| && members[i].0 != "timestamp" && r == Reading(members[i].0, ts, members[i].1) {
        var i :| 0 <= i < |members| && members[i].0 != "timestamp" && r == Reading(members[i].0, ts, members[i].1);
        if i < |init| {
          assert init[i] == members[i];
        }
      }
    }
  }

  /** `handle_sensor_data`, as the outcome it produces. */
  function SensorDataOutcome<T>(topic: string, data: Json, now: T, parseIso: string -> Option<T>,
                               isFloatText: string -> bool): SensorOutcome<T>
  {
    var parts := TopicParts(topic);
    if |parts| < 2 || !data.JObj? then Refused
    else
      var ts := ReadingTime(data, now, parseIso);
      if |parts| == 3 then
        var value := Get(data, parts[2]);
        if value == JNull then Recorded(parts[0], [])
        else if !Storable(value, isFloatText) then Refused
        else Recorded(parts[0], [Reading(parts[2], ts, value)])
      else if |parts| == 2 && parts[1] == "sensors" then
        if AllStorable(data.members, isFloatText) then Recorded(parts[0], SensorRows(data.members, ts)) else Refused
      else
        Recorded(parts[0], [])
  }

  /**
   * `handle_sensor_data`: parses the topic, picks the timestamp, and for a
   * whole-reading topic walks the data's members collecting one reading per
   * sensor; the first member that cannot be stored rolls the whole
   * transaction back, the device row included.
   */
  method HandleSensorData<T>(topic: string, data: Json, now: T, parseIso: string -> Option<T>,
                             isFloatText: string -> bool)
    returns (outcome: SensorOutcome<T>)
    ensures outcome == SensorDataOutcome(topic, data, now, parseIso, isFloatText)
  {
    var parts := TopicParts(topic);
    if |parts| < 2 || !data.JObj? {
      return Refused;
    }
    var ts := ReadingTime(data, now, parseIso);
    if |parts| == 3 {
      var value := Get(data, parts[2]);
      if value == JNull {
        return Recorded(parts[0], []);
      }
      if !Storable(value, isFloatText) {
        return Refused;
      }
      return Recorded(parts[0], [Reading(parts[2], ts, value)]);
    } else if |parts| == 2 && parts[1] == "sensors" {
      var rows: seq<Reading<T>> := [];
      var i := 0;
      while i < |data.members|
        invariant 0 <= i <= |data.members|
        invariant rows == SensorRows(data.members[..i], ts)
        invariant AllStorable(data.members[..i], isFloatText)
      {
        var (sensorType, value) := data.members[i];
        assert data.members[..i + 1][..i] == data.members[..i];
        if sensorType != "timestamp" {
          if !Storable(value, isFloatText) {
            assert !AllStorable(data.members, isFloatText);
            return Refused;
          }
          rows := rows + [Reading(sensorType, ts, value)];
        }
        assert forall k :: 0 <= k < i + 1 ==> data.members[..i + 1][k] == data.members[k];
        assert forall k :: 0 <= k < i ==> data.members[..i][k] == data.members[k];
        i := i + 1;
      }
      assert data.members[..i] == data.members;
      return Recorded(parts[0], rows);
    }
    return Recorded(parts[0], []);
  }

  /**
   * On the plant module's own topics: a whole reading records one reading
   * per non-timestamp member for the pot, unless one of them cannot be
   * stored, and then nothing at all; a single-sensor reading records at most
   * one, for that sensor, none when its value is null or missing, and
   * nothing at all when its value cannot be stored.
   */
  lemma PlantTopicsRecord<T>(potId: string, name: string, data: Json, now: T, parseIso: string -> Option<T>,
                             isFloatText: string -> bool)
    requires potId != [] && '/' !in potId && name != [] && '/' !in name
    requires data.JObj?
    ensures var ts := ReadingTime(data, now, parseIso);
            SensorDataOutcome("/" + potId + "/sensors", data, now, parseIso, isFloatText)
              == if AllStorable(data.members, isFloatText) then Recorded(potId, SensorRows(data.members, ts)) else Refused
    ensures var out := SensorDataOutcome("/" + potId + "/sensors/" + name, data, now, parseIso, isFloatText);
            var v := Get(data, name);
            && (out.Refused? <==> v != JNull && !Storable(v, isFloatText))
            && (out.Recorded? ==>
                  && out.device == potId
                  && (out.readings == [] <==> v == JNull)
                  && forall r | r in out.readings :: r.sensorType == name && r.value == v)
  {
    SensorTopicParts(potId, name);
  }

  /**
   * Every reading a message records carries the message's own `timestamp`
   * when that is a non-empty string that parses, and the current time when
   * the message has none.
   */
  lemma RecordedReadingTime<T>(topic: string, data: Json, now: T, parseIso: string -> Option<T>,
                               isFloatText: string -> bool)
    requires data.JObj?
    ensures var out := SensorDataOutcome(topic, data, now, parseIso, isFloatText);
            var field := Get(data, "timestamp");
            && (out.Recorded? && field.JStr? && field.s != [] && parseIso(field.s).Some? ==>
                  forall r | r in out.readings :: r.ts == parseIso(field.s).value)
            && (out.Recorded? && !HasKey(data, "timestamp") ==> forall r | r in out.readings :: r.ts == now)
  {
    var out := SensorDataOutcome(topic, data, now, parseIso, isFloatText);
    var ts := ReadingTime(data, now, parseIso);
    if out.Recorded? {
      forall r | r in out.readings ensures r.ts == ts {
        var parts := TopicParts(topic);
        if |parts| == 2 && parts[1] == "sensors" {
          SensorRowsMeans(data.members, ts, r);
        }
      }
    }
  }

  /** The row `handle_control_command` inserts into the commands table. */
  datatype CommandRow = CommandRow(deviceUuid: string, command: Json, parameters: Json, createdAt: Json, status: string)

  /**
   * `handle_control_command` under the schema `gate`: a request the gate
   * refuses writes nothing; otherwise a "received" row for the first topic
   * segment, with the request's command, the request itself as parameters,
   * and its `timestamp` (present even if null) or the current time.
   */
  function HandleControlCommand(gate: Schema, topic: string, data: Json, nowIso: string,
                                formats: (string, string) -> bool): (row: Option<CommandRow>)
    ensures row.Some? <==> Valid(gate, data, formats) && data.JObj?
    ensures row.Some? ==> && row.value.status == "received"
                          && row.value.deviceUuid == TopicParts(topic)[0]
                          && row.value.command == Get(data, "command")
                          && row.value.parameters == data
                          && row.value.createdAt == (if HasKey(data, "timestamp") then Get(data, "timestamp") else JStr(nowIso))
  {
    if !Valid(gate, data, formats) || !data.JObj? then None
    else
      var createdAt := match Find(data.members, "timestamp")
                       case Some(ts) => ts
                       case None => JStr(nowIso);
      Some(CommandRow(TopicParts(topic)[0], Get(data, "command"), data, createdAt, "received"))
  }

  /** A light request with a null schedule or an on-window schedule, stated directly. */
  predicate IsWindowedLightCommand(j: Json, formats: (string, string) -> bool) {
    && j.JObj?
    && HasKey(j, "actuator") && HasKey(j, "command") && HasKey(j, "value") && HasKey(j, "scheduled_time")
    && Get(j, "actuator") == JStr("light_bulb")
    && IsOnOff(Get(j, "command"))
    && (IsInteger(Get(j, "value")) || Get(j, "value") == JNull)
    && (Get(j, "scheduled_time") == JNull || IsWindowSchedule(Get(j, "scheduled_time"), formats))
  }

  /**
   * The gate as written stores only light requests with a null schedule and
   * pump requests; the corrected gate stores, besides, every light request
   * whose schedule is an on-window, and nothing else.
   */
  lemma ControlGates(topic: string, data: Json, nowIso: string, formats: (string, string) -> bool)
    ensures (HandleControlCommand(ControlCommandSchema, topic, data, nowIso, formats).Some?
             <==> IsLightCommand(data) || IsPumpCommand(data, formats))
    ensures (HandleControlCommand(CorrectedControlCommandSchema, topic, data, nowIso, formats).Some?
             <==> IsWindowedLightCommand(data, formats) || IsPumpCommand(data, formats))
  {
    ControlCommandSchemaMeans(data, formats);
    AnyOf2(LightControlRequest(CorrectedDurationScheduledTime), WaterPumpControlRequest, data, formats);
    LightControlRequestMeans(CorrectedDurationScheduledTime, data, formats);
    WaterPumpControlRequestMeans(data, formats);
    if data.JObj? {
      CorrectedDurationScheduledTimeMeans(Get(data, "scheduled_time"), formats);
    }
  }

  /** What one message leads to. */
  datatype Effect<T> =
    | Crashed                               // not UTF-8: the decode raises out of the callback and ends the client loop
    | Dropped                               // not JSON
    | SensorEffect(outcome: SensorOutcome<T>)
    | CommandEffect(row: Option<CommandRow>)
    | StatusEffect(device: string)          // the device's last-seen time is refreshed
    | Ignored                               // unknown topic

  /**
   * `on_message`, with the control handler validating against `gate`; the
   * program's own gate is `ControlCommandSchema`. The payload is decoded
   * before any error handling, so a payload that is not UTF-8 is not
   * dropped: the exception leaves the callback.
   */
  function OnMessage<T>(gate: Schema, topic: string, payload: seq<Utf8.Byte>, parseJson: string -> Option<Json>,
                        now: T, nowIso: string, parseIso: string -> Option<T>, isFloatText: string -> bool,
                        formats: (string, string) -> bool): (e: Effect<T>)
    ensures e.Crashed? <==> Utf8.Decode(payload).None?
    ensures e.Dropped? <==> Utf8.Decode(payload).Some? && parseJson(Utf8.Decode(payload).value).None?
    ensures !e.Crashed? && !e.Dropped? ==>
              var data := parseJson(Utf8.Decode(payload).value).value;
              match RouteOf(topic)
              case SensorRoute => e == SensorEffect(SensorDataOutcome(topic, data, now, parseIso, isFloatText))
              case ControlRoute => e == CommandEffect(HandleControlCommand(gate, topic, data, nowIso, formats))
              case StatusRoute => e == StatusEffect(TopicParts(topic)[0])
              case UnknownRoute => e.Ignored?
  {
    match Utf8.Decode(payload)
    case None => Crashed
    case Some(text) =>
      match parseJson(text)
      case None => Dropped
      case Some(data) =>
        match RouteOf(topic)
        case SensorRoute => SensorEffect(SensorDataOutcome(topic, data, now, parseIso, isFloatText))
        case ControlRoute => CommandEffect(HandleControlCommand(gate, topic, data, nowIso, formats))
        case StatusRoute => StatusEffect(TopicParts(topic)[0])
        case UnknownRoute => Ignored
  }

  /**
   * A command the publisher forwards to `"/{device_uuid}/control"`, coming
   * back to this subscriber, is stored again as "received" exactly when the
   * uuid does not contain "sensor" and the command passes the gate; with the
   * program's gate, that is a light request with a null schedule or a pump
   * request, and with the corrected gate also a light request with an
   * on-window schedule.
   */
  lemma ForwardedCommand<T>(uuid: string, text: string, data: Json, now: T, nowIso: string,
                            parseIso: string -> Option<T>, isFloatText: string -> bool,
                            parseJson: string -> Option<Json>, formats: (string, string) -> bool)
    requires parseJson(text) == Some(data)
    ensures var e := OnMessage(ControlCommandSchema, "/" + uuid + "/control", Utf8.Encode(text), parseJson,
                               now, nowIso, parseIso, isFloatText, formats);
            && (e.CommandEffect? <==> !Contains(uuid, "sensor"))
            && (e.CommandEffect? ==> (e.row.Some? <==> IsLightCommand(data) || IsPumpCommand(data, formats)))
    ensures var e := OnMessage(CorrectedControlCommandSchema, "/" + uuid + "/control", Utf8.Encode(text), parseJson,
                               now, nowIso, parseIso, isFloatText, formats);
            && (e.CommandEffect? <==> !Contains(uuid, "sensor"))
            && (e.CommandEffect? ==> (e.row.Some? <==> IsWindowedLightCommand(data, formats) || IsPumpCommand(data, formats)))
  {
    Utf8.DecodeEncode(text);
    CommandTopicRoute(uuid);
    ControlGates("/" + uuid + "/control", data, nowIso, formats);
  }

  /**
   * The light request of the finding on the control schema, switching on at
   * 08:00 for two hours, sent to a pot's control topic: the program stores
   * nothing, and the corrected gate stores it.
   */
  lemma WindowedLightRequestOnControlTopic<T>(potId: string, text: string, now: T, nowIso: string,
                                              parseIso: string -> Option<T>, isFloatText: string -> bool,
                                              parseJson: string -> Option<Json>, formats: (string, string) -> bool)
    requires !Contains(potId, "sensor")
    requires parseJson(text) == Some(WindowedLight)
    requires formats("date-time", "2025-06-01T08:00:00Z") && formats("duration", "PT2H")
    ensures OnMessage(ControlCommandSchema, "/" + potId + "/control", Utf8.Encode(text), parseJson,
                      now, nowIso, parseIso, isFloatText, formats) == CommandEffect(None)
    ensures OnMessage(CorrectedControlCommandSchema, "/" + potId + "/control", Utf8.Encode(text), parseJson,
                      now, nowIso, parseIso, isFloatText, formats).row.Some?
  {
    Utf8.DecodeEncode(text);
    CommandTopicRoute(potId);
    WindowedLightRequest(formats);
  }
}
