/**
 * The server's control command schema: a light request or a pump request,
 * each an object with required keys, an `actuator` constant, an on/off
 * `command`, and an optional schedule (a duration-form schedule for the light,
 * an impulse schedule for the pump).
 *
 * As written, the duration-form schedule requires `end_time` and `duration`
 * both as keys, while each of its `oneOf` branches forbids one of them as a
 * key: no instance satisfies it, so a light request is accepted only with a
 * null schedule. The corrected form below takes the two off the `required`
 * list, so that exactly one of them is given.
 */
module ControlSchema {
  import opened Json
  import opened JsonSchema

  /** The `oneOf` of the duration-form schedule: one branch per key that may be left out. */
  const DurationOneOf: Schema :=
    OneOf([AllOf([Not(Required(["duration"])), Required(["end_time"])]),
           AllOf([Not(Required(["end_time"])), Required(["duration"])])])

  const StartTime: (string, Schema) := ("start_time", FormattedString("date-time"))
  const EndTime: (string, Schema) := ("end_time", NullOr(FormattedString("date-time")))
  const Duration: (string, Schema) := ("duration", NullOr(FormattedString("duration")))
  const RepeatInterval: (string, Schema) := ("repeat_interval", NullOr(FormattedString("duration")))

  /** An object with the four schedule keys, valid against `oneOf`. */
  function DurationSchedule(oneOf: Schema): Schema {
    AllOf([oneOf,
           Properties([StartTime, EndTime, Duration, RepeatInterval]),
           Required([StartTime.0, EndTime.0, Duration.0, RepeatInterval.0]),
           Type(ObjectType)])
  }

  /** `DurationScheduledTime` as written. */
  const DurationScheduledTime: Schema := DurationSchedule(DurationOneOf)

  /** `ImpulseScheduledTime` */
  const ImpulseScheduledTime: Schema :=
    AllOf([Properties([StartTime, RepeatInterval]), Required([StartTime.0, RepeatInterval.0]), Type(ObjectType)])

  /** `{"enum": ["on", "off"], "type": "string"}` */
  const OnOff: Schema := AllOf([Enum([JStr("on"), JStr("off")]), Type(StringType)])

  /** `{"const": name, "type": "string"}` */
  function Actuator(name: string): Schema {
    AllOf([Const(JStr(name)), Type(StringType)])
  }

  const OptionalInteger: Schema := AnyOf([Type(IntegerType), Type(NullType)])

  /** `LightControlRequest`, over the schema its `scheduled_time` refers to. */
  function LightControlRequest(schedule: Schema): Schema {
    var props := [("actuator", Actuator("light_bulb")), ("command", OnOff),
                  ("value", OptionalInteger), ("scheduled_time", NullOr(schedule))];
    AllOf([Properties(props), Required([props[0].0, props[1].0, props[2].0, props[3].0]), Type(ObjectType)])
  }

  /** `WaterPumpControlRequest` */
  const WaterPumpControlRequest: Schema :=
    var props := [("actuator", Actuator("water_pump")), ("command", OnOff),
                  ("scheduled_time", NullOr(ImpulseScheduledTime))];
    AllOf([Properties(props), Required([props[0].0, props[1].0, props[2].0]), Type(ObjectType)])

  /** `CONTROL_COMMAND_SCHEMA` as written. */
  const ControlCommandSchema: Schema :=
    AnyOf([LightControlRequest(DurationScheduledTime), WaterPumpControlRequest])

  /** With both `end_time` and `duration` present, each branch of the `oneOf` as written fails. */
  lemma DurationOneOfRefusesBothKeys(j: Json, formats: (string, string) -> bool)
    requires j.JObj? && HasKey(j, "end_time") && HasKey(j, "duration")
    ensures !Valid(DurationOneOf, j, formats)
  {
    var noDuration := AllOf([Not(Required(["duration"])), Required(["end_time"])]);
    var noEndTime := AllOf([Not(Required(["end_time"])), Required(["duration"])]);
    assert !Valid(noDuration, j, formats) by {
      AllOf2(Not(Required(["duration"])), Required(["end_time"]), j, formats);
      Required1("duration", j, formats);
    }
    assert !Valid(noEndTime, j, formats) by {
      AllOf2(Not(Required(["end_time"])), Required(["duration"]), j, formats);
      Required1("end_time", j, formats);
    }
    OneOf2(noDuration, noEndTime, j, formats);
  }

  /**
   * No instance at all satisfies the duration-form schedule as written: it
   * requires both `end_time` and `duration` as keys, and each `oneOf` branch
   * forbids one of them as a key.
   */
  lemma DurationScheduledTimeUnsatisfiable(j: Json, formats: (string, string) -> bool)
    ensures !Valid(DurationScheduledTime, j, formats)
  {
    ObjectWith4And(DurationOneOf, StartTime, EndTime, Duration, RepeatInterval, j, formats);
    if j.JObj? && HasKey(j, "end_time") && HasKey(j, "duration") {
      DurationOneOfRefusesBothKeys(j, formats);
    }
  }

  /** `"on"` or `"off"`. */
  predicate IsOnOff(j: Json) {
    j == JStr("on") || j == JStr("off")
  }

  lemma OnOffMeans(j: Json, formats: (string, string) -> bool)
    ensures Valid(OnOff, j, formats) <==> IsOnOff(j)
  {
    AllOf2(Enum([JStr("on"), JStr("off")]), Type(StringType), j, formats);
  }

  lemma ActuatorMeans(name: string, j: Json, formats: (string, string) -> bool)
    ensures Valid(Actuator(name), j, formats) <==> j == JStr(name)
  {
    AllOf2(Const(JStr(name)), Type(StringType), j, formats);
  }

  lemma OptionalIntegerMeans(j: Json, formats: (string, string) -> bool)
    ensures Valid(OptionalInteger, j, formats) <==> IsInteger(j) || j == JNull
  {
    AnyOf2(Type(IntegerType), Type(NullType), j, formats);
  }

  /** A string in the given format, or null. */
  predicate IsNullOr(j: Json, format: string, formats: (string, string) -> bool) {
    j == JNull || (j.JStr? && formats(format, j.s))
  }

  /** A string in the given format. */
  predicate IsFormatted(j: Json, format: string, formats: (string, string) -> bool) {
    j.JStr? && formats(format, j.s)
  }

  /** An impulse schedule, stated directly. */
  predicate IsImpulseSchedule(j: Json, formats: (string, string) -> bool) {
    && j.JObj? && HasKey(j, "start_time") && HasKey(j, "repeat_interval")
    && IsFormatted(Get(j, "start_time"), "date-time", formats)
    && IsNullOr(Get(j, "repeat_interval"), "duration", formats)
  }

  lemma ImpulseScheduledTimeMeans(j: Json, formats: (string, string) -> bool)
    ensures Valid(ImpulseScheduledTime, j, formats) <==> IsImpulseSchedule(j, formats)
  {
    ObjectWith2(StartTime, RepeatInterval, j, formats);
    if j.JObj? {
      FormattedStringMeans("date-time", Get(j, "start_time"), formats);
      NullOrFormattedString("duration", Get(j, "repeat_interval"), formats);
    }
  }

  /** A light request the schema as written accepts, stated directly. */
  predicate IsLightCommand(j: Json) {
    && j.JObj?
    && HasKey(j, "actuator") && HasKey(j, "command") && HasKey(j, "value") && HasKey(j, "scheduled_time")
    && Get(j, "actuator") == JStr("light_bulb")
    && IsOnOff(Get(j, "command"))
    && (IsInteger(Get(j, "value")) || Get(j, "value") == JNull)
    && Get(j, "scheduled_time") == JNull
  }

  /** A pump request, stated directly. */
  predicate IsPumpCommand(j: Json, formats: (string, string) -> bool) {
    && j.JObj?
    && HasKey(j, "actuator") && HasKey(j, "command") && HasKey(j, "scheduled_time")
    && Get(j, "actuator") == JStr("water_pump")
    && IsOnOff(Get(j, "command"))
    && (Get(j, "scheduled_time") == JNull || IsImpulseSchedule(Get(j, "scheduled_time"), formats))
  }

  /** What the light part of the schema accepts, whatever schema its schedule refers to. */
  lemma LightControlRequestMeans(schedule: Schema, j: Json, formats: (string, string) -> bool)
    ensures Valid(LightControlRequest(schedule), j, formats) <==>
              && j.JObj?
              && HasKey(j, "actuator") && HasKey(j, "command") && HasKey(j, "value") && HasKey(j, "scheduled_time")
              && Get(j, "actuator") == JStr("light_bulb")
              && IsOnOff(Get(j, "command"))
              && (IsInteger(Get(j, "value")) || Get(j, "value") == JNull)
              && (Get(j, "scheduled_time") == JNull || Valid(schedule, Get(j, "scheduled_time"), formats))
  {
    ObjectWith4(("actuator", Actuator("light_bulb")), ("command", OnOff),
                ("value", OptionalInteger), ("scheduled_time", NullOr(schedule)), j, formats);
    if j.JObj? {
      ActuatorMeans("light_bulb", Get(j, "actuator"), formats);
      OnOffMeans(Get(j, "command"), formats);
      OptionalIntegerMeans(Get(j, "value"), formats);
      AnyOf2(schedule, Type(NullType), Get(j, "scheduled_time"), formats);
    }
  }

  lemma WaterPumpControlRequestMeans(j: Json, formats: (string, string) -> bool)
    ensures Valid(WaterPumpControlRequest, j, formats) <==> IsPumpCommand(j, formats)
  {
    ObjectWith3(("actuator", Actuator("water_pump")), ("command", OnOff),
                ("scheduled_time", NullOr(ImpulseScheduledTime)), j, formats);
    if j.JObj? {
      ActuatorMeans("water_pump", Get(j, "actuator"), formats);
      OnOffMeans(Get(j, "command"), formats);
      AnyOf2(ImpulseScheduledTime, Type(NullType), Get(j, "scheduled_time"), formats);
      ImpulseScheduledTimeMeans(Get(j, "scheduled_time"), formats);
    }
  }

  /**
   * The schema as written accepts exactly the light requests with a null
   * schedule and the pump requests with a null or impulse schedule.
   */
  lemma ControlCommandSchemaMeans(j: Json, formats: (string, string) -> bool)
    ensures Valid(ControlCommandSchema, j, formats) <==> IsLightCommand(j) || IsPumpCommand(j, formats)
  {
    AnyOf2(LightControlRequest(DurationScheduledTime), WaterPumpControlRequest, j, formats);
    LightControlRequestMeans(DurationScheduledTime, j, formats);
    WaterPumpControlRequestMeans(j, formats);
    if j.JObj? {
      DurationScheduledTimeUnsatisfiable(Get(j, "scheduled_time"), formats);
    }
  }

  /**
   * The duration-form schedule with `end_time` and `duration` taken off its
   * `required` list, so that its `oneOf` can hold: exactly one of the two is
   * given as a key, and a null one means "on from the start, indefinitely".
   */
  const CorrectedDurationScheduledTime: Schema :=
    AllOf([DurationOneOf,
           Properties([StartTime, EndTime, Duration, RepeatInterval]),
           Required([StartTime.0, RepeatInterval.0]),
           Type(ObjectType)])

  /** The control command schema with the corrected duration-form schedule. */
  const CorrectedControlCommandSchema: Schema :=
    AnyOf([LightControlRequest(CorrectedDurationScheduledTime), WaterPumpControlRequest])

  /** A light schedule with an on-window given by an end time or a duration, stated directly. */
  predicate IsWindowSchedule(j: Json, formats: (string, string) -> bool) {
    && j.JObj?
    && HasKey(j, "start_time") && HasKey(j, "repeat_interval")
    && IsFormatted(Get(j, "start_time"), "date-time", formats)
    && IsNullOr(Get(j, "repeat_interval"), "duration", formats)
    && HasKey(j, "end_time") != HasKey(j, "duration")
    && (HasKey(j, "end_time") ==> IsNullOr(Get(j, "end_time"), "date-time", formats))
    && (HasKey(j, "duration") ==> IsNullOr(Get(j, "duration"), "duration", formats))
  }

  /** On an object, the `oneOf` as written holds exactly when one of end_time and duration is a key. */
  lemma DurationOneOfMeans(j: Json, formats: (string, string) -> bool)
    requires j.JObj?
    ensures Valid(DurationOneOf, j, formats) <==> HasKey(j, "end_time") != HasKey(j, "duration")
  {
    var noDuration := AllOf([Not(Required(["duration"])), Required(["end_time"])]);
    var noEndTime := AllOf([Not(Required(["end_time"])), Required(["duration"])]);
    AllOf2(Not(Required(["duration"])), Required(["end_time"]), j, formats);
    AllOf2(Not(Required(["end_time"])), Required(["duration"]), j, formats);
    Required1("duration", j, formats);
    Required1("end_time", j, formats);
    OneOf2(noDuration, noEndTime, j, formats);
  }

  /**
   * The corrected duration-form schedule accepts exactly the objects with a
   * date-time `start_time`, a `repeat_interval`, and exactly one of
   * `end_time` and `duration` as a key, each present value well-formed.
   */
  lemma CorrectedDurationScheduledTimeMeans(j: Json, formats: (string, string) -> bool)
    ensures Valid(CorrectedDurationScheduledTime, j, formats) <==> IsWindowSchedule(j, formats)
  {
    var props := Properties([StartTime, EndTime, Duration, RepeatInterval]);
    var req := Required([StartTime.0, RepeatInterval.0]);
    AllOf4(DurationOneOf, props, req, Type(ObjectType), j, formats);
    if j.JObj? {
      Properties4(StartTime, EndTime, Duration, RepeatInterval, j, formats);
      Required2(StartTime.0, RepeatInterval.0, j, formats);
      DurationOneOfMeans(j, formats);
      FormattedStringMeans("date-time", Get(j, "start_time"), formats);
      NullOrFormattedString("date-time", Get(j, "end_time"), formats);
      NullOrFormattedString("duration", Get(j, "duration"), formats);
      NullOrFormattedString("duration", Get(j, "repeat_interval"), formats);
    }
  }

  /** The on-window schedule of the example below: 08:00 for two hours. */
  const TwoHourWindow: Json :=
    JObj([("start_time", JStr("2025-06-01T08:00:00Z")), ("duration", JStr("PT2H")), ("repeat_interval", JNull)])

  lemma TwoHourWindowIsWindow(formats: (string, string) -> bool)
    requires formats("date-time", "2025-06-01T08:00:00Z") && formats("duration", "PT2H")
    ensures IsWindowSchedule(TwoHourWindow, formats)
  {
    var ms := TwoHourWindow.members;
    FindAt(ms, 0, "start_time");
    FindAt(ms, 1, "duration");
    FindAt(ms, 2, "repeat_interval");
    FindFirst(ms, "end_time");
  }

  /** A light request to switch on at 08:00 for two hours, with a duration-form schedule. */
  const WindowedLight: Json :=
    JObj([("actuator", JStr("light_bulb")), ("command", JStr("on")),
          ("value", JNull), ("scheduled_time", TwoHourWindow)])

  /** The schema as written refuses the windowed light request; the corrected one accepts it. */
  lemma WindowedLightRequest(formats: (string, string) -> bool)
    requires formats("date-time", "2025-06-01T08:00:00Z") && formats("duration", "PT2H")
    ensures !Valid(ControlCommandSchema, WindowedLight, formats)
    ensures Valid(CorrectedControlCommandSchema, WindowedLight, formats)
  {
    var request := WindowedLight;
    FindAt(request.members, 0, "actuator");
    FindAt(request.members, 1, "command");
    FindAt(request.members, 2, "value");
    FindAt(request.members, 3, "scheduled_time");
    ControlCommandSchemaMeans(request, formats);
    TwoHourWindowIsWindow(formats);
    CorrectedDurationScheduledTimeMeans(TwoHourWindow, formats);
    LightControlRequestMeans(CorrectedDurationScheduledTime, request, formats);
    AnyOf2(LightControlRequest(CorrectedDurationScheduledTime), WaterPumpControlRequest, request, formats);
  }
}
