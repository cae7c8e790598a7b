# Plant pot control path, in Dafny

This project models the core of the iot2025-plants system. A Raspberry Pi "plant module" in each pot receives control requests over MQTT. It turns them into actuator calls (light bulb, water pump) and into timed events. A deadline scheduler holds those events and fires them in time order. On the server side, a subscriber routes incoming MQTT messages by topic. It stores sensor readings, and it stores control commands that pass a JSON Schema. A publisher forwards stored commands to the pots, backing off while idle.

The modelled parts, one module per source file:

- `Schedule` (schedule.dfy): the event list of `Scheduler`, kept sorted by execution time.
  - `add_event` is an append followed by Python's stable sort.
  - `remove_event` filters by id.
  - One pass of `run` is a sequential step. Whether the wait was interrupted and whether the action raised are inputs.
- `Control` (control_manager.dfy): the decision `handle_message` takes, as the pure function `Translate`. The `ControlManager` class applies it to its scheduler and actuator controller.
- `SensorsTranslation` (sensors_translation.dfy): the `SensorsController` flags and guards, reading sanitisation with its last-valid memory, and the pump's volume-to-seconds conversion.
- `MockSensors` (mock_sensors.py's `LightBulb` and `WaterPump`, which are identical): one `MockActuator` class with primed and active flags.
- `Dispatcher` (mqtt_dispatcher.dfy): the topic table with a FIFO queue per topic, routing, and each topic's consumer task, including how the plant module's wiring lets that task end before the dispatcher starts.
- `ControlRequest` and `SensorReading`: the pydantic models, as validators over decoded JSON.
- `Subscriber`, `ControlSchema` and `JsonSchema`: the server subscriber's routing, its sensor-topic parsing and the control-command schema.
  - The schema is interpreted with JSON Schema 2020-12 semantics for `required`, `properties`, `type`, `const`, `enum`, `allOf`, `anyOf`, `oneOf` and `not`.
- `Publisher`: the adaptive-sleep loop and the "sent" → "sent2pot" status transition.
- `Mcp3008`: the SPI request frame and 10-bit decoding of both `analog_inputs.py` files.
- `AirSensor`: the sysfs millidegree readings.
- Support modules:
  - `Text`: `str.strip`, `str.split`, `str.join` and the substring test;
  - `Utf8`: UTF-8 encoding and decoding;
  - `Json`: decoded JSON values, with objects as ordered key/value lists;
  - `Wrappers`: `Option` and `Result`.

Times and durations are exact `real` seconds. Clocks, uuid4 ids, `json.loads`, `datetime.fromisoformat` and the `date-time`/`duration` format checks enter as parameters. Event ids come from a counter.

The model follows the code where it is easy to misread:

- When a fired action raises, the event is reinserted with its old deadline. `execute` calls the action before it advances the time (schedule.py:82-86), and the run loop swallows the exception and reinserts every event not marked executed (schedule.py:279-290). A raising event, one-shot or repeating, therefore comes back unchanged.
- A scheduled pump request produces an on/off pulse whatever its `command`: `command` is only read on the unscheduled path (control_manager.py:129-137, 145-161).
- A zero `repeat_interval` is falsy in `if self.repeat_interval:` (schedule.py:83), so it counts as non-repeating.

`Subscriber.OnMessage` takes the control handler's schema as a parameter. With the schema as written it is the program; with the corrected schema of the first row under "## Findings" it is the intended behaviour. The dispatcher's consumer task is modelled with its states (not run yet, waiting, ended), so that the second finding can be stated and its correction proved.

## Model

| member | source | states |
|---|---|---|
| Schedule.Execute | plant_module/mqtt_client/schedule.py:65-86 | an action that raises leaves the event unchanged; otherwise a non-zero interval advances the time by exactly that interval and leaves `executed` alone, and anything else keeps the time and sets `executed`; id, action and interval never change |
| Schedule.InsertMembers | plant_module/mqtt_client/schedule.py:187-189 | append-and-sort grows the list by one, and every element is the new event or an old one |
| Schedule.InsertIsStableSort | plant_module/mqtt_client/schedule.py:187-189 | on a sorted list, append plus stable sort places the new event after every event not later than it (ties land before it) and before every later one, with both groups in their old order |
| Schedule.InsertKeepsSortedPermutation | plant_module/mqtt_client/schedule.py:187-189 | adding an event keeps the list sorted, and the new list is the old multiset plus that event |
| Schedule.RemoveId | plant_module/mqtt_client/schedule.py:206-207 | after removal no event carries the id, every survivor was in the list, every event with another id survives, and sortedness is kept |
| Schedule.RemoveAbsentIdIsNoOp | plant_module/mqtt_client/schedule.py:206-207 | removing an id nobody carries leaves the list identical |
| Schedule.RemoveIdKeepsOrder | plant_module/mqtt_client/schedule.py:206-207 | the filter distributes over concatenation, so the survivors keep their relative order |
| Schedule.WaitTime | plant_module/mqtt_client/schedule.py:248 | the wait is never negative; it is zero exactly when the head is due, and otherwise it ends exactly at the head's time |
| Schedule.AfterFiringContents | plant_module/mqtt_client/schedule.py:276-290 | after the pop, execute and conditional reinsert, the list is sorted and holds only the rest of the old list and the fired event |
| Schedule.FiringKeepsOrder | plant_module/mqtt_client/schedule.py:269-290 | with no negative interval, firing keeps the list sorted and the next head is never earlier than the event just fired |
| Schedule.FiringTimesAscend | plant_module/mqtt_client/schedule.py:235-290 | over any number of passes with no insertion in between, events fire in non-decreasing time order, none before the first head |
| Schedule.RepeatingCadence | plant_module/mqtt_client/schedule.py:279-290 | a lone repeating event with interval I is, after n successful firings, due at t0 + n·I |
| Schedule.FiredOneShotIsDropped | plant_module/mqtt_client/schedule.py:286-290 | a non-repeating event whose action ran without raising is gone from the list |
| Schedule.RaisingEventIsReinsertedUnchanged | plant_module/mqtt_client/schedule.py:279-290 | an event whose action raised is reinserted unchanged, with the same deadline, and the multiset of events is the same as before |
| Schedule.Scheduler.constructor | plant_module/mqtt_client/schedule.py:134 | a new scheduler has no events |
| Schedule.Scheduler.AddEvent | plant_module/mqtt_client/schedule.py:187-189 | the list stays sorted; it becomes the old multiset plus the event, placed after all events not later than it |
| Schedule.Scheduler.RemoveEvent | plant_module/mqtt_client/schedule.py:206-207 | the list becomes the id-filtered list, stays sorted, and is unchanged when the id is absent |
| Schedule.Scheduler.Head | plant_module/mqtt_client/schedule.py:237-238 | no head exactly when the list is empty; otherwise the head is the first event and no event is earlier |
| Schedule.Scheduler.FireIfHead | plant_module/mqtt_client/schedule.py:269-290 | pops only when the list is non-empty and its head still has the candidate id; then the popped event has the minimal time, is executed, and is reinserted unless executed; otherwise nothing changes |
| Schedule.Scheduler.Step | plant_module/mqtt_client/schedule.py:235-290 | an empty list waits and changes nothing; an interrupted wait changes nothing; otherwise the head is fired after waiting `max(0, time - now)` |
| Control.Translate | plant_module/mqtt_client/control_manager.py:41-161 | the full case split, as listed below |
| Control.ScheduledPumpIgnoresCommand | plant_module/mqtt_client/control_manager.py:145-161 | a scheduled pump request yields the same events for "on" and "off" |
| Control.OffNeverPrecedesOnForDurations | plant_module/mqtt_client/control_manager.py:79-98 | with a non-negative duration, or an end time not before the start, no event of a light window is due before its first event |
| Control.Materialize | plant_module/mqtt_client/control_manager.py:84-90 | one fresh, not-yet-executed event per planned event, with that event's time, action and repeat interval, and consecutive ids |
| Control.AddAllUnfold | plant_module/mqtt_client/control_manager.py:84-90 | adding up to two events one after the other is one insert each, in order |
| Control.ControlManager.constructor | plant_module/mqtt_client/control_manager.py:28-39 | the manager owns a fresh, empty scheduler and the given controller |
| Control.ControlManager.Add | plant_module/mqtt_client/control_manager.py:84-90 | one `add_event`: the event gets the next id, is inserted in order, and the controller is untouched |
| Control.ControlManager.ScheduleLightbulb | plant_module/mqtt_client/control_manager.py:57-107 | the scheduler receives exactly the light plan's events, in order; the controller is untouched |
| Control.ControlManager.HandleLight | plant_module/mqtt_client/control_manager.py:109-119 | the controller and scheduler change exactly as `Translate` decides for the light request |
| Control.ControlManager.ScheduleWaterPump | plant_module/mqtt_client/control_manager.py:125-161 | the controller and scheduler change exactly as `Translate` decides for the pump request |
| Control.ControlManager.HandleMessage | plant_module/mqtt_client/control_manager.py:41-47 | light requests go to the light handler and every other request to the pump handler, with the effect `Translate` decides |
| Control.ControlManager.SchedulerPass | plant_module/mqtt_client/control_manager.py:34-35 | one pass of the manager's scheduler; a fired event that did not raise performs its actuator call on the controller, and nothing else touches the controller |
| SensorsTranslation.InitialMemory | plant_module/mqtt_client/sensors_translation.py:29-33 | before any valid reading, each sensor's remembered value is its range's lower bound |
| SensorsTranslation.SanitizedReadingIsValid | plant_module/mqtt_client/sensors_translation.py:73-79 | the value handed on is always in range; it is the reading exactly when the reading is within the inclusive range; an out-of-range reading leaves the memory alone; other sensors are untouched |
| SensorsTranslation.PulseDuration | plant_module/mqtt_client/sensors_translation.py:113-124 | the pulse times 14 ml/s is exactly the requested volume |
| SensorsTranslation.PulseExamples | plant_module/mqtt_client/sensors_translation.py:8 | 140 ml take 10 s, 70 ml take 5 s, 0 ml take 0 s |
| SensorsTranslation.Switch | plant_module/mqtt_client/sensors_translation.py:126-180 | an on/off call succeeds exactly when the controller runs and the device is in the other state; success puts the device in the requested state; failure changes nothing; the other device is never touched |
| SensorsTranslation.SwitchIsIdempotent | plant_module/mqtt_client/sensors_translation.py:126-180 | repeating a call fails and changes nothing |
| SensorsTranslation.SensorsController.constructor | plant_module/mqtt_client/sensors_translation.py:26-33 | not running, both devices off, and the memory at the lower bounds |
| SensorsTranslation.SensorsController.Setup | plant_module/mqtt_client/sensors_translation.py:39-54 | an already running controller reports success without restarting; otherwise success is whether the threads started, and then it runs |
| SensorsTranslation.SensorsController.Close | plant_module/mqtt_client/sensors_translation.py:56-64 | success is whether the threads stopped; only then does the controller stop running |
| SensorsTranslation.SensorsController.SanitizeReading | plant_module/mqtt_client/sensors_translation.py:66-79 | returns and records as `Sanitize` states; the flags are untouched |
| SensorsTranslation.SensorsController.WaterPumpOn | plant_module/mqtt_client/sensors_translation.py:126-138 | true exactly when running and the pump was off, and then the pump is on; otherwise false and no change |
| SensorsTranslation.SensorsController.WaterPumpOff | plant_module/mqtt_client/sensors_translation.py:140-152 | true exactly when running and the pump was on, and then it is off; otherwise false and no change |
| SensorsTranslation.SensorsController.LightBulbOn | plant_module/mqtt_client/sensors_translation.py:154-166 | the same guard on the bulb's own flag; the pump is untouched |
| SensorsTranslation.SensorsController.LightBulbOff | plant_module/mqtt_client/sensors_translation.py:168-180 | the same guard on the bulb's own flag; the pump is untouched |
| SensorsTranslation.SensorsController.Perform | plant_module/mqtt_client/sensors_translation.py:126-180 | each of the four calls changes the flags exactly as `Switch` states |
| MockSensors.TurnOnStep | plant_module/mqtt_client/mock_sensors.py:32-38 | succeeds exactly when primed and inactive, and leaves the device active; an unprimed device raises "not primed" |
| MockSensors.TurnOffStep | plant_module/mqtt_client/mock_sensors.py:40-46 | succeeds exactly when primed and active, and leaves the device inactive; an unprimed device raises "not primed" |
| MockSensors.ScriptSucceedsIffAlternating | plant_module/mqtt_client/mock_sensors.py:32-46 | after setup, a sequence of on/off calls succeeds exactly when it alternates starting from the opposite of the current state, and it ends in the last call's state |
| MockSensors.UnprimedDeviceRefusesEverything | plant_module/mqtt_client/mock_sensors.py:25-46 | without setup, every non-empty call sequence fails with "not primed" |
| MockSensors.MockActuator.constructor | plant_module/mqtt_client/mock_sensors.py:25-27 | a new device is neither primed nor active |
| MockSensors.MockActuator.Setup | plant_module/mqtt_client/mock_sensors.py:29-30 | primes the device; `active` is unchanged |
| MockSensors.MockActuator.TurnOn | plant_module/mqtt_client/mock_sensors.py:32-38 | the outcome is `TurnOnStep`; the state changes only on success |
| MockSensors.MockActuator.TurnOff | plant_module/mqtt_client/mock_sensors.py:40-46 | the outcome is `TurnOffStep`; the state changes only on success |
| Dispatcher.QueuedBytes | plant_module/mqtt_client/mqtt_dispatcher.py:54 | bytes payloads are queued as they are; any other payload is queued as bytes that decode as UTF-8 back to its text |
| Dispatcher.RoutedQueues | plant_module/mqtt_client/mqtt_dispatcher.py:47-55 | routing appends to each known topic's queue exactly the payloads that arrived on it, in arrival order; queues of unknown topics are untouched and no queue is created |
| Dispatcher.DeliveredInArrivalOrder | plant_module/mqtt_client/mqtt_dispatcher.py:47-55 | with fresh queues, routing leaves in a registered topic's queue exactly that topic's payloads, in arrival order (queue contents; whether a consumer takes them is `ProcessQueue`) |
| Dispatcher.MqttDispatcher.constructor | plant_module/mqtt_client/mqtt_dispatcher.py:16-20 | no topics, handlers or queues; not running; nothing subscribed |
| Dispatcher.MqttDispatcher.AddHandler | plant_module/mqtt_client/mqtt_dispatcher.py:30-36 | fails exactly on an already-registered topic, and then nothing changes; otherwise the topic gets the handler, an empty queue and a consumer task that has not run yet |
| Dispatcher.MqttDispatcher.Start | plant_module/mqtt_client/mqtt_dispatcher.py:23-27 | subscribes every registered topic and sets running |
| Dispatcher.MqttDispatcher.Stop | plant_module/mqtt_client/mqtt_dispatcher.py:39-43 | unsubscribes every registered topic and clears running |
| Dispatcher.MqttDispatcher.RunDispatch | plant_module/mqtt_client/mqtt_dispatcher.py:46-55 | the queues become the routed queues for the topics known at the start; nothing else changes |
| Dispatcher.MqttDispatcher.ProcessQueue | plant_module/mqtt_client/mqtt_dispatcher.py:57-64 | one turn of the consumer task: while running, every queued payload is handed over in FIFO order and the task waits again; a task that has not run yet and finds the dispatcher not running ends for good, having taken nothing; a waiting task woken while not running handles exactly one payload and then ends; an ended task takes nothing |
| Dispatcher.MqttDispatcher.Drain | plant_module/mqtt_client/mqtt_dispatcher.py:58-64 | the loop while running: every queued payload is handed over, oldest first, whatever the handler does, and the queue is left empty |
| Dispatcher.WiringAsWritten | plant_module/mqtt_client/main.py:22-31 | a handler added before the dispatcher starts, as the plant module does, never handles anything: every payload on its topic stays queued |
| Dispatcher.CorrectedWiring | plant_module/mqtt_client/mqtt_dispatcher.py:23-36 | with the consumer's first turn after `_running` is set, every payload on the topic is handled, in arrival order, and none is left queued |
| ControlRequest.ParseCmd | plant_module/mqtt_client/control_request.py:81 | accepted exactly for "enable" and "disable", and the result names the value |
| ControlRequest.ParseSensorDevice | plant_module/mqtt_client/control_request.py:69-76 | accepted exactly for the six sensor names |
| ControlRequest.ParseMode | plant_module/mqtt_client/control_request.py:64-66 | accepted exactly for "normal" and "real_time" |
| ControlRequest.ParseTimedDevice | plant_module/mqtt_client/control_request.py:78 | accepted exactly for "water_pump" and "lightbulb" |
| ControlRequest.ParseSensorRequest | plant_module/mqtt_client/control_request.py:80-86 | an accepted sensor request is an object with no field beyond cmd/device/timestamp/mode, whose fields are exactly the result's; every such object whose fields are all valid and which has a timestamp is accepted |
| ControlRequest.ParseTimedRequest | plant_module/mqtt_client/control_request.py:89-95 | an accepted timed request is an object with no field beyond cmd/device/timestamp/value, with cmd "trigger" and a value ≥ 0 that is the result's; every such object with all four fields valid is accepted |
| ControlRequest.ParseRequest | plant_module/mqtt_client/control_request.py:97-100 | `device` selects the model: an object whose device is a sensor name gets exactly the sensor model's verdict, one whose device is a device name the timed model's, and anything else is refused |
| ControlRequest.ParseEnvelope | plant_module/mqtt_client/control_request.py:102-104 | an object whose sole key is `payload` gets exactly the payload's verdict; anything else is refused |
| ControlRequest.TagsAreDisjoint | plant_module/mqtt_client/control_request.py:69-78 | the sensor names and the device names have nothing in common |
| ControlRequest.DiscriminatorSelectsOneModel | plant_module/mqtt_client/control_request.py:97-100 | an accepted payload is accepted by exactly one of the two models, the one its `device` selects |
| ControlRequest.ExtraFieldIsRefused | plant_module/mqtt_client/control_request.py:86-104 | any field outside both models' fields makes the request, and its envelope, invalid |
| ControlRequest.NamesParseBack | plant_module/mqtt_client/control_request.py:64-93 | each literal reads back as the value it names |
| ControlRequest.RequestRoundTrip | plant_module/mqtt_client/control_request.py:80-104 | every request (with value ≥ 0) written as JSON in its envelope validates back to itself when its timestamp does |
| ControlRequest.SensorRequestRoundTrip | plant_module/mqtt_client/control_request.py:80-86 | the same, for a sensor request without the envelope |
| ControlRequest.TimedRequestRoundTrip | plant_module/mqtt_client/control_request.py:89-95 | the same, for a timed request without the envelope |
| SensorReading.OptionalInt | plant_module/mqtt_client/sensor_reading.py:6-10 | an absent or null field gives no reading; an integer within [0, hi] is accepted as itself; anything else is refused |
| SensorReading.OptionalReal | plant_module/mqtt_client/sensor_reading.py:11 | an absent or null field gives no reading; a number within [0, hi] is accepted as itself; anything else is refused |
| SensorReading.ParseReading | plant_module/mqtt_client/sensor_reading.py:4-11 | accepted exactly for an object with a parseable timestamp whose six sensor fields are each absent, null or valid; the result carries that timestamp and those readings, all within their inclusive bounds |
| SensorReading.OutOfRangeFieldIsRefused | plant_module/mqtt_client/sensor_reading.py:6-10 | an integer sensor field that is present, non-null and not an integer within its bounds makes the whole reading invalid |
| SensorReading.OutOfRangeWaterLevelIsRefused | plant_module/mqtt_client/sensor_reading.py:11 | a water level that is present, non-null and not a number within [0, 30] makes the whole reading invalid |
| SensorReading.TimestampAloneIsValid | plant_module/mqtt_client/sensor_reading.py:13-16 | a reading with only a timestamp validates, with every sensor empty |
| SensorReading.UnknownFieldIsIgnored | plant_module/mqtt_client/sensor_reading.py:4-11 | an extra unknown field does not change the verdict |
| SensorReading.SameFieldsSameReading | plant_module/mqtt_client/sensor_reading.py:4-11 | validation depends only on the seven model fields |
| SensorReading.ReadingRoundTrip | plant_module/mqtt_client/sensor_reading.py:4-11 | a reading within bounds, written as JSON with only its present fields, validates back to itself |
| Subscriber.TopicParts | subscriber.py:141 | `strip("/").split("/")` always yields at least one segment |
| Subscriber.CommandTopicRoute | subscriber.py:128-135 | the topic `"/{uuid}/control"` goes to the control handler, unless the uuid contains "sensor", when the sensor handler takes it |
| Subscriber.SensorTopicParts | subscriber.py:141 | `"/{pot}/sensors"` parses to [pot, "sensors"] and `"/{pot}/sensors/{name}"` to [pot, "sensors", name] |
| Subscriber.JoinedTopicParts | subscriber.py:141 | a topic made of "/" and non-empty, slash-free parts joined by "/" parses back to those parts |
| Subscriber.ReadingTime | subscriber.py:148-156 | the reading time is the parsed `timestamp` when it is a non-empty string that parses, and the current time otherwise |
| Subscriber.RecordedReadingTime | subscriber.py:148-156 | every reading a message records carries the message's `timestamp` when that is a non-empty string that parses, and the current time when the message has none |
| Subscriber.SensorRowsMeans | subscriber.py:220-256 | the readings a whole reading inserts are exactly one for each member other than `timestamp`, with its value |
| Subscriber.HandleSensorData | subscriber.py:137-259 | the loop over the data's members produces exactly the handler's outcome: nothing under two segments or for non-object data; nothing at all (the transaction rolls back) when a value to insert is null, an array, an object, or a string `float()` refuses; otherwise the device's rows for its topic shape |
| Subscriber.PlantTopicsRecord | subscriber.py:180-259 | on a pot's own topics, a whole reading records every non-timestamp member when `float()` converts all of them, and nothing otherwise; a single-sensor reading records nothing exactly when its value is non-null and `float()` refuses it, and otherwise one reading for that sensor, or none when the value is null or missing |
| Subscriber.HandleControlCommand | subscriber.py:265-292 | a row is written exactly when the data is an object the gate accepts; it is "received", for the first topic segment, with the request's `command`, the request itself, and its `timestamp` or the current time |
| Subscriber.ControlGates | subscriber.py:67-100 | the schema as written stores light requests with a null schedule and pump requests; the corrected schema also stores light requests with an on-window schedule, and nothing else |
| Subscriber.OnMessage | subscriber.py:117-135 | a payload that is not UTF-8 makes the callback raise (the decode is outside the `try`); a non-JSON payload is dropped; otherwise the message goes by substring to the sensor handler (carrying its outcome), the control handler (carrying its row under the gate given, which in the program is the schema as written, line 269) or the status handler, in that order, or is ignored |
| Subscriber.ForwardedCommand | subscriber.py:117-135 | a command the publisher forwards to `"/{uuid}/control"` reaches the control handler exactly when the uuid lacks "sensor"; the program then stores it exactly when it is a light request with a null schedule or a pump request, and the corrected gate also accepts light requests with an on-window schedule |
| Subscriber.WindowedLightRequestOnControlTopic | subscriber.py:117-131 | the two-hour light request on a pot's control topic: the program stores nothing, while the corrected gate stores a row |
| ControlSchema.ControlCommandSchemaMeans | subscriber.py:23-101 | the schema as written accepts exactly the light requests with a null schedule and the pump requests with a null or impulse schedule |
| ControlSchema.DurationOneOfRefusesBothKeys | subscriber.py:26-29 | with both `end_time` and `duration` present, both `oneOf` branches fail |
| ControlSchema.DurationOneOfMeans | subscriber.py:26-29 | on an object, the `oneOf` holds exactly when one of `end_time` and `duration` is a key and the other is not |
| ControlSchema.DurationScheduledTimeUnsatisfiable | subscriber.py:25-53 | no instance at all satisfies `DurationScheduledTime` as written |
| ControlSchema.ImpulseScheduledTimeMeans | subscriber.py:54-66 | an impulse schedule is an object with a date-time `start_time` and a null or duration `repeat_interval` |
| ControlSchema.LightControlRequestMeans | subscriber.py:67-81 | what the light branch accepts, for whatever schedule schema it refers to |
| ControlSchema.WaterPumpControlRequestMeans | subscriber.py:82-95 | the pump branch accepts exactly the pump requests |
| ControlSchema.OnOffMeans | subscriber.py:70 | the command is valid exactly when it is "on" or "off" |
| ControlSchema.ActuatorMeans | subscriber.py:69 | the actuator is valid exactly when it is the named constant |
| ControlSchema.OptionalIntegerMeans | subscriber.py:71 | `value` is valid exactly when it is an integer or null |
| ControlSchema.CorrectedDurationScheduledTimeMeans | subscriber.py:25-53 | with `end_time` and `duration` off the `required` list, the schedule accepts exactly the objects with a date-time `start_time`, a null or duration `repeat_interval`, and exactly one of `end_time` and `duration` as a key, its value well-formed or null |
| ControlSchema.WindowedLightRequest | subscriber.py:25-53 | a light request switching on at 08:00 for two hours is refused as written and accepted when corrected |
| JsonSchema.OneOf2 | subscriber.py:26-29 | a two-branch `oneOf` holds exactly when exactly one branch does |
| JsonSchema.AnyOf2 | subscriber.py:97-100 | a two-branch `anyOf` holds exactly when either branch does |
| JsonSchema.FormattedStringMeans | subscriber.py:31 | a formatted string is a string the format check accepts |
| Publisher.NextSleep | publisher.py:73-84 | the next sleep stays within [0.2, 5.0]; an idle tick never shortens it below the cap |
| Publisher.IdleTicksReachMax | publisher.py:62-87 | from the minimum, seven idle ticks stay below the cap and the eighth reaches it; from any sleep, eight idle ticks reach it |
| Publisher.IdleSleepMonotone | publisher.py:82-84 | a longer sleep stays at least as long through idle ticks |
| Publisher.IdleSleepCapped | publisher.py:82-84 | idle ticks never sleep past the cap |
| Publisher.PendingMeans | publisher.py:21-27 | the fetched rows are exactly the table's rows with status "sent" |
| Publisher.PublishedTopicParses | publisher.py:33-41 | each command is published on a topic that the subscriber parses back to the row's device uuid and "control", and that reaches its control handler unless the uuid contains "sensor" |
| Publisher.TickSettlesPending | publisher.py:21-49 | after a successful fetch, every "sent" row becomes "sent2pot", every other row is unchanged, and no row is left "sent" |
| Publisher.Publisher.constructor | publisher.py:62-64 | the loop starts at the minimum sleep |
| Publisher.Publisher.Tick | publisher.py:69-87 | one pass: a failed fetch is an idle tick; the fetched rows are published in order and marked "sent2pot"; the sleep resets after work and grows while idle; the sleep bounds and distinct ids are kept |
| Mcp3008.RequestFrame | GPIO-python/analog_inputs.py:13 | three bytes, 1 and 0 at the ends; for channels 0-7 the middle byte is in [128, 240] with a zero low nibble |
| Mcp3008.RequestSelectsChannel | analog_inputs.py:11 | the middle byte carries the single-ended bit and then the channel number |
| Mcp3008.Decode | GPIO-python/analog_inputs.py:14 | the result lies in [0, 1023] |
| Mcp3008.DecodeMeans | analog_inputs.py:12 | the result is v exactly when the third byte is v's low 8 bits and the second byte's low 2 bits are v's high 2 |
| Mcp3008.DecodeRoundTrip | GPIO-python/analog_inputs.py:14 | any v in [0, 1023] sent as [_, v >> 8, v & 255] decodes to v |
| Mcp3008.DecodeIgnoresHighBits | analog_inputs.py:12 | only the low 2 bits of the second byte and the third byte matter |
| Mcp3008.ChannelNumber | GPIO-python/analog_inputs.py:18-21 | the named channels are numbered within 0-2 |
| Mcp3008.NamedChannelFrames | GPIO-python/analog_inputs.py:18-21 | soil, gas and light are channels 0, 1 and 2, with request frames [1,128,0], [1,144,0] and [1,160,0], and no two share a number |
| AirSensor.ReadFirstLine | GPIO-python/air_temp_moisture.py:3-13 | the flag is true exactly when the line parsed as an integer |
| AirSensor.ReadFirstLineValues | GPIO-python/air_temp_moisture.py:3-13 | a success carries the parsed integer; a parse error gives -1 and an OS error gives 0 |
| AirSensor.ReadAirSensorData | GPIO-python/air_temp_moisture.py:15-21 | when both reads succeed, each value is the floor of its thousandth; otherwise (-1, -1) |
| AirSensor.NegativeTemperatureRoundsDown | GPIO-python/air_temp_moisture.py:19 | -1500 millidegrees floor to -2 degrees, not -1 |
| Text.SplitThenJoin | subscriber.py:141 | joining the pieces of a split gives back the string |
| Text.JoinThenSplit | subscriber.py:141 | splitting a join of separator-free pieces gives back the pieces |
| Text.SplitPiecesAreFree | subscriber.py:141 | no piece of a split contains the separator |
| Text.StripIsMaximal | subscriber.py:141 | stripping yields a slice of the string that neither starts nor ends with the stripped character |
| Utf8.DecodeEncode | subscriber.py:119 | decoding the UTF-8 encoding of a string gives back the string |
| Utf8.EncodeDecode | subscriber.py:119 | a byte string that decodes is exactly the encoding of its text, so overlong forms are refused, as the strict decoder does |
| Utf8.AsciiEncodesToItself | plant_module/mqtt_client/mqtt_dispatcher.py:54 | an ASCII string encodes to one byte per character, each byte being the character's code |

`Control.Translate`'s contract states the whole case split:

- A light request without a schedule switches at once and schedules nothing.
- A light request with a schedule acts only through events. The first event is at the resolved start, with the command's action. It is followed by an "off" at start + duration when the command is "on" with a duration. Failing that, the "off" is at the resolved end time when there is an end time.
- A pump request without a schedule switches at once. For "on" it also schedules one non-repeating "off" a pulse later.
- A pump request with a schedule yields "on" at the resolved start and "off" a pulse later, whatever its command.
- All events of one request carry its repeat interval.
- A start or end time given as "now" resolves to the current time, and a timestamp to itself (`resolve_time`, control_manager.py:65-69 and 146-150, modelled by `ResolveTime`).

## Left out

- The asyncio machinery is not modelled: the scheduler's lock, the wake-up event, `wait_for` timeouts, `start`/`stop` and the task objects. One pass of the loop is a sequential step, with "woken early" and "action raised" as inputs. The re-check between computing the wait and sleeping (schedule.py:250-260) merges into that step.
- Clocks (`datetime.now()`), uuid4 ids and `time.sleep` are not modelled. They become a `now` parameter, a counter and the returned sleep length.
- Datetime arithmetic is exact: the microsecond rounding of `timedelta` and float seconds is not modelled.
- Times are assumed naive. A timestamp with an offset (such as one ending in "Z") parses to an offset-aware datetime. Comparing or subtracting it with the naive `datetime.now()` raises TypeError, in the sort of `add_event` (schedule.py:189) and in the wait computation (schedule.py:248), where it ends the run loop. `Control.Translate` and the scheduler do not model this.
- `_decode_payload` (the pydantic parsing of the bytes) is not part of this model. Requests enter already decoded, with the request types inferred from how the handlers use them.
- Control.ControlManager.constructor: takes its controller as an argument. The branch that builds and sets up a controller when none is given is not modelled.
- Every clock read made while handling one request gives the same `now`.
- `SensorsTranslation.SensorsController.Setup` and `Close`: the motor and relay threads are not part of this model. Their start and stop outcomes are inputs.
- `get_sensor_reading` is left out because it reads the hardware. Its per-value sanitisation is `Sanitize`.
- The random getters of `mock_sensors.py` are left out, because they are randomness.
- `Dispatcher`:
  - the aiomqtt client is reduced to the set of subscribed topics, and its message stream to a sequence;
  - each turn of a `_process_queue` task is a call of `ProcessQueue`, and the order of turns is the caller's; the event loop's own scheduling is not modelled, and `WiringAsWritten` and `CorrectedWiring` each fix one order;
  - plant_module/mqtt_client/main.py:22 passes `pot_config` and `client` to a constructor that takes a pot id, a host name and a port (plant_module/mqtt_client/mqtt_dispatcher.py:16); the model follows the class;
  - handlers are opaque, since an exception from one is swallowed anyway.
- `Subscriber`:
  - `json.loads`, `datetime.fromisoformat` and the `date-time`/`duration` format checks are parameters;
  - JSON integers and floats are one number type, with an integrality test;
  - database inserts and updates are modelled as the rows they would write, and the get-or-create of device and sensor rows as "the device is looked up or created".
- `Subscriber.HandleControlCommand` and `Publisher.Publisher.Tick` assume the tables they write exist as they use them. The server schema (iot2025-plants/app/main.py:61-111) names the table `commands`, not `command`, and has no `device_uuid` or `parameters_json` column. Against that schema the writes fail inside the handlers' `except` blocks, and the model does not capture this.
- `Subscriber.OnMessage`: the status handler's update is reduced to its target device. The same missing `device_uuid` column makes it fail in the handler's `except` block. After a `Crashed` effect the client loop has ended; the model describes single messages and does not carry that on.
- `Subscriber.HandleSensorData` and `Subscriber.PlantTopicsRecord`: which strings Python's `float()` accepts is the parameter `isFloatText`. A reading records the JSON value, while the column stores its `float()` conversion (a boolean as 1.0 or 0.0, a numeric string as its number). An integer beyond the float range makes `float()` raise OverflowError and rolls the message back; the model's numbers do not tell it from a float literal, which `json.loads` turns into infinity, so it counts as storable.
- `Json.Find`: finds the first member with a key, while `json.loads` keeps the last of duplicate keys. The model takes `parseJson` to produce objects without duplicate keys.
- `Publisher.Publisher.Tick`:
  - does not model a failing `publish` or status update inside `publish_command`, which would leave that row "sent" for the next tick;
  - the `sent_at` time is not modelled;
  - publishing with QoS 1 is reduced to appending to an outbox.
- `SensorReading.ParseReading`: pydantic's coercions are not modelled. An integral float is accepted as an integer, as in lax mode, but numeric strings are not. The `minProperties` metadata is not enforced, as in the source.
- `ControlRequest.ParseTimedRequest`: the request's value must be a JSON number, and integers are not told apart from floats. Pydantic's lax `float` also accepts a numeric string such as "2.5" and a boolean (as 1.0 or 0.0); the model refuses those.
- `Mcp3008.Decode`: the SPI transfer itself is left out. Its three answered bytes are the precondition `|adc| == 3`.
- `AirSensor.ReadFirstLine`: opening and reading the sysfs file is abstracted to its outcome.
- The remaining repository files are not part of this model: the GPIO drivers, both distance sensors, the FastAPI backends, the browser UI, the MQTT test scripts and the pot configuration. They are hardware, network, HTTP or database I/O.

## Findings

| source | as written | input that shows it | evidently intended | confidence | as-written member | corrected member |
|---|---|---|---|---|---|---|
| subscriber.py:26-29, 51 | `DurationScheduledTime` requires `start_time`, `end_time`, `duration` and `repeat_interval` as keys, while each `oneOf` branch requires one of `end_time`/`duration` to be absent as a key. No instance validates, so every light request with a non-null `scheduled_time` is refused. | `{"actuator": "light_bulb", "command": "on", "value": null, "scheduled_time": {"start_time": "2025-06-01T08:00:00Z", "duration": "PT2H", "repeat_interval": null}}` | `end_time` and `duration` are not meant to be on the `required` list: without them the `oneOf` asks for exactly one of the two as a key. That is the schedule shape the test script sends (start_time with a duration, plant_module/mqtt_client/control_test.py:108, 126); those test messages also leave out `value` and `repeat_interval`, which the schema requires, so even the corrected schema refuses them as sent. A null one leaves the window open, which the device handles (plant_module/mqtt_client/control_manager.py:99-103). | high (proved; not executed) | ControlSchema.DurationScheduledTimeUnsatisfiable | ControlSchema.CorrectedDurationScheduledTimeMeans |
| plant_module/mqtt_client/mqtt_dispatcher.py:36, 58 | `add_handler` creates the topic's consumer task at once, and the plant module adds its handler before starting the dispatcher (plant_module/mqtt_client/main.py:23, 30). The task first runs at the next suspension, before `start` sets `_running` (mqtt_dispatcher.py:27); its `while self._running` test fails and it returns, so no control message is ever handled. This shows once the constructor call at main.py:22 matches the class (see "## Left out"). | any control request published on `"/{pot_id}/control"` after start | each payload on the topic is handed to its handler in arrival order, for instance with the consumer tasks created once `_running` is set | high (not executed) | Dispatcher.WiringAsWritten | Dispatcher.CorrectedWiring |
