/**
 * The control translator of the plant module: it turns a decoded light or
 * pump request into an immediate actuator call and/or zero, one or two
 * scheduler events (on at the start, off at start + duration, at the end time,
 * or at start + pump pulse), all carrying the request's repeat interval.
 *
 * The decision is the pure function Translate; the ControlManager class
 * applies it to its scheduler and its actuator controller. The clock and the
 * uuid4 event ids become a `now` parameter and a counter.
 */
module Control {
  import opened Wrappers
  import opened Schedule
  import opened SensorsTranslation

  datatype Command = On | Off

  /** A start or end time on the wire: a timestamp or the literal "now". */
  datatype TimeSpec = Now | At(time: Time)

  /** The light's schedule: a start, an optional end time or duration, an optional repeat. */
  datatype DurationSchedule = DurationSchedule(
    startTime: TimeSpec,
    endTime: Option<TimeSpec>,
    duration: Option<Duration>,
    repeatInterval: Option<Duration>)

  /** The pump's schedule: a start and an optional repeat. */
  datatype ImpulseSchedule = ImpulseSchedule(startTime: TimeSpec, repeatInterval: Option<Duration>)

  /** A decoded control request: a light request or (anything else) a pump request. */
  datatype ControlRequest =
    | LightRequest(command: Command, schedule: Option<DurationSchedule>)
    | PumpRequest(command: Command, volumeMl: int, impulse: Option<ImpulseSchedule>)

  /** An event the translator asks the scheduler to hold. */
  datatype Planned = Planned(time: Time, action: Actuation, repeatInterval: Option<Duration>)

  /** What one request does: at most one immediate call, then the events to add, in order. */
  datatype Reaction = Reaction(immediate: Option<Actuation>, scheduled: seq<Planned>)

  /** `resolve_time`: the literal "now" is the current time, a timestamp is itself. */
  function ResolveTime(t: TimeSpec, now: Time): (r: Time)
    ensures t == Now ==> r == now
    ensures t.At? ==> r == t.time
  {
    match t
    case Now => now
    case At(time) => time
  }

  /** `_schedule_lightbulb`: duration is checked before end_time. */
  function LightPlan(command: Command, st: DurationSchedule, now: Time): seq<Planned>
  {
    var start := ResolveTime(st.startTime, now);
    var repeat := st.repeatInterval;
    match command
    case On =>
      if st.duration.Some? then
        [Planned(start, LightOn, repeat), Planned(start + st.duration.value, LightOff, repeat)]
      else if st.endTime.Some? then
        [Planned(start, LightOn, repeat), Planned(ResolveTime(st.endTime.value, now), LightOff, repeat)]
      else
        [Planned(start, LightOn, repeat)]
    case Off =>
      [Planned(start, LightOff, repeat)]
  }

  /** `_schedule_water_pump` with a schedule: an on/off pulse, whatever the command. */
  function PumpPlan(volumeMl: int, st: ImpulseSchedule, now: Time): seq<Planned>
  {
    var start := ResolveTime(st.startTime, now);
    [Planned(start, PumpOn, st.repeatInterval),
     Planned(start + PulseDuration(volumeMl), PumpOff, st.repeatInterval)]
  }

  /** Whether every event of `ps` carries the repeat interval `repeat`. */
  predicate AllRepeat(ps: seq<Planned>, repeat: Option<Duration>) {
    forall i :: 0 <= i < |ps| ==> ps[i].repeatInterval == repeat
  }

  /**
   * `handle_message` with the two handlers it dispatches to. Light requests
   * without a schedule act at once and schedule nothing; with a schedule they
   * act only through events: an on/off pair for "on" with a duration or an end
   * time, a single event otherwise. Pump requests without a schedule act at
   * once, and "on" also schedules a one-shot off after the pulse; with a
   * schedule they become an on/off pulse pair whatever the command. All events
   * of one request share its repeat interval and the first starts at the
   * resolved start time.
   */
  function Translate(request: ControlRequest, now: Time): (r: Reaction)
    ensures |r.scheduled| <= 2
    ensures r.immediate.Some? <==> ((request.LightRequest? && request.schedule.None?)
                                   || (request.PumpRequest? && request.impulse.None?))
    ensures r.immediate.Some? ==>
              r.immediate.value == (match request.command
                                    case On => if request.LightRequest? then LightOn else PumpOn
                                    case Off => if request.LightRequest? then LightOff else PumpOff)
    ensures request.LightRequest? && request.schedule.Some? ==>
              var st := request.schedule.value;
              && 1 <= |r.scheduled|
              && r.scheduled[0].time == ResolveTime(st.startTime, now)
              && r.scheduled[0].action == (if request.command == On then LightOn else LightOff)
              && AllRepeat(r.scheduled, st.repeatInterval)
              && (|r.scheduled| == 2 <==> request.command == On && (st.duration.Some? || st.endTime.Some?))
              && (|r.scheduled| == 2 ==>
                    && r.scheduled[1].action == LightOff
                    && r.scheduled[1].time == if st.duration.Some?
                                              then r.scheduled[0].time + st.duration.value
                                              else ResolveTime(st.endTime.value, now))
    ensures request.PumpRequest? ==>
              && (request.impulse.None? ==>
                    r.scheduled == (if request.command == On
                                    then [Planned(now + PulseDuration(request.volumeMl), PumpOff, None)]
                                    else []))
              && (request.impulse.Some? ==>
                    && |r.scheduled| == 2
                    && r.scheduled[0] == Planned(ResolveTime(request.impulse.value.startTime, now), PumpOn,
                                                 request.impulse.value.repeatInterval)
                    && r.scheduled[1].action == PumpOff
                    && AllRepeat(r.scheduled, request.impulse.value.repeatInterval)
                    && (r.scheduled[1].time - r.scheduled[0].time) * MillilitersPerSecondPumped
                       == request.volumeMl as real)
  {
    match request
    case LightRequest(command, schedule) =>
      if schedule.None? then
        Reaction(Some(if command == On then LightOn else LightOff), [])
      else
        Reaction(None, LightPlan(command, schedule.value, now))
    case PumpRequest(command, volumeMl, impulse) =>
      if impulse.None? then
        if command == On then
          Reaction(Some(PumpOn), [Planned(now + PulseDuration(volumeMl), PumpOff, None)])
        else
          Reaction(Some(PumpOff), [])
      else
        Reaction(None, PumpPlan(volumeMl, impulse.value, now))
  }

  /** A scheduled pump request does not look at its command. */
  lemma ScheduledPumpIgnoresCommand(volumeMl: int, st: ImpulseSchedule, now: Time)
    ensures Translate(PumpRequest(On, volumeMl, Some(st)), now)
         == Translate(PumpRequest(Off, volumeMl, Some(st)), now)
  {
  }

  /**
   * With non-negative durations, no event of a request is due before the
   * request's start; an "off" of a light window with an end time before the
   * start is due first, however.
   */
  lemma OffNeverPrecedesOnForDurations(request: ControlRequest, now: Time)
    requires request.LightRequest? && request.schedule.Some?
    requires request.schedule.value.duration.Some? ==> request.schedule.value.duration.value >= 0.0
    requires request.schedule.value.duration.None? && request.schedule.value.endTime.Some? ==>
               ResolveTime(request.schedule.value.startTime, now) <= ResolveTime(request.schedule.value.endTime.value, now)
    ensures var r := Translate(request, now);
            forall i :: 0 <= i < |r.scheduled| ==> r.scheduled[0].time <= r.scheduled[i].time
  {
  }

  /** Creates the scheduler events for `ps`, with ids counted up from `firstId`. */
  function Materialize(ps: seq<Planned>, firstId: EventId, now: Time): (es: seq<Event<Actuation>>)
    ensures |es| == |ps|
    ensures forall i :: 0 <= i < |ps| ==>
              es[i] == NewEvent(firstId + i, now, ps[i].time, ps[i].action, ps[i].repeatInterval)
  {
    if ps == [] then []
    else [NewEvent(firstId, now, ps[0].time, ps[0].action, ps[0].repeatInterval)]
         + Materialize(ps[1..], firstId + 1, now)
  }

  /** `add_event` for each event of `es`, in order. */
  function AddAll<A>(s: seq<Event<A>>, es: seq<Event<A>>): seq<Event<A>>
    decreases |es|
  {
    if es == [] then s else AddAll(Insert(s, es[0]), es[1..])
  }

  /** Every event id in `s` is below `bound`: the next id handed out is fresh. */
  ghost predicate IdsBelow<A>(s: seq<Event<A>>, bound: nat) {
    forall x | x in s :: x.id < bound
  }

  class ControlManager {
    const scheduler: Scheduler<Actuation>
    const controller: SensorsController
    /** Stands for uuid4: the id the next created event gets. */
    var nextId: EventId

    ghost predicate Valid()
      reads this, scheduler, controller
    {
      && scheduler.Valid()
      && controller.Valid()
      && IdsBelow(scheduler.events, nextId)
    }

    constructor (controller: SensorsController)
      requires controller.Valid()
      ensures Valid() && fresh(scheduler)
      ensures this.controller == controller && scheduler.events == []
    {
      this.scheduler := new Scheduler();
      this.controller := controller;
      nextId := 0;
    }

    /** `await self.scheduler.add_event(ScheduledEvent(time, action, repeat))` */
    method Add(p: Planned, now: Time)
      requires Valid()
      modifies this, scheduler
      ensures Valid()
      ensures nextId == old(nextId) + 1
      ensures scheduler.events
           == Insert(old(scheduler.events), NewEvent(old(nextId), now, p.time, p.action, p.repeatInterval))
      ensures unchanged(controller)
    {
      var e := NewEvent(nextId, now, p.time, p.action, p.repeatInterval);
      InsertMembers(scheduler.events, e);
      scheduler.AddEvent(e);
      nextId := nextId + 1;
    }

    /** `_schedule_lightbulb`, one `add_event` per planned event. */
    method ScheduleLightbulb(command: Command, st: DurationSchedule, now: Time)
      requires Valid()
      modifies this, scheduler
      ensures Valid()
      ensures nextId == old(nextId) + |LightPlan(command, st, now)|
      ensures scheduler.events
           == AddAll(old(scheduler.events), Materialize(LightPlan(command, st, now), old(nextId), now))
      ensures unchanged(controller)
    {
      var start := ResolveTime(st.startTime, now);
      var repeat := st.repeatInterval;
      ghost var s0, id0 := scheduler.events, nextId;
      ghost var plan := LightPlan(command, st, now);
      if command == On {
        if st.duration.Some? {
          Add(Planned(start, LightOn, repeat), now);
          Add(Planned(start + st.duration.value, LightOff, repeat), now);
        } else if st.endTime.Some? {
          Add(Planned(start, LightOn, repeat), now);
          Add(Planned(ResolveTime(st.endTime.value, now), LightOff, repeat), now);
        } else {
          Add(Planned(start, LightOn, repeat), now);
        }
      } else {
        Add(Planned(start, LightOff, repeat), now);
      }
      AddAllUnfold(s0, Materialize(plan, id0, now));
    }

    /** `_handle_light_control_request` */
    method HandleLight(command: Command, schedule: Option<DurationSchedule>, now: Time)
      requires Valid()
      modifies this, scheduler, controller
      ensures Valid()
      ensures var r := Translate(LightRequest(command, schedule), now);
              && controller.CurrentFlags() == Apply(old(controller.CurrentFlags()), r.immediate)
              && controller.lastValid == old(controller.lastValid)
              && nextId == old(nextId) + |r.scheduled|
              && scheduler.events == AddAll(old(scheduler.events), Materialize(r.scheduled, old(nextId), now))
    {
      if schedule.None? {
        var ok;
        if command == On {
          ok := controller.LightBulbOn();
        } else {
          ok := controller.LightBulbOff();
        }
      } else {
        ScheduleLightbulb(command, schedule.value, now);
      }
    }

    /** `_schedule_water_pump` */
    method ScheduleWaterPump(command: Command, volumeMl: int, impulse: Option<ImpulseSchedule>, now: Time)
      requires Valid()
      modifies this, scheduler, controller
      ensures Valid()
      ensures var r := Translate(PumpRequest(command, volumeMl, impulse), now);
              && controller.CurrentFlags() == Apply(old(controller.CurrentFlags()), r.immediate)
              && controller.lastValid == old(controller.lastValid)
              && nextId == old(nextId) + |r.scheduled|
              && scheduler.events == AddAll(old(scheduler.events), Materialize(r.scheduled, old(nextId), now))
    {
      var pulse := PulseDuration(volumeMl);
      ghost var s0, id0 := scheduler.events, nextId;
      ghost var r := Translate(PumpRequest(command, volumeMl, impulse), now);
      if impulse.None? {
        if command == On {
          assert r == Reaction(Some(PumpOn), [Planned(now + pulse, PumpOff, None)]);
          var ok := controller.WaterPumpOn();
          Add(Planned(now + pulse, PumpOff, None), now);
        } else {
          assert r == Reaction(Some(PumpOff), []);
          var ok := controller.WaterPumpOff();
        }
      } else {
        var start := ResolveTime(impulse.value.startTime, now);
        var repeat := impulse.value.repeatInterval;
        assert r == Reaction(None, [Planned(start, PumpOn, repeat), Planned(start + pulse, PumpOff, repeat)]);
        Add(Planned(start, PumpOn, repeat), now);
        Add(Planned(start + pulse, PumpOff, repeat), now);
      }
      AddAllUnfold(s0, Materialize(r.scheduled, id0, now));
    }

    /**
     * `handle_message` on an already decoded request: what it does is what
     * Translate decides, applied to the controller and the scheduler.
     */
    method HandleMessage(request: ControlRequest, now: Time)
      requires Valid()
      modifies this, scheduler, controller
      ensures Valid()
      ensures var r := Translate(request, now);
              && controller.CurrentFlags() == Apply(old(controller.CurrentFlags()), r.immediate)
              && controller.lastValid == old(controller.lastValid)
              && nextId == old(nextId) + |r.scheduled|
              && scheduler.events == AddAll(old(scheduler.events), Materialize(r.scheduled, old(nextId), now))
    {
      match request
      case LightRequest(command, schedule) =>
        HandleLight(command, schedule, now);
      case PumpRequest(command, volumeMl, impulse) =>
        ScheduleWaterPump(command, volumeMl, impulse, now);
    }

    /**
     * One pass of the scheduler task this manager started: the fired event's
     * action calls the controller, unless it raised before reaching it.
     */
    method SchedulerPass(now: Time, woken: bool, raised: bool) returns (r: StepResult<Actuation>)
      requires Valid()
      modifies scheduler, controller
      ensures Valid()
      ensures old(scheduler.events) != [] && !woken ==>
                && r == Fired(Execute(old(scheduler.events)[0], raised), WaitTime(old(scheduler.events)[0], now))
                && scheduler.events == AfterFiring(old(scheduler.events), raised)
      ensures old(scheduler.events) == [] || woken ==> scheduler.events == old(scheduler.events)
      ensures r.Fired? && !raised ==>
                controller.CurrentFlags() == Switch(old(controller.CurrentFlags()), r.event.action).1
      ensures !(r.Fired? && !raised) ==> controller.CurrentFlags() == old(controller.CurrentFlags())
      ensures controller.lastValid == old(controller.lastValid)
    {
      if scheduler.events != [] {
        AfterFiringContents(scheduler.events, raised);
      }
      ghost var s0 := scheduler.events;
      r := scheduler.Step(now, woken, raised);
      if s0 != [] && !woken {
        forall x | x in scheduler.events ensures x.id < nextId {
          if x != Execute(s0[0], raised) {
            assert x in s0[1..];
          }
        }
      }
      if r.Fired? && !raised {
        var ok := controller.Perform(r.event.action);
      }
    }
  }

  /** The controller flags after the optional immediate call. */
  function Apply(f: Flags, a: Option<Actuation>): Flags {
    if a.Some? then Switch(f, a.value).1 else f
  }

  /** AddAll over at most two events, spelled out. */
  lemma AddAllUnfold<A>(s: seq<Event<A>>, es: seq<Event<A>>)
    ensures es == [] ==> AddAll(s, es) == s
    ensures |es| == 1 ==> AddAll(s, es) == Insert(s, es[0])
    ensures |es| == 2 ==> AddAll(s, es) == Insert(Insert(s, es[0]), es[1])
  {
    if |es| == 1 {
      assert es[1..] == [];
    } else if |es| == 2 {
      var s1 := Insert(s, es[0]);
      assert AddAll(s, es) == AddAll(s1, es[1..]);
      assert es[1..] == [es[1]];
      assert AddAll(s1, [es[1]]) == AddAll(Insert(s1, es[1]), []);
    }
  }
}
