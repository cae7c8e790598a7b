/**
 * The actuator controller of the plant module: a running flag, one on/off flag
 * per actuator (water pump, light bulb), the "last valid reading" memory used
 * to sanitise sensor readings, and the volume-to-pulse-duration conversion.
 *
 * The motor and relay threads behind the flags are external: starting and
 * stopping them is reduced to a success flag passed in by the caller.
 */
module SensorsTranslation {

  /** The sensors named in the table of valid reading ranges. */
  datatype Sensor =
    | AirQuality | Light | SoilMoisture | AirHumidity | Temperature | WaterLevel

  /** Calibration of the pump: millilitres pumped per second. */
  const MillilitersPerSecondPumped: real := 14.0

  /** Inclusive valid range of each sensor's reading, as (min, max). */
  function ValidRange(s: Sensor): (real, real)
  {
    match s
    case AirQuality => (0.0, 1024.0)
    case Light => (0.0, 1024.0)
    case SoilMoisture => (0.0, 1024.0)
    case AirHumidity => (0.0, 101.0)
    case Temperature => (0.0, 61.0)
    case WaterLevel => (0.0, 10.0)
  }

  predicate InRange(s: Sensor, v: real) {
    ValidRange(s).0 <= v <= ValidRange(s).1
  }

  /** Every sensor has a remembered reading and each one lies in its range. */
  ghost predicate WellFormedMemory(last: map<Sensor, real>) {
    forall s: Sensor :: s in last && InRange(s, last[s])
  }

  /** Before any valid reading the memory holds each range's lower bound. */
  function InitialMemory(): (m: map<Sensor, real>)
    ensures WellFormedMemory(m)
    ensures forall s: Sensor :: m[s] == ValidRange(s).0
  {
    map s: Sensor | true :: ValidRange(s).0
  }

  /**
   * `_sanitize_reading`: a reading inside the inclusive range is returned and
   * remembered; any other reading is replaced by the remembered one, and the
   * memory is left alone.
   */
  function Sanitize(last: map<Sensor, real>, s: Sensor, v: real): (res: (real, map<Sensor, real>))
    requires s in last
  {
    if InRange(s, v) then (v, last[s := v]) else (last[s], last)
  }

  /**
   * Whatever is read, the value handed on is a valid reading for that sensor,
   * the memory stays well formed, and it only ever records the value handed on.
   */
  lemma SanitizedReadingIsValid(last: map<Sensor, real>, s: Sensor, v: real)
    requires WellFormedMemory(last)
    ensures var (r, last') := Sanitize(last, s, v);
            && InRange(s, r)
            && WellFormedMemory(last')
            && last'[s] == r
            && (r == v <==> InRange(s, v))
            && (!InRange(s, v) ==> last' == last)
            && (forall o: Sensor | o != s :: last'[o] == last[o])
  {
  }

  /** `get_water_pump_activation_duration`: seconds needed to pump `volumeMl`. */
  function PulseDuration(volumeMl: int): (seconds: real)
    ensures seconds * MillilitersPerSecondPumped == volumeMl as real
  {
    volumeMl as real / MillilitersPerSecondPumped
  }

  /** 140 ml take ten seconds, 70 ml take five. */
  lemma PulseExamples()
    ensures PulseDuration(140) == 10.0
    ensures PulseDuration(70) == 5.0
    ensures PulseDuration(0) == 0.0
  {
  }

  /** The four actuator calls the control manager makes. */
  datatype Actuation = PumpOn | PumpOff | LightOn | LightOff

  datatype Device = Pump | Bulb

  function DeviceOf(a: Actuation): Device {
    match a
    case PumpOn => Pump
    case PumpOff => Pump
    case LightOn => Bulb
    case LightOff => Bulb
  }

  /** Whether the call asks for the device to be on. */
  predicate Wants(a: Actuation) {
    a == PumpOn || a == LightOn
  }

  /** The controller's flags: `_running`, `_water_pump_running`, `_light_bulb_running`. */
  datatype Flags = Flags(running: bool, pumpOn: bool, lightOn: bool)

  function IsOn(f: Flags, d: Device): bool {
    match d
    case Pump => f.pumpOn
    case Bulb => f.lightOn
  }

  /**
   * `water_pump_on/off`, `light_bulb_on/off`: refuse (false, nothing changes)
   * when the controller is not running or the device already is in the
   * requested state; otherwise switch that device's flag and return true.
   */
  function Switch(f: Flags, a: Actuation): (r: (bool, Flags))
    ensures r.0 <==> f.running && IsOn(f, DeviceOf(a)) != Wants(a)
    ensures !r.0 ==> r.1 == f
    ensures r.1.running == f.running
    ensures f.running ==> IsOn(r.1, DeviceOf(a)) == Wants(a)
    ensures forall d: Device | d != DeviceOf(a) :: IsOn(r.1, d) == IsOn(f, d)
  {
    if !f.running || IsOn(f, DeviceOf(a)) == Wants(a) then (false, f)
    else match a
      case PumpOn => (true, f.(pumpOn := true))
      case PumpOff => (true, f.(pumpOn := false))
      case LightOn => (true, f.(lightOn := true))
      case LightOff => (true, f.(lightOn := false))
  }

  /** A repeated call is refused the second time: switching is idempotent. */
  lemma SwitchIsIdempotent(f: Flags, a: Actuation)
    ensures Switch(Switch(f, a).1, a) == (false, Switch(f, a).1)
  {
  }

  class SensorsController {
    var running: bool
    var pumpOn: bool
    var lightOn: bool
    /** `_last_valid_reading` */
    var lastValid: map<Sensor, real>

    ghost predicate Valid()
      reads this
    {
      WellFormedMemory(lastValid)
    }

    function CurrentFlags(): Flags
      reads this
    {
      Flags(running, pumpOn, lightOn)
    }

    constructor ()
      ensures Valid()
      ensures !running && !pumpOn && !lightOn
      ensures lastValid == InitialMemory()
    {
      running, pumpOn, lightOn := false, false, false;
      lastValid := InitialMemory();
    }

    /**
     * `setup`: already running -> true, nothing restarted; otherwise start the
     * motor and relay threads (`startOk` says whether both started) and set
     * running on success.
     */
    method Setup(startOk: bool) returns (ok: bool)
      modifies this
      ensures old(running) ==> ok && running
      ensures !old(running) ==> ok == startOk && running == startOk
      ensures pumpOn == old(pumpOn) && lightOn == old(lightOn) && lastValid == old(lastValid)
    {
      if running {
        return true;
      }
      if startOk {
        running := true;
        ok := true;
      } else {
        ok := false;
      }
    }

    /** `close`: stop both threads; on success running is cleared. */
    method Close(stopOk: bool) returns (ok: bool)
      modifies this
      ensures ok == stopOk
      ensures running == (old(running) && !stopOk)
      ensures pumpOn == old(pumpOn) && lightOn == old(lightOn) && lastValid == old(lastValid)
    {
      if stopOk {
        running := false;
      }
      ok := stopOk;
    }

    /** `_sanitize_reading` on the controller's memory. */
    method SanitizeReading(s: Sensor, v: real) returns (r: real)
      requires Valid()
      modifies this
      ensures Valid()
      ensures (r, lastValid) == Sanitize(old(lastValid), s, v)
      ensures running == old(running) && pumpOn == old(pumpOn) && lightOn == old(lightOn)
    {
      if ValidRange(s).0 <= v <= ValidRange(s).1 {
        lastValid := lastValid[s := v];
        r := v;
      } else {
        r := lastValid[s];
      }
    }

    method WaterPumpOn() returns (ok: bool)
      modifies this
      ensures ok == (old(running) && !old(pumpOn))
      ensures pumpOn == (old(pumpOn) || ok)
      ensures running == old(running) && lightOn == old(lightOn) && lastValid == old(lastValid)
    {
      if !running || pumpOn {
        return false;
      }
      pumpOn := true;
      ok := true;
    }

    method WaterPumpOff() returns (ok: bool)
      modifies this
      ensures ok == (old(running) && old(pumpOn))
      ensures pumpOn == (old(pumpOn) && !ok)
      ensures running == old(running) && lightOn == old(lightOn) && lastValid == old(lastValid)
    {
      if !running || !pumpOn {
        return false;
      }
      pumpOn := false;
      ok := true;
    }

    method LightBulbOn() returns (ok: bool)
      modifies this
      ensures ok == (old(running) && !old(lightOn))
      ensures lightOn == (old(lightOn) || ok)
      ensures running == old(running) && pumpOn == old(pumpOn) && lastValid == old(lastValid)
    {
      if !running || lightOn {
        return false;
      }
      lightOn := true;
      ok := true;
    }

    method LightBulbOff() returns (ok: bool)
      modifies this
      ensures ok == (old(running) && old(lightOn))
      ensures lightOn == (old(lightOn) && !ok)
      ensures running == old(running) && pumpOn == old(pumpOn) && lastValid == old(lastValid)
    {
      if !running || !lightOn {
        return false;
      }
      lightOn := false;
      ok := true;
    }

    /** Makes the call named by `a`; the effect is that of Switch. */
    method Perform(a: Actuation) returns (ok: bool)
      modifies this
      ensures (ok, CurrentFlags()) == Switch(old(CurrentFlags()), a)
      ensures lastValid == old(lastValid)
    {
      match a
      case PumpOn => ok := WaterPumpOn();
      case PumpOff => ok := WaterPumpOff();
      case LightOn => ok := LightBulbOn();
      case LightOff => ok := LightBulbOff();
    }
  }
}
