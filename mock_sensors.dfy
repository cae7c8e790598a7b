/**
 * The mock light bulb and water pump used when no hardware is attached. Both
 * classes of the source have the same two flags and the same three operations
 * (they differ only in their messages), so one class models either of them.
 * A `RuntimeError` becomes an `Err` result that leaves both flags alone.
 */
module MockSensors {
  import opened Wrappers

  datatype Fault = NotPrimed | AlreadyActive | NotActive

  /** The `primed` and `active` flags of one mock device. */
  datatype DeviceState = DeviceState(primed: bool, active: bool)

  /** `turn_on`: an unprimed or already active device raises; otherwise it becomes active. */
  function TurnOnStep(s: DeviceState): (r: Result<DeviceState, Fault>)
    ensures r.Ok? <==> s.primed && !s.active
    ensures r.Ok? ==> r.value == DeviceState(true, true)
    ensures !s.primed ==> r == Err(NotPrimed)
  {
    if !s.primed then Err(NotPrimed)
    else if s.active then Err(AlreadyActive)
    else Ok(s.(active := true))
  }

  /** `turn_off`: an unprimed or inactive device raises; otherwise it becomes inactive. */
  function TurnOffStep(s: DeviceState): (r: Result<DeviceState, Fault>)
    ensures r.Ok? <==> s.primed && s.active
    ensures r.Ok? ==> r.value == DeviceState(true, false)
    ensures !s.primed ==> r == Err(NotPrimed)
  {
    if !s.primed then Err(NotPrimed)
    else if !s.active then Err(NotActive)
    else Ok(s.(active := false))
  }

  /**
   * A script of calls (`true` = `turn_on`, `false` = `turn_off`) run until the
   * first one that raises.
   */
  function RunCalls(s: DeviceState, calls: seq<bool>): Result<DeviceState, Fault>
    decreases |calls|
  {
    if calls == [] then Ok(s)
    else
      var step := if calls[0] then TurnOnStep(s) else TurnOffStep(s);
      match step
      case Err(f) => Err(f)
      case Ok(s') => RunCalls(s', calls[1..])
  }

  /** Calls that strictly alternate, the first one being `startOn`. */
  ghost predicate Alternates(calls: seq<bool>, startOn: bool) {
    forall i :: 0 <= i < |calls| ==> calls[i] == (if i % 2 == 0 then startOn else !startOn)
  }

  /**
   * On a primed device, a script runs without raising exactly when its calls
   * strictly alternate, starting with the opposite of the current state; the
   * device then ends active iff the number of calls changed it an odd number
   * of times.
   */
  lemma {:induction false} ScriptSucceedsIffAlternating(active: bool, calls: seq<bool>)
    ensures RunCalls(DeviceState(true, active), calls).Ok? <==> Alternates(calls, !active)
    ensures RunCalls(DeviceState(true, active), calls).Ok? ==>
              RunCalls(DeviceState(true, active), calls).value
                == DeviceState(true, if |calls| % 2 == 0 then active else !active)
    decreases |calls|
  {
    if calls != [] {
      var s := DeviceState(true, active);
      if calls[0] == !active {
        ScriptSucceedsIffAlternating(!active, calls[1..]);
        if Alternates(calls, !active) {
          assert Alternates(calls[1..], active) by {
            forall i | 0 <= i < |calls[1..]| ensures calls[1..][i] == (if i % 2 == 0 then active else !active) {
              assert calls[1..][i] == calls[i + 1];
            }
          }
        }
        if Alternates(calls[1..], active) {
          forall i | 0 <= i < |calls| ensures calls[i] == (if i % 2 == 0 then !active else active) {
            if i > 0 { assert calls[i] == calls[1..][i - 1]; }
          }
        }
      } else {
        assert !Alternates(calls, !active);
      }
    }
  }

  /** A device that was never set up refuses every script that has a call in it. */
  lemma UnprimedDeviceRefusesEverything(active: bool, calls: seq<bool>)
    requires calls != []
    ensures RunCalls(DeviceState(false, active), calls) == Err(NotPrimed)
  {
  }

  /** `LightBulb` / `WaterPump`. */
  class MockActuator {
    var primed: bool
    var active: bool

    function State(): DeviceState
      reads this
    {
      DeviceState(primed, active)
    }

    /** A new device is neither primed nor active. */
    constructor ()
      ensures !primed && !active
    {
      primed, active := false, false;
    }

    /** `setup` primes the device and leaves `active` alone. */
    method Setup()
      modifies this
      ensures primed && active == old(active)
    {
      primed := true;
    }

    method TurnOn() returns (r: Result<DeviceState, Fault>)
      modifies this
      ensures r == TurnOnStep(old(State()))
      ensures r.Ok? ==> State() == r.value
      ensures r.Err? ==> State() == old(State())
    {
      if !primed {
        return Err(NotPrimed);
      }
      if active {
        return Err(AlreadyActive);
      }
      active := true;
      r := Ok(State());
    }

    method TurnOff() returns (r: Result<DeviceState, Fault>)
      modifies this
      ensures r == TurnOffStep(old(State()))
      ensures r.Ok? ==> State() == r.value
      ensures r.Err? ==> State() == old(State())
    {
      if !primed {
        return Err(NotPrimed);
      }
      if !active {
        return Err(NotActive);
      }
      active := false;
      r := Ok(State());
    }
  }
}
