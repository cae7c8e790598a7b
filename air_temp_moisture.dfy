/**
 * Reading the air temperature and humidity sensor through two sysfs files
 * holding millidegrees and milli-percent. Opening and reading a file is
 * abstracted to its outcome.
 */
module AirSensor {

  /** What reading a sysfs file's first line can come to. */
  datatype ReadOutcome =
    | Parsed(n: int)     // the line is an integer
    | NotAnInteger       // `int()` raised ValueError
    | OsFailure          // opening or reading raised OSError

  /** `readFirstLine`: a success flag and the value, with -1 after a parse error and 0 after an OS error. */
  function ReadFirstLine(outcome: ReadOutcome): (r: (bool, int))
    ensures r.0 <==> outcome.Parsed?
  {
    match outcome
    case Parsed(n) => (true, n)
    case NotAnInteger => (false, -1)
    case OsFailure => (false, 0)
  }

  /** The two failures are told apart by the value alone, and a success carries the parsed integer. */
  lemma ReadFirstLineValues(outcome: ReadOutcome)
    ensures outcome.Parsed? ==> ReadFirstLine(outcome).1 == outcome.n
    ensures !ReadFirstLine(outcome).0 ==> (ReadFirstLine(outcome).1 == -1 <==> outcome.NotAnInteger?)
    ensures outcome.NotAnInteger? ==> ReadFirstLine(outcome) == (false, -1)
    ensures outcome.OsFailure? ==> ReadFirstLine(outcome) == (false, 0)
  {
  }

  /**
   * `read_air_sensor_data`: both values in whole units, by floor division
   * by 1000, when both reads succeed; `(-1, -1)` otherwise. Dafny's `/` by
   * a positive divisor is floor division, as Python's `//` is.
   */
  function ReadAirSensorData(temperature: ReadOutcome, humidity: ReadOutcome): (r: (int, int))
    ensures temperature.Parsed? && humidity.Parsed? ==>
              && r.0 * 1000 <= temperature.n < r.0 * 1000 + 1000
              && r.1 * 1000 <= humidity.n < r.1 * 1000 + 1000
    ensures !(temperature.Parsed? && humidity.Parsed?) ==> r == (-1, -1)
  {
    var (ok1, t) := ReadFirstLine(temperature);
    var (ok2, h) := ReadFirstLine(humidity);
    if ok1 && ok2 then (t / 1000, h / 1000) else (-1, -1)
  }

  /** Below zero the conversion rounds down, not toward zero: -1500 millidegrees is -2 degrees. */
  lemma NegativeTemperatureRoundsDown()
    ensures ReadAirSensorData(Parsed(-1500), Parsed(40000)) == (-2, 40)
    ensures ReadAirSensorData(Parsed(21999), Parsed(55000)) == (21, 55)
  {
  }
}
