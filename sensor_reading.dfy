/**
 * The sensor reading model the plant module publishes: a required timestamp
 * and six optional readings, each with inclusive bounds starting at 0. Unknown
 * fields are ignored. The "timestamp plus at least one reading" rule is schema
 * metadata only and is not checked.
 */
module SensorReading {
  import opened Wrappers
  import opened Json

  datatype SensorReading<T> = SensorReading(
    timestamp: T,
    airQuality: Option<int>,
    light: Option<int>,
    temperature: Option<int>,
    airHumidity: Option<int>,
    soilMoisture: Option<int>,
    waterLevel: Option<real>)

  /** Inclusive upper bounds of the integer readings; every lower bound is 0. */
  const AirQualityMax: int := 1023
  const LightMax: int := 1023
  const TemperatureMax: int := 20
  const AirHumidityMax: int := 100
  const SoilMoistureMax: int := 1023
  const WaterLevelMax: real := 30.0

  /**
   * An optional integer field: absent or null gives no reading, an integral
   * number in [0, hi] gives that reading, anything else fails validation
   * (the outer `None`).
   */
  function OptionalInt(j: Json, key: string, hi: int): (r: Option<Option<int>>)
    requires j.JObj?
    ensures r == Some(None) <==> Get(j, key) == JNull
    ensures r.Some? && r.value.Some? ==> 0 <= r.value.value <= hi && Get(j, key) == JNum(r.value.value as real)
    ensures IsInteger(Get(j, key)) && 0.0 <= Get(j, key).n <= hi as real ==> r == Some(Some(Get(j, key).n.Floor))
    ensures r.None? <==> Get(j, key) != JNull && !(IsInteger(Get(j, key)) && 0.0 <= Get(j, key).n <= hi as real)
  {
    var v := Get(j, key);
    if v == JNull then Some(None)
    else if IsInteger(v) && 0.0 <= v.n <= hi as real then Some(Some(v.n.Floor))
    else None
  }

  /** An optional number field: absent or null, or a number in [0, hi]. */
  function OptionalReal(j: Json, key: string, hi: real): (r: Option<Option<real>>)
    requires j.JObj?
    ensures r == Some(None) <==> Get(j, key) == JNull
    ensures r.Some? && r.value.Some? ==> 0.0 <= r.value.value <= hi && Get(j, key) == JNum(r.value.value)
    ensures Get(j, key).JNum? && 0.0 <= Get(j, key).n <= hi ==> r == Some(Some(Get(j, key).n))
    ensures r.None? <==> Get(j, key) != JNull && !(Get(j, key).JNum? && 0.0 <= Get(j, key).n <= hi)
  {
    var v := Get(j, key);
    if v == JNull then Some(None)
    else if v.JNum? && 0.0 <= v.n <= hi then Some(Some(v.n))
    else None
  }

  /** Whether every present reading of `r` is within its bounds. */
  predicate InBounds<T>(r: SensorReading<T>) {
    && (r.airQuality.Some? ==> 0 <= r.airQuality.value <= AirQualityMax)
    && (r.light.Some? ==> 0 <= r.light.value <= LightMax)
    && (r.temperature.Some? ==> 0 <= r.temperature.value <= TemperatureMax)
    && (r.airHumidity.Some? ==> 0 <= r.airHumidity.value <= AirHumidityMax)
    && (r.soilMoisture.Some? ==> 0 <= r.soilMoisture.value <= SoilMoistureMax)
    && (r.waterLevel.Some? ==> 0.0 <= r.waterLevel.value <= WaterLevelMax)
  }

  /** Whether every sensor field of the object `j` is absent, null or a valid reading. */
  predicate FieldsValid(j: Json)
    requires j.JObj?
  {
    && OptionalInt(j, "air_quality_sensor", AirQualityMax).Some?
    && OptionalInt(j, "light_sensor", LightMax).Some?
    && OptionalInt(j, "temperature_sensor", TemperatureMax).Some?
    && OptionalInt(j, "air_humidity_sensor", AirHumidityMax).Some?
    && OptionalInt(j, "soil_moisture_sensor", SoilMoistureMax).Some?
    && OptionalReal(j, "water_level_sensor", WaterLevelMax).Some?
  }

  /**
   * `SensorReading` validation: an object with a parseable timestamp and
   * readings that are absent, null or within bounds; any other object, and
   * anything that is not an object, is refused. What the caller gets back
   * carries the object's own timestamp and readings, and satisfies the bounds.
   */
  function ParseReading<T>(j: Json, parseTime: Json -> Option<T>): (r: Option<SensorReading<T>>)
    ensures r.Some? <==> j.JObj? && HasKey(j, "timestamp") && parseTime(Get(j, "timestamp")).Some? && FieldsValid(j)
    ensures r.Some? ==> && parseTime(Get(j, "timestamp")) == Some(r.value.timestamp)
                        && Some(r.value.airQuality) == OptionalInt(j, "air_quality_sensor", AirQualityMax)
                        && Some(r.value.light) == OptionalInt(j, "light_sensor", LightMax)
                        && Some(r.value.temperature) == OptionalInt(j, "temperature_sensor", TemperatureMax)
                        && Some(r.value.airHumidity) == OptionalInt(j, "air_humidity_sensor", AirHumidityMax)
                        && Some(r.value.soilMoisture) == OptionalInt(j, "soil_moisture_sensor", SoilMoistureMax)
                        && Some(r.value.waterLevel) == OptionalReal(j, "water_level_sensor", WaterLevelMax)
    ensures r.Some? ==> InBounds(r.value)
  {
    if !j.JObj? || !HasKey(j, "timestamp") then None
    else
      var t := parseTime(Get(j, "timestamp"));
      var aq := OptionalInt(j, "air_quality_sensor", AirQualityMax);
      var li := OptionalInt(j, "light_sensor", LightMax);
      var te := OptionalInt(j, "temperature_sensor", TemperatureMax);
      var hu := OptionalInt(j, "air_humidity_sensor", AirHumidityMax);
      var so := OptionalInt(j, "soil_moisture_sensor", SoilMoistureMax);
      var wl := OptionalReal(j, "water_level_sensor", WaterLevelMax);
      if t.Some? && aq.Some? && li.Some? && te.Some? && hu.Some? && so.Some? && wl.Some?
      then Some(SensorReading(t.value, aq.value, li.value, te.value, hu.value, so.value, wl.value))
      else None
  }

  /**
   * A sensor field outside its bounds, or neither null nor a number of the
   * right kind, makes the whole reading invalid, whatever the other fields.
   */
  lemma OutOfRangeFieldIsRefused<T>(j: Json, parseTime: Json -> Option<T>, key: string, hi: int)
    requires j.JObj?
    requires (key, hi) in {("air_quality_sensor", AirQualityMax), ("light_sensor", LightMax),
                           ("temperature_sensor", TemperatureMax), ("air_humidity_sensor", AirHumidityMax),
                           ("soil_moisture_sensor", SoilMoistureMax)}
    requires Get(j, key) != JNull && !(IsInteger(Get(j, key)) && 0.0 <= Get(j, key).n <= hi as real)
    ensures ParseReading(j, parseTime) == None
  {
    assert OptionalInt(j, key, hi).None?;
  }

  /** The same for the water level, a number within [0, 30]. */
  lemma OutOfRangeWaterLevelIsRefused<T>(j: Json, parseTime: Json -> Option<T>)
    requires j.JObj?
    requires Get(j, "water_level_sensor") != JNull
    requires !(Get(j, "water_level_sensor").JNum? && 0.0 <= Get(j, "water_level_sensor").n <= WaterLevelMax)
    ensures ParseReading(j, parseTime) == None
  {
  }

  /** The field names of the model. */
  const FieldNames: set<string> := {
    "timestamp", "air_quality_sensor", "light_sensor", "temperature_sensor",
    "air_humidity_sensor", "soil_moisture_sensor", "water_level_sensor"
  }

  /** A reading with only a timestamp is valid, with every sensor field empty. */
  lemma TimestampAloneIsValid<T>(ts: Json, parseTime: Json -> Option<T>)
    requires parseTime(ts).Some?
    ensures ParseReading(JObj([("timestamp", ts)]), parseTime)
         == Some(SensorReading(parseTime(ts).value, None, None, None, None, None, None))
  {
    var j := JObj([("timestamp", ts)]);
    assert j.members == Fields(["timestamp"], [Some(ts)]) by {
      assert ["timestamp"][1..] == [] && [Some(ts)][1..] == [];
    }
    FindInFields(["timestamp"], [Some(ts)], "timestamp");
    FindInFields(["timestamp"], [Some(ts)], "air_quality_sensor");
    FindInFields(["timestamp"], [Some(ts)], "light_sensor");
    FindInFields(["timestamp"], [Some(ts)], "temperature_sensor");
    FindInFields(["timestamp"], [Some(ts)], "air_humidity_sensor");
    FindInFields(["timestamp"], [Some(ts)], "soil_moisture_sensor");
    FindInFields(["timestamp"], [Some(ts)], "water_level_sensor");
  }

  /** A field the model does not know is ignored, wherever its value. */
  lemma UnknownFieldIsIgnored<T>(members: seq<(string, Json)>, extra: (string, Json), parseTime: Json -> Option<T>)
    requires extra.0 !in FieldNames
    ensures ParseReading(JObj(members + [extra]), parseTime) == ParseReading(JObj(members), parseTime)
  {
    SameFieldsSameReading(members, members + [extra], parseTime) by {
      FindIgnoresAppendedKey(members, extra, "timestamp");
      FindIgnoresAppendedKey(members, extra, "air_quality_sensor");
      FindIgnoresAppendedKey(members, extra, "light_sensor");
      FindIgnoresAppendedKey(members, extra, "temperature_sensor");
      FindIgnoresAppendedKey(members, extra, "air_humidity_sensor");
      FindIgnoresAppendedKey(members, extra, "soil_moisture_sensor");
      FindIgnoresAppendedKey(members, extra, "water_level_sensor");
    }
  }

  /** Validation looks at nothing but the model's own fields. */
  lemma SameFieldsSameReading<T>(a: seq<(string, Json)>, b: seq<(string, Json)>, parseTime: Json -> Option<T>)
    requires Find(a, "timestamp") == Find(b, "timestamp")
    requires Find(a, "air_quality_sensor") == Find(b, "air_quality_sensor")
    requires Find(a, "light_sensor") == Find(b, "light_sensor")
    requires Find(a, "temperature_sensor") == Find(b, "temperature_sensor")
    requires Find(a, "air_humidity_sensor") == Find(b, "air_humidity_sensor")
    requires Find(a, "soil_moisture_sensor") == Find(b, "soil_moisture_sensor")
    requires Find(a, "water_level_sensor") == Find(b, "water_level_sensor")
    ensures ParseReading(JObj(a), parseTime) == ParseReading(JObj(b), parseTime)
  {
    assert Get(JObj(a), "timestamp") == Get(JObj(b), "timestamp");
    SameFindSameInt(a, b, "air_quality_sensor", AirQualityMax);
    SameFindSameInt(a, b, "light_sensor", LightMax);
    SameFindSameInt(a, b, "temperature_sensor", TemperatureMax);
    SameFindSameInt(a, b, "air_humidity_sensor", AirHumidityMax);
    SameFindSameInt(a, b, "soil_moisture_sensor", SoilMoistureMax);
    assert OptionalReal(JObj(a), "water_level_sensor", WaterLevelMax)
        == OptionalReal(JObj(b), "water_level_sensor", WaterLevelMax);
  }

  lemma SameFindSameInt(a: seq<(string, Json)>, b: seq<(string, Json)>, key: string, hi: int)
    requires Find(a, key) == Find(b, key)
    ensures OptionalInt(JObj(a), key, hi) == OptionalInt(JObj(b), key, hi)
  {
    assert Get(JObj(a), key) == Get(JObj(b), key);
  }

  /** The field names in the order a reading is published. */
  const ReadingKeys: seq<string> := [
    "timestamp", "air_quality_sensor", "light_sensor", "temperature_sensor",
    "air_humidity_sensor", "soil_moisture_sensor", "water_level_sensor"
  ]

  function IntJson(v: Option<int>): Option<Json> {
    if v.Some? then Some(JNum(v.value as real)) else None
  }

  /** The value published under each of `ReadingKeys`, if any. */
  function ReadingValues<T>(r: SensorReading<T>, formatTime: T -> Json): seq<Option<Json>> {
    [Some(formatTime(r.timestamp)), IntJson(r.airQuality), IntJson(r.light),
     IntJson(r.temperature), IntJson(r.airHumidity), IntJson(r.soilMoisture),
     if r.waterLevel.Some? then Some(JNum(r.waterLevel.value)) else None]
  }

  /** The members for `keys` and their values, leaving out the absent ones. */
  function Fields(keys: seq<string>, vals: seq<Option<Json>>): seq<(string, Json)>
    requires |keys| == |vals|
  {
    if keys == [] then []
    else (if vals[0].Some? then [(keys[0], vals[0].value)] else []) + Fields(keys[1..], vals[1..])
  }

  /** The JSON a reading is published as: its present fields only, with `formatTime` writing its timestamp. */
  function ReadingToJson<T>(r: SensorReading<T>, formatTime: T -> Json): Json {
    JObj(Fields(ReadingKeys, ReadingValues(r, formatTime)))
  }

  /** Looking up one of distinct keys finds its value, or nothing when it was left out. */
  lemma {:induction false} FindInFields(keys: seq<string>, vals: seq<Option<Json>>, key: string)
    requires |keys| == |vals|
    requires forall a, b :: 0 <= a < b < |keys| ==> keys[a] != keys[b]
    ensures forall i :: 0 <= i < |keys| && keys[i] == key ==> Find(Fields(keys, vals), key) == vals[i]
    ensures key !in keys ==> Find(Fields(keys, vals), key) == None
  {
    if keys != [] {
      FindInFields(keys[1..], vals[1..], key);
      var rest := Fields(keys[1..], vals[1..]);
      var f := (if vals[0].Some? then [(keys[0], vals[0].value)] else []) + rest;
      assert Fields(keys, vals) == f;
      if key == keys[0] {
        assert key !in keys[1..] by {
          forall k | 0 <= k < |keys[1..]| ensures keys[1..][k] != key {
            assert keys[1..][k] == keys[k + 1];
          }
        }
        if vals[0].Some? {
          assert f[0] == (key, vals[0].value);
        } else {
          assert f == rest;
        }
        forall i | 0 <= i < |keys| && keys[i] == key ensures i == 0 {
        }
      } else {
        if vals[0].Some? {
          assert f[0].0 != key && f[1..] == rest;
        } else {
          assert f == rest;
        }
        assert Find(f, key) == Find(rest, key);
        forall i | 0 <= i < |keys| && keys[i] == key ensures Find(f, key) == vals[i] {
          assert i > 0 && keys[1..][i - 1] == key && vals[1..][i - 1] == vals[i];
        }
        assert key !in keys ==> key !in keys[1..];
      }
    }
  }

  /** A reading within bounds survives a trip through its JSON form when its timestamp does. */
  lemma ReadingRoundTrip<T>(r: SensorReading<T>, formatTime: T -> Json, parseTime: Json -> Option<T>)
    requires InBounds(r)
    requires parseTime(formatTime(r.timestamp)) == Some(r.timestamp)
    ensures ParseReading(ReadingToJson(r, formatTime), parseTime) == Some(r)
  {
    var vals := ReadingValues(r, formatTime);
    var j := ReadingToJson(r, formatTime);
    forall i | 0 <= i < 7 ensures Find(j.members, ReadingKeys[i]) == vals[i] {
      FindInFields(ReadingKeys, vals, ReadingKeys[i]);
    }
    assert Get(j, "timestamp") == formatTime(r.timestamp) by { assert ReadingKeys[0] == "timestamp"; }
    assert OptionalInt(j, "air_quality_sensor", AirQualityMax) == Some(r.airQuality) by {
      assert ReadingKeys[1] == "air_quality_sensor";
    }
    assert OptionalInt(j, "light_sensor", LightMax) == Some(r.light) by {
      assert ReadingKeys[2] == "light_sensor";
    }
    assert OptionalInt(j, "temperature_sensor", TemperatureMax) == Some(r.temperature) by {
      assert ReadingKeys[3] == "temperature_sensor";
    }
    assert OptionalInt(j, "air_humidity_sensor", AirHumidityMax) == Some(r.airHumidity) by {
      assert ReadingKeys[4] == "air_humidity_sensor";
    }
    assert OptionalInt(j, "soil_moisture_sensor", SoilMoistureMax) == Some(r.soilMoisture) by {
      assert ReadingKeys[5] == "soil_moisture_sensor";
    }
    assert OptionalReal(j, "water_level_sensor", WaterLevelMax) == Some(r.waterLevel) by {
      assert ReadingKeys[6] == "water_level_sensor";
    }
  }
}
