/**
 * The current weather station: which sensors it uses, the bounded retry
 * reads, the measurement dictionary, how the dashboard shows it and when
 * it is stored.  Each hardware read is an oracle `nat -> Option<real>`,
 * the k-th read returning a number or the driver's None; a driver read
 * that raises is not modelled.
 */
module PeripheralWeatherStation {
  import opened Outcomes
  import opened Readings
  import opened Retries

  /** Which sensor drivers are enabled. */
  datatype SensorSelection = SensorSelection(useDht22: bool, useSht30: bool, useQmp6988: bool)

  const DEFAULT_SELECTION: SensorSelection := SensorSelection(false, true, true)

  /** Default number of retries of a read. */
  const DEFAULT_REPEAT: int := 5

  const TEMPERATURE: string := "temperature"
  const HUMIDITY: string := "humidity"
  const PRESSURE: string := "pressure"
  const KEYS: seq<string> := [TEMPERATURE, HUMIDITY, PRESSURE]

  datatype SensorKind = Dht22 | Sht30 | Qmp6988

  /** A sensor driver object. */
  class Sensor {
    const kind: SensorKind

    constructor (kind: SensorKind)
      ensures this.kind == kind
    {
      this.kind := kind;
    }
  }

  /** The reads of one measurement: the k-th read of each quantity. */
  datatype Oracle = Oracle(temperature: nat -> Option<real>, humidity: nat -> Option<real>, pressure: nat -> Option<real>)

  /** The readings as the `measure` dictionary holds them. */
  type Values = map<string, Option<real>>

  /** What `measure_and_log` returned, and whether it called `Measurement.log`. */
  datatype LogOutcome = LogOutcome(result: Option<Values>, logCalled: bool)

  predicate AnyPresent(m: Values) {
    exists k :: k in m && m[k].Some?
  }

  /** The temperature in Fahrenheit when present and asked for; every other value as it was. */
  function Converted(m: Values, tempUnit: string): (c: Values)
    requires TEMPERATURE in m
    ensures c.Keys == m.Keys
    ensures forall k :: k in m && k != TEMPERATURE ==> c[k] == m[k]
    ensures m[TEMPERATURE].Some? && tempUnit == "F" ==> c[TEMPERATURE] == Some(CToFahrenheit(m[TEMPERATURE].value))
    ensures m[TEMPERATURE].None? || tempUnit != "F" ==> c[TEMPERATURE] == m[TEMPERATURE]
  {
    if m[TEMPERATURE].Some? && tempUnit == "F" then m[TEMPERATURE := Some(CToFahrenheit(m[TEMPERATURE].value))]
    else m
  }

  /** A dictionary value before the presentation loop has visited it. */
  function Raw(v: Option<real>): Shown {
    if v.Some? then Number(v.value) else NoValue
  }

  /** A dictionary value after the loop: "N/A" for None, the rounded number otherwise. */
  function Present(v: Option<real>, rnd: real -> real): (s: Shown)
    ensures s == NotAvailable <==> v.None?
    ensures v.Some? ==> s == Number(rnd(v.value))
  {
    if v.None? then NotAvailable else Number(rnd(v.value))
  }

  /**
   * The loop of `present_measure_or_na` over the dictionary's keys, in
   * place: "N/A" for None, the rounded number otherwise.
   */
  method PresentValues(c: Values, rnd: real -> real) returns (values: map<string, Shown>)
    requires c.Keys == {TEMPERATURE, HUMIDITY, PRESSURE}
    ensures values.Keys == c.Keys
    ensures forall k :: k in values ==> values[k] == Present(c[k], rnd)
  {
    values := map k | k in c :: Raw(c[k]);
    for i := 0 to |KEYS|
      invariant values.Keys == c.Keys
      invariant forall j :: 0 <= j < i ==> values[KEYS[j]] == Present(c[KEYS[j]], rnd)
      invariant forall j :: i <= j < |KEYS| ==> values[KEYS[j]] == Raw(c[KEYS[j]])
    {
      var key := KEYS[i];
      if values[key] == NoValue {
        values := values[key := NotAvailable];
      } else {
        values := values[key := Number(rnd(values[key].value))];
      }
    }
    assert forall k :: k in values ==> k == KEYS[0] || k == KEYS[1] || k == KEYS[2];
  }

  class WeatherStation {
    var temperatureSensor: Option<Sensor>
    var humiditySensor: Option<Sensor>
    var pressureSensor: Option<Sensor>

    /** `__init__`: the sensors of the default selection. */
    constructor ()
      ensures humiditySensor.Some? && humiditySensor.value.kind == Sht30
      ensures pressureSensor.Some? && pressureSensor.value.kind == Qmp6988
      ensures temperatureSensor == humiditySensor
    {
      new;
      InitSensors(DEFAULT_SELECTION);
    }

    /**
     * `init_sensors`: DHT22 before SHT30 for humidity, QMP6988 for
     * pressure, and the humidity sensor object also serves temperature.
     */
    method InitSensors(sel: SensorSelection)
      modifies this
      ensures humiditySensor.Some? <==> sel.useDht22 || sel.useSht30
      ensures humiditySensor.Some? ==> fresh(humiditySensor.value)
                                       && humiditySensor.value.kind == (if sel.useDht22 then Dht22 else Sht30)
      ensures pressureSensor.Some? <==> sel.useQmp6988
      ensures pressureSensor.Some? ==> fresh(pressureSensor.value) && pressureSensor.value.kind == Qmp6988
      ensures temperatureSensor == humiditySensor
    {
      temperatureSensor, humiditySensor, pressureSensor := None, None, None;
      if sel.useDht22 {
        var s := new Sensor(Dht22);
        humiditySensor := Some(s);
      } else if sel.useSht30 {
        var s := new Sensor(Sht30);
        humiditySensor := Some(s);
      }
      if sel.useQmp6988 {
        var s := new Sensor(Qmp6988);
        pressureSensor := Some(s);
      }
      if humiditySensor.Some? {
        temperatureSensor := humiditySensor;
      }
    }

    /** `get_temperature`: no read without a sensor, otherwise the bounded retry. */
    function GetTemperature(read: nat -> Option<real>, repeat: int): (r: Retried<real>)
      reads this
      ensures temperatureSensor.None? ==> r == Retried(None, 0)
      ensures temperatureSensor.Some? ==> 1 <= r.attempts <= Attempts(repeat)
      ensures temperatureSensor.Some? ==> (r.value.None? <==> forall j :: 0 <= j < Attempts(repeat) ==> read(j).None?)
      ensures temperatureSensor.Some? && r.value.Some? ==> r.value == read(r.attempts - 1)
      ensures temperatureSensor.Some? && r.value.Some? ==> forall j :: 0 <= j < r.attempts - 1 ==> read(j).None?
    {
      if temperatureSensor.None? then Retried(None, 0) else Retry(read, repeat)
    }

    /** `get_humidity`: the same retry on the humidity sensor. */
    function GetHumidity(read: nat -> Option<real>, repeat: int): (r: Retried<real>)
      reads this
      ensures humiditySensor.None? ==> r == Retried(None, 0)
      ensures humiditySensor.Some? ==> 1 <= r.attempts <= Attempts(repeat)
      ensures humiditySensor.Some? ==> (r.value.None? <==> forall j :: 0 <= j < Attempts(repeat) ==> read(j).None?)
      ensures humiditySensor.Some? && r.value.Some? ==> r.value == read(r.attempts - 1)
      ensures humiditySensor.Some? && r.value.Some? ==> forall j :: 0 <= j < r.attempts - 1 ==> read(j).None?
    {
      if humiditySensor.None? then Retried(None, 0) else Retry(read, repeat)
    }

    /**
     * `get_pressure` as written: after a failed pressure read the retry
     * goes to `get_humidity`, so a humidity value can come back.
     */
    function GetPressureAsWritten(pressureRead: nat -> Option<real>, humidityRead: nat -> Option<real>, repeat: int): (r: Option<real>)
      reads this
      ensures pressureSensor.None? ==> r == None
      ensures pressureSensor.Some? && pressureRead(0).Some? ==> r == pressureRead(0)
      ensures pressureSensor.Some? && pressureRead(0).None? && repeat <= 0 ==> r == None
      ensures pressureSensor.Some? && pressureRead(0).None? && repeat > 0 ==> r == GetHumidity(humidityRead, repeat - 1).value
    {
      if pressureSensor.None? then None
      else if pressureRead(0).Some? then pressureRead(0)
      else if repeat > 0 then GetHumidity(humidityRead, repeat - 1).value
      else None
    }

    /** `get_pressure` retrying the pressure sensor itself: every value it returns was read from that sensor. */
    function GetPressure(read: nat -> Option<real>, repeat: int): (r: Retried<real>)
      reads this
      ensures pressureSensor.None? ==> r == Retried(None, 0)
      ensures pressureSensor.Some? ==> 1 <= r.attempts <= Attempts(repeat)
      ensures pressureSensor.Some? ==> (r.value.None? <==> forall j :: 0 <= j < Attempts(repeat) ==> read(j).None?)
      ensures pressureSensor.Some? && r.value.Some? ==> r.value == read(r.attempts - 1)
      ensures pressureSensor.Some? && r.value.Some? ==> forall j :: 0 <= j < r.attempts - 1 ==> read(j).None?
    {
      if pressureSensor.None? then Retried(None, 0) else Retry(read, repeat)
    }

    /** `measure`: exactly the three keys, each from its own default retry. */
    function Measure(o: Oracle): (m: Values)
      reads this
      ensures m.Keys == {TEMPERATURE, HUMIDITY, PRESSURE}
      ensures m[TEMPERATURE] == GetTemperature(o.temperature, DEFAULT_REPEAT).value
      ensures m[HUMIDITY] == GetHumidity(o.humidity, DEFAULT_REPEAT).value
      ensures m[PRESSURE] == GetPressure(o.pressure, DEFAULT_REPEAT).value
    {
      map[TEMPERATURE := GetTemperature(o.temperature, DEFAULT_REPEAT).value,
          HUMIDITY := GetHumidity(o.humidity, DEFAULT_REPEAT).value,
          PRESSURE := GetPressure(o.pressure, DEFAULT_REPEAT).value]
    }

    /**
     * `measure` as written: the pressure entry comes from `get_pressure` as
     * written, whose fallback reads the humidity sensor again;
     * `fallbackHumidity` is what those further humidity reads return.
     */
    function MeasureAsWritten(o: Oracle, fallbackHumidity: nat -> Option<real>): (m: Values)
      reads this
      ensures m.Keys == {TEMPERATURE, HUMIDITY, PRESSURE}
      ensures m[TEMPERATURE] == GetTemperature(o.temperature, DEFAULT_REPEAT).value
      ensures m[HUMIDITY] == GetHumidity(o.humidity, DEFAULT_REPEAT).value
      ensures m[PRESSURE] == GetPressureAsWritten(o.pressure, fallbackHumidity, DEFAULT_REPEAT)
    {
      map[TEMPERATURE := GetTemperature(o.temperature, DEFAULT_REPEAT).value,
          HUMIDITY := GetHumidity(o.humidity, DEFAULT_REPEAT).value,
          PRESSURE := GetPressureAsWritten(o.pressure, fallbackHumidity, DEFAULT_REPEAT)]
    }

    /**
     * `present_measure_or_na`: converts a present temperature for "F",
     * then rewrites every value in the dictionary: "N/A" for None, the
     * rounded number otherwise.  `rnd` is `round(·, round_digits)`.
     */
    method PresentMeasureOrNa(o: Oracle, tempUnit: string, rnd: real -> real) returns (values: map<string, Shown>)
      ensures values.Keys == Measure(o).Keys
      ensures forall k :: k in values ==> values[k] == Present(Converted(Measure(o), tempUnit)[k], rnd)
      ensures forall k :: k in values ==> (values[k] == NotAvailable <==> Measure(o)[k].None?)
      ensures Measure(o)[TEMPERATURE].Some? && tempUnit == "F" ==>
                values[TEMPERATURE] == Number(rnd(CToFahrenheit(Measure(o)[TEMPERATURE].value)))
      ensures Measure(o)[TEMPERATURE].Some? && tempUnit != "F" ==>
                values[TEMPERATURE] == Number(rnd(Measure(o)[TEMPERATURE].value))
    {
      var m := Measure(o);
      var c := Converted(m, tempUnit);
      values := PresentValues(c, rnd);
    }

    /**
     * `measure_and_log`: stores a row only when some value is present, and
     * returns None exactly when the store was attempted and reported
     * false.  `logResult` is what `Measurement.log` returns.
     */
    function MeasureAndLog(o: Oracle, logResult: bool): (r: LogOutcome)
      reads this
      ensures r.logCalled <==> AnyPresent(Measure(o))
      ensures r.result.None? <==> r.logCalled && !logResult
      ensures r.result.Some? ==> r.result.value == Measure(o)
    {
      var m := Measure(o);
      if AnyPresent(m) then
        if !logResult then LogOutcome(None, true) else LogOutcome(Some(m), true)
      else LogOutcome(Some(m), false)
    }
  }

  /**
   * With a pressure sensor whose first read fails, `get_pressure` as
   * written returns the humidity sensor's 55.0 as the pressure, while the
   * retry on the pressure sensor reports no pressure at all.
   */
  lemma PressureFallsBackToHumidity(ws: WeatherStation)
    requires ws.pressureSensor.Some? && ws.humiditySensor.Some?
    ensures ws.GetPressureAsWritten((k: nat) => None, (k: nat) => Some(55.0), DEFAULT_REPEAT) == Some(55.0)
    ensures ws.GetPressure((k: nat) => None, DEFAULT_REPEAT).value == None
  {
    var hum := (k: nat) => Some(55.0);
    assert ws.GetHumidity(hum, DEFAULT_REPEAT - 1).value == Some(55.0) by {
      FirstAttemptWins(hum, DEFAULT_REPEAT - 1);
    }
  }

  /**
   * The same fault seen through `measure`: with the pressure sensor
   * silent, the dictionary as written carries the humidity sensor's 55.0
   * under "pressure", where the corrected `Measure` carries None.
   */
  lemma MeasurePressureAsWritten(ws: WeatherStation, o: Oracle)
    requires ws.pressureSensor.Some? && ws.humiditySensor.Some?
    requires forall k :: o.pressure(k) == None
    ensures ws.MeasureAsWritten(o, (k: nat) => Some(55.0))[PRESSURE] == Some(55.0)
    ensures ws.Measure(o)[PRESSURE] == None
  {
    var hum := (k: nat) => Some(55.0);
    assert ws.GetHumidity(hum, DEFAULT_REPEAT - 1).value == Some(55.0) by {
      FirstAttemptWins(hum, DEFAULT_REPEAT - 1);
    }
  }
}
