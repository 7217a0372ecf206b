/**
 * The oldest DHT22 wrapper: a pin and a temperature unit set through
 * chained setters, the read in the chosen unit, and a measurement that
 * reports "N/A" when anything raises.
 */
module Sensor {
  import opened Outcomes
  import opened Readings

  type Pin = nat

  const TEMPERATURE: string := "temperature"
  const HUMIDITY: string := "humidity"
  const INVALID_UNIT: string := "Invalid unit. Use 'C' for Celsius or 'F' for Fahrenheit."

  /** The private unit attribute's name after Python's name mangling. */
  const TEMP_UNIT_ATTRIBUTE: string := "_Sensor__temp_unit"

  predicate ValidUnit(unit: string) {
    unit == "C" || unit == "F"
  }

  class Sensor {
    var pin: Pin
    /** None while the attribute has never been set. */
    var tempUnit: Option<string>

    ghost predicate Valid()
      reads this
    {
      tempUnit.Some? ==> ValidUnit(tempUnit.value)
    }

    /** `__init__`: `set_pin(pin).set_temp_unit(temp_unit)`; an invalid unit leaves the attribute unset. */
    constructor (pin: Pin, tempUnit: string)
      ensures Valid() && this.pin == pin
      ensures this.tempUnit == (if ValidUnit(tempUnit) then Some(tempUnit) else None)
    {
      this.tempUnit := None;
      this.pin := 0;
      new;
      var self := SetPin(pin);
      self := self.SetTempUnit(tempUnit);
    }

    /** `set_pin`: stores the pin and returns the same object. */
    method SetPin(p: Pin) returns (self: Sensor)
      modifies this`pin
      ensures pin == p && self == this
    {
      pin := p;
      self := this;
    }

    /** `set_temp_unit`: accepts only "C" and "F"; anything else leaves the unit as it was. */
    method SetTempUnit(unit: string) returns (self: Sensor)
      requires Valid()
      modifies this`tempUnit
      ensures Valid() && self == this
      ensures ValidUnit(unit) ==> tempUnit == Some(unit)
      ensures !ValidUnit(unit) ==> tempUnit == old(tempUnit)
    {
      if ValidUnit(unit) {
        tempUnit := Some(unit);
      }
      self := this;
    }

    /**
     * `get_temperature`: the device is read first; then the raw Celsius
     * value for "C", value * 9/5 + 32 for "F" (a driver None cannot be
     * converted), and AttributeError while no unit was ever set.
     */
    function GetTemperature(reading: Reading): (r: Result<Option<real>>)
      reads this
      ensures reading.Raises? ==> r == Failure(DeviceError)
      ensures !reading.Raises? && tempUnit.None? ==> r == Failure(AttributeError(TEMP_UNIT_ATTRIBUTE))
      ensures !reading.Raises? && tempUnit == Some("C") ==> r == Success(if reading.Value? then Some(reading.v) else None)
      ensures tempUnit == Some("F") && reading.Value? ==> r == Success(Some(CToFahrenheit(reading.v)))
      ensures tempUnit == Some("F") && reading.Missing? ==> r == Failure(TypeError)
      ensures tempUnit.Some? && !ValidUnit(tempUnit.value) && !reading.Raises? ==> r == Failure(ValueError(INVALID_UNIT))
    {
      if reading.Raises? then Failure(DeviceError)
      else if tempUnit.None? then Failure(AttributeError(TEMP_UNIT_ATTRIBUTE))
      else if tempUnit.value == "C" then Success(if reading.Value? then Some(reading.v) else None)
      else if tempUnit.value == "F" then
        if reading.Value? then Success(Some(reading.v * (9.0 / 5.0) + 32.0)) else Failure(TypeError)
      else Failure(ValueError(INVALID_UNIT))
    }

    /** `get_humidity`: the device's value, or the exception it raises. */
    function GetHumidity(reading: Reading): (r: Result<Option<real>>)
      ensures r.Failure? <==> reading.Raises?
      ensures reading.Value? ==> r == Success(Some(reading.v))
      ensures reading.Missing? ==> r == Success(None)
    {
      if reading.Raises? then Failure(DeviceError)
      else if reading.Value? then Success(Some(reading.v)) else Success(None)
    }

    /** `measure`: both values when both reads succeed; both "N/A" if either raises. */
    function Measure(t: Reading, h: Reading): (m: map<string, Shown>)
      reads this
      ensures m.Keys == {TEMPERATURE, HUMIDITY}
      ensures GetTemperature(t).Failure? || GetHumidity(h).Failure? <==>
                m[TEMPERATURE] == NotAvailable && m[HUMIDITY] == NotAvailable
      ensures GetTemperature(t).Success? && GetHumidity(h).Success? ==>
                && m[TEMPERATURE] == Show(GetTemperature(t).value)
                && m[HUMIDITY] == Show(GetHumidity(h).value)
    {
      var temperature := GetTemperature(t);
      var humidity := GetHumidity(h);
      if temperature.Failure? || humidity.Failure? then
        map[TEMPERATURE := NotAvailable, HUMIDITY := NotAvailable]
      else
        map[TEMPERATURE := Show(temperature.value), HUMIDITY := Show(humidity.value)]
    }
  }

  /** A dictionary value from a successful read: the number, or None. */
  function Show(v: Option<real>): (s: Shown)
    ensures s != NotAvailable
  {
    if v.Some? then Number(v.value) else NoValue
  }

  /** A sensor configured in Fahrenheit reports exactly the converted Celsius reading. */
  lemma FahrenheitReading(s: Sensor, c: real)
    requires s.tempUnit == Some("F")
    ensures s.GetTemperature(Value(c)) == Success(Some(CToFahrenheit(c)))
    ensures FToCelsius(s.GetTemperature(Value(c)).value.value) == c
  {
    ConversionsInverse(c);
  }
}
