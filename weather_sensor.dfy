/**
 * The first DHT22 wrapper: a retry on exceptions that keeps raw values,
 * the "N/A" presentation, and storing a row through a database session.
 * Each read is an oracle `nat -> Reading`, the k-th attempt's outcome.
 */
module WeatherSensor {
  import opened Outcomes
  import opened Readings
  import opened Retries

  const DEFAULT_REPEAT: int := 5
  const TEMPERATURE: string := "temperature"
  const HUMIDITY: string := "humidity"

  type Pin = nat

  /** The dictionary `measure` returns: each value a number or the driver's None. */
  datatype RawPair = RawPair(temperature: Option<real>, humidity: Option<real>)

  /** What `measure_and_log` returned, and whether a commit was attempted. */
  datatype LogOutcome = LogOutcome(result: Option<RawPair>, committed: bool)

  /** A driver read that did not raise, as `get_temperature` / `get_humidity` return it. */
  function Value(r: Reading): Option<real>
    requires !r.Raises?
  {
    if r.Value? then Some(r.v) else None
  }

  /** One attempt of `measure`: fails only when a read raises. */
  function PairAttempt(t: Reading, h: Reading): (a: Option<RawPair>)
    ensures a.Some? <==> !t.Raises? && !h.Raises?
  {
    if t.Raises? || h.Raises? then None else Some(RawPair(Value(t), Value(h)))
  }

  /**
   * `measure`: the raw, unrounded pair from the first attempt in which
   * neither read raises; None when every attempt raised.
   */
  function Measure(t: nat -> Reading, h: nat -> Reading, repeat: int): (r: Option<RawPair>)
    ensures r.None? <==> forall j :: 0 <= j < Attempts(repeat) ==> t(j).Raises? || h(j).Raises?
    ensures r.Some? ==> exists j :: 0 <= j < Attempts(repeat) && !t(j).Raises? && !h(j).Raises?
                                    && r.value == RawPair(Value(t(j)), Value(h(j)))
                                    && forall i :: 0 <= i < j ==> t(i).Raises? || h(i).Raises?
  {
    var attempt := (k: nat) => PairAttempt(t(k), h(k));
    var x := Retry(attempt, repeat);
    assert forall j :: attempt(j).None? <==> t(j).Raises? || h(j).Raises?;
    if x.value.Some? then
      assert 0 <= x.attempts - 1 < Attempts(repeat);
      x.value
    else x.value
  }

  function ShowRaw(v: Option<real>): Shown {
    if v.Some? then Number(v.value) else NoValue
  }

  /**
   * `measure_or_na`: both fields "N/A" when `measure` failed; otherwise the
   * raw values, the temperature converted for "F" -- which raises
   * TypeError when that temperature is the driver's None.
   */
  function MeasureOrNa(t: nat -> Reading, h: nat -> Reading, tempUnit: string): (r: Result<map<string, Shown>>)
    ensures r.Failure? <==> tempUnit == "F" && Measure(t, h, DEFAULT_REPEAT).Some? && Measure(t, h, DEFAULT_REPEAT).value.temperature.None?
    ensures r.Failure? ==> r.error == TypeError
    ensures r.Success? ==> r.value.Keys == {TEMPERATURE, HUMIDITY}
    ensures r.Success? && Measure(t, h, DEFAULT_REPEAT).None? ==>
              r.value[TEMPERATURE] == NotAvailable && r.value[HUMIDITY] == NotAvailable
    ensures r.Success? && Measure(t, h, DEFAULT_REPEAT).Some? ==>
              var v := Measure(t, h, DEFAULT_REPEAT).value;
              && r.value[HUMIDITY] == ShowRaw(v.humidity)
              && r.value[TEMPERATURE] == (if tempUnit == "F" then Number(CToFahrenheit(v.temperature.value)) else ShowRaw(v.temperature))
  {
    match Measure(t, h, DEFAULT_REPEAT)
    case None => Success(map[TEMPERATURE := NotAvailable, HUMIDITY := NotAvailable])
    case Some(v) =>
      var values := map[TEMPERATURE := ShowRaw(v.temperature), HUMIDITY := ShowRaw(v.humidity)];
      if tempUnit != "F" then Success(values)
      else if v.temperature.None? then Failure(TypeError)
      else Success(values[TEMPERATURE := Number(CToFahrenheit(v.temperature.value))])
  }

  /**
   * `measure_and_log`: adds and commits a row only after a successful
   * `measure`; a failed commit (rolled back) makes the result None.
   * `commitOk` is whether `db.session.commit()` succeeds.
   */
  function MeasureAndLog(t: nat -> Reading, h: nat -> Reading, commitOk: bool): (r: LogOutcome)
    ensures r.committed <==> Measure(t, h, DEFAULT_REPEAT).Some?
    ensures r.result.None? <==> Measure(t, h, DEFAULT_REPEAT).None? || !commitOk
    ensures r.result.Some? ==> r.result == Measure(t, h, DEFAULT_REPEAT)
  {
    var values := Measure(t, h, DEFAULT_REPEAT);
    if values.Some? then
      if commitOk then LogOutcome(values, true) else LogOutcome(None, true)
    else LogOutcome(values, false)
  }

  /**
   * `f_to_celsius` is a static method that still declares `self`, so it
   * needs two arguments and ignores the first; with one it raises
   * TypeError.
   */
  function FToCelsiusCall(args: seq<real>): (r: Result<real>)
    ensures r.Success? <==> |args| == 2
    ensures |args| == 2 ==> r.value * 9.0 / 5.0 == args[1] - 32.0
  {
    if |args| == 2 then Success(FToCelsius(args[1])) else Failure(TypeError)
  }

  /** `c_to_fahrenheit` takes one argument; `f_to_celsius` undoes it only when given a dummy first argument. */
  lemma ConversionCallShapes(c: real, dummy: real)
    ensures FToCelsiusCall([CToFahrenheit(c)]) == Failure(TypeError)
    ensures FToCelsiusCall([dummy, CToFahrenheit(c)]) == Success(c)
  {
    ConversionsInverse(c);
  }

  class WeatherSensor {
    var pin: Pin

    /** `__init__`: the pin, through `set_pin`. */
    constructor (pin: Pin)
      ensures this.pin == pin
    {
      this.pin := pin;
    }

    /** `set_pin`: stores the pin and returns the same object. */
    method SetPin(p: Pin) returns (self: WeatherSensor)
      modifies this`pin
      ensures pin == p && self == this
    {
      pin := p;
      self := this;
    }
  }
}
