/**
 * The older weather station: one DHT22 on a GPIO pin, a whole-pair retry
 * with rounding, and its own background logging thread.  Each read is an
 * oracle `nat -> Reading`, the k-th attempt's value, driver None or
 * exception; rounding to one decimal is the parameter `rnd`.
 */
module LegacyWeatherStation {
  import opened Outcomes
  import opened Readings
  import opened Retries

  const LOGGING_INTERVAL_SEC: int := 30
  const LOG_WEATHER_IN_BACKGROUND: bool := true
  const DEFAULT_REPEAT: int := 5

  const TEMPERATURE: string := "temperature"
  const HUMIDITY: string := "humidity"

  /** A GPIO pin number (`board.D4` is 4). */
  type Pin = nat

  const DEFAULT_PIN: Pin := 4

  /** A successful measurement, rounded. */
  datatype TempHum = TempHum(temperature: real, humidity: real)

  /** What `measure_and_log` returned, and whether it called `Measurement.log`. */
  datatype LogOutcome = LogOutcome(result: Option<TempHum>, logCalled: bool)

  /** `get_temperature` / `get_humidity`: an exception becomes None. */
  function ReadOrNone(r: Reading): (v: Option<real>)
    ensures v.Some? <==> r.Value?
    ensures v.Some? ==> v.value == r.v
  {
    if r.Value? then Some(r.v) else None
  }

  /** One attempt of `measure`: both readings present, rounded; otherwise a failed attempt. */
  function PairAttempt(t: Reading, h: Reading, rnd: real -> real): (a: Option<TempHum>)
    ensures a.Some? <==> t.Value? && h.Value?
    ensures a.Some? ==> a.value == TempHum(rnd(t.v), rnd(h.v))
  {
    var temperature, humidity := ReadOrNone(t), ReadOrNone(h);
    if temperature.Some? && humidity.Some? then Some(TempHum(rnd(temperature.value), rnd(humidity.value)))
    else None
  }

  /** `measure`: retries the whole pair until both reads succeed or the repeats run out. */
  function Measure(t: nat -> Reading, h: nat -> Reading, rnd: real -> real, repeat: int): (r: Option<TempHum>)
    ensures r.None? <==> forall j :: 0 <= j < Attempts(repeat) ==> !(t(j).Value? && h(j).Value?)
    ensures r.Some? ==> exists j :: 0 <= j < Attempts(repeat) && t(j).Value? && h(j).Value?
                                    && r.value == TempHum(rnd(t(j).v), rnd(h(j).v))
                                    && forall i :: 0 <= i < j ==> !(t(i).Value? && h(i).Value?)
  {
    var attempt := (k: nat) => PairAttempt(t(k), h(k), rnd);
    var x := Retry(attempt, repeat);
    assert forall j :: attempt(j).None? <==> !(t(j).Value? && h(j).Value?);
    if x.value.Some? then
      assert 0 <= x.attempts - 1 < Attempts(repeat);
      x.value
    else x.value
  }

  /**
   * `measure_or_na`: both fields "N/A" when `measure` failed; otherwise
   * the rounded values, the temperature converted for "F".
   */
  function MeasureOrNa(t: nat -> Reading, h: nat -> Reading, rnd: real -> real, tempUnit: string): (m: map<string, Shown>)
    ensures m.Keys == {TEMPERATURE, HUMIDITY}
    ensures Measure(t, h, rnd, DEFAULT_REPEAT).None? ==> m[TEMPERATURE] == NotAvailable && m[HUMIDITY] == NotAvailable
    ensures Measure(t, h, rnd, DEFAULT_REPEAT).Some? ==>
              var v := Measure(t, h, rnd, DEFAULT_REPEAT).value;
              && m[HUMIDITY] == Number(v.humidity)
              && m[TEMPERATURE] == Number(if tempUnit == "F" then CToFahrenheit(v.temperature) else v.temperature)
  {
    match Measure(t, h, rnd, DEFAULT_REPEAT)
    case None => map[TEMPERATURE := NotAvailable, HUMIDITY := NotAvailable]
    case Some(v) =>
      var values := map[TEMPERATURE := Number(v.temperature), HUMIDITY := Number(v.humidity)];
      if tempUnit == "F" then values[TEMPERATURE := Number(CToFahrenheit(v.temperature))] else values
  }

  /** `measure_and_log`: logs only a successful measurement; None exactly when the log reported false. */
  function MeasureAndLog(t: nat -> Reading, h: nat -> Reading, rnd: real -> real, logResult: bool): (r: LogOutcome)
    ensures r.logCalled <==> Measure(t, h, rnd, DEFAULT_REPEAT).Some?
    ensures r.result.None? <==> Measure(t, h, rnd, DEFAULT_REPEAT).None? || !logResult
    ensures r.result.Some? ==> r.result == Measure(t, h, rnd, DEFAULT_REPEAT)
  {
    var values := Measure(t, h, rnd, DEFAULT_REPEAT);
    if values.Some? then
      if !logResult then LogOutcome(None, true) else LogOutcome(values, true)
    else LogOutcome(values, false)
  }

  /** Inputs of one logging-loop pass: the reads, the rounding and the log result. */
  datatype LoopInputs = LoopInputs(t: nat -> Reading, h: nat -> Reading, rnd: real -> real, logResult: bool)

  /** One pass of the logging loop: what was stored, then how long the thread waited. */
  datatype Iteration = Iteration(logged: LogOutcome, waited: int)

  class WeatherStation {
    var pin: Pin
    /** The pin the DHT22 object was built on; `set_pin` does not rebuild it. */
    const sensorPin: Pin
    var logInBackground: bool
    var loggingInterval: int
    var thread: Option<nat>
    var threadsStarted: nat
    var stopEventSet: bool
    /** Logging threads started and not yet joined. */
    ghost var running: set<nat>

    ghost predicate Valid()
      reads this
    {
      && running == (if thread.Some? then {thread.value} else {})
      && (thread.Some? ==> thread.value < threadsStarted)
    }

    /** `__init__`: the pin, the sensor on it, then by default logging every 30 s. */
    constructor (pin: Pin)
      ensures Valid() && this.pin == pin && sensorPin == pin
      ensures logInBackground == LOG_WEATHER_IN_BACKGROUND && loggingInterval == LOGGING_INTERVAL_SEC
      ensures IsLogging() && thread == Some(0) && threadsStarted == 1 && !stopEventSet
    {
      this.pin := pin;
      sensorPin := pin;
      logInBackground := false;
      loggingInterval := 0;
      thread := None;
      threadsStarted := 0;
      stopEventSet := false;
      running := {};
      new;
      ApplyLoggingConfig();
    }

    /** `set_pin`: stores the pin; the chained call returns the same object. */
    method SetPin(p: Pin) returns (self: WeatherStation)
      modifies this`pin
      ensures pin == p && self == this
    {
      pin := p;
      self := this;
    }

    predicate IsLogging()
      reads this
    {
      thread.Some?
    }

    /** `apply_logging_config`: the defaults, starting (or restarting) the logger when enabled. */
    method ApplyLoggingConfig()
      requires Valid()
      modifies this`logInBackground, this`loggingInterval, this`thread, this`threadsStarted, this`stopEventSet, this`running
      ensures Valid() && logInBackground == LOG_WEATHER_IN_BACKGROUND && loggingInterval == LOGGING_INTERVAL_SEC
      ensures IsLogging() && thread == Some(old(threadsStarted)) && threadsStarted == old(threadsStarted) + 1 && !stopEventSet
    {
      logInBackground := LOG_WEATHER_IN_BACKGROUND;
      loggingInterval := LOGGING_INTERVAL_SEC;
      if logInBackground {
        StartLogging();
      }
    }

    /** `set_log_in_background`: afterwards logging runs exactly when asked to. */
    method SetLogInBackground(enable: bool)
      requires Valid()
      modifies this`logInBackground, this`thread, this`threadsStarted, this`stopEventSet, this`running
      ensures Valid() && logInBackground == enable && IsLogging() == enable
      ensures enable ==> thread == Some(old(threadsStarted)) && threadsStarted == old(threadsStarted) + 1 && !stopEventSet
      ensures !enable ==> threadsStarted == old(threadsStarted)
    {
      logInBackground := enable;
      if enable {
        StartLogging();
      } else {
        StopLogging();
      }
    }

    /** `set_logging_interval`: stores the interval and restarts only a running logger. */
    method SetLoggingInterval(seconds: int)
      requires Valid()
      modifies this`loggingInterval, this`thread, this`threadsStarted, this`stopEventSet, this`running
      ensures Valid() && loggingInterval == seconds && IsLogging() == old(IsLogging())
      ensures old(IsLogging()) ==> thread == Some(old(threadsStarted)) && threadsStarted == old(threadsStarted) + 1 && !stopEventSet
      ensures !old(IsLogging()) ==> thread == old(thread) && threadsStarted == old(threadsStarted) && stopEventSet == old(stopEventSet)
    {
      loggingInterval := seconds;
      if IsLogging() {
        StartLogging();
      }
    }

    /** `start_logging`: a running logger is stopped first, so there is at most one. */
    method StartLogging()
      requires Valid()
      modifies this`thread, this`threadsStarted, this`stopEventSet, this`running
      ensures Valid() && IsLogging() && !stopEventSet
      ensures thread == Some(old(threadsStarted)) && threadsStarted == old(threadsStarted) + 1
      ensures running == {old(threadsStarted)}
    {
      if IsLogging() {
        StopLogging();
      }
      thread := Some(threadsStarted);
      running := running + {threadsStarted};
      threadsStarted := threadsStarted + 1;
      stopEventSet := false;
    }

    /** `stop_logging`: only reports when idle; otherwise signals and joins the thread. */
    method StopLogging()
      requires Valid()
      modifies this`thread, this`stopEventSet, this`running
      ensures Valid() && !IsLogging() && running == {}
      ensures old(!IsLogging()) ==> unchanged(this)
      ensures old(IsLogging()) ==> stopEventSet
    {
      if IsLogging() {
        stopEventSet := true;
        running := running - {thread.value};
        thread := None;
      }
    }

    /**
     * The logging thread's loop: each pass measures and logs, then waits
     * the interval; the stop event ends the last wait.  A new interval
     * restarts the thread (`SetLoggingInterval`), so within one run the
     * wait is the same `loggingInterval` in every pass.
     */
    method Logger(passes: seq<LoopInputs>) returns (trace: seq<Iteration>)
      ensures |trace| == |passes|
      ensures forall i :: 0 <= i < |trace| ==>
                trace[i] == Iteration(MeasureAndLog(passes[i].t, passes[i].h, passes[i].rnd, passes[i].logResult), loggingInterval)
    {
      trace := [];
      for i := 0 to |passes|
        invariant |trace| == i
        invariant forall j :: 0 <= j < i ==>
                    trace[j] == Iteration(MeasureAndLog(passes[j].t, passes[j].h, passes[j].rnd, passes[j].logResult), loggingInterval)
      {
        var p := passes[i];
        var logged := MeasureAndLog(p.t, p.h, p.rnd, p.logResult);
        var interval := loggingInterval;
        trace := trace + [Iteration(logged, interval)];
      }
    }
  }
}
